/**
 * `CachedRequestService`: the six request operations in front of a key-value
 * cache. Each operation fetches the raw payload under a key derived from the
 * method name and the query parameters (populating the cache from the underlying
 * service on a miss), then either hands the payload back or parses it, deleting
 * the key when the cached payload cannot be parsed.
 *
 * The underlying service and the cache backend's key validation are parameters;
 * the clock is the `now` argument, in seconds.
 */
module CachedRequest {
  import opened Wrappers
  import opened Errors
  import opened Php
  import opened CurrencyCodes
  import opened Query
  import opened Replies
  import RatesResponse
  import TimeSeriesRatesResponse
  import FluctuationRatesResponse
  import ConvertCurrencyResponse
  import ValueAddedTaxRatesResponse

  const CacheExpirationTimeInSeconds: int := 1

  /** The name `getCachedResponse` reports failures under. */
  const CachedResponseMethod: string := "getCachedResponse"

  const ResponseNamespace: string := "Wiesner\\Currency\\Service\\Request\\Response\\"

  datatype Operation = Latest | Historical | TimeSeries | Fluctuation | Convert | ValueAddedTax
  {
    /** `__FUNCTION__` of the operation: the underlying method called and the start of the cache key. */
    function MethodName(): string
    {
      match this
      case Latest => "getLatestRates"
      case Historical => "getHistoricalRates"
      case TimeSeries => "getTimeSeriesRates"
      case Fluctuation => "getFluctuationRates"
      case Convert => "getConvertCurrency"
      case ValueAddedTax => "getValueAddedTaxRates"
    }

    /** The `::class` name a parse failure is reported under. */
    function ObjectClass(): string
    {
      match this
      case Latest => ResponseNamespace + "Rates"
      case Historical => ResponseNamespace + "Rates"
      case TimeSeries => ResponseNamespace + "TimeSeriesRates"
      case Fluctuation => ResponseNamespace + "FluctuationRates"
      case Convert => ResponseNamespace + "ConvertCurrency"
      case ValueAddedTax => ResponseNamespace + "ValueAddedTaxRates"
    }
  }

  /** An argument passed on to the underlying service. */
  datatype Arg = DateArg(date: Date) | CurrencyArg(code: CurrencyCode) | ParamsArg(params: Params) | FlagArg(flag: bool)

  /** One call of the underlying service: `$this->requestService->$method(...$args)`. */
  datatype Call = Call(methodName: string, args: seq<Arg>)

  /** A cached payload and the second from which it is stale. */
  datatype Entry = Entry(data: Json, expiresAt: int)

  /** What `getCachedResponse` returns: `['key' => $key, 'data' => $data]`. */
  datatype CachedResponse = CachedResponse(key: string, data: Json)
  {
    /** The pair as the PHP array it is. */
    function AsJson(): Json
    {
      JObject([("key", JString(key)), ("data", data)])
    }
  }

  /** The observable state: the cache, the underlying calls made so far, and the keys whose deletion only warned. */
  datatype ServiceState = ServiceState(cache: map<string, Entry>, calls: seq<Call>, warnings: seq<string>)

  /** The result of `getCachedResponse` and the state after it. */
  datatype Fetch = Fetch(response: Result<CachedResponse, Error>, state: ServiceState)

  /** The underlying service: answers a call with a decoded payload or throws. */
  type Service = Call -> Result<Json, Cause>

  /** The cache key: `encode` of the parameters with the method name as prefix. */
  function CacheKey(methodName: string, ps: Params): string
  {
    methodName + Suffix(ps)
  }

  predicate IsHit(cache: map<string, Entry>, key: string, now: int)
  {
    key in cache && now < cache[key].expiresAt
  }

  /** The arguments forwarded on a miss: the operation's own, then the parameters, then `rawResponse = true`. */
  function ForwardedArgs(leading: seq<Arg>, ps: Params): seq<Arg>
  {
    leading + [ParamsArg(ps), FlagArg(true)]
  }

  /**
   * `getCachedResponse`: fail unless the last argument is a QueryParameters and its
   * key is one the cache accepts; answer a fresh entry from the cache; otherwise
   * call the underlying service and store what it answers for one second.
   */
  function Fetched(st: ServiceState, service: Service, acceptsKey: string -> bool, methodName: string,
                   leading: seq<Arg>, parameters: Option<Params>, now: int): Fetch
  {
    match parameters
    case None => Fetch(Failure(ServiceException(CachedResponseMethod)), st)
    case Some(ps) =>
      var key := CacheKey(methodName, ps);
      if !acceptsKey(key) then Fetch(Failure(ServiceException(CachedResponseMethod)), st)
      else if IsHit(st.cache, key, now) then Fetch(Success(CachedResponse(key, st.cache[key].data)), st)
      else
        var call := Call(methodName, ForwardedArgs(leading, ps));
        var calls := st.calls + [call];
        match service(call)
        case Failure(_) => Fetch(Failure(ServiceException(CachedResponseMethod)), st.(calls := calls))
        case Success(data) =>
          var entry := Entry(data, now + CacheExpirationTimeInSeconds);
          Fetch(Success(CachedResponse(key, data)), ServiceState(st.cache[key := entry], calls, st.warnings))
  }

  /** `deleteKeyFromCache`: remove the key, or only record a warning when the cache rejects it. */
  function Deleted(st: ServiceState, acceptsKey: string -> bool, key: string): ServiceState
  {
    if acceptsKey(key) then st.(cache := st.cache - {key})
    else st.(warnings := st.warnings + [key])
  }

  /**
   * Does the operation hand back the raw payload? `true === $rawResponse` for five
   * operations; the VAT operation tests `null === $rawResponse`, which no bool meets.
   */
  predicate RawRequested(op: Operation, rawResponse: bool)
  {
    if op == ValueAddedTax then false else rawResponse == true
  }

  /** The raw form returned: the cached data, or for fluctuation and convert the whole `{key, data}` pair. */
  function RawPayload(op: Operation, cached: CachedResponse): Json
  {
    if op == Fluctuation || op == Convert then cached.AsJson() else cached.data
  }

  /**
   * The raw-or-parse branch after a successful fetch, deleting the key when parsing
   * fails. The parse is the aggregate's `createFromResponse` logic; the PHP methods
   * called here (`createFromArray`, `createFromArrayAndCurrency`) are not defined.
   */
  function Respond<A>(f: Fetch, acceptsKey: string -> bool, op: Operation, rawResponse: bool,
                      parse: Json -> Result<A, Error>): (Result<Reply<A>, Error>, ServiceState)
  {
    match f.response
    case Failure(e) => (Failure(e), f.state)
    case Success(cached) =>
      if RawRequested(op, rawResponse) then (Success(Raw(RawPayload(op, cached))), f.state)
      else match parse(cached.data)
        case Success(v) => (Success(Parsed(v)), f.state)
        case Failure(_) => (Failure(ResponseException(op.ObjectClass())), Deleted(f.state, acceptsKey, cached.key))
  }

  /**
   * One whole operation: fetch, then answer raw or parsed. Without parameters it
   * fails and changes nothing; otherwise it makes at most one underlying call, with
   * the parameters and `rawResponse = true` appended, touches no cache entry but its
   * own key, fails only with the two RequestServiceExceptions, and never warns.
   */
  function Serve<A>(st: ServiceState, service: Service, acceptsKey: string -> bool, op: Operation, leading: seq<Arg>,
                    parameters: Option<Params>, rawResponse: bool, parse: Json -> Result<A, Error>, now: int)
    : (r: (Result<Reply<A>, Error>, ServiceState))
    ensures parameters.None? ==> r == (Failure(ServiceException(CachedResponseMethod)), st)
    ensures parameters.Some? ==>
              || r.1.calls == st.calls
              || r.1.calls == st.calls + [Call(op.MethodName(), ForwardedArgs(leading, parameters.value))]
    ensures parameters.Some? ==>
              forall k :: k != CacheKey(op.MethodName(), parameters.value) ==>
                (k in r.1.cache <==> k in st.cache) && (k in st.cache ==> r.1.cache[k] == st.cache[k])
    ensures r.0.Failure? ==> r.0.error == ServiceException(CachedResponseMethod) || r.0.error == ResponseException(op.ObjectClass())
    ensures r.1.warnings == st.warnings
  {
    Respond(Fetched(st, service, acceptsKey, op.MethodName(), leading, parameters, now), acceptsKey, op, rawResponse, parse)
  }

  /** The key a call's result is cached under: its method name and the parameters before the trailing flag. */
  function CallKey(call: Call): Option<string>
  {
    if |call.args| >= 2 && call.args[|call.args| - 2].ParamsArg? then
      Some(CacheKey(call.methodName, call.args[|call.args| - 2].params))
    else None
  }

  /** Some logged call, cached under key, was answered with data. */
  ghost predicate Produced(calls: seq<Call>, service: Service, key: string, data: Json)
  {
    exists i :: 0 <= i < |calls| && service(calls[i]) == Success(data) && CallKey(calls[i]) == Some(key)
  }

  /** Every cached payload is what the underlying service answered to a logged call for that key. */
  ghost predicate Coherent(st: ServiceState, service: Service)
  {
    forall key :: key in st.cache ==> Produced(st.calls, service, key, st.cache[key].data)
  }

  lemma ProducedByPrefix(calls: seq<Call>, more: seq<Call>, service: Service, key: string, data: Json)
    requires Produced(calls, service, key, data)
    ensures Produced(calls + more, service, key, data)
  {
    var i :| 0 <= i < |calls| && service(calls[i]) == Success(data) && CallKey(calls[i]) == Some(key);
    assert (calls + more)[i] == calls[i];
  }

  /** Fetching keeps every cached payload traceable to the underlying call that produced it. */
  lemma FetchedKeepsCoherent(st: ServiceState, service: Service, acceptsKey: string -> bool, methodName: string,
                             leading: seq<Arg>, parameters: Option<Params>, now: int)
    requires Coherent(st, service)
    ensures Coherent(Fetched(st, service, acceptsKey, methodName, leading, parameters, now).state, service)
  {
    if parameters.Some? {
      var ps := parameters.value;
      var key := CacheKey(methodName, ps);
      if acceptsKey(key) && !IsHit(st.cache, key, now) {
        var call := Call(methodName, ForwardedArgs(leading, ps));
        var calls := st.calls + [call];
        forall k | k in st.cache
          ensures Produced(calls, service, k, st.cache[k].data)
        {
          ProducedByPrefix(st.calls, [call], service, k, st.cache[k].data);
        }
        match service(call)
        case Failure(_) =>
        case Success(data) =>
          assert CallKey(call) == Some(key);
          assert calls[|st.calls|] == call;
          assert Produced(calls, service, key, data);
      }
    }
  }

  /** Every operation keeps every cached payload traceable to the underlying call that produced it. */
  lemma ServeKeepsCoherent<A>(st: ServiceState, service: Service, acceptsKey: string -> bool, op: Operation, leading: seq<Arg>,
                              parameters: Option<Params>, rawResponse: bool, parse: Json -> Result<A, Error>, now: int)
    requires Coherent(st, service)
    ensures Coherent(Serve(st, service, acceptsKey, op, leading, parameters, rawResponse, parse, now).1, service)
  {
    FetchedKeepsCoherent(st, service, acceptsKey, op.MethodName(), leading, parameters, now);
  }

  /**
   * On a miss the underlying service is called exactly once, with the operation's
   * arguments, the parameters and `rawResponse = true`; a payload it answers is
   * cached under the key until one second from now.
   */
  lemma MissCallsOnceAndCaches<A>(st: ServiceState, service: Service, acceptsKey: string -> bool, op: Operation,
                                  leading: seq<Arg>, ps: Params, rawResponse: bool, parse: Json -> Result<A, Error>, now: int)
    requires acceptsKey(CacheKey(op.MethodName(), ps)) && !IsHit(st.cache, CacheKey(op.MethodName(), ps), now)
    ensures var call := Call(op.MethodName(), leading + [ParamsArg(ps), FlagArg(true)]);
      var r := Serve(st, service, acceptsKey, op, leading, Some(ps), rawResponse, parse, now);
      && r.1.calls == st.calls + [call]
      && (service(call).Failure? ==> r.0 == Failure(ServiceException(CachedResponseMethod)) && r.1.cache == st.cache)
      && (service(call).Success? && (RawRequested(op, rawResponse) || parse(service(call).value).Success?) ==>
            r.1.cache == st.cache[CacheKey(op.MethodName(), ps) := Entry(service(call).value, now + 1)])
  {
  }

  /** A fresh entry answers the request: no underlying call is made. */
  lemma HitMakesNoCall<A>(st: ServiceState, service: Service, acceptsKey: string -> bool, op: Operation,
                          leading: seq<Arg>, ps: Params, rawResponse: bool, parse: Json -> Result<A, Error>, now: int)
    requires acceptsKey(CacheKey(op.MethodName(), ps)) && IsHit(st.cache, CacheKey(op.MethodName(), ps), now)
    ensures Serve(st, service, acceptsKey, op, leading, Some(ps), rawResponse, parse, now).1.calls == st.calls
  {
  }

  /**
   * The key ignores dates and the base currency: right after an operation succeeds,
   * the same operation with any other leading arguments but the same parameters is
   * answered from the cache, identically and without a call.
   */
  lemma LeadingArgsNotInKey<A>(st: ServiceState, service: Service, acceptsKey: string -> bool, op: Operation,
                               leading: seq<Arg>, otherLeading: seq<Arg>, ps: Params, rawResponse: bool,
                               parse: Json -> Result<A, Error>, now: int)
    requires Serve(st, service, acceptsKey, op, leading, Some(ps), rawResponse, parse, now).0.Success?
    ensures var first := Serve(st, service, acceptsKey, op, leading, Some(ps), rawResponse, parse, now);
      Serve(first.1, service, acceptsKey, op, otherLeading, Some(ps), rawResponse, parse, now) == first
  {
    var key := CacheKey(op.MethodName(), ps);
    var f := Fetched(st, service, acceptsKey, op.MethodName(), leading, Some(ps), now);
    assert f.response.Success? && f.response.value.key == key;
    assert IsHit(f.state.cache, key, now) && f.state.cache[key].data == f.response.value.data;
  }

  /** An entry stored at second t answers requests before t + 1 and is fetched again from t + 1 on. */
  lemma EntryLivesOneSecond<A>(st: ServiceState, service: Service, acceptsKey: string -> bool, op: Operation,
                               leading: seq<Arg>, ps: Params, rawResponse: bool, parse: Json -> Result<A, Error>,
                               now: int, later: int)
    requires acceptsKey(CacheKey(op.MethodName(), ps)) && !IsHit(st.cache, CacheKey(op.MethodName(), ps), now)
    requires Serve(st, service, acceptsKey, op, leading, Some(ps), rawResponse, parse, now).0.Success?
    requires now <= later
    ensures var st1 := Serve(st, service, acceptsKey, op, leading, Some(ps), rawResponse, parse, now).1;
      IsHit(st1.cache, CacheKey(op.MethodName(), ps), later) <==> later < now + CacheExpirationTimeInSeconds
  {
  }

  /**
   * The raw form: the cached data itself for latest, historical and time-series
   * rates, the whole `{key, data}` pair for fluctuation and conversion.
   */
  lemma RawForms<A>(st: ServiceState, service: Service, acceptsKey: string -> bool, op: Operation,
                    leading: seq<Arg>, parameters: Option<Params>, parse: Json -> Result<A, Error>, now: int)
    requires op != ValueAddedTax
    ensures var f := Fetched(st, service, acceptsKey, op.MethodName(), leading, parameters, now);
      var r := Serve(st, service, acceptsKey, op, leading, parameters, true, parse, now);
      f.response.Success? ==>
        && r.1 == f.state
        && (op in {Latest, Historical, TimeSeries} ==> r.0 == Success(Raw(f.response.value.data)))
        && (op in {Fluctuation, Convert} ==>
              r.0 == Success(Raw(JObject([("key", JString(f.response.value.key)), ("data", f.response.value.data)]))))
  {
  }

  /** The VAT operation ignores `rawResponse`: asking for the raw form still parses. */
  lemma ValueAddedTaxAlwaysParses<A>(st: ServiceState, service: Service, acceptsKey: string -> bool,
                                     parameters: Option<Params>, parse: Json -> Result<A, Error>, now: int)
    ensures Serve(st, service, acceptsKey, ValueAddedTax, [], parameters, true, parse, now) ==
            Serve(st, service, acceptsKey, ValueAddedTax, [], parameters, false, parse, now)
    ensures var r := Serve(st, service, acceptsKey, ValueAddedTax, [], parameters, true, parse, now);
      r.0.Success? ==> r.0.value.Parsed?
  {
  }

  /**
   * A cached payload that does not parse is evicted, and nothing else is: the
   * operation fails naming the aggregate, and the next request fetches afresh.
   */
  lemma ParseFailureEvictsKey<A>(st: ServiceState, service: Service, acceptsKey: string -> bool, op: Operation,
                                 leading: seq<Arg>, ps: Params, rawResponse: bool, parse: Json -> Result<A, Error>, now: int)
    requires !RawRequested(op, rawResponse)
    requires var f := Fetched(st, service, acceptsKey, op.MethodName(), leading, Some(ps), now);
      f.response.Success? && parse(f.response.value.data).Failure?
    ensures var f := Fetched(st, service, acceptsKey, op.MethodName(), leading, Some(ps), now);
      var r := Serve(st, service, acceptsKey, op, leading, Some(ps), rawResponse, parse, now);
      && r.0 == Failure(ResponseException(op.ObjectClass()))
      && r.1.cache == f.state.cache - {CacheKey(op.MethodName(), ps)}
      && !IsHit(r.1.cache, CacheKey(op.MethodName(), ps), now)
  {
  }

  class CachedRequestService {
    var cache: map<string, Entry>
    ghost var calls: seq<Call>
    var warnings: seq<string>
    const requestService: Service
    const acceptsKey: string -> bool

    ghost function State(): ServiceState
      reads this
    {
      ServiceState(cache, calls, warnings)
    }

    ghost predicate Valid()
      reads this
    {
      Coherent(State(), requestService)
    }

    /** The reply and the state an operation leads to, from the current state. */
    ghost function Outcome<A>(op: Operation, leading: seq<Arg>, parameters: Option<Params>, rawResponse: bool,
                              parse: Json -> Result<A, Error>, now: int): (Result<Reply<A>, Error>, ServiceState)
      reads this
    {
      Serve(State(), requestService, acceptsKey, op, leading, parameters, rawResponse, parse, now)
    }

    constructor(requestService: Service, acceptsKey: string -> bool)
      ensures this.requestService == requestService && this.acceptsKey == acceptsKey
      ensures cache == map[] && calls == [] && warnings == [] && Valid()
    {
      this.requestService := requestService;
      this.acceptsKey := acceptsKey;
      cache := map[];
      calls := [];
      warnings := [];
    }

    /** `getCachedResponse`: the key from `encode`, then get-or-populate with the raw form. */
    method GetCachedResponse(methodName: string, leading: seq<Arg>, parameters: QueryParameters?, now: int)
      returns (r: Result<CachedResponse, Error>)
      modifies this
      ensures Fetch(r, State()) == Fetched(old(State()), requestService, acceptsKey, methodName, leading, ParamsOf(parameters), now)
    {
      if parameters == null {
        return Failure(ServiceException(CachedResponseMethod));
      }
      var key := parameters.Encode(methodName);
      if !acceptsKey(key) {
        return Failure(ServiceException(CachedResponseMethod));
      }
      if key in cache && now < cache[key].expiresAt {
        return Success(CachedResponse(key, cache[key].data));
      }
      var call := Call(methodName, leading + [ParamsArg(parameters.params), FlagArg(true)]);
      calls := calls + [call];
      var data := requestService(call);
      if data.Failure? {
        return Failure(ServiceException(CachedResponseMethod));
      }
      cache := cache[key := Entry(data.value, now + CacheExpirationTimeInSeconds)];
      return Success(CachedResponse(key, data.value));
    }

    /** `deleteKeyFromCache`: no exception escapes; a rejected key only warns. */
    method DeleteKeyFromCache(key: string)
      modifies this
      ensures State() == Deleted(old(State()), acceptsKey, key)
    {
      if acceptsKey(key) {
        cache := cache - {key};
      } else {
        warnings := warnings + [key];
      }
    }

    /** The answer of the raw-or-parse branch, once `getCachedResponse` has succeeded. */
    method Answer<A>(cached: CachedResponse, op: Operation, rawResponse: bool, parse: Json -> Result<A, Error>)
      returns (r: Result<Reply<A>, Error>)
      modifies this
      ensures (r, State()) == Respond(Fetch(Success(cached), old(State())), acceptsKey, op, rawResponse, parse)
    {
      if RawRequested(op, rawResponse) {
        return Success(Raw(RawPayload(op, cached)));
      }
      var parsed := parse(cached.data);
      if parsed.Failure? {
        DeleteKeyFromCache(cached.key);
        return Failure(ResponseException(op.ObjectClass()));
      }
      return Success(Parsed(parsed.value));
    }

    /** One operation: `getCachedResponse`, then the raw-or-parse branch; the cache stays coherent. */
    method Run<A>(op: Operation, leading: seq<Arg>, parameters: QueryParameters?, rawResponse: bool,
                  parse: Json -> Result<A, Error>, now: int) returns (r: Result<Reply<A>, Error>)
      requires Valid()
      modifies this
      ensures (r, State()) == old(Outcome(op, leading, ParamsOf(parameters), rawResponse, parse, now))
      ensures Valid()
    {
      ServeKeepsCoherent(State(), requestService, acceptsKey, op, leading, ParamsOf(parameters), rawResponse, parse, now);
      var fetched := GetCachedResponse(op.MethodName(), leading, parameters, now);
      if fetched.Failure? {
        return Failure(fetched.error);
      }
      r := Answer(fetched.value, op, rawResponse, parse);
    }

    /** `getLatestRates`. */
    method GetLatestRates(parameters: QueryParameters?, rawResponse: bool, now: int)
      returns (r: Result<Reply<RatesResponse.Rates>, Error>)
      requires Valid()
      modifies this
      ensures Valid()
      ensures (r, State()) == old(Outcome(Latest, [], ParamsOf(parameters), rawResponse, RatesResponse.FromJson, now))
    {
      r := Run(Latest, [], parameters, rawResponse, RatesResponse.FromJson, now);
    }

    /** `getHistoricalRates`: the date is forwarded to the underlying service but is not part of the key. */
    method GetHistoricalRates(toDate: Date, parameters: QueryParameters?, rawResponse: bool, now: int)
      returns (r: Result<Reply<RatesResponse.Rates>, Error>)
      requires Valid()
      modifies this
      ensures Valid()
      ensures (r, State()) == old(Outcome(Historical, [DateArg(toDate)], ParamsOf(parameters), rawResponse, RatesResponse.FromJson, now))
    {
      r := Run(Historical, [DateArg(toDate)], parameters, rawResponse, RatesResponse.FromJson, now);
    }

    /** `getTimeSeriesRates`. */
    method GetTimeSeriesRates(startDate: Date, endDate: Date, parameters: QueryParameters?, rawResponse: bool, now: int)
      returns (r: Result<Reply<TimeSeriesRatesResponse.TimeSeriesRates>, Error>)
      requires Valid()
      modifies this
      ensures Valid()
      ensures (r, State()) == old(Outcome(TimeSeries, [DateArg(startDate), DateArg(endDate)], ParamsOf(parameters),
                                          rawResponse, TimeSeriesRatesResponse.FromJson, now))
    {
      r := Run(TimeSeries, [DateArg(startDate), DateArg(endDate)], parameters, rawResponse, TimeSeriesRatesResponse.FromJson, now);
    }

    /** `getFluctuationRates`: parsed with the caller's base currency. */
    method GetFluctuationRates(startDate: Date, endDate: Date, baseCurrency: CurrencyCode, parameters: QueryParameters?,
                               rawResponse: bool, now: int)
      returns (r: Result<Reply<FluctuationRatesResponse.FluctuationRates>, Error>)
      requires Valid()
      modifies this
      ensures Valid()
      ensures (r, State()) == old(Outcome(Fluctuation, [DateArg(startDate), DateArg(endDate), CurrencyArg(baseCurrency)],
                                          ParamsOf(parameters), rawResponse,
                                          j => FluctuationRatesResponse.FromJson(j, baseCurrency), now))
    {
      r := Run(Fluctuation, [DateArg(startDate), DateArg(endDate), CurrencyArg(baseCurrency)], parameters, rawResponse,
               j => FluctuationRatesResponse.FromJson(j, baseCurrency), now);
    }

    /** `getConvertCurrency`. */
    method GetConvertCurrency(parameters: QueryParameters?, rawResponse: bool, now: int)
      returns (r: Result<Reply<ConvertCurrencyResponse.ConvertCurrency>, Error>)
      requires Valid()
      modifies this
      ensures Valid()
      ensures (r, State()) == old(Outcome(Convert, [], ParamsOf(parameters), rawResponse, ConvertCurrencyResponse.FromJson, now))
    {
      r := Run(Convert, [], parameters, rawResponse, ConvertCurrencyResponse.FromJson, now);
    }

    /** `getValueAddedTaxRates`. */
    method GetValueAddedTaxRates(parameters: QueryParameters?, rawResponse: bool, now: int)
      returns (r: Result<Reply<ValueAddedTaxRatesResponse.ValueAddedTaxRates>, Error>)
      requires Valid()
      modifies this
      ensures Valid()
      ensures (r, State()) == old(Outcome(ValueAddedTax, [], ParamsOf(parameters), rawResponse, ValueAddedTaxRatesResponse.FromJson, now))
    {
      r := Run(ValueAddedTax, [], parameters, rawResponse, ValueAddedTaxRatesResponse.FromJson, now);
    }
  }
}
