/**
 * `RatesEndpoint`: the rates façade. Each method builds the query parameters
 * from its arguments and the endpoint's defaults, then delegates to the caching
 * request service, as the object or as the raw array.
 */
module RatesEndpoint {
  import opened Wrappers
  import opened Errors
  import opened Php
  import opened CurrencyCodes
  import opened Sources
  import opened Query
  import opened Replies
  import opened ValueObjects
  import Collections
  import RatesResponse
  import TimeSeriesRatesResponse
  import FluctuationRatesResponse
  import CachedRequest

  /** The `symbols` value: every currency when none are given, otherwise the given ones in order. */
  function SymbolsText(symbols: Option<seq<CurrencyCode>>): string
  {
    match symbols
    case None => AllValues()
    case Some(codes) => ValuesOfCollection(codes)
  }

  /**
   * The parameters `createQueryParameters` stores, in the order it adds them:
   * base, source and symbols always, then places and amount when given.
   */
  function RatesQuery(base: CurrencyCode, source: BankSource, symbols: Option<seq<CurrencyCode>>,
                      places: Option<int>, amount: Value): Params
  {
    [("base", Str(base.Value())), ("source", Str(source.Value())), ("symbols", Str(SymbolsText(symbols)))]
      + Optional("places", OptionalInt(places)) + Optional("amount", amount)
  }

  /**
   * The rates query as the PHP array it stands for: base, source and symbols
   * always, places and amount exactly when given, and no other name; names are
   * unique and no value is null.
   */
  lemma RatesQueryMap(base: CurrencyCode, source: BankSource, symbols: Option<seq<CurrencyCode>>,
                      places: Option<int>, amount: Value)
    ensures var ps := RatesQuery(base, source, symbols, places, amount);
      var m := AsMap(ps);
      && UniqueNames(ps) && NoNulls(ps)
      && m.Keys <= {"base", "source", "symbols", "places", "amount"}
      && "base" in m && m["base"] == Str(base.Value())
      && "source" in m && m["source"] == Str(source.Value())
      && "symbols" in m && m["symbols"] == Str(SymbolsText(symbols))
      && ("places" in m <==> places.Some?) && (places.Some? ==> m["places"] == Int(places.value))
      && ("amount" in m <==> !amount.Null?) && (!amount.Null? ==> m["amount"] == amount)
  {
    var b, so, sy, pl := Str(base.Value()), Str(source.Value()), Str(SymbolsText(symbols)), OptionalInt(places);
    RatesKeys(b, so, sy, pl, amount);
    RatesLayout(b, so, sy, pl, amount);
  }

  /** The five `add` calls over any values, with base, source and symbols never null: unique, non-null names and the array view. */
  lemma RatesLayout(b: Value, so: Value, sy: Value, pl: Value, amount: Value)
    requires !b.Null? && !so.Null? && !sy.Null?
    ensures var ps := [("base", b), ("source", so), ("symbols", sy)] + Optional("places", pl) + Optional("amount", amount);
      && UniqueNames(ps) && NoNulls(ps)
      && AsMap(ps) == MapAdded(MapAdded(map["base" := b, "source" := so, "symbols" := sy], "places", pl), "amount", amount)
      && ps == Added(Added(Added(Added(Added([], "base", b), "source", so), "symbols", sy), "places", pl), "amount", amount)
  {
    var m3 := map["base" := b, "source" := so, "symbols" := sy];
    assert "places" !in m3 && "amount" !in MapAdded(m3, "places", pl);
    FixedStage(b, so, sy);
    var fixed := [("base", b), ("source", so), ("symbols", sy)];
    AddStep(fixed, m3, "places", pl);
    AddStep(fixed + Optional("places", pl), MapAdded(m3, "places", pl), "amount", amount);
  }

  /** The three names the rates query always holds, in order: unique, non-null, and their array view. */
  lemma FixedStage(b: Value, so: Value, sy: Value)
    requires !b.Null? && !so.Null? && !sy.Null?
    ensures var fixed := [("base", b), ("source", so), ("symbols", sy)];
      && UniqueNames(fixed) && NoNulls(fixed) && AsMap(fixed) == map["base" := b, "source" := so, "symbols" := sy]
      && fixed == Added(Added(Added([], "base", b), "source", so), "symbols", sy)
  {
    var m1 := map["base" := b];
    var m2 := map["base" := b, "source" := so];
    var s1 := [("base", b)];
    var s2 := [("base", b), ("source", so)];
    assert "source" !in m1 && "symbols" !in m2;
    assert MapAdded(m1, "source", so) == m2;
    assert MapAdded(m2, "symbols", sy) == map["base" := b, "source" := so, "symbols" := sy];
    assert [] + Optional("base", b) == s1;
    assert s1 + Optional("source", so) == s2;
    assert s2 + Optional("symbols", sy) == [("base", b), ("source", so), ("symbols", sy)];
    AddStep([], map[], "base", b);
    AddStep(s1, m1, "source", so);
    AddStep(s2, m2, "symbols", sy);
  }

  /** Which names the array view of the rates query holds, and their values. */
  lemma RatesKeys(b: Value, so: Value, sy: Value, pl: Value, amount: Value)
    ensures var m := MapAdded(MapAdded(map["base" := b, "source" := so, "symbols" := sy], "places", pl), "amount", amount);
      && m.Keys <= {"base", "source", "symbols", "places", "amount"}
      && "base" in m && m["base"] == b && "source" in m && m["source"] == so && "symbols" in m && m["symbols"] == sy
      && ("places" in m <==> !pl.Null?) && (!pl.Null? ==> m["places"] == pl)
      && ("amount" in m <==> !amount.Null?) && (!amount.Null? ==> m["amount"] == amount)
  {
  }

  /**
   * The endpoint holds the caching service, which implements every operation it
   * calls. The PHP constructor declares the concrete `RequestService` instead, a
   * type the caching service does not have and whose class lacks these operations.
   */
  class RatesEndpoint {
    const requestService: CachedRequest.CachedRequestService
    const defaultCurrency: CurrencyCode
    const defaultBankSource: BankSource

    constructor(requestService: CachedRequest.CachedRequestService, defaultCurrency: CurrencyCode, defaultBankSource: BankSource)
      ensures this.requestService == requestService
      ensures this.defaultCurrency == defaultCurrency && this.defaultBankSource == defaultBankSource
    {
      this.requestService := requestService;
      this.defaultCurrency := defaultCurrency;
      this.defaultBankSource := defaultBankSource;
    }

    /** The query for the given arguments, a missing base or source replaced by the endpoint's default. */
    function Query(base: Option<CurrencyCode>, symbols: Option<seq<CurrencyCode>>, amount: Option<Float>,
                   places: Option<int>, source: Option<BankSource>): Params
    {
      RatesQuery(base.GetOr(defaultCurrency), source.GetOr(defaultBankSource), symbols, places, OptionalFloat(amount))
    }

    /** `createQueryParameters`: a new builder holding exactly `Query(...)`. */
    method CreateQueryParameters(base: Option<CurrencyCode>, symbols: Option<seq<CurrencyCode>>, amount: Option<Float>,
                                 places: Option<int>, source: Option<BankSource>)
      returns (q: QueryParameters)
      ensures fresh(q) && q.Valid()
      ensures q.params == Query(base, symbols, amount, places, source)
    {
      var b, so := base.GetOr(defaultCurrency), source.GetOr(defaultBankSource);
      RatesLayout(Str(b.Value()), Str(so.Value()), Str(SymbolsText(symbols)), OptionalInt(places), OptionalFloat(amount));
      q := new QueryParameters();
      q := q.Add("base", Str(b.Value()));
      q := q.Add("source", Str(so.Value()));
      q := q.Add("symbols", Str(SymbolsText(symbols)));
      q := q.Add("places", OptionalInt(places));
      q := q.Add("amount", OptionalFloat(amount));
    }

    /** `getRates`: the latest rates as the Rates object. */
    method GetRates(base: Option<CurrencyCode>, symbols: Option<seq<CurrencyCode>>, amount: Option<Float>,
                    places: Option<int>, source: Option<BankSource>, now: int)
      returns (r: Result<RatesResponse.Rates, Error>)
      requires requestService.Valid()
      modifies requestService
      ensures requestService.Valid()
      ensures var out := CachedRequest.Serve(old(requestService.State()), requestService.requestService, requestService.acceptsKey,
                                       CachedRequest.Latest, [], Some(Query(base, symbols, amount, places, source)),
                                       false, RatesResponse.FromJson, now);
        r == ReturnObject(out.0) && requestService.State() == out.1
    {
      var q := CreateQueryParameters(base, symbols, amount, places, source);
      var reply := requestService.GetLatestRates(q, false, now);
      r := ReturnObject(reply);
    }

    /** `getRatesAsArray`: the latest rates as the decoded payload. */
    method GetRatesAsArray(base: Option<CurrencyCode>, symbols: Option<seq<CurrencyCode>>, amount: Option<Float>,
                           places: Option<int>, source: Option<BankSource>, now: int)
      returns (r: Result<Json, Error>)
      requires requestService.Valid()
      modifies requestService
      ensures requestService.Valid()
      ensures var out := CachedRequest.Serve(old(requestService.State()), requestService.requestService, requestService.acceptsKey,
                                       CachedRequest.Latest, [], Some(Query(base, symbols, amount, places, source)),
                                       true, RatesResponse.FromJson, now);
        r == ReturnArray(out.0) && requestService.State() == out.1
    {
      var q := CreateQueryParameters(base, symbols, amount, places, source);
      var reply := requestService.GetLatestRates(q, true, now);
      r := ReturnArray(reply);
    }

    /** `getRate`: the latest rate of `to` against `base`, asking for `to` only. */
    method GetRate(base: CurrencyCode, to: CurrencyCode, amount: Option<Float>, places: Option<int>,
                   source: Option<BankSource>, now: int)
      returns (r: Result<Rate, Error>)
      requires requestService.Valid()
      modifies requestService
      ensures requestService.Valid()
      ensures var out := CachedRequest.Serve(old(requestService.State()), requestService.requestService, requestService.acceptsKey,
                                       CachedRequest.Latest, [], Some(Query(Some(base), Some([to]), amount, places, source)),
                                       false, RatesResponse.FromJson, now);
        r == RateIn(ReturnObject(out.0), (rates: RatesResponse.Rates) => rates.rates, to) && requestService.State() == out.1
    {
      var rates := GetRates(Some(base), Some([to]), amount, places, source, now);
      if rates.Failure? {
        return Failure(rates.error);
      }
      var found := rates.value.GetRate(to);
      r := ReturnRequired(found);
    }

    /** `getHistoricalRates`: the rates valid on `toDate`, as the Rates object. */
    method GetHistoricalRates(toDate: Date, base: Option<CurrencyCode>, symbols: Option<seq<CurrencyCode>>, amount: Option<Float>,
                              places: Option<int>, source: Option<BankSource>, now: int)
      returns (r: Result<RatesResponse.Rates, Error>)
      requires requestService.Valid()
      modifies requestService
      ensures requestService.Valid()
      ensures var out := CachedRequest.Serve(old(requestService.State()), requestService.requestService, requestService.acceptsKey,
                                       CachedRequest.Historical, [CachedRequest.DateArg(toDate)],
                                       Some(Query(base, symbols, amount, places, source)), false, RatesResponse.FromJson, now);
        r == ReturnObject(out.0) && requestService.State() == out.1
    {
      var q := CreateQueryParameters(base, symbols, amount, places, source);
      var reply := requestService.GetHistoricalRates(toDate, q, false, now);
      r := ReturnObject(reply);
    }

    /** `getHistoricalRatesAsArray`. */
    method GetHistoricalRatesAsArray(toDate: Date, base: Option<CurrencyCode>, symbols: Option<seq<CurrencyCode>>, amount: Option<Float>,
                                     places: Option<int>, source: Option<BankSource>, now: int)
      returns (r: Result<Json, Error>)
      requires requestService.Valid()
      modifies requestService
      ensures requestService.Valid()
      ensures var out := CachedRequest.Serve(old(requestService.State()), requestService.requestService, requestService.acceptsKey,
                                       CachedRequest.Historical, [CachedRequest.DateArg(toDate)],
                                       Some(Query(base, symbols, amount, places, source)), true, RatesResponse.FromJson, now);
        r == ReturnArray(out.0) && requestService.State() == out.1
    {
      var q := CreateQueryParameters(base, symbols, amount, places, source);
      var reply := requestService.GetHistoricalRates(toDate, q, true, now);
      r := ReturnArray(reply);
    }

    /** `getHistoricalRate`. */
    method GetHistoricalRate(toDate: Date, base: CurrencyCode, to: CurrencyCode, amount: Option<Float>, places: Option<int>,
                             source: Option<BankSource>, now: int)
      returns (r: Result<Rate, Error>)
      requires requestService.Valid()
      modifies requestService
      ensures requestService.Valid()
      ensures var out := CachedRequest.Serve(old(requestService.State()), requestService.requestService, requestService.acceptsKey,
                                       CachedRequest.Historical, [CachedRequest.DateArg(toDate)],
                                       Some(Query(Some(base), Some([to]), amount, places, source)), false, RatesResponse.FromJson, now);
        r == RateIn(ReturnObject(out.0), (rates: RatesResponse.Rates) => rates.rates, to) && requestService.State() == out.1
    {
      var rates := GetHistoricalRates(toDate, Some(base), Some([to]), amount, places, source, now);
      if rates.Failure? {
        return Failure(rates.error);
      }
      var found := rates.value.GetRate(to);
      r := ReturnRequired(found);
    }

    /** `getTimeSeriesRates`. */
    method GetTimeSeriesRates(startDate: Date, endDate: Date, base: Option<CurrencyCode>, symbols: Option<seq<CurrencyCode>>,
                              amount: Option<Float>, places: Option<int>, source: Option<BankSource>, now: int)
      returns (r: Result<TimeSeriesRatesResponse.TimeSeriesRates, Error>)
      requires requestService.Valid()
      modifies requestService
      ensures requestService.Valid()
      ensures var out := CachedRequest.Serve(old(requestService.State()), requestService.requestService, requestService.acceptsKey,
                                       CachedRequest.TimeSeries, [CachedRequest.DateArg(startDate), CachedRequest.DateArg(endDate)],
                                       Some(Query(base, symbols, amount, places, source)), false,
                                       TimeSeriesRatesResponse.FromJson, now);
        r == ReturnObject(out.0) && requestService.State() == out.1
    {
      var q := CreateQueryParameters(base, symbols, amount, places, source);
      var reply := requestService.GetTimeSeriesRates(startDate, endDate, q, false, now);
      r := ReturnObject(reply);
    }

    /** `getTimeSeriesRatesAsArray`. */
    method GetTimeSeriesRatesAsArray(startDate: Date, endDate: Date, base: Option<CurrencyCode>, symbols: Option<seq<CurrencyCode>>,
                                     amount: Option<Float>, places: Option<int>, source: Option<BankSource>, now: int)
      returns (r: Result<Json, Error>)
      requires requestService.Valid()
      modifies requestService
      ensures requestService.Valid()
      ensures var out := CachedRequest.Serve(old(requestService.State()), requestService.requestService, requestService.acceptsKey,
                                       CachedRequest.TimeSeries, [CachedRequest.DateArg(startDate), CachedRequest.DateArg(endDate)],
                                       Some(Query(base, symbols, amount, places, source)), true,
                                       TimeSeriesRatesResponse.FromJson, now);
        r == ReturnArray(out.0) && requestService.State() == out.1
    {
      var q := CreateQueryParameters(base, symbols, amount, places, source);
      var reply := requestService.GetTimeSeriesRates(startDate, endDate, q, true, now);
      r := ReturnArray(reply);
    }

    /** `getTimeSeriesRate`. */
    method GetTimeSeriesRate(startDate: Date, endDate: Date, base: CurrencyCode, to: CurrencyCode, amount: Option<Float>,
                             places: Option<int>, source: Option<BankSource>, now: int)
      returns (r: Result<Rate, Error>)
      requires requestService.Valid()
      modifies requestService
      ensures requestService.Valid()
      ensures var out := CachedRequest.Serve(old(requestService.State()), requestService.requestService, requestService.acceptsKey,
                                       CachedRequest.TimeSeries, [CachedRequest.DateArg(startDate), CachedRequest.DateArg(endDate)],
                                       Some(Query(Some(base), Some([to]), amount, places, source)), false,
                                       TimeSeriesRatesResponse.FromJson, now);
        r == RateIn(ReturnObject(out.0), (series: TimeSeriesRatesResponse.TimeSeriesRates) => series.rates, to)
        && requestService.State() == out.1
    {
      var series := GetTimeSeriesRates(startDate, endDate, Some(base), Some([to]), amount, places, source, now);
      if series.Failure? {
        return Failure(series.error);
      }
      var found := series.value.GetRate(to);
      r := ReturnRequired(found);
    }

    /**
     * `getFluctuationRates`: the call names only `baseCurrency` and `parameters`, so
     * the service's required `startDate` and `endDate` are not passed and the call
     * throws before the service runs.
     */
    method GetFluctuationRates(startDate: Date, endDate: Date, base: Option<CurrencyCode>, symbols: Option<seq<CurrencyCode>>,
                               amount: Option<Float>, places: Option<int>, source: Option<BankSource>)
      returns (r: Result<FluctuationRatesResponse.FluctuationRates, Error>)
      ensures r == Failure(Thrown(ArgumentCountError))
    {
      var q := CreateQueryParameters(base, symbols, amount, places, source);
      r := Failure(Thrown(ArgumentCountError));
    }

    /** `getFluctuationRatesAsArray`: throws as `getFluctuationRates` does. */
    method GetFluctuationRatesAsArray(startDate: Date, endDate: Date, base: Option<CurrencyCode>, symbols: Option<seq<CurrencyCode>>,
                                      amount: Option<Float>, places: Option<int>, source: Option<BankSource>)
      returns (r: Result<Json, Error>)
      ensures r == Failure(Thrown(ArgumentCountError))
    {
      var q := CreateQueryParameters(base, symbols, amount, places, source);
      r := Failure(Thrown(ArgumentCountError));
    }

    /** `getFluctuationRate`: the error of `getFluctuationRates` propagates. */
    method GetFluctuationRate(startDate: Date, endDate: Date, base: CurrencyCode, to: CurrencyCode, amount: Option<Float>,
                              places: Option<int>, source: Option<BankSource>)
      returns (r: Result<FluctuationRate, Error>)
      ensures r == Failure(Thrown(ArgumentCountError))
    {
      var fluctuation := GetFluctuationRates(startDate, endDate, Some(base), Some([to]), amount, places, source);
      // `->getFluctuationRate($to)` is never reached.
      r := Failure(fluctuation.error);
    }
  }

  /**
   * `->getRate($to)` on the object an endpoint returned, with `Rate` declared as
   * the result: the first rate of `to`, and a TypeError when there is none.
   */
  function RateIn<A>(reply: Result<A, Error>, rates: A -> seq<Rate>, to: CurrencyCode): (r: Result<Rate, Error>)
    ensures reply.Failure? ==> r == Failure(reply.error)
    ensures reply.Success? ==>
              (r.Success? <==> exists i :: 0 <= i < |rates(reply.value)| && rates(reply.value)[i].currencyCode == to)
    ensures r.Success? ==> r.value.currencyCode == to && r.value in rates(reply.value)
    ensures reply.Success? && r.Failure? ==> r.error == Thrown(TypeError)
  {
    match reply
    case Failure(e) => Failure(e)
    case Success(v) => ReturnRequired(Collections.First(rates(v), RateCurrency, to))
  }
}
