/**
 * `ConvertCurrencyEndpoint`: converts an amount between two currencies through
 * the caching request service.
 */
module ConvertCurrencyEndpoint {
  import opened Wrappers
  import opened Errors
  import opened Php
  import opened CurrencyCodes
  import opened Sources
  import opened Query
  import opened Replies
  import ConvertCurrencyResponse
  import CachedRequest

  /** The optional date as `format('Y-m-d')` writes it; `?->` leaves null as null. */
  function DateValue(toDate: Option<Date>): Value
  {
    OptionalText(match toDate case None => None case Some(d) => Some(FormatYmd(d)))
  }

  /**
   * The parameters `creteQueryParameters` stores, in the order it adds them: from
   * and to, then amount, date and places when given, then the bank source.
   */
  function ConvertQuery(from: CurrencyCode, to: CurrencyCode, amount: Option<Float>, toDate: Option<Date>,
                        places: Option<int>, source: BankSource): Params
  {
    Layout(Str(from.Value()), Str(to.Value()), OptionalFloat(amount), DateValue(toDate), OptionalInt(places),
           Str(source.Value()))
  }

  /** The six names in order, each present unless its value is null. */
  function Layout(from: Value, to: Value, amount: Value, date: Value, places: Value, source: Value): Params
  {
    Optional("from", from) + Optional("to", to) + Optional("amount", amount) + Optional("date", date)
      + Optional("places", places) + Optional("source", source)
  }

  /**
   * The conversion query as the PHP array it stands for: from, to and source
   * always, amount, date and places exactly when given, and no other name; names
   * are unique and no value is null.
   */
  lemma ConvertQueryMap(from: CurrencyCode, to: CurrencyCode, amount: Option<Float>, toDate: Option<Date>,
                        places: Option<int>, source: BankSource)
    ensures var ps := ConvertQuery(from, to, amount, toDate, places, source);
      var m := AsMap(ps);
      && UniqueNames(ps) && NoNulls(ps)
      && m.Keys <= {"from", "to", "amount", "date", "places", "source"}
      && "from" in m && m["from"] == Str(from.Value())
      && "to" in m && m["to"] == Str(to.Value())
      && "source" in m && m["source"] == Str(source.Value())
      && ("amount" in m <==> amount.Some?) && (amount.Some? ==> m["amount"] == FloatNum(amount.value))
      && ("date" in m <==> toDate.Some?) && (toDate.Some? ==> m["date"] == Str(FormatYmd(toDate.value)))
      && ("places" in m <==> places.Some?) && (places.Some? ==> m["places"] == Int(places.value))
  {
    LayoutMap(Str(from.Value()), Str(to.Value()), OptionalFloat(amount), DateValue(toDate), OptionalInt(places),
              Str(source.Value()));
    LayoutKeys(Str(from.Value()), Str(to.Value()), OptionalFloat(amount), DateValue(toDate), OptionalInt(places),
               Str(source.Value()));
  }

  /** The first two `add` calls: from and to, both stored. */
  lemma FromToStage(from: Value, to: Value)
    requires !from.Null? && !to.Null?
    ensures var s := Optional("from", from) + Optional("to", to);
      && UniqueNames(s) && NoNulls(s) && AsMap(s) == map["from" := from, "to" := to]
      && s == Added(Added([], "from", from), "to", to)
  {
    var s1 := Optional("from", from);
    AddStep([], map[], "from", from);
    assert [] + Optional("from", from) == s1;
    AddStep(s1, map["from" := from], "to", to);
    assert MapAdded(map["from" := from], "to", to) == map["from" := from, "to" := to];
  }

  /** The third `add`: amount, stored unless null. */
  lemma AmountStage(from: Value, to: Value, amount: Value)
    requires !from.Null? && !to.Null?
    ensures var s := Optional("from", from) + Optional("to", to) + Optional("amount", amount);
      && UniqueNames(s) && NoNulls(s) && AsMap(s) == MapAdded(map["from" := from, "to" := to], "amount", amount)
      && s == Added(Added(Added([], "from", from), "to", to), "amount", amount)
  {
    FromToStage(from, to);
    AddStep(Optional("from", from) + Optional("to", to), map["from" := from, "to" := to], "amount", amount);
  }

  /** The fourth `add`: date, stored unless null. */
  lemma DateStage(from: Value, to: Value, amount: Value, date: Value)
    requires !from.Null? && !to.Null?
    ensures var s := Optional("from", from) + Optional("to", to) + Optional("amount", amount) + Optional("date", date);
      && UniqueNames(s) && NoNulls(s)
      && AsMap(s) == MapAdded(MapAdded(map["from" := from, "to" := to], "amount", amount), "date", date)
      && s == Added(Added(Added(Added([], "from", from), "to", to), "amount", amount), "date", date)
  {
    var m := MapAdded(map["from" := from, "to" := to], "amount", amount);
    assert "date" !in m;
    AmountStage(from, to, amount);
    AddStep(Optional("from", from) + Optional("to", to) + Optional("amount", amount), m, "date", date);
  }

  /** The fifth `add`: places, stored unless null. */
  lemma PlacesStage(from: Value, to: Value, amount: Value, date: Value, places: Value)
    requires !from.Null? && !to.Null?
    ensures var s := Optional("from", from) + Optional("to", to) + Optional("amount", amount) + Optional("date", date)
                     + Optional("places", places);
      && UniqueNames(s) && NoNulls(s)
      && AsMap(s) == MapAdded(MapAdded(MapAdded(map["from" := from, "to" := to], "amount", amount), "date", date),
                              "places", places)
      && s == Added(Added(Added(Added(Added([], "from", from), "to", to), "amount", amount), "date", date),
                    "places", places)
  {
    var m := MapAdded(MapAdded(map["from" := from, "to" := to], "amount", amount), "date", date);
    assert "places" !in m;
    DateStage(from, to, amount, date);
    AddStep(Optional("from", from) + Optional("to", to) + Optional("amount", amount) + Optional("date", date), m,
            "places", places);
  }

  /**
   * The conversion layout over any values: the six `add` calls in order build it,
   * and its array view is built the same way.
   */
  lemma LayoutMap(from: Value, to: Value, amount: Value, date: Value, places: Value, source: Value)
    requires !from.Null? && !to.Null? && !source.Null?
    ensures var ps := Layout(from, to, amount, date, places, source);
      && UniqueNames(ps) && NoNulls(ps)
      && ps == Added(Added(Added(Added(Added(Added([], "from", from), "to", to), "amount", amount), "date", date),
                           "places", places), "source", source)
      && AsMap(ps) == MapAdded(MapAdded(MapAdded(map["from" := from, "to" := to], "amount", amount), "date", date),
                               "places", places)["source" := source]
  {
    var m := MapAdded(MapAdded(MapAdded(map["from" := from, "to" := to], "amount", amount), "date", date),
                      "places", places);
    assert "source" !in m;
    PlacesStage(from, to, amount, date, places);
    AddStep(Optional("from", from) + Optional("to", to) + Optional("amount", amount) + Optional("date", date)
            + Optional("places", places), m, "source", source);
  }

  /** Which names the array view of the conversion layout holds, and their values. */
  lemma LayoutKeys(from: Value, to: Value, amount: Value, date: Value, places: Value, source: Value)
    ensures var m := MapAdded(MapAdded(MapAdded(map["from" := from, "to" := to], "amount", amount), "date", date),
                              "places", places)["source" := source];
      && m.Keys <= {"from", "to", "amount", "date", "places", "source"}
      && "from" in m && m["from"] == from && "to" in m && m["to"] == to && "source" in m && m["source"] == source
      && ("amount" in m <==> !amount.Null?) && (!amount.Null? ==> m["amount"] == amount)
      && ("date" in m <==> !date.Null?) && (!date.Null? ==> m["date"] == date)
      && ("places" in m <==> !places.Null?) && (!places.Null? ==> m["places"] == places)
  {
  }

  /** The date handed to the API reads back as the caller's date. */
  lemma DateParameterRoundTrip(d: Date)
    requires d.year < 10000 && d.month < 100 && d.day < 100
    ensures DateValue(Some(d)).Str? && ParseYmd(DateValue(Some(d)).s) == Some(d)
  {
    YmdRoundTrip(d);
  }

  /**
   * The endpoint holds the caching service, which implements every operation it
   * calls. The PHP constructor declares the concrete `RequestService` instead, a
   * type the caching service does not have and whose class lacks these operations.
   */
  class ConvertCurrencyEndpoint {
    const requestService: CachedRequest.CachedRequestService
    const defaultBankSource: BankSource

    constructor(requestService: CachedRequest.CachedRequestService, defaultBankSource: BankSource)
      ensures this.requestService == requestService && this.defaultBankSource == defaultBankSource
    {
      this.requestService := requestService;
      this.defaultBankSource := defaultBankSource;
    }

    function Query(from: CurrencyCode, to: CurrencyCode, amount: Option<Float>, toDate: Option<Date>,
                   places: Option<int>, source: Option<BankSource>): Params
    {
      ConvertQuery(from, to, amount, toDate, places, source.GetOr(defaultBankSource))
    }

    /** `creteQueryParameters` (so spelled): a new builder holding exactly `Query(...)`. */
    method CreteQueryParameters(from: CurrencyCode, to: CurrencyCode, amount: Option<Float>, toDate: Option<Date>,
                                places: Option<int>, source: Option<BankSource>)
      returns (q: QueryParameters)
      ensures fresh(q) && q.Valid()
      ensures q.params == Query(from, to, amount, toDate, places, source)
    {
      var source' := source.GetOr(defaultBankSource);
      LayoutMap(Str(from.Value()), Str(to.Value()), OptionalFloat(amount), DateValue(toDate), OptionalInt(places),
                Str(source'.Value()));
      q := new QueryParameters();
      q := q.Add("from", Str(from.Value()));
      q := q.Add("to", Str(to.Value()));
      q := q.Add("amount", OptionalFloat(amount));
      q := q.Add("date", DateValue(toDate));
      q := q.Add("places", OptionalInt(places));
      q := q.Add("source", Str(source'.Value()));
    }

    /** `convert`: the conversion as the ConvertCurrency object. */
    method Convert(from: CurrencyCode, to: CurrencyCode, amount: Option<Float>, toDate: Option<Date>,
                   places: Option<int>, source: Option<BankSource>, now: int)
      returns (r: Result<ConvertCurrencyResponse.ConvertCurrency, Error>)
      requires requestService.Valid()
      modifies requestService
      ensures requestService.Valid()
      ensures var ps := Query(from, to, amount, toDate, places, source);
        var out := CachedRequest.Serve(old(requestService.State()), requestService.requestService, requestService.acceptsKey,
                                       CachedRequest.Convert, [], Some(ps), false, ConvertCurrencyResponse.FromJson, now);
        r == ReturnObject(out.0) && requestService.State() == out.1
    {
      var q := CreteQueryParameters(from, to, amount, toDate, places, source);
      var reply := requestService.GetConvertCurrency(q, false, now);
      r := ReturnObject(reply);
    }

    /** `convertAsArray`: the raw `{key, data}` pair. */
    method ConvertAsArray(from: CurrencyCode, to: CurrencyCode, amount: Option<Float>, toDate: Option<Date>,
                          places: Option<int>, source: Option<BankSource>, now: int)
      returns (r: Result<Json, Error>)
      requires requestService.Valid()
      modifies requestService
      ensures requestService.Valid()
      ensures var ps := Query(from, to, amount, toDate, places, source);
        var out := CachedRequest.Serve(old(requestService.State()), requestService.requestService, requestService.acceptsKey,
                                       CachedRequest.Convert, [], Some(ps), true, ConvertCurrencyResponse.FromJson, now);
        r == ReturnArray(out.0) && requestService.State() == out.1
    {
      var q := CreteQueryParameters(from, to, amount, toDate, places, source);
      var reply := requestService.GetConvertCurrency(q, true, now);
      r := ReturnArray(reply);
    }
  }
}
