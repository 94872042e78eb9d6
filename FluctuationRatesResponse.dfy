/**
 * The `FluctuationRates` aggregate: how each currency moved between two dates.
 * The base currency is the caller's, never read from the payload, and no entry is
 * filtered out, not even the base currency's own.
 */
module FluctuationRatesResponse {
  import opened Wrappers
  import opened Errors
  import opened Php
  import opened CurrencyCodes
  import opened ValueObjects
  import Collections

  datatype FluctuationRates = FluctuationRates(
    baseCurrency: CurrencyCode,
    startDate: Date,
    endDate: Date,
    fluctuationRates: seq<FluctuationRate>)
  {
    /** `getFluctuationRate`: the first stored entry for the currency, or None (PHP null). */
    method GetFluctuationRate(c: CurrencyCode) returns (r: Option<FluctuationRate>)
      ensures r == Collections.First(fluctuationRates, FluctuationCurrency, c)
    {
      r := Collections.Find(fluctuationRates, FluctuationCurrency, c);
    }
  }

  function Entries(j: Json): seq<(Key, Json)>
  {
    Members(Index(j, "rates"))
  }

  /**
   * `createFromResponseAndBaseCurrency`, with any failure reported as a
   * RequestServiceException for `FluctuationRates`.
   */
  function FromJson(j: Json, base: CurrencyCode): (r: Result<FluctuationRates, Error>)
    ensures r.Success? <==>
              && (forall i :: 0 <= i < |Entries(j)| ==>
                    CurrencyCodes.FromKey(Entries(j)[i].0).Success? && FluctuationFieldsNumeric(Entries(j)[i].1))
              && ParseDate(Index(j, "start_date")).Success?
              && ParseDate(Index(j, "end_date")).Success?
    ensures r.Success? ==>
              && r.value.baseCurrency == base
              && |r.value.fluctuationRates| == |Entries(j)|
              && (forall i :: 0 <= i < |Entries(j)| ==>
                    var e, f := Entries(j)[i], r.value.fluctuationRates[i];
                    && e.0 == CurrencyKey(f.currencyCode)
                    && ToFloat(Index(e.1, "start_rate")) == Success(f.startValue)
                    && ToFloat(Index(e.1, "end_rate")) == Success(f.endValue)
                    && ToFloat(Index(e.1, "change")) == Success(f.changeValue)
                    && ToFloat(Index(e.1, "change_pct")) == Success(f.changePercentageValue))
              && ParseDate(Index(j, "start_date")) == Success(r.value.startDate)
              && ParseDate(Index(j, "end_date")) == Success(r.value.endDate)
    ensures r.Failure? ==> r.error == ResponseException("FluctuationRates")
  {
    var rates := Collections.All(Entries(j), FluctuationEntry);
    var start := ParseDate(Index(j, "start_date"));
    var end := ParseDate(Index(j, "end_date"));
    if rates.Success? && start.Success? && end.Success? then
      Success(FluctuationRates(base, start.value, end.value, rates.value))
    else
      Failure(ResponseException("FluctuationRates"))
  }

  /** `createFromResponseAndBaseCurrency`: the parse loop over `rates`, then both dates. */
  method CreateFromResponseAndBaseCurrency(j: Json, base: CurrencyCode) returns (r: Result<FluctuationRates, Error>)
    ensures r == FromJson(j, base)
  {
    var rates := Collections.Collect(Entries(j), FluctuationEntry);
    var start := ParseDate(Index(j, "start_date"));
    var end := ParseDate(Index(j, "end_date"));
    if rates.Failure? || start.Failure? || end.Failure? {
      return Failure(ResponseException("FluctuationRates"));
    }
    return Success(FluctuationRates(base, start.value, end.value, rates.value));
  }

  /** The payload's own `base` member plays no part: the same payload parses alike under any value of it. */
  lemma BaseIgnoresPayload(j: Json, base: CurrencyCode, other: Json)
    requires j.JObject?
    ensures FromJson(JObject([("base", other)] + j.members), base) == FromJson(j, base)
  {
    var j' := JObject([("base", other)] + j.members);
    assert j'.members[1..] == j.members;
    assert "rates"[0] != "base"[0] && "start_date"[1] != "base"[1] && "end_date"[0] != "base"[0];
    assert Index(j', "rates") == Index(j, "rates");
    assert Index(j', "start_date") == Index(j, "start_date");
    assert Index(j', "end_date") == Index(j, "end_date");
  }

  /** An entry for the base currency itself is kept, at its payload position. */
  lemma BaseEntryKept(j: Json, base: CurrencyCode, i: nat)
    requires FromJson(j, base).Success? && i < |Entries(j)| && Entries(j)[i].0 == CurrencyKey(base)
    ensures FromJson(j, base).value.fluctuationRates[i].currencyCode == base
  {
    CurrencyKeyInjective();
  }

  /** An entry missing one of the four numeric fields makes the whole parse fail. */
  lemma MissingFieldFails(j: Json, base: CurrencyCode, i: nat, field: string)
    requires i < |Entries(j)| && field in {"start_rate", "end_rate", "change", "change_pct"}
    requires Index(Entries(j)[i].1, field) == JNull
    ensures FromJson(j, base) == Failure(ResponseException("FluctuationRates"))
  {
    assert !FluctuationFieldsNumeric(Entries(j)[i].1);
  }

  /** `getFluctuationRate(c)` on a parsed payload finds the first `rates` entry keyed by c's value. */
  lemma GetFluctuationRateFindsPayloadEntry(j: Json, base: CurrencyCode, c: CurrencyCode)
    requires FromJson(j, base).Success?
    ensures var found := Collections.First(FromJson(j, base).value.fluctuationRates, FluctuationCurrency, c);
      && (found.None? <==> forall i :: 0 <= i < |Entries(j)| ==> Entries(j)[i].0 != CurrencyKey(c))
      && (found.Some? ==> exists i :: 0 <= i < |Entries(j)| && Entries(j)[i].0 == CurrencyKey(c) &&
                                     FromJson(j, base).value.fluctuationRates[i] == found.value &&
                                     (forall k :: 0 <= k < i ==> Entries(j)[k].0 != CurrencyKey(c)) &&
                                     ToFloat(Index(Entries(j)[i].1, "change")) == Success(found.value.changeValue))
  {
    FirstFluctuationFindsEntry(Entries(j), FromJson(j, base).value.fluctuationRates, c);
  }
}
