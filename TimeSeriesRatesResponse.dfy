/**
 * The `TimeSeriesRates` aggregate. Its parser treats every key of `rates` as a
 * currency code and every value as a rate, the same loop as `Rates`.
 */
module TimeSeriesRatesResponse {
  import opened Wrappers
  import opened Errors
  import opened Php
  import opened CurrencyCodes
  import opened ValueObjects
  import Collections

  datatype TimeSeriesRates = TimeSeriesRates(baseCurrency: CurrencyCode, startDate: Date, endDate: Date, rates: seq<Rate>)
  {
    /** `getRate`: the first stored rate for the currency, or None (PHP null) when there is none. */
    method GetRate(c: CurrencyCode) returns (r: Option<Rate>)
      ensures r == Collections.First(rates, RateCurrency, c)
    {
      r := Collections.Find(rates, RateCurrency, c);
    }
  }

  function Entries(j: Json): seq<(Key, Json)>
  {
    Members(Index(j, "rates"))
  }

  /** `createFromResponse`, with any failure reported as a RequestServiceException for `TimeSeriesRates`. */
  function FromJson(j: Json): (r: Result<TimeSeriesRates, Error>)
    ensures r.Success? <==>
              && (forall i :: 0 <= i < |Entries(j)| ==> RateEntry(Entries(j)[i]).Success?)
              && CurrencyCodes.FromJson(Index(j, "base")).Success?
              && ParseDate(Index(j, "start_date")).Success?
              && ParseDate(Index(j, "end_date")).Success?
    ensures r.Success? ==>
              && |r.value.rates| == |Entries(j)|
              && (forall i :: 0 <= i < |Entries(j)| ==>
                    && Entries(j)[i].0 == StrKey(r.value.rates[i].currencyCode.Value())
                    && ToFloat(Entries(j)[i].1) == Success(r.value.rates[i].rate))
              && Index(j, "base") == JString(r.value.baseCurrency.Value())
              && ParseDate(Index(j, "start_date")) == Success(r.value.startDate)
              && ParseDate(Index(j, "end_date")) == Success(r.value.endDate)
    ensures r.Failure? ==> r.error == ResponseException("TimeSeriesRates")
  {
    var rates := Collections.All(Entries(j), RateEntry);
    var base := CurrencyCodes.FromJson(Index(j, "base"));
    var start := ParseDate(Index(j, "start_date"));
    var end := ParseDate(Index(j, "end_date"));
    if rates.Success? && base.Success? && start.Success? && end.Success? then
      Success(TimeSeriesRates(base.value, start.value, end.value, rates.value))
    else
      Failure(ResponseException("TimeSeriesRates"))
  }

  /** `createFromResponse`: the parse loop over `rates`, then the base and both dates. */
  method CreateFromResponse(j: Json) returns (r: Result<TimeSeriesRates, Error>)
    ensures r == FromJson(j)
  {
    var rates := Collections.Collect(Entries(j), RateEntry);
    var base := CurrencyCodes.FromJson(Index(j, "base"));
    var start := ParseDate(Index(j, "start_date"));
    var end := ParseDate(Index(j, "end_date"));
    if rates.Failure? || base.Failure? || start.Failure? || end.Failure? {
      return Failure(ResponseException("TimeSeriesRates"));
    }
    return Success(TimeSeriesRates(base.value, start.value, end.value, rates.value));
  }

  /**
   * A payload shaped as the API sends a time series, with dates as the keys of
   * `rates` and a currency-to-rate object under each, cannot be parsed: a date is
   * not a currency code, and an object is not a rate.
   */
  lemma DateKeyedRatesFail(j: Json, i: nat)
    requires i < |Entries(j)|
    requires (Entries(j)[i].0.StrKey? && YmdShaped(Entries(j)[i].0.s)) || Entries(j)[i].1.JObject?
    ensures FromJson(j) == Failure(ResponseException("TimeSeriesRates"))
  {
    if Entries(j)[i].0.StrKey? && YmdShaped(Entries(j)[i].0.s) {
      assert |Entries(j)[i].0.s| == 10;
    }
    assert RateEntry(Entries(j)[i]).Failure?;
  }

  /** `getRate(c)` on a parsed payload finds the rate of the first `rates` entry keyed by c's value. */
  lemma GetRateFindsPayloadEntry(j: Json, c: CurrencyCode)
    requires FromJson(j).Success?
    ensures var found := Collections.First(FromJson(j).value.rates, RateCurrency, c);
      && (found.None? <==> forall i :: 0 <= i < |Entries(j)| ==> Entries(j)[i].0 != StrKey(c.Value()))
      && (found.Some? ==> exists i :: 0 <= i < |Entries(j)| && Entries(j)[i].0 == StrKey(c.Value()) &&
                                     FromJson(j).value.rates[i] == found.value &&
                                     (forall k :: 0 <= k < i ==> Entries(j)[k].0 != StrKey(c.Value())) &&
                                     ToFloat(Entries(j)[i].1) == Success(found.value.rate))
  {
    FirstRateFindsEntry(Entries(j), FromJson(j).value.rates, c);
  }
}
