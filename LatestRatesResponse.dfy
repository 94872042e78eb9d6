/**
 * The `LatestRates` aggregate that the uncached request service builds. Unlike the
 * other aggregates it wraps nothing: a PHP error raised while parsing propagates.
 */
module LatestRatesResponse {
  import opened Wrappers
  import opened Errors
  import opened Php
  import opened CurrencyCodes
  import opened ValueObjects
  import Collections

  datatype LatestRates = LatestRates(baseCurrency: CurrencyCode, updatedDate: Date, rates: seq<Rate>)
  {
    /** `getRate`: the first stored rate for the currency, or None (PHP null) when there is none. */
    method GetRate(c: CurrencyCode) returns (r: Option<Rate>)
      ensures r == Collections.First(rates, RateCurrency, c)
    {
      r := Collections.Find(rates, RateCurrency, c);
    }
  }

  function Entries(j: Json): seq<(Key, Json)>
  {
    Members(Index(j, "rates"))
  }

  /**
   * `createFromResponse`: the rates loop, then the base, then the `Y-m-d` date; the
   * first of these to throw decides the error, which is not wrapped.
   */
  function FromJson(j: Json): (r: Result<LatestRates, Error>)
    ensures r.Success? <==>
              && (forall i :: 0 <= i < |Entries(j)| ==> RateEntry(Entries(j)[i]).Success?)
              && CurrencyCodes.FromJson(Index(j, "base")).Success?
              && ParseDateFormatYmd(Index(j, "date")).Success?
    ensures r.Success? ==>
              && |r.value.rates| == |Entries(j)|
              && (forall i :: 0 <= i < |Entries(j)| ==>
                    && Entries(j)[i].0 == StrKey(r.value.rates[i].currencyCode.Value())
                    && ToFloat(Entries(j)[i].1) == Success(r.value.rates[i].rate))
              && Index(j, "base") == JString(r.value.baseCurrency.Value())
              && ParseYmd(Index(j, "date").s) == Some(r.value.updatedDate)
    ensures r.Failure? ==> r.error.Thrown?
    ensures r.Failure? && Collections.All(Entries(j), RateEntry).Failure? ==>
              r.error == Thrown(Collections.All(Entries(j), RateEntry).error)
  {
    var rates :- Throw(Collections.All(Entries(j), RateEntry));
    var base :- Throw(CurrencyCodes.FromJson(Index(j, "base")));
    var date :- Throw(ParseDateFormatYmd(Index(j, "date")));
    Success(LatestRates(base, date, rates))
  }

  /** `createFromResponse`: the parse loop over `rates`, then the base and the date. */
  method CreateFromResponse(j: Json) returns (r: Result<LatestRates, Error>)
    ensures r == FromJson(j)
  {
    var rates := Collections.Collect(Entries(j), RateEntry);
    if rates.Failure? {
      return Failure(Thrown(rates.error));
    }
    var base := CurrencyCodes.FromJson(Index(j, "base"));
    if base.Failure? {
      return Failure(Thrown(base.error));
    }
    var date := ParseDateFormatYmd(Index(j, "date"));
    if date.Failure? {
      return Failure(Thrown(date.error));
    }
    return Success(LatestRates(base.value, date.value, rates.value));
  }

  /** A `date` not in `Y-m-d` form fails with the TypeError of passing false as the date. */
  lemma MisshapedDateIsTypeError(j: Json)
    requires Collections.All(Entries(j), RateEntry).Success? && CurrencyCodes.FromJson(Index(j, "base")).Success?
    requires !(Index(j, "date").JString? && YmdShaped(Index(j, "date").s))
    ensures FromJson(j) == Failure(Thrown(TypeError))
  {
  }

  /** An unknown code among the `rates` keys surfaces as the enum's own ValueError. */
  lemma UnknownCodeIsValueError(j: Json, i: nat)
    requires i < |Entries(j)| && Entries(j)[i].0.StrKey?
    requires !(Entries(j)[i].0.s in {"EUR", "USD", "CZK"})
    requires forall k :: 0 <= k < i ==> RateEntry(Entries(j)[k]).Success?
    ensures FromJson(j) == Failure(Thrown(ValueError))
  {
    assert RateEntry(Entries(j)[i]) == Failure(ValueError);
  }

  /** `getRate(c)` on a parsed payload finds the rate of the first `rates` entry keyed by c's value. */
  lemma GetRateFindsPayloadEntry(j: Json, c: CurrencyCode)
    requires FromJson(j).Success?
    ensures var found := Collections.First(FromJson(j).value.rates, RateCurrency, c);
      && (found.None? <==> forall i :: 0 <= i < |Entries(j)| ==> Entries(j)[i].0 != StrKey(c.Value()))
      && (found.Some? ==> exists i :: 0 <= i < |Entries(j)| && Entries(j)[i].0 == StrKey(c.Value()) &&
                                     FromJson(j).value.rates[i] == found.value &&
                                     (forall k :: 0 <= k < i ==> Entries(j)[k].0 != StrKey(c.Value())) &&
                                     ToFloat(Entries(j)[i].1) == Success(found.value.rate))
  {
    FirstRateFindsEntry(Entries(j), FromJson(j).value.rates, c);
  }
}
