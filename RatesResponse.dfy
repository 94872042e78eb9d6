/** The `Rates` aggregate: latest or historical rates against one base currency. */
module RatesResponse {
  import opened Wrappers
  import opened Errors
  import opened Php
  import opened CurrencyCodes
  import opened ValueObjects
  import Collections

  datatype Rates = Rates(baseCurrency: CurrencyCode, updatedDate: Date, rates: seq<Rate>, historical: bool)
  {
    /** `getRate`: the first stored rate for the currency, or None (PHP null) when there is none. */
    method GetRate(c: CurrencyCode) returns (r: Option<Rate>)
      ensures r == Collections.First(rates, RateCurrency, c)
    {
      r := Collections.Find(rates, RateCurrency, c);
    }
  }

  /** The entries `foreach` visits in the payload's `rates`. */
  function Entries(j: Json): seq<(Key, Json)>
  {
    Members(Index(j, "rates"))
  }

  /** `$responseArray['historical'] ?: false` passed to the bool parameter. */
  function Historical(h: Json): (r: Result<bool, Cause>)
    ensures r.Success? <==> !Truthy(h) || h == JBool(true)
    ensures r.Success? ==> (r.value <==> Truthy(h))
    ensures r.Failure? ==> r.error == TypeError
  {
    if Truthy(h) then ToBool(h) else Success(false)
  }

  /** `createFromResponse`, with any failure reported as a RequestServiceException for `Rates`. */
  function FromJson(j: Json): (r: Result<Rates, Error>)
    ensures r.Success? <==>
              && (forall i :: 0 <= i < |Entries(j)| ==> RateEntry(Entries(j)[i]).Success?)
              && CurrencyCodes.FromJson(Index(j, "base")).Success?
              && ParseDate(Index(j, "date")).Success?
              && Historical(Index(j, "historical")).Success?
    ensures r.Success? ==>
              && |r.value.rates| == |Entries(j)|
              && (forall i :: 0 <= i < |Entries(j)| ==>
                    && Entries(j)[i].0 == StrKey(r.value.rates[i].currencyCode.Value())
                    && ToFloat(Entries(j)[i].1) == Success(r.value.rates[i].rate))
              && Index(j, "base") == JString(r.value.baseCurrency.Value())
              && ParseDate(Index(j, "date")) == Success(r.value.updatedDate)
              && (r.value.historical <==> Truthy(Index(j, "historical")))
    ensures r.Failure? ==> r.error == ResponseException("Rates")
  {
    var rates := Collections.All(Entries(j), RateEntry);
    var base := CurrencyCodes.FromJson(Index(j, "base"));
    var date := ParseDate(Index(j, "date"));
    var historical := Historical(Index(j, "historical"));
    if rates.Success? && base.Success? && date.Success? && historical.Success? then
      Success(Rates(base.value, date.value, rates.value, historical.value))
    else
      Failure(ResponseException("Rates"))
  }

  /** `createFromResponse`: the parse loop over `rates`, then the base, the date and the flag. */
  method CreateFromResponse(j: Json) returns (r: Result<Rates, Error>)
    ensures r == FromJson(j)
  {
    var rates := Collections.Collect(Entries(j), RateEntry);
    var base := CurrencyCodes.FromJson(Index(j, "base"));
    var date := ParseDate(Index(j, "date"));
    var historical := Historical(Index(j, "historical"));
    if rates.Failure? || base.Failure? || date.Failure? || historical.Failure? {
      return Failure(ResponseException("Rates"));
    }
    return Success(Rates(base.value, date.value, rates.value, historical.value));
  }

  /** An entry whose key is not a currency code, or a base that is not one, makes the whole parse fail. */
  lemma UnknownCodeFails(j: Json, i: nat)
    requires i < |Entries(j)| && !(Entries(j)[i].0 in {StrKey("EUR"), StrKey("USD"), StrKey("CZK")})
    ensures FromJson(j) == Failure(ResponseException("Rates"))
  {
    assert RateEntry(Entries(j)[i]).Failure?;
  }

  /** A payload without a `rates` member parses to an aggregate with no rates (PHP only warns). */
  lemma MissingRatesGiveNoRates(j: Json)
    requires Index(j, "rates") == JNull && FromJson(j).Success?
    ensures FromJson(j).value.rates == []
  {
  }

  /**
   * `getRate(c)` on a parsed payload finds the rate of the first `rates` entry keyed
   * by c's value, and nothing when no entry has that key.
   */
  lemma GetRateFindsPayloadEntry(j: Json, c: CurrencyCode)
    requires FromJson(j).Success?
    ensures var found := Collections.First(FromJson(j).value.rates, RateCurrency, c);
      && (found.None? <==> forall i :: 0 <= i < |Entries(j)| ==> Entries(j)[i].0 != StrKey(c.Value()))
      && (found.Some? ==> exists i :: 0 <= i < |Entries(j)| && Entries(j)[i].0 == StrKey(c.Value()) &&
                                     FromJson(j).value.rates[i] == found.value &&
                                     (forall k :: 0 <= k < i ==> Entries(j)[k].0 != StrKey(c.Value())) &&
                                     ToFloat(Entries(j)[i].1) == Success(found.value.rate))
  {
    FirstRateFindsEntry(Entries(j), FromJson(j).value.rates, c);
  }
}
