/**
 * The value objects the aggregates hold, and how one `rates` entry of a payload
 * becomes one of them. Typed constructor parameters are checked under strict
 * types: a float parameter takes an int or a float, an int parameter only an
 * int, an array parameter only a list or an object.
 */
module ValueObjects {
  import opened Wrappers
  import opened Errors
  import opened Php
  import opened CurrencyCodes
  import opened CountryCodes
  import Collections

  /** `Rate`: one currency's rate. */
  datatype Rate = Rate(currencyCode: CurrencyCode, rate: Float)

  /** `FluctuationRate`: how one currency moved between two dates. */
  datatype FluctuationRate = FluctuationRate(
    currencyCode: CurrencyCode,
    startValue: Float,
    endValue: Float,
    changeValue: Float,
    changePercentageValue: Float)

  /** `ValueAddedTaxRate`: one country's VAT tiers; the tier lists are kept as the payload gave them. */
  datatype ValueAddedTaxRate = ValueAddedTaxRate(
    countryCode: CountryCode,
    standardRate: int,
    reducedRates: Json,
    superReducedRates: Json,
    parkingRates: Json)

  function RateCurrency(r: Rate): CurrencyCode { r.currencyCode }

  function FluctuationCurrency(r: FluctuationRate): CurrencyCode { r.currencyCode }

  function TaxRateCountry(r: ValueAddedTaxRate): CountryCode { r.countryCode }

  /** `new Rate(CurrencyCode::from($currency), $rate)` for one `rates` entry. */
  function RateEntry(e: (Key, Json)): (r: Result<Rate, Cause>)
    ensures r.Success? <==> CurrencyCodes.FromKey(e.0).Success? && ToFloat(e.1).Success?
    ensures r.Success? ==> e.0 == StrKey(r.value.currencyCode.Value()) && ToFloat(e.1) == Success(r.value.rate)
    ensures r.Failure? && CurrencyCodes.FromKey(e.0).Failure? ==> r.error == CurrencyCodes.FromKey(e.0).error
    ensures r.Failure? && CurrencyCodes.FromKey(e.0).Success? ==> r.error == TypeError
  {
    var code :- CurrencyCodes.FromKey(e.0);
    var rate :- ToFloat(e.1);
    Success(Rate(code, rate))
  }

  /** The four numeric fields of a fluctuation entry, each converted for a float parameter. */
  predicate FluctuationFieldsNumeric(j: Json)
  {
    && ToFloat(Index(j, "start_rate")).Success?
    && ToFloat(Index(j, "end_rate")).Success?
    && ToFloat(Index(j, "change")).Success?
    && ToFloat(Index(j, "change_pct")).Success?
  }

  /**
   * `new FluctuationRate(...)` for one `rates` entry: the code from the key and
   * `start_rate`, `end_rate`, `change`, `change_pct` from the entry's fields.
   */
  function FluctuationEntry(e: (Key, Json)): (r: Result<FluctuationRate, Cause>)
    ensures r.Success? <==> CurrencyCodes.FromKey(e.0).Success? && FluctuationFieldsNumeric(e.1)
    ensures r.Success? ==>
              && e.0 == StrKey(r.value.currencyCode.Value())
              && ToFloat(Index(e.1, "start_rate")) == Success(r.value.startValue)
              && ToFloat(Index(e.1, "end_rate")) == Success(r.value.endValue)
              && ToFloat(Index(e.1, "change")) == Success(r.value.changeValue)
              && ToFloat(Index(e.1, "change_pct")) == Success(r.value.changePercentageValue)
    ensures r.Failure? && CurrencyCodes.FromKey(e.0).Failure? ==> r.error == CurrencyCodes.FromKey(e.0).error
    ensures r.Failure? && CurrencyCodes.FromKey(e.0).Success? ==> r.error == TypeError
  {
    var code :- CurrencyCodes.FromKey(e.0);
    var start :- ToFloat(Index(e.1, "start_rate"));
    var end :- ToFloat(Index(e.1, "end_rate"));
    var change :- ToFloat(Index(e.1, "change"));
    var changePct :- ToFloat(Index(e.1, "change_pct"));
    Success(FluctuationRate(code, start, end, change, changePct))
  }

  /** The tier fields of a VAT entry: an integer standard rate and three arrays. */
  predicate TaxTiersWellTyped(j: Json)
  {
    && ToInt(Index(j, "standard_rate")).Success?
    && ToArray(Index(j, "reduced_rates")).Success?
    && ToArray(Index(j, "super_reduced_rates")).Success?
    && ToArray(Index(j, "parking_rates")).Success?
  }

  /**
   * `new ValueAddedTaxRate(...)` for one `rates` entry: the country from the key,
   * the tiers copied unchanged from the entry's fields.
   */
  function TaxRateEntry(e: (Key, Json)): (r: Result<ValueAddedTaxRate, Cause>)
    ensures r.Success? <==> CountryCodes.FromKey(e.0).Success? && TaxTiersWellTyped(e.1)
    ensures r.Success? ==>
              && e.0 == StrKey(r.value.countryCode.Value())
              && Index(e.1, "standard_rate") == JInt(r.value.standardRate)
              && Index(e.1, "reduced_rates") == r.value.reducedRates
              && Index(e.1, "super_reduced_rates") == r.value.superReducedRates
              && Index(e.1, "parking_rates") == r.value.parkingRates
    ensures r.Failure? && CountryCodes.FromKey(e.0).Failure? ==> r.error == CountryCodes.FromKey(e.0).error
    ensures r.Failure? && CountryCodes.FromKey(e.0).Success? ==> r.error == TypeError
  {
    var country :- CountryCodes.FromKey(e.0);
    var standard :- ToInt(Index(e.1, "standard_rate"));
    var reduced :- ToArray(Index(e.1, "reduced_rates"));
    var superReduced :- ToArray(Index(e.1, "super_reduced_rates"));
    var parking :- ToArray(Index(e.1, "parking_rates"));
    Success(ValueAddedTaxRate(country, standard, reduced, superReduced, parking))
  }

  /** The array key a payload uses for a currency. */
  function CurrencyKey(c: CurrencyCode): Key { StrKey(c.Value()) }

  /** The array key a payload uses for a country. */
  function CountryKey(c: CountryCode): Key { StrKey(c.Value()) }

  /** Distinct currencies are keyed differently, so a key names one currency. */
  lemma CurrencyKeyInjective()
    ensures forall a, b :: CurrencyKey(a) == CurrencyKey(b) ==> a == b
  {
    forall a, b | CurrencyKey(a) == CurrencyKey(b)
      ensures a == b
    {
      assert CurrencyCodes.From(a.Value()) == CurrencyCodes.From(b.Value());
    }
  }

  /** Distinct countries are keyed differently, so a key names one country. */
  lemma CountryKeyInjective()
    ensures forall a, b :: CountryKey(a) == CountryKey(b) ==> a == b
  {
    forall a, b | CountryKey(a) == CountryKey(b)
      ensures a == b
    {
      assert CountryCodes.From(a.Value()) == CountryCodes.From(b.Value());
    }
  }

  /**
   * Rates read one-to-one from `rates` entries: the first rate for c is None exactly
   * when no entry is keyed by c, and otherwise it was read from an entry keyed by c.
   */
  lemma FirstRateFindsEntry(es: seq<(Key, Json)>, rates: seq<Rate>, c: CurrencyCode)
    requires |rates| == |es|
    requires forall i :: 0 <= i < |es| ==>
               es[i].0 == CurrencyKey(rates[i].currencyCode) && ToFloat(es[i].1) == Success(rates[i].rate)
    ensures var found := Collections.First(rates, RateCurrency, c);
      && (found.None? <==> forall i :: 0 <= i < |es| ==> es[i].0 != CurrencyKey(c))
      && (found.Some? ==> exists i :: 0 <= i < |es| && es[i].0 == CurrencyKey(c) &&
                                     rates[i] == found.value && (forall k :: 0 <= k < i ==> es[k].0 != CurrencyKey(c)) &&
                                     ToFloat(es[i].1) == Success(found.value.rate))
  {
    assert forall i :: 0 <= i < |rates| ==> es[i].0 == CurrencyKey(RateCurrency(rates[i]));
    CurrencyKeyInjective();
    Collections.FirstMatchesTags(es, rates, RateCurrency, CurrencyKey, c);
  }

  /** The same for fluctuation rates, whose entries carry the change under `change`. */
  lemma FirstFluctuationFindsEntry(es: seq<(Key, Json)>, rates: seq<FluctuationRate>, c: CurrencyCode)
    requires |rates| == |es|
    requires forall i :: 0 <= i < |es| ==>
               es[i].0 == CurrencyKey(rates[i].currencyCode) &&
               ToFloat(Index(es[i].1, "change")) == Success(rates[i].changeValue)
    ensures var found := Collections.First(rates, FluctuationCurrency, c);
      && (found.None? <==> forall i :: 0 <= i < |es| ==> es[i].0 != CurrencyKey(c))
      && (found.Some? ==> exists i :: 0 <= i < |es| && es[i].0 == CurrencyKey(c) &&
                                     rates[i] == found.value && (forall k :: 0 <= k < i ==> es[k].0 != CurrencyKey(c)) &&
                                     ToFloat(Index(es[i].1, "change")) == Success(found.value.changeValue))
  {
    assert forall i :: 0 <= i < |rates| ==> es[i].0 == CurrencyKey(FluctuationCurrency(rates[i]));
    CurrencyKeyInjective();
    Collections.FirstMatchesTags(es, rates, FluctuationCurrency, CurrencyKey, c);
  }

  /** The same for VAT tiers, keyed by country, whose entries carry the standard rate. */
  lemma FirstTaxRateFindsEntry(es: seq<(Key, Json)>, rates: seq<ValueAddedTaxRate>, c: CountryCode)
    requires |rates| == |es|
    requires forall i :: 0 <= i < |es| ==>
               es[i].0 == CountryKey(rates[i].countryCode) &&
               Index(es[i].1, "standard_rate") == JInt(rates[i].standardRate)
    ensures var found := Collections.First(rates, TaxRateCountry, c);
      && (found.None? <==> forall i :: 0 <= i < |es| ==> es[i].0 != CountryKey(c))
      && (found.Some? ==> exists i :: 0 <= i < |es| && es[i].0 == CountryKey(c) &&
                                     rates[i] == found.value && (forall k :: 0 <= k < i ==> es[k].0 != CountryKey(c)) &&
                                     Index(es[i].1, "standard_rate") == JInt(found.value.standardRate))
  {
    assert forall i :: 0 <= i < |rates| ==> es[i].0 == CountryKey(TaxRateCountry(rates[i]));
    CountryKeyInjective();
    Collections.FirstMatchesTags(es, rates, TaxRateCountry, CountryKey, c);
  }
}
