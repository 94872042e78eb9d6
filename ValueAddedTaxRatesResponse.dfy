/** The `ValueAddedTaxRates` aggregate: one set of VAT tiers per country. */
module ValueAddedTaxRatesResponse {
  import opened Wrappers
  import opened Errors
  import opened Php
  import opened CountryCodes
  import opened ValueObjects
  import Collections

  datatype ValueAddedTaxRates = ValueAddedTaxRates(taxRates: seq<ValueAddedTaxRate>)
  {
    /** `getTaxRate`: the first stored tiers for the country, or None (PHP null). */
    method GetTaxRate(c: CountryCode) returns (r: Option<ValueAddedTaxRate>)
      ensures r == Collections.First(taxRates, TaxRateCountry, c)
    {
      r := Collections.Find(taxRates, TaxRateCountry, c);
    }
  }

  function Entries(j: Json): seq<(Key, Json)>
  {
    Members(Index(j, "rates"))
  }

  /** `createFromResponse`, with any failure reported as a RequestServiceException for `ValueAddedTaxRates`. */
  function FromJson(j: Json): (r: Result<ValueAddedTaxRates, Error>)
    ensures r.Success? <==>
              forall i :: 0 <= i < |Entries(j)| ==>
                CountryCodes.FromKey(Entries(j)[i].0).Success? && TaxTiersWellTyped(Entries(j)[i].1)
    ensures r.Success? ==>
              && |r.value.taxRates| == |Entries(j)|
              && forall i :: 0 <= i < |Entries(j)| ==>
                   var e, t := Entries(j)[i], r.value.taxRates[i];
                   && e.0 == CountryKey(t.countryCode)
                   && Index(e.1, "standard_rate") == JInt(t.standardRate)
                   && Index(e.1, "reduced_rates") == t.reducedRates
                   && Index(e.1, "super_reduced_rates") == t.superReducedRates
                   && Index(e.1, "parking_rates") == t.parkingRates
    ensures r.Failure? ==> r.error == ResponseException("ValueAddedTaxRates")
  {
    match Collections.All(Entries(j), TaxRateEntry)
    case Success(taxRates) => Success(ValueAddedTaxRates(taxRates))
    case Failure(_) => Failure(ResponseException("ValueAddedTaxRates"))
  }

  /** `createFromResponse`: the parse loop over `rates`. */
  method CreateFromResponse(j: Json) returns (r: Result<ValueAddedTaxRates, Error>)
    ensures r == FromJson(j)
  {
    var taxRates := Collections.Collect(Entries(j), TaxRateEntry);
    if taxRates.Failure? {
      return Failure(ResponseException("ValueAddedTaxRates"));
    }
    return Success(ValueAddedTaxRates(taxRates.value));
  }

  /** An empty `rates` object, and equally a payload with no `rates` at all, parse to no tax rates. */
  lemma NoEntriesGiveNoTaxRates(j: Json)
    requires Index(j, "rates") == JObject([]) || Index(j, "rates") == JNull
    ensures FromJson(j) == Success(ValueAddedTaxRates([]))
  {
    assert Entries(j) == [];
  }

  /** A standard rate that is not an integer (a float such as 20.0, say) makes the whole parse fail. */
  lemma NonIntegerStandardRateFails(j: Json, i: nat)
    requires i < |Entries(j)| && !Index(Entries(j)[i].1, "standard_rate").JInt?
    ensures FromJson(j) == Failure(ResponseException("ValueAddedTaxRates"))
  {
    assert !TaxTiersWellTyped(Entries(j)[i].1);
  }

  /** `getTaxRate(c)` on a parsed payload finds the first `rates` entry keyed by c's value. */
  lemma GetTaxRateFindsPayloadEntry(j: Json, c: CountryCode)
    requires FromJson(j).Success?
    ensures var found := Collections.First(FromJson(j).value.taxRates, TaxRateCountry, c);
      && (found.None? <==> forall i :: 0 <= i < |Entries(j)| ==> Entries(j)[i].0 != CountryKey(c))
      && (found.Some? ==> exists i :: 0 <= i < |Entries(j)| && Entries(j)[i].0 == CountryKey(c) &&
                                     FromJson(j).value.taxRates[i] == found.value &&
                                     (forall k :: 0 <= k < i ==> Entries(j)[k].0 != CountryKey(c)) &&
                                     Index(Entries(j)[i].1, "standard_rate") == JInt(found.value.standardRate))
  {
    FirstTaxRateFindsEntry(Entries(j), FromJson(j).value.taxRates, c);
  }
}
