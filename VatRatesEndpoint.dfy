/**
 * `VatRatesEndpoint`: European Union VAT rates through the caching request
 * service, filtered by country.
 */
module VatRatesEndpoint {
  import opened Wrappers
  import opened Errors
  import opened Php
  import opened CountryCodes
  import opened Query
  import opened Replies
  import opened ValueObjects
  import Collections
  import ValueAddedTaxRatesResponse
  import CachedRequest

  /** The parameters `createQueryParameters` stores: only `symbols`, every country when none are given. */
  function VatQuery(countries: Option<seq<CountryCode>>): (ps: Params)
    ensures UniqueNames(ps) && NoNulls(ps)
    ensures countries.None? ==> Lookup(ps, "symbols") == Some(Str("SK,CZ"))
    ensures countries.Some? ==> Lookup(ps, "symbols") == Some(Str(ValuesOfCollection(countries.value)))
    ensures forall name :: name != "symbols" ==> !HasName(ps, name)
  {
    match countries
    case None => [("symbols", Str(AllValues()))]
    case Some(codes) => [("symbols", Str(ValuesOfCollection(codes)))]
  }

  /**
   * The endpoint holds the caching service, which implements every operation it
   * calls. The PHP constructor declares the concrete `RequestService` instead, a
   * type the caching service does not have and whose class lacks these operations.
   */
  class VatRatesEndpoint {
    const requestService: CachedRequest.CachedRequestService

    constructor(requestService: CachedRequest.CachedRequestService)
      ensures this.requestService == requestService
    {
      this.requestService := requestService;
    }

    /** `createQueryParameters`: a new builder holding exactly `VatQuery(countries)`. */
    method CreateQueryParameters(countries: Option<seq<CountryCode>>) returns (q: QueryParameters)
      ensures fresh(q) && q.Valid()
      ensures q.params == VatQuery(countries)
    {
      q := new QueryParameters();
      q := q.Add("symbols", Str(match countries case None => AllValues() case Some(codes) => ValuesOfCollection(codes)));
    }

    /** `getEuropeanUnionVatRates`: the VAT rates as the ValueAddedTaxRates object. */
    method GetEuropeanUnionVatRates(countries: Option<seq<CountryCode>>, now: int)
      returns (r: Result<ValueAddedTaxRatesResponse.ValueAddedTaxRates, Error>)
      requires requestService.Valid()
      modifies requestService
      ensures requestService.Valid()
      ensures var out := CachedRequest.Serve(old(requestService.State()), requestService.requestService, requestService.acceptsKey,
                                       CachedRequest.ValueAddedTax, [], Some(VatQuery(countries)),
                                       false, ValueAddedTaxRatesResponse.FromJson, now);
        r == ReturnObject(out.0) && requestService.State() == out.1
    {
      var q := CreateQueryParameters(countries);
      var reply := requestService.GetValueAddedTaxRates(q, false, now);
      r := ReturnObject(reply);
    }

    /**
     * `getEuropeanUnionVatRatesAsArray`: the service parses even when asked for the
     * raw form, and the object it returns is not the `array` declared, so this
     * method never succeeds.
     */
    method GetEuropeanUnionVatRatesAsArray(countries: Option<seq<CountryCode>>, now: int)
      returns (r: Result<Json, Error>)
      requires requestService.Valid()
      modifies requestService
      ensures requestService.Valid()
      ensures var out := CachedRequest.Serve(old(requestService.State()), requestService.requestService, requestService.acceptsKey,
                                       CachedRequest.ValueAddedTax, [], Some(VatQuery(countries)),
                                       true, ValueAddedTaxRatesResponse.FromJson, now);
        r == ReturnArray(out.0) && requestService.State() == out.1
      ensures r.Failure?
      ensures r.error == Thrown(TypeError) || r.error.ServiceException? || r.error.ResponseException?
    {
      CachedRequest.ValueAddedTaxAlwaysParses(requestService.State(), requestService.requestService, requestService.acceptsKey,
                                              Some(VatQuery(countries)), ValueAddedTaxRatesResponse.FromJson, now);
      var q := CreateQueryParameters(countries);
      var reply := requestService.GetValueAddedTaxRates(q, true, now);
      r := ReturnArray(reply);
    }

    /** `getEuropeanUnionVatRate`: the rate of one country, asking for that country only. */
    method GetEuropeanUnionVatRate(countryCode: CountryCode, now: int)
      returns (r: Result<ValueAddedTaxRate, Error>)
      requires requestService.Valid()
      modifies requestService
      ensures requestService.Valid()
      ensures var out := CachedRequest.Serve(old(requestService.State()), requestService.requestService, requestService.acceptsKey,
                                       CachedRequest.ValueAddedTax, [], Some(VatQuery(Some([countryCode]))),
                                       false, ValueAddedTaxRatesResponse.FromJson, now);
        && requestService.State() == out.1
        && (ReturnObject(out.0).Failure? ==> r == Failure(ReturnObject(out.0).error))
        && (ReturnObject(out.0).Success? ==>
              r == ReturnRequired(Collections.First(ReturnObject(out.0).value.taxRates, TaxRateCountry, countryCode)))
    {
      var rates := GetEuropeanUnionVatRates(Some([countryCode]), now);
      if rates.Failure? {
        return Failure(rates.error);
      }
      var found := rates.value.GetTaxRate(countryCode);
      r := ReturnRequired(found);
    }
  }
}
