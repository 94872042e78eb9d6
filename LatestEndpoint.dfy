/**
 * `LatestEndpoint`: the latest rates over the uncached request service, parsed
 * as LatestRates. Unlike the rates façade, its amount is an integer.
 */
module LatestEndpoint {
  import opened Wrappers
  import opened Errors
  import opened Php
  import opened CurrencyCodes
  import opened Sources
  import opened Query
  import opened Replies
  import LatestRatesResponse
  import Request
  import RatesEndpoint

  class LatestEndpoint {
    const requestService: Request.RequestService
    const defaultCurrency: CurrencyCode
    const defaultBankSource: BankSource

    constructor(requestService: Request.RequestService, defaultCurrency: CurrencyCode, defaultBankSource: BankSource)
      ensures this.requestService == requestService
      ensures this.defaultCurrency == defaultCurrency && this.defaultBankSource == defaultBankSource
    {
      this.requestService := requestService;
      this.defaultCurrency := defaultCurrency;
      this.defaultBankSource := defaultBankSource;
    }

    /** The query for the given arguments: the rates query, with an integer amount. */
    function Query(base: Option<CurrencyCode>, symbols: Option<seq<CurrencyCode>>, amount: Option<int>,
                   places: Option<int>, source: Option<BankSource>): Params
    {
      RatesEndpoint.RatesQuery(base.GetOr(defaultCurrency), source.GetOr(defaultBankSource), symbols, places, OptionalInt(amount))
    }

    /** `createQueryParameters`: a new builder holding exactly `Query(...)`. */
    method CreateQueryParameters(base: Option<CurrencyCode>, symbols: Option<seq<CurrencyCode>>, amount: Option<int>,
                                 places: Option<int>, source: Option<BankSource>)
      returns (q: QueryParameters)
      ensures fresh(q) && q.Valid()
      ensures q.params == Query(base, symbols, amount, places, source)
    {
      var b, so := base.GetOr(defaultCurrency), source.GetOr(defaultBankSource);
      RatesEndpoint.RatesLayout(Str(b.Value()), Str(so.Value()), Str(RatesEndpoint.SymbolsText(symbols)), OptionalInt(places),
                                OptionalInt(amount));
      q := new QueryParameters();
      q := q.Add("base", Str(b.Value()));
      q := q.Add("source", Str(so.Value()));
      q := q.Add("symbols", Str(RatesEndpoint.SymbolsText(symbols)));
      q := q.Add("places", OptionalInt(places));
      q := q.Add("amount", OptionalInt(amount));
    }

    /**
     * `getRates`: one GET of `latest` with the query, parsed as LatestRates; any
     * transport or parse error reaches the caller unwrapped.
     */
    method GetRates(base: Option<CurrencyCode>, symbols: Option<seq<CurrencyCode>>, amount: Option<int>,
                    places: Option<int>, source: Option<BankSource>)
      returns (r: Result<LatestRatesResponse.LatestRates, Error>)
      ensures var body := requestService.client(requestService.server.Value() + "/" + Request.LatestPath,
                                                [("query", Query(base, symbols, amount, places, source))]);
        && (body.Failure? ==> r == Failure(Thrown(body.error)))
        && (body.Success? ==> r == LatestRatesResponse.FromJson(body.value))
    {
      var q := CreateQueryParameters(base, symbols, amount, places, source);
      r := ReturnObject(requestService.GetLatestRates(Some(q.params), false));
    }

    /** `getRatesAsArray`: the decoded body of the same GET. */
    method GetRatesAsArray(base: Option<CurrencyCode>, symbols: Option<seq<CurrencyCode>>, amount: Option<int>,
                           places: Option<int>, source: Option<BankSource>)
      returns (r: Result<Json, Error>)
      ensures var body := requestService.client(requestService.server.Value() + "/" + Request.LatestPath,
                                                [("query", Query(base, symbols, amount, places, source))]);
        && (body.Failure? ==> r == Failure(Thrown(body.error)))
        && (body.Success? ==> r == Success(body.value))
    {
      var q := CreateQueryParameters(base, symbols, amount, places, source);
      r := ReturnArray(requestService.GetLatestRates(Some(q.params), true));
    }
  }
}
