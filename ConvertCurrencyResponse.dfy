/** The `ConvertCurrency` aggregate: one conversion of an amount between two currencies. */
module ConvertCurrencyResponse {
  import opened Wrappers
  import opened Errors
  import opened Php
  import opened CurrencyCodes

  /** The getters (`getFrom`, `getTo`, `getAmount`, `getResult`, `getRate`, `getToDate`, `isHistorical`) are the fields. */
  datatype ConvertCurrency = ConvertCurrency(
    from: CurrencyCode,
    to: CurrencyCode,
    amount: Float,
    result: Float,
    rate: Float,
    toDate: Date,
    historical: bool)

  /** Every field the constructor needs, each of the type its parameter demands. */
  predicate WellFormed(j: Json)
  {
    var query := Index(j, "query");
    && CurrencyCodes.FromJson(Index(query, "from")).Success?
    && CurrencyCodes.FromJson(Index(query, "to")).Success?
    && ToFloat(Index(query, "amount")).Success?
    && ToFloat(Index(j, "result")).Success?
    && ToFloat(Index(Index(j, "info"), "rate")).Success?
    && ParseDate(Index(j, "date")).Success?
    && Index(j, "historical").JBool?
  }

  /** `createFromResponse`, with any failure reported as a RequestServiceException for `ConvertCurrency`. */
  function FromJson(j: Json): (r: Result<ConvertCurrency, Error>)
    ensures r.Success? <==> WellFormed(j)
    ensures r.Success? ==>
              var query, c := Index(j, "query"), r.value;
              && Index(query, "from") == JString(c.from.Value())
              && Index(query, "to") == JString(c.to.Value())
              && ToFloat(Index(query, "amount")) == Success(c.amount)
              && ToFloat(Index(j, "result")) == Success(c.result)
              && ToFloat(Index(Index(j, "info"), "rate")) == Success(c.rate)
              && ParseDate(Index(j, "date")) == Success(c.toDate)
              && Index(j, "historical") == JBool(c.historical)
    ensures r.Failure? ==> r.error == ResponseException("ConvertCurrency")
  {
    var query := Index(j, "query");
    var from := CurrencyCodes.FromJson(Index(query, "from"));
    var to := CurrencyCodes.FromJson(Index(query, "to"));
    var amount := ToFloat(Index(query, "amount"));
    var result := ToFloat(Index(j, "result"));
    var rate := ToFloat(Index(Index(j, "info"), "rate"));
    var date := ParseDate(Index(j, "date"));
    var historical := ToBool(Index(j, "historical"));
    if from.Success? && to.Success? && amount.Success? && result.Success? && rate.Success? && date.Success? && historical.Success? then
      Success(ConvertCurrency(from.value, to.value, amount.value, result.value, rate.value, date.value, historical.value))
    else
      Failure(ResponseException("ConvertCurrency"))
  }

  /** A payload without `info.rate` cannot be parsed, whatever else it carries. */
  lemma MissingInfoRateFails(j: Json)
    requires Index(Index(j, "info"), "rate") == JNull
    ensures FromJson(j) == Failure(ResponseException("ConvertCurrency"))
  {
  }

  /** `historical` must be a JSON boolean; a missing flag fails rather than defaulting to false. */
  lemma HistoricalMustBeBoolean(j: Json)
    requires !Index(j, "historical").JBool?
    ensures FromJson(j) == Failure(ResponseException("ConvertCurrency"))
  {
  }
}
