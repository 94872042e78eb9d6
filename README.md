# Currency and VAT-rate client, modelled in Dafny

This project models the data handling of `wiesner/currency`, a PHP client for an
exchange-rate and EU VAT-rate HTTP API. The model covers:

- **The query-parameter builder.** `QueryParameters` is an ordered name-to-value map. `add` skips nulls and overwrites a repeated name in place. `getQuery` wraps the map for the HTTP client. `encode` builds the cache key `prefix&k=v&k=v…`.
- **The code enums.** `CurrencyCode` is EUR, USD and CZK. `CountryCode` is SK and CZ. Each has a partial `from` and a comma-join of values.
- **The six response aggregates.** `Rates`, `LatestRates`, `TimeSeriesRates`, `FluctuationRates`, `ValueAddedTaxRates` and `ConvertCurrency` each parse an already-decoded JSON value into typed records. Each has a linear-scan lookup by code. Parsing follows PHP's strict-types rules:
  - a float parameter takes an int or a float; int and bool parameters take only their own type;
  - `BackedEnum::from` of a non-string is a TypeError, and of an unknown string a ValueError;
  - a missing key reads as null;
  - `foreach` over a non-array visits nothing.
- **The caching request service.** `CachedRequestService` is a class whose state is:
  - a cache map from key to raw payload and expiry time;
  - the log of calls made to the underlying service;
  - the log of warnings.

  Each operation computes the key, gets or populates the entry (always asking for the raw form), then answers raw or parsed. The model parses with the aggregate's `createFromResponse` logic, and evicts the key when the cached payload does not parse. The source instead calls `createFromArray` and `createFromArrayAndCurrency`, which no response class defines (see `CachedRequest.CachedRequestService.Answer` under "## Left out").
- **The four endpoints.** `RatesEndpoint`, `LatestEndpoint`, `ConvertCurrencyEndpoint` and `VatRatesEndpoint` build the query parameters from the caller's values and their defaults, in a fixed order, and delegate. The single-item helpers are a filtered request followed by a lookup.

Each stateful operation is a method whose `ensures` ties its result and new state to a pure function: `Serve` for the cache, `Added` and `Suffix` for the builder, `First` and `All` for the scans. The lemmas state the source's promises about those functions. The main ones are:

- the cache never holds a payload the underlying service did not answer for that key;
- a hit makes no call, and a miss makes exactly one;
- the key ignores dates and the base currency;
- an entry lives one second;
- a failed parse evicts exactly its own key;
- the builder keeps names unique, skips only nulls and keeps insertion order;
- each endpoint's parameters hold exactly the documented names and values.

The Rates, Convert and VAT endpoints are modelled over `CachedRequestService`. That class implements `RequestServiceInterface`, which declares every operation these endpoints call (historical, time series, fluctuation, convert, VAT), and it is the only class that implements them. The source does not wire them this way:

- Each of their constructors declares the concrete `RequestService` (src/Endpoint/RatesEndpoint.php:32, src/Endpoint/ConvertCurrencyEndpoint.php:17, src/Endpoint/VatRatesEndpoint.php:17).
- `RequestService` implements no interface and has only `makeRequest` and `getLatestRates` (src/Service/Request/RequestService.php:17-45). `CachedRequestService` is not a `RequestService` (src/Service/Request/CachedRequestService.php:17).
- So `EndpointFactory::createRequestService` (src/Endpoint/Factory/EndpointFactory.php:33-38) ends in a TypeError either way. With a cache, the constructor rejects the `CachedRequestService`. Without one, the function returns a `RequestService` where `RequestServiceInterface` is declared.
- The other factory (src/Endpoint/EndpointFactory.php:34-37) passes a plain `RequestService`. Through it, `RatesEndpoint::getRates` gets a `LatestRates` where `Rates` is declared, and every other operation calls a method `RequestService` does not have.
- `CachedRequestService` itself declares its collaborator as `RequestService` (src/Service/Request/CachedRequestService.php:23). On a miss it calls `$this->requestService->$method(...)` (:144). For `getHistoricalRates`, `getTimeSeriesRates`, `getFluctuationRates`, `getConvertCurrency` and `getValueAddedTaxRates` that method does not exist. The resulting Error is caught at :148 and rethrown as the `getCachedResponse` RequestServiceException. So, as written, those five operations fail on every call, raw or parsed: their keys are never populated, and nothing is ever cached under them.

The model therefore reads the interface as the intended collaborator. `LatestEndpoint` is wired to the uncached `RequestService::getLatestRates`, which parses `LatestRates`.

Where the written description of the library and the code disagree, the model follows the code:

- A payload without `rates` parses to an empty collection. PHP only warns on the missing key, and the loop then visits nothing.
- `FluctuationRates` keeps the entry for the base currency.
- `TimeSeriesRates` reads every `rates` key as a currency code, so a date-keyed time series fails to parse (`TimeSeriesRatesResponse.DateKeyedRatesFail`).
- A conversion payload without `info.rate` fails to parse (`ConvertCurrencyResponse.MissingInfoRateFails`).
- The VAT operation never answers raw. Its test is `null === $rawResponse`, and no bool meets it. So `getEuropeanUnionVatRatesAsArray` can only fail: it returns an object where `array` is declared.
- `RatesEndpoint`'s three fluctuation methods omit the required `startDate` and `endDate` named arguments, so they fail with ArgumentCountError before any request is made.

## Model

| member | source | states |
|---|---|---|
| Query.Lookup | src/Service/Request/QueryParameters.php:14 | the value stored under a name is absent exactly when no pair has that name, and otherwise is the value of a stored pair with that name |
| Query.PutLookup | src/Service/Request/QueryParameters.php:14 | assigning a name makes it map to the new value and leaves every other name's value as it was |
| Query.LookupUnique | src/Service/Request/QueryParameters.php:14 | with unique names, a stored pair is exactly what a lookup of its name returns |
| Query.PutKeepsUnique | src/Service/Request/QueryParameters.php:14 | assigning keeps names unique: a repeated name keeps its original position, and a new name goes last |
| Query.AddedSkipsOnlyNull | src/Service/Request/QueryParameters.php:11-17 | adding null leaves the parameters unchanged; any other value, including 0, false and "", is stored under the name; uniqueness and the absence of nulls are kept |
| Query.AddedFresh | src/Service/Request/QueryParameters.php:13-14 | adding a name not yet stored appends it, or appends nothing when the value is null |
| Query.AppendFresh | src/Service/Request/QueryParameters.php:13-14 | appending a fresh non-null pair keeps names unique and free of nulls |
| Query.AsMap | src/Service/Request/QueryParameters.php:9 | the map view holds exactly the stored names, each with the value a lookup returns |
| Query.AppendAsMap | src/Service/Request/QueryParameters.php:13-14 | adding a fresh name to the parameters adds it to the map view, unless the value is null |
| Query.AddStep | src/Service/Request/QueryParameters.php:11-17 | one `add` of a fresh name is an append that keeps names unique and free of nulls and extends the map view by that name |
| Query.QueryParameters.constructor | src/Service/Request/QueryParameters.php:9 | a new builder holds no parameters |
| Query.QueryParameters.Add | src/Service/Request/QueryParameters.php:11-18 | `add` returns the same builder, whose parameters are the old ones with the name added (null skipped, repeated name overwritten in place), and keeps names unique and null-free |
| Query.QueryOptions | src/Service/Request/QueryParameters.php:20-23 | `getQuery` is empty exactly when no parameter is stored, and otherwise is the single `query` entry holding exactly the stored parameters |
| Query.Pair | src/Service/Request/QueryParameters.php:28 | each encoded pair starts with `&` |
| Query.SuffixSnoc | src/Service/Request/QueryParameters.php:27-29 | encoding one more parameter appends its `&name=value` pair after the others, in insertion order |
| Query.SuffixShape | src/Service/Request/QueryParameters.php:25-31 | the encoded suffix is empty exactly when no parameter is stored, and otherwise begins with the first parameter's pair |
| Query.QueryParameters.Encode | src/Service/Request/QueryParameters.php:25-32 | the loop returns the prefix followed by every stored pair in insertion order, and leaves the parameters unchanged |
| CurrencyCodes.CurrencyCode.Value | src/Service/Request/Enum/CurrencyCode.php:9-11 | every code's value has three letters and `from` of it gives the code back |
| CurrencyCodes.From | src/Service/Request/Enum/CurrencyCode.php:7-11 | `from` succeeds exactly for EUR, USD and CZK; any other string is a ValueError |
| CurrencyCodes.FromIsPartialInverse | src/Service/Request/Enum/CurrencyCode.php:7-11 | `from` succeeds exactly on the values of codes and then inverts `value` |
| CurrencyCodes.CasesAreDistinct | src/Service/Request/Enum/CurrencyCode.php:7-11 | there are exactly three codes, listed in declaration order, with distinct values |
| CurrencyCodes.FromKey | src/Service/Request/Response/Rates.php:35 | `from` of a payload key succeeds exactly for a string key naming a code; an integer key is a TypeError |
| CurrencyCodes.FromJson | src/Service/Request/Response/Rates.php:39 | `from` of a payload value succeeds exactly for a string naming a code; a non-string is a TypeError |
| CurrencyCodes.Values | src/Service/Request/Enum/CurrencyCode.php:23 | the values of the given codes, one per code, in order, duplicates kept |
| CurrencyCodes.ValuesOfCollection | src/Service/Request/Enum/CurrencyCode.php:21-24 | an empty collection gives "", a singleton its value, and n codes a string of 4n-1 characters |
| CurrencyCodes.AllValues | src/Service/Request/Enum/CurrencyCode.php:13-16 | `getAllValues` is "EUR,USD,CZK" |
| CurrencyCodes.ValuesOfCollectionAppend | src/Service/Request/Enum/CurrencyCode.php:23 | joining one more code appends a comma and its value, with no leading or trailing separator |
| CurrencyCodes.ValuesOfCollectionInjective | src/Service/Request/Enum/CurrencyCode.php:23 | the joined text determines the collection, order and duplicates included |
| CountryCodes.CountryCode.Value | src/Service/Request/Enum/CountryCode.php:9-10 | every code's value has two letters and `from` of it gives the code back |
| CountryCodes.From | src/Service/Request/Enum/CountryCode.php:7-10 | `from` succeeds exactly for SK and CZ; any other string is a ValueError |
| CountryCodes.FromIsPartialInverse | src/Service/Request/Enum/CountryCode.php:7-10 | `from` succeeds exactly on the values of codes and then inverts `value` |
| CountryCodes.CasesAreDistinct | src/Service/Request/Enum/CountryCode.php:7-10 | there are exactly two codes with distinct values |
| CountryCodes.FromKey | src/Service/Request/Response/ValueAddedTaxRates.php:34 | `from` of a payload key succeeds exactly for a string key naming a country; an integer key is a TypeError |
| CountryCodes.Values | src/Service/Request/Enum/CountryCode.php:22 | the values of the given codes, one per code, in order |
| CountryCodes.ValuesOfCollection | src/Service/Request/Enum/CountryCode.php:20-23 | an empty collection gives "", a singleton its value, and n codes a string of 3n-1 characters |
| CountryCodes.AllValues | src/Service/Request/Enum/CountryCode.php:12-15 | `getAllValues` is "SK,CZ" |
| CountryCodes.ValuesOfCollectionAppend | src/Service/Request/Enum/CountryCode.php:22 | joining one more code appends a comma and its value |
| CountryCodes.ValuesOfCollectionInjective | src/Service/Request/Enum/CountryCode.php:22 | the joined text determines the collection |
| Php.Index | src/Service/Request/Response/Rates.php:34 | reading a key gives the member's value when the object has it, and null otherwise or on a non-object |
| Php.Members | src/Service/Request/Response/Rates.php:34 | `foreach` visits an object's members, a list's items under their integer indices, and nothing on any other value |
| Php.ToFloat | src/Service/Request/Response/ValueObject/Rate.php:11 | a float parameter accepts exactly a JSON int or float; anything else is a TypeError |
| Php.ToInt | src/Service/Request/Response/ValueObject/ValueAddedTaxRate.php:18 | an int parameter accepts exactly a JSON int, unchanged; anything else is a TypeError |
| Php.ToBool | src/Service/Request/Response/ConvertCurrency.php:39 | a bool parameter accepts exactly a JSON bool, unchanged; anything else is a TypeError |
| Php.ToArray | src/Service/Request/Response/ValueObject/ValueAddedTaxRate.php:19-21 | an array parameter accepts exactly a JSON list or object, unchanged; anything else is a TypeError |
| Php.ParseDate | src/Service/Request/Response/Rates.php:40 | a payload date parses exactly when it is a YYYY-MM-DD string, to the date it spells; a non-string is a TypeError |
| Php.ParseDateFormatYmd | src/Service/Request/Response/LatestRates.php:46 | `createFromFormat('Y-m-d')` succeeds exactly on a YYYY-MM-DD string; otherwise its false result is a TypeError at the constructor |
| Php.YmdRoundTrip | src/Endpoint/ConvertCurrencyEndpoint.php:44 | formatting a date as Y-m-d and parsing it back gives the same date |
| Errors.Throw | src/Service/Request/Response/LatestRates.php:35-49 | an exception thrown while parsing reaches the caller unchanged |
| Collections.First | src/Service/Request/Response/Rates.php:67-76 | the lookup is null exactly when no element has the code, and otherwise is the first element that has it |
| Collections.Find | src/Service/Request/Response/Rates.php:67-76 | the search loop with early return gives exactly `First` |
| Collections.All | src/Service/Request/Response/Rates.php:34-36 | the parse loop succeeds exactly when every entry converts, giving one record per entry in payload order, and otherwise fails with the first failing entry's error |
| Collections.Collect | src/Service/Request/Response/Rates.php:32-36 | the appending loop gives exactly `All` |
| Collections.FirstMatchesTags | src/Service/Request/Response/Rates.php:67-76 | a lookup by code finds nothing exactly when no entry is keyed by the code's encoding, and otherwise the element built from the first entry so keyed |
| Collections.EncodingDecides | src/Service/Request/Response/Rates.php:70 | under an injective encoding, equal encodings mean equal codes |
| ValueObjects.RateEntry | src/Service/Request/Response/Rates.php:35 | an entry becomes a `Rate` exactly when its key is a currency code and its value a number, with the key as currency and the value as rate; otherwise ValueError or TypeError |
| ValueObjects.FluctuationEntry | src/Service/Request/Response/FluctuationRates.php:35-41 | an entry becomes a `FluctuationRate` exactly when its key is a code and `start_rate`, `end_rate`, `change` and `change_pct` are numbers, copied unchanged. A bad key fails with `from`'s own error, and a mistyped field with TypeError |
| ValueObjects.TaxRateEntry | src/Service/Request/Response/ValueAddedTaxRates.php:33-39 | an entry becomes a `ValueAddedTaxRate` exactly when its key is a country, `standard_rate` an int and the three tier lists arrays, copied unchanged. A bad key fails with `from`'s own error, and a mistyped field with TypeError |
| Collections.Firsts | src/Service/Request/QueryParameters.php:27 | the keys of an array, one per entry, in the order `foreach` visits them; used for the builder's names |
| ValueObjects.CurrencyKeyInjective | src/Service/Request/Response/Rates.php:35 | distinct currencies have distinct payload keys |
| ValueObjects.CountryKeyInjective | src/Service/Request/Response/ValueAddedTaxRates.php:34 | distinct countries have distinct payload keys |
| ValueObjects.FirstRateFindsEntry | src/Service/Request/Response/Rates.php:67-76 | for rates read one-to-one from keyed entries, the first rate for c is null exactly when no entry is keyed by c; otherwise it is the rate read from the first entry keyed by c, and carries that entry's rate |
| ValueObjects.FirstFluctuationFindsEntry | src/Service/Request/Response/FluctuationRates.php:78-87 | the same for fluctuation rates: the record read from the first entry keyed by c, carrying that entry's `change` |
| ValueObjects.FirstTaxRateFindsEntry | src/Service/Request/Response/ValueAddedTaxRates.php:58-67 | the same for VAT tiers keyed by country: the record read from the first entry keyed by c, carrying that entry's `standard_rate` |
| RatesResponse.Historical | src/Service/Request/Response/Rates.php:42 | `historical ?: false` is false whenever the payload value is falsy, true for JSON true, and a TypeError for any other truthy value |
| RatesResponse.FromJson | src/Service/Request/Response/Rates.php:28-47 | parsing succeeds exactly when every `rates` entry, `base`, `date` and `historical` convert, giving one rate per entry in order, the base and date from the payload, `isHistorical` from `historical`; any failure is a RequestServiceException for `Rates` |
| RatesResponse.CreateFromResponse | src/Service/Request/Response/Rates.php:28-47 | the parse loop gives exactly `FromJson` |
| RatesResponse.Rates.GetRate | src/Service/Request/Response/Rates.php:67-76 | `getRate` returns the first stored rate of the code, or null when none has it |
| RatesResponse.UnknownCodeFails | src/Service/Request/Response/Rates.php:35-46 | a `rates` key that is not a currency code makes parsing fail for `Rates` |
| RatesResponse.MissingRatesGiveNoRates | src/Service/Request/Response/Rates.php:34 | a payload without `rates` that otherwise parses has no rates |
| RatesResponse.GetRateFindsPayloadEntry | src/Service/Request/Response/Rates.php:34-76 | after parsing, `getRate(c)` finds a rate exactly when the payload has an entry keyed by c's value, and returns the rate parsed from the first such entry, carrying that entry's value |
| LatestRatesResponse.FromJson | src/Service/Request/Response/LatestRates.php:35-49 | parsing succeeds exactly when every entry, `base` and a Y-m-d `date` convert, with one rate per entry in order; failures are the unwrapped thrown errors |
| LatestRatesResponse.CreateFromResponse | src/Service/Request/Response/LatestRates.php:35-49 | the parse loop gives exactly `FromJson` |
| LatestRatesResponse.LatestRates.GetRate | src/Service/Request/Response/LatestRates.php:69-78 | `getRate` returns the first stored rate of the code, or null |
| LatestRatesResponse.MisshapedDateIsTypeError | src/Service/Request/Response/LatestRates.php:46 | a `date` not in Y-m-d form fails with a TypeError, not a RequestServiceException |
| LatestRatesResponse.UnknownCodeIsValueError | src/Service/Request/Response/LatestRates.php:41 | an unknown code key fails with the ValueError of `from`, unwrapped |
| LatestRatesResponse.GetRateFindsPayloadEntry | src/Service/Request/Response/LatestRates.php:40-78 | after parsing, `getRate(c)` is null exactly when no entry is keyed by c, and otherwise the rate parsed from the first entry keyed by c, carrying that entry's value |
| TimeSeriesRatesResponse.FromJson | src/Service/Request/Response/TimeSeriesRates.php:28-47 | parsing succeeds exactly when every `rates` key is a currency code with a numeric value and `base`, `start_date` and `end_date` convert; any failure is a RequestServiceException for `TimeSeriesRates` |
| TimeSeriesRatesResponse.CreateFromResponse | src/Service/Request/Response/TimeSeriesRates.php:28-47 | the parse loop gives exactly `FromJson` |
| TimeSeriesRatesResponse.TimeSeriesRates.GetRate | src/Service/Request/Response/TimeSeriesRates.php:72-81 | `getRate` returns the first stored rate of the code, or null |
| TimeSeriesRatesResponse.DateKeyedRatesFail | src/Service/Request/Response/TimeSeriesRates.php:34-46 | a date key or a per-date object in `rates` makes parsing fail for `TimeSeriesRates` |
| TimeSeriesRatesResponse.GetRateFindsPayloadEntry | src/Service/Request/Response/TimeSeriesRates.php:34-81 | after parsing, `getRate(c)` is null exactly when no entry is keyed by c, and otherwise the rate parsed from the first entry keyed by c, carrying that entry's value |
| FluctuationRatesResponse.FromJson | src/Service/Request/Response/FluctuationRates.php:28-53 | parsing succeeds exactly when every entry converts and both dates parse, with the caller's base currency and one record per entry in order; any failure is a RequestServiceException for `FluctuationRates` |
| FluctuationRatesResponse.CreateFromResponseAndBaseCurrency | src/Service/Request/Response/FluctuationRates.php:28-53 | the parse loop gives exactly `FromJson` |
| FluctuationRatesResponse.FluctuationRates.GetFluctuationRate | src/Service/Request/Response/FluctuationRates.php:78-87 | `getFluctuationRate` returns the first record of the code, or null |
| FluctuationRatesResponse.BaseIgnoresPayload | src/Service/Request/Response/FluctuationRates.php:28-45 | a `base` in the payload changes nothing: the base currency is the caller's |
| FluctuationRatesResponse.BaseEntryKept | src/Service/Request/Response/FluctuationRates.php:34-42 | an entry for the base currency itself is kept at its position |
| FluctuationRatesResponse.MissingFieldFails | src/Service/Request/Response/FluctuationRates.php:37-52 | an entry lacking any of the four numeric fields makes parsing fail for `FluctuationRates` |
| FluctuationRatesResponse.GetFluctuationRateFindsPayloadEntry | src/Service/Request/Response/FluctuationRates.php:34-87 | after parsing, `getFluctuationRate(c)` is null exactly when no entry is keyed by c, and otherwise the record parsed from the first entry keyed by c, carrying that entry's `change` |
| ValueAddedTaxRatesResponse.FromJson | src/Service/Request/Response/ValueAddedTaxRates.php:25-48 | parsing succeeds exactly when every `rates` entry converts, with one record per entry in order; any failure is a RequestServiceException for `ValueAddedTaxRates` |
| ValueAddedTaxRatesResponse.CreateFromResponse | src/Service/Request/Response/ValueAddedTaxRates.php:25-48 | the parse loop gives exactly `FromJson` |
| ValueAddedTaxRatesResponse.ValueAddedTaxRates.GetTaxRate | src/Service/Request/Response/ValueAddedTaxRates.php:58-67 | `getTaxRate` returns the first record of the country, or null |
| ValueAddedTaxRatesResponse.NoEntriesGiveNoTaxRates | src/Service/Request/Response/ValueAddedTaxRates.php:32-42 | an empty or missing `rates` gives an aggregate with no tax rates |
| ValueAddedTaxRatesResponse.NonIntegerStandardRateFails | src/Service/Request/Response/ValueAddedTaxRates.php:35-47 | a missing or non-integer `standard_rate` makes parsing fail for `ValueAddedTaxRates` |
| ValueAddedTaxRatesResponse.GetTaxRateFindsPayloadEntry | src/Service/Request/Response/ValueAddedTaxRates.php:32-67 | after parsing, `getTaxRate(c)` is null exactly when no entry is keyed by c, and otherwise the record parsed from the first entry keyed by c, carrying that entry's `standard_rate` |
| ConvertCurrencyResponse.FromJson | src/Service/Request/Response/ConvertCurrency.php:27-44 | parsing succeeds exactly on a well-formed payload, copying `query.from`, `query.to`, `query.amount`, `result`, `info.rate`, `date` and `historical`; any failure is a RequestServiceException for `ConvertCurrency` |
| ConvertCurrencyResponse.MissingInfoRateFails | src/Service/Request/Response/ConvertCurrency.php:37-43 | a payload without `info.rate` fails to parse |
| ConvertCurrencyResponse.HistoricalMustBeBoolean | src/Service/Request/Response/ConvertCurrency.php:39-43 | a payload whose `historical` is not a bool fails to parse |
| Replies.ReturnObject | src/Endpoint/RatesEndpoint.php:54-57 | an object-returning method passes failures through, returns a parsed reply, and a raw array is a TypeError at its declared return type |
| Replies.ReturnArray | src/Endpoint/RatesEndpoint.php:75-78 | an array-returning method passes failures through, returns a raw payload, and a parsed object is a TypeError at its declared return type |
| Replies.ReturnRequired | src/Endpoint/RatesEndpoint.php:95-98 | a non-nullable return type passes a found value through, and null is a TypeError |
| Request.RequestService.MakeRequest | src/Service/Request/RequestService.php:33-36 | the GET goes to `server/path` with the `getQuery` options; without a builder the options are null, which the client's array parameter rejects |
| Request.RequestService.GetLatestRates | src/Service/Request/RequestService.php:45-52 | a transport failure is thrown unchanged; raw gives the decoded body; otherwise the body is parsed as LatestRates |
| CachedRequest.Serve | src/Service/Request/CachedRequestService.php:30-151 | without parameters an operation fails and changes nothing; otherwise it makes at most one call, with the operation's arguments, the parameters and `true`; it touches no cache entry but its own key; it fails only with the two RequestServiceExceptions; it never warns |
| CachedRequest.ProducedByPrefix | src/Service/Request/CachedRequestService.php:141-145 | a payload produced by a logged call stays produced when more calls are logged |
| CachedRequest.FetchedKeepsCoherent | src/Service/Request/CachedRequestService.php:127-151 | get-or-populate keeps every cached payload equal to what the underlying service answered for that key |
| CachedRequest.ServeKeepsCoherent | src/Service/Request/CachedRequestService.php:30-115 | every operation keeps every cached payload equal to what the underlying service answered for that key |
| CachedRequest.MissCallsOnceAndCaches | src/Service/Request/CachedRequestService.php:139-145 | on a miss the service is called exactly once with the arguments plus `rawResponse = true`; a failure caches nothing, and an answer is stored under the key until one second from now |
| CachedRequest.HitMakesNoCall | src/Service/Request/CachedRequestService.php:141 | a fresh entry answers without calling the underlying service |
| CachedRequest.LeadingArgsNotInKey | src/Service/Request/CachedRequestService.php:137 | right after a success, the same operation with other dates or base currency but the same parameters is answered from the cache, identically |
| CachedRequest.EntryLivesOneSecond | src/Service/Request/CachedRequestService.php:142 | an entry stored at second t answers requests before t + 1 and not from t + 1 on |
| CachedRequest.RawForms | src/Service/Request/CachedRequestService.php:35-95 | raw requests for latest, historical and time series return the cached data; for fluctuation and convert they return the whole `{key, data}` pair |
| CachedRequest.ValueAddedTaxAlwaysParses | src/Service/Request/CachedRequestService.php:110 | the VAT operation answers the same whatever `rawResponse` is, and never with a raw payload |
| CachedRequest.ParseFailureEvictsKey | src/Service/Request/CachedRequestService.php:156-163 | when the cached payload does not parse, the operation fails naming the aggregate, and exactly its key leaves the cache |
| CachedRequest.CachedRequestService.constructor | src/Service/Request/CachedRequestService.php:21-25 | a new service has an empty cache and logs and is coherent |
| CachedRequest.CachedRequestService.GetCachedResponse | src/Service/Request/CachedRequestService.php:127-151 | the reply and the new state are `Fetched`: a failure without a builder or with a rejected key, a hit, or one call whose answer is cached |
| CachedRequest.CachedRequestService.DeleteKeyFromCache | src/Service/Request/CachedRequestService.php:156-163 | the key is removed; a key the cache rejects only adds a warning and nothing is thrown |
| CachedRequest.CachedRequestService.Answer | src/Service/Request/CachedRequestService.php:35-38 | the raw-or-parse branch: the raw form, the parsed object, or eviction of the key and a RequestServiceException; the parse is the `createFromResponse` logic, read in place of the undefined `createFromArray` |
| CachedRequest.CachedRequestService.Run | src/Service/Request/CachedRequestService.php:30-40 | fetch then answer gives exactly `Serve`, and keeps the cache coherent |
| CachedRequest.CachedRequestService.GetLatestRates | src/Service/Request/CachedRequestService.php:30-40 | the latest-rates operation, parsed as `Rates`, is `Serve` and keeps the cache coherent |
| CachedRequest.CachedRequestService.GetHistoricalRates | src/Service/Request/CachedRequestService.php:45-55 | the historical operation forwards the date, which is not in the key, and parses `Rates` |
| CachedRequest.CachedRequestService.GetTimeSeriesRates | src/Service/Request/CachedRequestService.php:60-70 | the time-series operation forwards both dates and parses `TimeSeriesRates` |
| CachedRequest.CachedRequestService.GetFluctuationRates | src/Service/Request/CachedRequestService.php:75-85 | the fluctuation operation forwards both dates and the base currency, and parses with the caller's base |
| CachedRequest.CachedRequestService.GetConvertCurrency | src/Service/Request/CachedRequestService.php:90-100 | the convert operation parses `ConvertCurrency` |
| CachedRequest.CachedRequestService.GetValueAddedTaxRates | src/Service/Request/CachedRequestService.php:105-115 | the VAT operation parses `ValueAddedTaxRates` |
| RatesEndpoint.RatesQueryMap | src/Endpoint/RatesEndpoint.php:240-248 | the rates query's array view holds `base`, `source` and `symbols` with their values always, `places` and `amount` exactly when given, and no other name; names are unique and no value is null |
| RatesEndpoint.RatesLayout | src/Endpoint/RatesEndpoint.php:242-247 | the five chained `add`s give the rates layout in insertion order, with unique non-null names and the expected array view |
| RatesEndpoint.RatesEndpoint.constructor | src/Endpoint/RatesEndpoint.php:31-36 | the endpoint keeps its service and defaults; the service is the cached one, not the declared `RequestService` |
| RatesEndpoint.RatesEndpoint.CreateQueryParameters | src/Endpoint/RatesEndpoint.php:240-248 | a new builder holding base (caller's or default), source (caller's or default), symbols (all or the given codes), places and amount, in that order |
| RatesEndpoint.RatesEndpoint.GetRates | src/Endpoint/RatesEndpoint.php:54-57 | the latest-rates operation with the built parameters and `rawResponse = false`, returned as `Rates` |
| RatesEndpoint.RatesEndpoint.GetRatesAsArray | src/Endpoint/RatesEndpoint.php:75-78 | the same operation with `rawResponse = true`, returned as an array |
| RatesEndpoint.RatesEndpoint.GetRate | src/Endpoint/RatesEndpoint.php:95-98 | requests `symbols = [to]` and returns the first rate of `to`, a TypeError when there is none |
| RatesEndpoint.RatesEndpoint.GetHistoricalRates | src/Endpoint/RatesEndpoint.php:117-120 | the historical operation with the date and the built parameters, as `Rates` |
| RatesEndpoint.RatesEndpoint.GetHistoricalRatesAsArray | src/Endpoint/RatesEndpoint.php:139-142 | the same with `rawResponse = true`, as an array |
| RatesEndpoint.RatesEndpoint.GetHistoricalRate | src/Endpoint/RatesEndpoint.php:160-163 | requests `[to]` at the date and returns the first rate of `to`, or a TypeError |
| RatesEndpoint.RatesEndpoint.GetTimeSeriesRates | src/Endpoint/RatesEndpoint.php:170-177 | the time-series operation with both dates, as `TimeSeriesRates` |
| RatesEndpoint.RatesEndpoint.GetTimeSeriesRatesAsArray | src/Endpoint/RatesEndpoint.php:184-192 | the same with `rawResponse = true`, as an array |
| RatesEndpoint.RatesEndpoint.GetTimeSeriesRate | src/Endpoint/RatesEndpoint.php:197-200 | requests `[to]` over the dates and returns the first rate of `to`, or a TypeError |
| RatesEndpoint.RatesEndpoint.GetFluctuationRates | src/Endpoint/RatesEndpoint.php:207-213 | the call omits the required `startDate` and `endDate`, so it always fails with ArgumentCountError and makes no request |
| RatesEndpoint.RatesEndpoint.GetFluctuationRatesAsArray | src/Endpoint/RatesEndpoint.php:220-227 | the same ArgumentCountError |
| RatesEndpoint.RatesEndpoint.GetFluctuationRate | src/Endpoint/RatesEndpoint.php:232-235 | fails with the ArgumentCountError of `getFluctuationRates` before any lookup |
| RatesEndpoint.RateIn | src/Endpoint/RatesEndpoint.php:97 | `->getRate($to)` with `Rate` declared: a failure passes through; it succeeds exactly when some rate is in `to`, returning such a rate; otherwise a TypeError |
| LatestEndpoint.LatestEndpoint.constructor | src/Endpoint/LatestEndpoint.php:20-25 | the endpoint keeps its service and defaults |
| LatestEndpoint.LatestEndpoint.CreateQueryParameters | src/Endpoint/LatestEndpoint.php:58-66 | a new builder holding base, source, symbols, places and an integer amount, in that order, with the defaults for null base and source |
| LatestEndpoint.LatestEndpoint.GetRates | src/Endpoint/LatestEndpoint.php:36-39 | one GET of `server/latest` with the built query: a transport failure is thrown unchanged, and a body is parsed as LatestRates |
| LatestEndpoint.LatestEndpoint.GetRatesAsArray | src/Endpoint/LatestEndpoint.php:50-53 | the same GET with `rawResponse = true`: the decoded body itself |
| ConvertCurrencyEndpoint.ConvertQueryMap | src/Endpoint/ConvertCurrencyEndpoint.php:38-47 | the convert query has unique, non-null names among from, to, amount, date, places and source; from, to and source always hold their values; amount, date and places are present exactly when given; date holds the Y-m-d text |
| ConvertCurrencyEndpoint.LayoutMap | src/Endpoint/ConvertCurrencyEndpoint.php:40-46 | the six chained `add`s give the layout in insertion order, with unique non-null names and the expected map view |
| ConvertCurrencyEndpoint.LayoutKeys | src/Endpoint/ConvertCurrencyEndpoint.php:43-45 | in that map view, an optional name is present exactly when its value is not null |
| ConvertCurrencyEndpoint.DateParameterRoundTrip | src/Endpoint/ConvertCurrencyEndpoint.php:44 | the `date` parameter is the Y-m-d text of the date, and parses back to it |
| ConvertCurrencyEndpoint.ConvertCurrencyEndpoint.constructor | src/Endpoint/ConvertCurrencyEndpoint.php:16-20 | the endpoint keeps its service and default bank source; the service is the cached one, not the declared `RequestService` |
| ConvertCurrencyEndpoint.ConvertCurrencyEndpoint.CreteQueryParameters | src/Endpoint/ConvertCurrencyEndpoint.php:38-47 | a new builder holding exactly the convert query, source defaulted |
| ConvertCurrencyEndpoint.ConvertCurrencyEndpoint.Convert | src/Endpoint/ConvertCurrencyEndpoint.php:25-28 | the convert operation with the built parameters and `rawResponse = false`, as `ConvertCurrency` |
| ConvertCurrencyEndpoint.ConvertCurrencyEndpoint.ConvertAsArray | src/Endpoint/ConvertCurrencyEndpoint.php:33-36 | the same with `rawResponse = true`, as an array |
| VatRatesEndpoint.VatQuery | src/Endpoint/VatRatesEndpoint.php:52-56 | the only parameter is `symbols`: "SK,CZ" when no countries are given, otherwise the given ones joined |
| VatRatesEndpoint.VatRatesEndpoint.constructor | src/Endpoint/VatRatesEndpoint.php:16-19 | the endpoint keeps its service; the service is the cached one, not the declared `RequestService` |
| VatRatesEndpoint.VatRatesEndpoint.CreateQueryParameters | src/Endpoint/VatRatesEndpoint.php:52-56 | a new builder holding exactly the VAT query |
| VatRatesEndpoint.VatRatesEndpoint.GetEuropeanUnionVatRates | src/Endpoint/VatRatesEndpoint.php:26-29 | the VAT operation with the built parameters, as `ValueAddedTaxRates` |
| VatRatesEndpoint.VatRatesEndpoint.GetEuropeanUnionVatRatesAsArray | src/Endpoint/VatRatesEndpoint.php:36-39 | the VAT operation with `rawResponse = true` never answers raw, so the method always fails: a TypeError at its `array` return type, or the operation's own exception |
| VatRatesEndpoint.VatRatesEndpoint.GetEuropeanUnionVatRate | src/Endpoint/VatRatesEndpoint.php:44-47 | requests `[countryCode]` and returns its first tax rate, or a TypeError when there is none |

## Left out

- The HTTP transport and JSON decoding. The HTTP client is a function from URL and options to a decoded `Json` or a transport failure, and the underlying service of the cache is a function from a call to the same. That service stands for any implementation of `RequestServiceInterface`'s operations, not for the declared `RequestService`, which has only `getLatestRates` (see the wiring notes above). Payloads are already-decoded JSON values.
- Symfony cache internals. These are early expiration, stampede protection and the cache's own key-validation rules, which become an abstract `acceptsKey`. Time is an abstract clock `now`, in whole seconds, passed to each operation.
- Exception messages, the previous-exception chain and the warning text of `deleteKeyFromCache`. Errors carry only their kind and the aggregate or method name, and a warning is logged as the rejected key.
- Floating-point values. Rates, amounts and results are opaque decimal texts, and an integer widened to a float keeps its integer text. The exact text `sprintf('%s', $float)` gives for other floats is not modelled.
- Date formats other than `YYYY-MM-DD`, calendar validity and time of day. `new \DateTimeImmutable` accepts many more forms.
- `?? $method` in the key computation. `encode` never returns null, so the fallback is dead code.
- Duplicate keys in a decoded JSON object, and PHP's turning of numeric-string keys into integers.
- CachedRequest.CachedRequestService.Answer: the source's parsed branch calls `Rates::createFromArray` (src/Service/Request/CachedRequestService.php:35 and :50), `createFromArray` (:65, :95, :110) and `createFromArrayAndCurrency` (:80), and no response class defines them. As written, only `getLatestRates` ever reaches that branch with a payload: the other five operations fail earlier, in `getCachedResponse` (see the wiring notes above). In `getLatestRates`, the Error for the undefined method is not an `\Exception`, so it passes the `catch (\Exception)` at :36. It escapes uncaught, and the key stays cached. Had the other operations a payload, the same call would fail for them too. For `getHistoricalRates` it would escape the same way. For the four others, the `catch (\Throwable)` would evict the key and throw a RequestServiceException. The model parses with the matching `createFromResponse` logic instead (the `Respond` branch of `Serve`), so a valid payload parses and only an unparsable one is evicted.
- The HTTP client and the underlying service of the cache may return any decoded `Json`, including a scalar. Symfony's `toArray()` throws unless the body decodes to an array, so a scalar payload cannot occur in the source. The model does not exclude it; a scalar simply has no members.
- Configuration and bootstrap: `ApplicationConfiguration`, `Application` and the two endpoint factories. As written, neither factory yields a working Rates, Convert or VAT endpoint (see the wiring notes above). The model builds those endpoints directly over the cached service instead.
- RatesEndpoint.RatesEndpoint.constructor: takes the cached service where the source declares `RequestService`. The TypeError that this declared type raises for the cached service is not modelled.
- ConvertCurrencyEndpoint.ConvertCurrencyEndpoint.constructor: takes the cached service where the source declares `RequestService`. The TypeError that this declared type raises for the cached service is not modelled.
- VatRatesEndpoint.VatRatesEndpoint.constructor: takes the cached service where the source declares `RequestService`. The TypeError that this declared type raises for the cached service is not modelled.
- `getAllRates`, `getTaxRates`, `getAllFluctuationRates`, `isHistorical` and the other plain getters. They are the datatypes' fields, so a getter returns exactly the parsed field by construction.
- `Query.QueryParameters.GetQuery`: its contract is stated on `Query.QueryOptions`, the function it returns.
