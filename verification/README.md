# Tax-code rule engine — Dafny model

This project models the rule engine behind the tax-code prediction service.
A prediction request names a company, a vendor, a VAT rate, an AP/AR/FI
indicator and three optional flags: reverse charge, goods and services.
The engine handles it in five steps:

1. **Enrichment.** It enriches the request into a thirteen-field parsed query.
   - It looks up the company's reporting country and name. A miss gives None and None.
   - It looks up the vendor's country and name. A miss gives NaN and "Vendor details not found".
   - It classifies the legal entity as Same or Different.
   - It normalizes the goods/services flags to Goods, Services or Goods/Services.
   - It derives EU / Non EU from the vendor country, and Domestic / Foreign by comparing the two countries.
2. **Candidate filter.** It narrows the static tax-code catalog with four
   successive masks: country, goods/services category, reverse charge and
   VAT rate. It then selects the description rows whose `Tax code` survived,
   and replaces every literal backslash-`n` in their text with ". ".
3. **Feature frame.** It builds the one-row categorical feature frame from
   the configured feature names and categories.
4. **Payload.** It renames the frame's columns to the predictor's field
   names and adds the candidate codes.
5. **Response.** It calls the external predictor, keeps the first five
   entries of its ranked table, and assembles the response. Otherwise it
   classifies the failure as HTTP 500 with one of two details.

The model is written as pure functions over immutable values:

- The reference tables form one `ReferenceData` value.
- Table cells are `Text | Int | Bool | NaN`.
- Python's `str()`, `==`, pandas `isin` and `str.capitalize` are each
  modelled explicitly (module `Cells`).
- The external predictor is a function parameter `Payload -> PredictorReply`.
  It can fail at the transport level, return a malformed body, or return a
  prediction.

Modules follow the program's structure:

- `Cells` and `Seqs` are the shared vocabulary.
- `Tables` holds the reference data.
- `Enrichment` is the query parser.
- `CandidateFilter` is the catalog and description filter.
- `Gateway` covers the feature frame and payload.
- `Endpoint` is the prediction endpoint.
- `Scenarios` holds the end-to-end worked examples.

Three behaviours of the code are easy to miss, and the model keeps them:

- **Categorical frame.** `pd.Categorical` turns a value outside a feature's
  categories into a missing value. `Gateway.Categorize` returns such a value
  as `Missing`.
- **Company lookup.** The company lookup compares the `Company Code` cell
  with the request's text code using plain `==`. So a table whose codes were
  read as integers never matches (`Enrichment.NumericCompanyCodesNeverMatch`).
  The vendor lookup instead compares `str()` of both sides, so it does match
  integer vendor numbers (`Enrichment.NumericVendorNumbersMatch`).
- **Legal entity.** The check looks for the company code anywhere in one
  column and the vendor anywhere in the other. It does not look for a row
  holding both (`Enrichment.LegalEntityIsNotAPairCheck`).

## Model

| member | source | states |
|---|---|---|
| `Cells.FlagText` | tax_code_helpers.py:352 | `str()` of an optional flag is "True", "False" or "None", each exactly for its flag value |
| `Cells.StrIntInjective` | tax_code_helpers.py:136 | two integer cells have the same `str()` text exactly when they are the same number, so `astype(str)` comparison loses nothing on ints |
| `Cells.DecimalRoundTrip` | tax_code_helpers.py:136 | reading back the decimal rendering of a natural number gives the number |
| `Cells.TextEquality` | tax_code_helpers.py:98 | comparing a cell with a text value by `==` or by `isin` holds exactly when the cell is that text |
| `Cells.Capitalize` | tax_code_helpers.py:298 | `capitalize()` keeps the length, upper-cases the first character and lower-cases the rest |
| `Cells.CapitalizeFlagText` | tax_code_helpers.py:298 | the text of a flag ("True", "False", "None") is unchanged by `capitalize()` |
| `Seqs.FirstIndex` | tax_code_helpers.py:98-102 | the index found is the first row satisfying the mask, and None means no row does (the `.values[0]` of a filtered frame) |
| `Seqs.Take` | main.py:161 | the slice `[:5]` has length min(5, n) and is a prefix |
| `Enrichment.GetReportingCountry` | tax_code_helpers.py:98-109 | the result is (None, None) exactly when no company row matches; otherwise it is the reporting country and name of the first matching row |
| `Enrichment.NumericCompanyCodesNeverMatch` | tax_code_helpers.py:98 | a company table whose codes are integers never matches a text code, so the lookup misses |
| `Enrichment.GetVendorDetails` | tax_code_helpers.py:135-147 | a miss gives (NaN, "Vendor details not found"); a hit gives the country key and name of the first row whose `str()` equals the vendor |
| `Enrichment.NumericVendorNumbersMatch` | tax_code_helpers.py:136 | a vendor number stored as an integer is found by its decimal text |
| `Enrichment.ColumnHasText` | tax_code_helpers.py:180-181 | true exactly when some cell of the column prints as the text |
| `Enrichment.CheckIfSameLegalEntity` | tax_code_helpers.py:177-188 | "Same" exactly when the company code occurs in the company-code column and the vendor occurs in the vendor-number column |
| `Enrichment.LegalEntityIsNotAPairCheck` | tax_code_helpers.py:180-185 | a company and a vendor that appear only on different rows are still "Same" |
| `Enrichment.GetGoodsServices` | tax_code_helpers.py:222-228 | Goods exactly when only goods is true; Services exactly when only services is true; Goods/Services exactly when both or neither are true (None counts as not true) |
| `Enrichment.GetEuNonEu` | tax_code_helpers.py:355 | "EU" exactly when the vendor country is text and one of the 27 listed codes |
| `Enrichment.GetDomesticForeign` | tax_code_helpers.py:356 | a missing reporting country or a NaN vendor country gives Foreign; for text countries, Domestic exactly when they are equal |
| `Enrichment.QueryParser` | tax_code_helpers.py:345-356 | the parsed query copies the request fields and stringifies the reverse-charge flag; its country and name fields are exactly the two lookups' results; a missed lookup forces Non EU and Foreign; "EU" exactly when the vendor country is one of the 27 codes; Domestic exactly when a reporting country was found and the vendor country `==` it; the legal-entity and goods/services classifications hold as above |
| `Enrichment.ParsedQueryFromFirstMatches` | tax_code_helpers.py:350-356 | when company row i and vendor row j are the first rows matching the request, the query carries their countries and names, is domestic exactly when the vendor's country key `==` the company's reporting country, and is EU exactly when that key is one of the 27 codes |
| `CandidateFilter.FilterCatalog` | tax_code_helpers.py:296-299 | the candidates are catalog rows that pass all four tests, every catalog row passing them is a candidate, and a missing reporting country gives no candidates |
| `CandidateFilter.FilterCatalogIsOnePass` | tax_code_helpers.py:296-299 | the four successive masks equal a single mask with their conjunction |
| `CandidateFilter.FilterCatalogKeepsOrderAndDuplicates` | tax_code_helpers.py:296-299 | the candidates are a subsequence of the catalog, and each row occurs as often as in the catalog if it passes and not at all otherwise |
| `CandidateFilter.GenericRowsIgnoreOffering` | tax_code_helpers.py:297 | a "Goods/Services" catalog row is kept or dropped whatever the query's own category |
| `CandidateFilter.FilterCatalogIdempotent` | tax_code_helpers.py:296-299 | filtering the candidates again with the same query changes nothing |
| `CandidateFilter.AbsentReverseChargeKeepsNoBooleanRow` | tax_code_helpers.py:298 | an absent reverse-charge flag ("None") matches no boolean or missing `Reverse Charge` cell, so no candidate remains |
| `CandidateFilter.ReplaceEscapedNewlines` | tax_code_helpers.py:305 | every backslash-`n` pair becomes ". ", every character outside a pair is kept, and the length is unchanged; the result holds no pair, and a text without one is returned as it is |
| `CandidateFilter.ReplaceEscapedNewlinesIsTidying` | tax_code_helpers.py:305 | a text is the position-by-position tidying of `s` (pairs to ". ", other characters kept, same length) exactly when it is the replacement's result, so that description determines the replacement |
| `CandidateFilter.ReplaceEscapedNewlinesIdempotent` | tax_code_helpers.py:305 | replacing twice is replacing once |
| `CandidateFilter.SurvivingCodesAreFilteredCodes` | tax_code_helpers.py:302-304 | a code is in the list of filtered catalog codes exactly when some passing catalog row carries it |
| `CandidateFilter.FilteredTaxCodeDescriptions` | tax_code_helpers.py:296-305 | the result is exactly the description rows whose tax code some passing catalog row carries, in table order with duplicates kept, each with its text tidied; no result text holds a backslash-`n`; a missing reporting country gives an empty table |
| `CandidateFilter.SelectionIsBySurvivingCode` | tax_code_helpers.py:302-304 | selecting rows by `isin` on the filtered catalog's codes selects the same rows as selecting by surviving code, and selects none without a reporting country |
| `CandidateFilter.FilteredCodesKeepOrderAndDuplicates` | tax_code_helpers.py:302-304 | the result's `Tax code` column is a subsequence of the table's, with each surviving code kept as often as it occurs in the table |
| `Gateway.MapField` | main.py:104 | a name without a translation is kept; a name with one maps to a predictor field name |
| `Gateway.MapFieldRoundTrip` | tax_code_helpers.py:30-40 | every frame column has a translation, and translating back recovers it |
| `Gateway.MapFieldInjective` | tax_code_helpers.py:30-40 | distinct frame columns get distinct field names |
| `Gateway.FirstRepeated` | tax_code_helpers.py:259 | None exactly when the feature names are distinct; otherwise the position of a name listed again later |
| `Gateway.Categorize` | tax_code_helpers.py:263 | the value is kept as a category exactly when some configured category prints as it; otherwise it is missing |
| `Gateway.CategorizeColumns` | tax_code_helpers.py:262-263 | success exactly when every column has an entry with distinct stringified categories; then each column holds its categorized value, in order; a failure names an offending column |
| `Gateway.GetDataFrameForPrediction` | tax_code_helpers.py:246-263 | the frame exists exactly when the feature names are distinct known columns with usable categories; it then has exactly those columns in configured order, each holding the query's value or missing |
| `Gateway.CreatePayload` | main.py:97-112 | building fails exactly when the frame does or no feature is configured (no record to index: "no features"); otherwise the keys are the renamed feature names in order, the values are the frame's, the keys are distinct and the candidate list is passed through |
| `Gateway.RenamedKeysDistinct` | main.py:103-106 | renaming distinct frame columns yields distinct keys, so no payload entry overwrites another |
| `Gateway.PayloadKeysRecoverFeatures` | main.py:103-106 | translating the payload keys back gives the configured feature names |
| `Endpoint.TopProbabilities` | main.py:161 | the table is kept exactly when its first min(5, n) entries are well formed; it then has that many rows, each carrying the entry's code and probability |
| `Endpoint.TopProbabilitiesIgnoresTail` | main.py:161 | entries after the fifth, well formed or not, do not change the table |
| `Endpoint.ShortTablesAreKeptWhole` | main.py:161 | a table of at most five well-formed entries is kept whole |
| `Endpoint.PredictionPayload` | main.py:148-151 | the payload's candidate list is the `Tax code` column of the filtered descriptions; it exists exactly when the frame does and at least one feature is configured |
| `Endpoint.AssembleOutcome` | main.py:156-185 | a payload failure, a malformed reply or a looked-up name the JSON response cannot render (NaN or a non-text cell) gives 500 "Internal server error"; a transport failure, and only that, gives 500 "Error in external service request"; otherwise the response echoes the parsed names, the table and its columns, the prediction and its score, and the first five ranked codes with their probabilities, in the predictor's order |
| `Endpoint.GetTaxCodePrediction` | main.py:134-185 | every error is a 500; "Error in external service request" exactly when the payload was built and the predictor call failed; an unusable or empty configuration gives "Internal server error"; an unrenderable name gives an error; a response carries the query's names, the filtered descriptions, the table columns, the predicted code and at most five probabilities |
| `Endpoint.WellFormedReplySucceeds` | main.py:156-177 | a buildable payload, a prediction whose first five ranked entries are well formed and renderable names always yield a response; later entries do not matter |
| `Scenarios.GoodsFromUsVendorIsParsed` | tax_code_helpers.py:350-356 | company 1027 in DE and vendor 373458 in US, goods only, no reverse charge: Goods, Non EU, Foreign, "False", Different |
| `Scenarios.GermanGoodsCandidates` | tax_code_helpers.py:296-299 | on a sample catalog, that query keeps exactly the German goods and generic rows without reverse charge at rate "0" |
| `Scenarios.GoodsFromUsVendorForGermanCompany` | tax_code_helpers.py:345-356 | the two halves of the scenario together |
| `Scenarios.UnknownVendorScenario` | tax_code_helpers.py:143-144 | an unknown vendor gets the sentinel name and NaN country, and is Non EU and Foreign |

## Left out

- Loading the reference tables and the categorical configuration over HTTP
  from blob storage is not modelled. The tables are an immutable
  `ReferenceData` value. In the code as written, the loading calls
  (tax_code_helpers.py:64-72) are commented out. Every lookup therefore
  names an undefined table, and every prediction request answers 500
  "Internal server error" (main.py:183-185). `ReferenceData` stands for the
  tables the service is meant to load.
- The POST to the predictor, `raise_for_status` and the JSON decoding are
  not modelled. Their outcomes are the `PredictorReply` parameter. Any
  request exception is a `TransportFailure`. A body missing a key is a
  `MalformedReply`.
- Endpoint.TopProbabilities: does not round probabilities to two decimals,
  because floating-point rounding is not modelled. Probabilities are reals,
  passed through.
- Endpoint.AssembleOutcome: the confidence score is not rounded to two
  decimals, for the same reason.
- Endpoint.GetTaxCodePrediction: states only the length bound of the
  probability table and not its contents. The contents, each row's code
  and probability, are stated by `AssembleOutcome`, which this function
  returns directly.
- FastAPI routing, CORS, logging, the request identifier `pID` and the JSON
  encoding of the description table are not modelled. The attention-list,
  IP-VAT and historical-meta table endpoints are not modelled either: they
  only serialize a table.
- The request's default `apAr` ("AP") and absent flags are not modelled as
  defaults. A `Request` value always carries every field; an absent flag is
  `Absent`.
- Cells.Capitalize: handles ASCII letters only, whereas Python's
  `str.capitalize` also maps other Unicode letters and can change the
  length ("ß" becomes "Ss"). The filter only capitalizes the texts "True",
  "False" and "None", on which the two agree.
- Endpoint.AssembleOutcome: a reply whose `ml_prediction` or ranked codes
  are NaN (a `NaN` literal in the predictor's JSON) would fail when the
  response is rendered, yet the model answers `Ok`. Reply cells are not
  checked for renderability; only the looked-up names are.
- Floating-point cells are not modelled, nor are pandas' dtype inference and
  its coercion of mixed columns. Cells are text, integers, booleans or NaN.
- A description that is not a string (NaN) is not modelled.
  `Description` is always text.
- A feature name listed twice in the configuration is treated as an error.
  The code would build a frame with duplicate columns, which
  `pd.Categorical` then cannot handle.
- A configuration without a `feature_names` entry is not modelled. The
  configuration always carries its feature list.
- The `Description` replacement is literal, as in pandas 2 and later. Older
  pandas would read the pattern as a regular expression.
