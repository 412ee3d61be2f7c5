/**
  The prediction gateway's pure part: the one-row feature frame built from a
  parsed query (restricted to and ordered by the configured feature names,
  each value checked against its column's categories), and the payload that
  renames its columns to the predictor's field names.
 */
module Gateway {
  import opened Wrappers
  import opened Cells
  import opened Seqs
  import opened Tables
  import opened Enrichment

  /** The columns of the frame built from a parsed query, in the order the service builds them. */
  const DataColumns: seq<string> := [
    "Company Code", "Vendor Number", "AP/AR/FI", "VAT Rate", "Reverse Charge",
    "EU/NON EU", "Goods/Services", "Domestic/ Foreign", "Legal Entity"]

  /** The value the frame holds in column `col`, taken from the parsed query. */
  function DataValue(q: ParsedQuery, col: string): string
    requires col in DataColumns
  {
    if col == "Company Code" then q.companyCode
    else if col == "Vendor Number" then q.vendorNumber
    else if col == "AP/AR/FI" then q.apAr
    else if col == "VAT Rate" then q.vatRate
    else if col == "Reverse Charge" then q.isReverseCharge
    else if col == "EU/NON EU" then q.euNonEu.Name()
    else if col == "Goods/Services" then q.goodsServices.Name()
    else if col == "Domestic/ Foreign" then q.domesticForeign.Name()
    else q.legalEntity.Name()
  }

  /** The translation from frame column names to the predictor's field names. */
  const FieldMapper: map<string, string> := map[
    "Company Code" := "company_code",
    "Vendor Number" := "vendor_number",
    "VAT Rate" := "vat_rate",
    "AP/AR/FI" := "ap_ar",
    "Reverse Charge" := "is_reverse_charge",
    "Legal Entity" := "legal_entity",
    "Goods/Services" := "goods_services",
    "EU/NON EU" := "eu_noneu",
    "Domestic/ Foreign" := "domestic_foreign"]

  /** `function_app_field_mapper.get(col, col)`: the translated name, or the name itself when it has none. */
  function MapField(col: string): (r: string)
    ensures col !in FieldMapper ==> r == col
    ensures col in FieldMapper ==> r in FieldMapper.Values
  {
    if col in FieldMapper then FieldMapper[col] else col
  }

  /** The frame column a predictor field name comes from. */
  function UnmapField(name: string): string {
    if name == "company_code" then "Company Code"
    else if name == "vendor_number" then "Vendor Number"
    else if name == "vat_rate" then "VAT Rate"
    else if name == "ap_ar" then "AP/AR/FI"
    else if name == "is_reverse_charge" then "Reverse Charge"
    else if name == "legal_entity" then "Legal Entity"
    else if name == "goods_services" then "Goods/Services"
    else if name == "eu_noneu" then "EU/NON EU"
    else if name == "domestic_foreign" then "Domestic/ Foreign"
    else name
  }

  /** Every frame column has a translation, and translating back recovers the column. */
  lemma MapFieldRoundTrip(col: string)
    requires col in DataColumns
    ensures col in FieldMapper
    ensures UnmapField(MapField(col)) == col
  {
  }

  /** Distinct frame columns get distinct predictor field names. */
  lemma MapFieldInjective(a: string, b: string)
    requires a in DataColumns && b in DataColumns
    requires MapField(a) == MapField(b)
    ensures a == b
  {
  }

  predicate Distinct<T(==)>(s: seq<T>) {
    forall i, j | 0 <= i < j < |s| :: s[i] != s[j]
  }

  /** The first position whose name occurs again further on, or None when all names differ. */
  function FirstRepeated(s: seq<string>): (r: Option<nat>)
    ensures r.None? <==> Distinct(s)
    ensures r.Some? ==> r.value < |s| && s[r.value] in s[r.value + 1..]
  {
    if |s| == 0 then None
    else if s[0] in s[1..] then Some(0)
    else
      match FirstRepeated(s[1..])
      case None => None
      case Some(i) => Some(i + 1)
  }

  /** A cell of the categorical frame: an allowed category, or missing (NaN) when the value is outside them. */
  datatype CategoryValue = Category(value: string) | Missing

  /** Why building the frame or reading its record raises, each of which surfaces as an internal error. */
  datatype FrameError =
    | UnknownFeature(name: string)        // a feature name that is not a frame column (KeyError)
    | RepeatedFeature(name: string)       // a feature name listed twice
    | NoCategories(name: string)          // a feature without an entry in the configuration (KeyError)
    | DuplicateCategories(name: string)   // categories that coincide once stringified (ValueError)
    | NoFeatures                          // a frame without columns yields no record to send (IndexError)

  /** `pd.Categorical([value], categories=[str(c) for c in allowed])` for one value. */
  function Categorize(value: string, allowed: seq<Cell>): (r: CategoryValue)
    ensures r == Category(value) <==> exists k | 0 <= k < |allowed| :: Str(allowed[k]) == value
    ensures r != Category(value) ==> r == Missing
  {
    if value in Project(allowed, Str) then Category(value) else Missing
  }

  /** The configured categories of `col`, as the strings pandas compares against. */
  function CategoryStrings(config: CategoricalConfig, col: string): seq<string>
    requires col in config.categories
  {
    Project(config.categories[col], Str)
  }

  /** `col` has an entry in the configuration, and its stringified categories are unique. */
  predicate HasUsableCategories(config: CategoricalConfig, col: string) {
    col in config.categories && Distinct(CategoryStrings(config, col))
  }

  /** The categorical columns for `names`, in order, or the first column whose categories are unusable. */
  function CategorizeColumns(names: seq<string>, config: CategoricalConfig, q: ParsedQuery):
    (r: Result<seq<(string, CategoryValue)>, FrameError>)
    requires forall k | 0 <= k < |names| :: names[k] in DataColumns
    ensures r.Success? <==> forall k | 0 <= k < |names| :: HasUsableCategories(config, names[k])
    ensures r.Success? ==>
      && |r.value| == |names|
      && forall k | 0 <= k < |names| ::
           && r.value[k].0 == names[k]
           && r.value[k].1 == Categorize(DataValue(q, names[k]), config.categories[names[k]])
    ensures r.Failure? ==> exists k | 0 <= k < |names| ::
      && !HasUsableCategories(config, names[k])
      && r.error == (if names[k] in config.categories then DuplicateCategories(names[k]) else NoCategories(names[k]))
  {
    if |names| == 0 then Success([])
    else
      var col := names[0];
      if col !in config.categories then Failure(NoCategories(col))
      else if !Distinct(CategoryStrings(config, col)) then Failure(DuplicateCategories(col))
      else
        match CategorizeColumns(names[1..], config, q)
        case Failure(e) => Failure(e)
        case Success(rest) =>
          Success([(col, Categorize(DataValue(q, col), config.categories[col]))] + rest)
  }

  /**
    The one-row frame sent to the predictor: exactly the configured feature
    columns, in their configured order, each holding the query's value when it
    is one of the column's categories and Missing otherwise.
   */
  function GetDataFrameForPrediction(config: CategoricalConfig, q: ParsedQuery):
    (r: Result<seq<(string, CategoryValue)>, FrameError>)
    ensures r.Success? <==>
      && Distinct(config.featureNames)
      && forall k | 0 <= k < |config.featureNames| ::
           config.featureNames[k] in DataColumns && HasUsableCategories(config, config.featureNames[k])
    ensures r.Success? ==>
      && |r.value| == |config.featureNames|
      && forall k | 0 <= k < |r.value| ::
           && var col := config.featureNames[k];
           && col in DataColumns && col in config.categories
           && r.value[k].0 == col
           && (r.value[k].1 == Category(DataValue(q, col)) <==>
                 exists c | 0 <= c < |config.categories[col]| :: Str(config.categories[col][c]) == DataValue(q, col))
           && (r.value[k].1 == Category(DataValue(q, col)) || r.value[k].1 == Missing)
  {
    var names := config.featureNames;
    match FirstIndex(names, (n: string) => n !in DataColumns)
    case Some(i) => Failure(UnknownFeature(names[i]))
    case None =>
      match FirstRepeated(names)
      case Some(i) => Failure(RepeatedFeature(names[i]))
      case None => CategorizeColumns(names, config, q)
  }

  /** The request body for the predictor: the renamed query and the candidate tax codes. */
  datatype Payload = Payload(query: seq<(string, CategoryValue)>, filteredTaxCodes: seq<Cell>)

  function FieldName(entry: (string, CategoryValue)): string {
    entry.0
  }

  /**
    The payload: each frame column renamed through the field mapper, its value
    carried over, in frame order; the candidate list passed through unchanged.
    Building fails when the frame does, and also when the configuration lists
    no feature: a frame without columns converts to no record at all, so
    taking its first record fails.
   */
  function CreatePayload(config: CategoricalConfig, q: ParsedQuery, filteredTaxCodes: seq<Cell>):
    (r: Result<Payload, FrameError>)
    ensures r.Failure? <==> GetDataFrameForPrediction(config, q).Failure? || |config.featureNames| == 0
    ensures GetDataFrameForPrediction(config, q).Failure? ==> r.error == GetDataFrameForPrediction(config, q).error
    ensures GetDataFrameForPrediction(config, q).Success? && |config.featureNames| == 0 ==> r == Failure(NoFeatures)
    ensures r.Success? ==>
      && r.value.filteredTaxCodes == filteredTaxCodes
      && |r.value.query| == |config.featureNames|
      && (forall k | 0 <= k < |r.value.query| ::
            && r.value.query[k].0 == MapField(config.featureNames[k])
            && r.value.query[k].1 == GetDataFrameForPrediction(config, q).value[k].1)
      && Distinct(Project(r.value.query, FieldName))
  {
    match GetDataFrameForPrediction(config, q)
    case Failure(e) => Failure(e)
    case Success(frame) =>
      if |frame| == 0 then Failure(NoFeatures)
      else
        var query := seq(|frame|, k requires 0 <= k < |frame| => (MapField(frame[k].0), frame[k].1));
        RenamedKeysDistinct(frame);
        Success(Payload(query, filteredTaxCodes))
  }

  /** Renaming distinct frame columns yields distinct field names, so no payload entry overwrites another. */
  lemma RenamedKeysDistinct(frame: seq<(string, CategoryValue)>)
    requires forall k | 0 <= k < |frame| :: frame[k].0 in DataColumns
    requires Distinct(Project(frame, FieldName))
    ensures Distinct(Project(seq(|frame|, k requires 0 <= k < |frame| => (MapField(frame[k].0), frame[k].1)), FieldName))
  {
  }

  /** Translating the payload's field names back recovers the configured feature names, in order. */
  lemma PayloadKeysRecoverFeatures(config: CategoricalConfig, q: ParsedQuery, codes: seq<Cell>)
    requires CreatePayload(config, q, codes).Success?
    ensures Project(Project(CreatePayload(config, q, codes).value.query, FieldName), UnmapField) == config.featureNames
  {
    var p := CreatePayload(config, q, codes).value;
    var names := config.featureNames;
    forall k | 0 <= k < |names|
      ensures UnmapField(FieldName(p.query[k])) == names[k]
    {
      MapFieldRoundTrip(names[k]);
    }
  }
}
