/**
  The candidate filter: narrows the static tax-code catalog to the rows
  consistent with a parsed query, then selects the description rows whose tax
  code survived and tidies their text.
 */
module CandidateFilter {
  import opened Wrappers
  import opened Cells
  import opened Seqs
  import opened Tables
  import opened Enrichment

  /** The catalog's category for rows that apply to goods and services alike. */
  const GenericCategory: string := "Goods/Services"

  /** `Country == reporting_country`; pandas never matches a missing reporting country. */
  predicate CountryMatches(row: CatalogRow, q: ParsedQuery) {
    q.reportingCountry.Some? && PyEq(row.country, q.reportingCountry.value)
  }

  /** `Goods/Services` isin [the query's category, "Goods/Services"]. */
  predicate GoodsServicesMatches(row: CatalogRow, q: ParsedQuery) {
    IsinEq(row.goodsServices, Text(q.goodsServices.Name())) || IsinEq(row.goodsServices, Text(GenericCategory))
  }

  /** `str(Reverse Charge) == is_reverse_charge.capitalize()`. */
  predicate ReverseChargeMatches(row: CatalogRow, q: ParsedQuery) {
    Str(row.reverseCharge) == Capitalize(q.isReverseCharge)
  }

  /** `str(VAT Rate in Invoice copy) == str(vat_rate)`; the rate is already text. */
  predicate VatRateMatches(row: CatalogRow, q: ParsedQuery) {
    Str(row.vatRateInInvoiceCopy) == q.vatRate
  }

  /** The four row tests together: what a catalog row must pass to be a candidate. */
  predicate KeepsRow(row: CatalogRow, q: ParsedQuery) {
    CountryMatches(row, q) && GoodsServicesMatches(row, q) && ReverseChargeMatches(row, q) && VatRateMatches(row, q)
  }

  /** The catalog narrowed by the four tests applied one after the other, as successive masks. */
  function FilterCatalog(catalog: seq<CatalogRow>, q: ParsedQuery): (r: seq<CatalogRow>)
    ensures |r| <= |catalog|
    ensures forall k | 0 <= k < |r| :: r[k] in catalog && KeepsRow(r[k], q)
    ensures forall k | 0 <= k < |catalog| && KeepsRow(catalog[k], q) :: catalog[k] in r
    ensures q.reportingCountry.None? ==> r == []
  {
    var byCountry := Where(catalog, (row: CatalogRow) => CountryMatches(row, q));
    var byOffering := Where(byCountry, (row: CatalogRow) => GoodsServicesMatches(row, q));
    var byReverseCharge := Where(byOffering, (row: CatalogRow) => ReverseChargeMatches(row, q));
    Where(byReverseCharge, (row: CatalogRow) => VatRateMatches(row, q))
  }

  /** The chain of four masks is one pass with their conjunction, so the order in which they run is irrelevant. */
  lemma FilterCatalogIsOnePass(catalog: seq<CatalogRow>, q: ParsedQuery)
    ensures FilterCatalog(catalog, q) == Where(catalog, (row: CatalogRow) => KeepsRow(row, q))
  {
    var c := (row: CatalogRow) => CountryMatches(row, q);
    var g := (row: CatalogRow) => GoodsServicesMatches(row, q);
    var v := (row: CatalogRow) => ReverseChargeMatches(row, q);
    var t := (row: CatalogRow) => VatRateMatches(row, q);
    var cg := (row: CatalogRow) => CountryMatches(row, q) && GoodsServicesMatches(row, q);
    var cgv := (row: CatalogRow) => CountryMatches(row, q) && GoodsServicesMatches(row, q) && ReverseChargeMatches(row, q);
    var all := (row: CatalogRow) => KeepsRow(row, q);
    WhereFusion(catalog, c, g, cg);
    WhereFusion(catalog, cg, v, cgv);
    WhereFusion(catalog, cgv, t, all);
  }

  /** The candidates keep the catalog's order and every duplicate of a row that passes. */
  lemma FilterCatalogKeepsOrderAndDuplicates(catalog: seq<CatalogRow>, q: ParsedQuery)
    ensures IsSubsequence(FilterCatalog(catalog, q), catalog)
    ensures forall row :: multiset(FilterCatalog(catalog, q))[row] ==
                          if KeepsRow(row, q) then multiset(catalog)[row] else 0
  {
    FilterCatalogIsOnePass(catalog, q);
    WhereIsSubsequence(catalog, (row: CatalogRow) => KeepsRow(row, q));
    WhereCount(catalog, (row: CatalogRow) => KeepsRow(row, q));
  }

  /** A generic "Goods/Services" row is kept or dropped independently of the query's own category. */
  lemma GenericRowsIgnoreOffering(catalog: seq<CatalogRow>, q: ParsedQuery, o: Offering)
    ensures forall k | 0 <= k < |catalog| && catalog[k].goodsServices == Text(GenericCategory) ::
              catalog[k] in FilterCatalog(catalog, q) <==> catalog[k] in FilterCatalog(catalog, q.(goodsServices := o))
  {
  }

  /** Filtering is repeatable: filtering the candidates again with the same query changes nothing. */
  lemma FilterCatalogIdempotent(catalog: seq<CatalogRow>, q: ParsedQuery)
    ensures FilterCatalog(FilterCatalog(catalog, q), q) == FilterCatalog(catalog, q)
  {
    var all := (row: CatalogRow) => KeepsRow(row, q);
    FilterCatalogIsOnePass(catalog, q);
    FilterCatalogIsOnePass(FilterCatalog(catalog, q), q);
    WhereIdempotent(catalog, all);
  }

  /**
    An absent reverse-charge flag prints as "None", which no boolean or missing
    cell prints as, so against a boolean `Reverse Charge` column it leaves no candidate.
   */
  lemma AbsentReverseChargeKeepsNoBooleanRow(catalog: seq<CatalogRow>, q: ParsedQuery)
    requires q.isReverseCharge == "None"
    requires forall j | 0 <= j < |catalog| :: catalog[j].reverseCharge.Bool? || catalog[j].reverseCharge == NaN
    ensures FilterCatalog(catalog, q) == []
  {
  }

  /** The two characters backslash and `n` start at position `i` of `s`. */
  predicate EscapedNewlineAt(s: string, i: int) {
    0 <= i && i + 1 < |s| && s[i] == '\\' && s[i + 1] == 'n'
  }

  predicate HasEscapedNewline(s: string) {
    exists i | 0 <= i < |s| :: EscapedNewlineAt(s, i)
  }

  /**
    What the replacement produces, stated position by position: the same
    length; each backslash-`n` pair of `s` becomes ". "; every character
    outside such a pair is kept. Two pairs never overlap, because a pair
    starts with a backslash and ends with `n`.
   */
  predicate IsNewlineTidied(s: string, r: string) {
    && |r| == |s|
    && (forall i | 0 <= i < |s| && EscapedNewlineAt(s, i) :: r[i] == '.' && r[i + 1] == ' ')
    && (forall k | 0 <= k < |s| && !EscapedNewlineAt(s, k) && !EscapedNewlineAt(s, k - 1) :: r[k] == s[k])
  }

  /**
    Literal, left-to-right replacement of every backslash-`n` pair by ". "
    (Python's `str.replace` without regular expressions). The replacement has
    the same length as the pattern, so the text keeps its length.
   */
  function ReplaceEscapedNewlines(s: string): (r: string)
    ensures |r| == |s|
    ensures forall i | 0 <= i < |s| && EscapedNewlineAt(s, i) :: r[i] == '.' && r[i + 1] == ' '
    ensures forall k | 0 <= k < |s| && !EscapedNewlineAt(s, k) && !EscapedNewlineAt(s, k - 1) :: r[k] == s[k]
    ensures !HasEscapedNewline(r)
    ensures !HasEscapedNewline(s) ==> r == s
    decreases |s|
  {
    var r := (
      if |s| < 2 then s
      else if s[0] == '\\' && s[1] == 'n' then
        var t := ReplaceEscapedNewlines(s[2..]);
        TidyAfterPair(s, t);
        ". " + t
      else
        var t := ReplaceEscapedNewlines(s[1..]);
        TidyAfterChar(s, t);
        [s[0]] + t);
    TidiedTextIsClean(s, r);
    r
  }

  /** Replacing a leading pair by ". " in front of a tidied rest tidies the whole text. */
  lemma TidyAfterPair(s: string, t: string)
    requires |s| >= 2 && EscapedNewlineAt(s, 0)
    requires IsNewlineTidied(s[2..], t)
    ensures IsNewlineTidied(s, ". " + t)
  {
    var r := ". " + t;
    forall i | 2 <= i < |s| && EscapedNewlineAt(s, i)
      ensures r[i] == '.' && r[i + 1] == ' '
    {
      assert EscapedNewlineAt(s[2..], i - 2);
    }
    forall k | 2 <= k < |s| && !EscapedNewlineAt(s, k) && !EscapedNewlineAt(s, k - 1)
      ensures r[k] == s[k]
    {
      assert !EscapedNewlineAt(s[2..], k - 2) && !EscapedNewlineAt(s[2..], k - 3);
      assert r[k] == t[k - 2] && s[k] == s[2..][k - 2];
    }
  }

  /** Keeping a leading character that starts no pair in front of a tidied rest tidies the whole text. */
  lemma TidyAfterChar(s: string, t: string)
    requires |s| >= 1 && !EscapedNewlineAt(s, 0)
    requires IsNewlineTidied(s[1..], t)
    ensures IsNewlineTidied(s, [s[0]] + t)
  {
    var r := [s[0]] + t;
    forall i | 1 <= i < |s| && EscapedNewlineAt(s, i)
      ensures r[i] == '.' && r[i + 1] == ' '
    {
      assert EscapedNewlineAt(s[1..], i - 1);
    }
    forall k | 1 <= k < |s| && !EscapedNewlineAt(s, k) && !EscapedNewlineAt(s, k - 1)
      ensures r[k] == s[k]
    {
      assert !EscapedNewlineAt(s[1..], k - 1) && !EscapedNewlineAt(s[1..], k - 2);
      assert r[k] == t[k - 1] && s[k] == s[1..][k - 1];
    }
  }

  /** A tidied text holds no backslash-`n` pair, and a text that had none is tidied into itself. */
  lemma TidiedTextIsClean(s: string, r: string)
    requires IsNewlineTidied(s, r)
    ensures !HasEscapedNewline(r)
    ensures !HasEscapedNewline(s) ==> r == s
  {
    forall i | 0 <= i < |r|
      ensures !EscapedNewlineAt(r, i)
    {
      if i + 1 < |r| && !EscapedNewlineAt(s, i) && !EscapedNewlineAt(s, i - 1) {
        assert r[i] == s[i];
        if !EscapedNewlineAt(s, i + 1) {
          assert r[i + 1] == s[i + 1];
        }
      }
    }
    if !HasEscapedNewline(s) {
      forall k | 0 <= k < |s|
        ensures r[k] == s[k]
      {
        assert !EscapedNewlineAt(s, k) && !EscapedNewlineAt(s, k - 1);
      }
    }
  }

  /** The replacement is the one and only text tidied from `s`: the characterization pins it down. */
  lemma ReplaceEscapedNewlinesIsTidying(s: string, r: string)
    ensures IsNewlineTidied(s, r) <==> r == ReplaceEscapedNewlines(s)
  {
    var out := ReplaceEscapedNewlines(s);
    if IsNewlineTidied(s, r) {
      forall k | 0 <= k < |s|
        ensures r[k] == out[k]
      {
        if EscapedNewlineAt(s, k - 1) {
          assert r[k] == ' ' && out[k] == ' ';
        }
      }
    }
  }

  /** Replacing twice is replacing once. */
  lemma ReplaceEscapedNewlinesIdempotent(s: string)
    ensures ReplaceEscapedNewlines(ReplaceEscapedNewlines(s)) == ReplaceEscapedNewlines(s)
  {
  }

  /** A description row with its text tidied; every other field is untouched. */
  function CleanDescription(d: DescriptionRow): DescriptionRow {
    d.(description := ReplaceEscapedNewlines(d.description))
  }

  /** Some catalog row that passes the four tests carries this tax code (pandas `isin` on the surviving codes). */
  predicate SurvivingCode(code: Cell, catalog: seq<CatalogRow>, q: ParsedQuery) {
    exists i | 0 <= i < |catalog| :: KeepsRow(catalog[i], q) && IsinEq(code, catalog[i].taxCode)
  }

  /** `code` isin the given list of tax codes. */
  predicate CodeIn(code: Cell, codes: seq<Cell>) {
    exists k | 0 <= k < |codes| :: IsinEq(code, codes[k])
  }

  /** A description row is selected when its tax code survived the catalog filter. */
  predicate SurvivingDescription(d: DescriptionRow, catalog: seq<CatalogRow>, q: ParsedQuery) {
    SurvivingCode(d.taxCode, catalog, q)
  }

  /**
    The description rows whose tax code is among the surviving catalog codes,
    in table order with duplicates kept, each with its text tidied.
   */
  function FilteredTaxCodeDescriptions(data: ReferenceData, q: ParsedQuery): (r: seq<DescriptionRow>)
    ensures r == Project(Where(data.descriptions.rows, (d: DescriptionRow) => SurvivingDescription(d, data.catalog, q)), CleanDescription)
    ensures |r| <= |data.descriptions.rows|
    ensures forall k | 0 <= k < |r| :: !HasEscapedNewline(r[k].description)
    ensures forall k | 0 <= k < |r| :: SurvivingCode(r[k].taxCode, data.catalog, q)
    ensures forall k | 0 <= k < |r| :: r[k] in Project(data.descriptions.rows, CleanDescription)
    ensures forall j | 0 <= j < |data.descriptions.rows| && SurvivingCode(data.descriptions.rows[j].taxCode, data.catalog, q) ::
              CleanDescription(data.descriptions.rows[j]) in r
    ensures q.reportingCountry.None? ==> r == []
  {
    var codes := Project(FilterCatalog(data.catalog, q), (row: CatalogRow) => row.taxCode);
    var selected := Where(data.descriptions.rows, (d: DescriptionRow) => CodeIn(d.taxCode, codes));
    SelectionIsBySurvivingCode(data, q);
    Project(selected, CleanDescription)
  }

  /**
    Selecting description rows by membership in the filtered catalog's code
    list is selecting them by surviving code; with no reporting country no row
    survives.
   */
  lemma SelectionIsBySurvivingCode(data: ReferenceData, q: ParsedQuery)
    ensures var codes := Project(FilterCatalog(data.catalog, q), (row: CatalogRow) => row.taxCode);
      Where(data.descriptions.rows, (d: DescriptionRow) => CodeIn(d.taxCode, codes)) ==
      Where(data.descriptions.rows, (d: DescriptionRow) => SurvivingDescription(d, data.catalog, q))
    ensures q.reportingCountry.None? ==>
      Where(data.descriptions.rows, (d: DescriptionRow) => SurvivingDescription(d, data.catalog, q)) == []
  {
    var rows := data.descriptions.rows;
    var codes := Project(FilterCatalog(data.catalog, q), (row: CatalogRow) => row.taxCode);
    var surviving := (d: DescriptionRow) => SurvivingDescription(d, data.catalog, q);
    SurvivingCodesAreFilteredCodes(data.catalog, q, codes);
    WhereCongruence(rows, (d: DescriptionRow) => CodeIn(d.taxCode, codes), surviving);
    if q.reportingCountry.None? {
      WhereNothing(rows, surviving);
    }
  }

  /** A code is in the projected code list of the filtered catalog exactly when it is a surviving code. */
  lemma SurvivingCodesAreFilteredCodes(catalog: seq<CatalogRow>, q: ParsedQuery, codes: seq<Cell>)
    requires codes == Project(FilterCatalog(catalog, q), (row: CatalogRow) => row.taxCode)
    ensures forall c :: CodeIn(c, codes) <==> SurvivingCode(c, catalog, q)
  {
  }

  /** The `Tax code` column of the result: the table's column restricted to surviving codes. */
  function TaxCodeColumn(rows: seq<DescriptionRow>): seq<Cell> {
    Project(rows, (d: DescriptionRow) => d.taxCode)
  }

  /**
    The tax codes of the filtered descriptions are the description table's tax
    codes that survived, in table order and with every duplicate kept.
   */
  lemma FilteredCodesKeepOrderAndDuplicates(data: ReferenceData, q: ParsedQuery)
    ensures var out := TaxCodeColumn(FilteredTaxCodeDescriptions(data, q));
            var all := TaxCodeColumn(data.descriptions.rows);
            && IsSubsequence(out, all)
            && forall c :: multiset(out)[c] == if SurvivingCode(c, data.catalog, q) then multiset(all)[c] else 0
  {
    var rows := data.descriptions.rows;
    var selects := (d: DescriptionRow) => SurvivingDescription(d, data.catalog, q);
    var surviving := (c: Cell) => SurvivingCode(c, data.catalog, q);
    var code := (d: DescriptionRow) => d.taxCode;
    ProjectProject(Where(rows, selects), CleanDescription, code, code);
    ProjectWhere(rows, code, selects, surviving);
    WhereIsSubsequence(TaxCodeColumn(rows), surviving);
    WhereCount(TaxCodeColumn(rows), surviving);
  }
}
