/**
  Query enrichment: turns a raw prediction request into the thirteen-field
  parsed query by looking up the company and the vendor, classifying the legal
  entity, normalizing the goods/services flags and deriving the EU and
  domestic/foreign classifications. Lookup misses become sentinels, so the
  enrichment is total.
 */
module Enrichment {
  import opened Wrappers
  import opened Cells
  import opened Seqs
  import opened Tables

  /** The 27 country codes the engine treats as EU members, in the order the service lists them. */
  const EuCountries: seq<string> := [
    "AT", "BE", "BG", "HR", "CY", "CZ", "SE", "EE", "FI", "FR", "DE", "GR", "HU", "IE",
    "IT", "LV", "LT", "LU", "MT", "NL", "PL", "PT", "RO", "SK", "SI", "ES", "DK"]

  /** The vendor name reported when the vendor number is not in the vendor table. */
  const VendorNotFound: string := "Vendor details not found"

  datatype LegalEntity = Same | Different {
    function Name(): string {
      match this
      case Same => "Same"
      case Different => "Different"
    }
  }

  /** The normalized goods/services category of a transaction. */
  datatype Offering = Goods | Services | GoodsAndServices {
    function Name(): string {
      match this
      case Goods => "Goods"
      case Services => "Services"
      case GoodsAndServices => "Goods/Services"
    }
  }

  datatype Region = Eu | NonEu {
    function Name(): string {
      match this
      case Eu => "EU"
      case NonEu => "Non EU"
    }
  }

  datatype Locality = Domestic | Foreign {
    function Name(): string {
      match this
      case Domestic => "Domestic"
      case Foreign => "Foreign"
    }
  }

  /** The enriched query record: the request fields plus everything derived from the reference tables. */
  datatype ParsedQuery = ParsedQuery(
    companyCode: string,
    vendorNumber: string,
    vatRate: string,
    apAr: string,
    reportingCountry: Option<Cell>,
    reportingName: Option<Cell>,
    vendorCountry: Cell,
    vendorName: Cell,
    isReverseCharge: string,
    legalEntity: LegalEntity,
    goodsServices: Offering,
    euNonEu: Region,
    domesticForeign: Locality)

  /** The company lookup compares the `Company Code` cell with the code using `==`, without converting either side. */
  predicate CompanyMatches(row: CompanyRow, code: string) {
    PyEq(row.companyCode, Text(code))
  }

  /** Reporting country and company name of the first row whose company code equals `code`; (None, None) when none does. */
  function GetReportingCountry(companies: seq<CompanyRow>, code: string): (r: (Option<Cell>, Option<Cell>))
    ensures (forall j | 0 <= j < |companies| :: !CompanyMatches(companies[j], code)) <==> r == (None, None)
    ensures forall i | 0 <= i < |companies| && CompanyMatches(companies[i], code)
                       && (forall j | 0 <= j < i :: !CompanyMatches(companies[j], code)) ::
              r == (Some(companies[i].reportingCountry), Some(companies[i].companyName))
  {
    match FirstIndex(companies, row => CompanyMatches(row, code))
    case None => (None, None)
    case Some(i) => (Some(companies[i].reportingCountry), Some(companies[i].companyName))
  }

  /** A company table whose codes were read as numbers never matches a code given as text. */
  lemma NumericCompanyCodesNeverMatch(companies: seq<CompanyRow>, code: string)
    requires forall j | 0 <= j < |companies| :: companies[j].companyCode.Int?
    ensures GetReportingCountry(companies, code) == (None, None)
  {
  }

  /** The vendor lookup compares `str()` of both sides. */
  predicate VendorMatches(row: VendorRow, vendor: string) {
    Str(row.vendor) == vendor
  }

  /** Country key and vendor name of the first row whose vendor prints as `vendor`; (NaN, "Vendor details not found") when none does. */
  function GetVendorDetails(vendors: seq<VendorRow>, vendor: string): (r: (Cell, Cell))
    ensures (forall j | 0 <= j < |vendors| :: !VendorMatches(vendors[j], vendor)) ==> r == (NaN, Text(VendorNotFound))
    ensures forall i | 0 <= i < |vendors| && VendorMatches(vendors[i], vendor)
                       && (forall j | 0 <= j < i :: !VendorMatches(vendors[j], vendor)) ::
              r == (vendors[i].countryKey, vendors[i].vendorName)
  {
    match FirstIndex(vendors, row => VendorMatches(row, vendor))
    case None => (NaN, Text(VendorNotFound))
    case Some(i) => (vendors[i].countryKey, vendors[i].vendorName)
  }

  /** Unlike the company lookup, the vendor lookup finds a vendor number stored as an int. */
  lemma NumericVendorNumbersMatch(vendors: seq<VendorRow>, n: int)
    requires |vendors| > 0 && vendors[0].vendor == Int(n)
    ensures GetVendorDetails(vendors, Str(Int(n))) == (vendors[0].countryKey, vendors[0].vendorName)
  {
  }

  /** `s in column.astype(str).values`: some cell of the column prints as `s`. */
  function ColumnHasText(column: seq<Cell>, s: string): (r: bool)
    ensures r <==> exists k | 0 <= k < |column| :: Str(column[k]) == s
  {
    if |column| == 0 then false
    else Str(column[0]) == s || ColumnHasText(column[1..], s)
  }

  /**
    "Same" when the company code occurs anywhere in the table's company-code
    column and the vendor occurs anywhere in its vendor-number column; the two
    occurrences need not be in the same row.
   */
  function CheckIfSameLegalEntity(links: seq<LegalEntityRow>, companyCode: string, vendor: string): (r: LegalEntity)
    ensures r == Same <==>
      (exists i | 0 <= i < |links| :: Str(links[i].companyCode) == companyCode)
      && (exists j | 0 <= j < |links| :: Str(links[j].vendorNumber) == vendor)
  {
    if ColumnHasText(Project(links, (row: LegalEntityRow) => row.companyCode), companyCode)
       && ColumnHasText(Project(links, (row: LegalEntityRow) => row.vendorNumber), vendor)
    then Same
    else Different
  }

  /** The classification is not a pair test: a company and a vendor listed on different rows are still "Same". */
  lemma LegalEntityIsNotAPairCheck()
    ensures var links := [LegalEntityRow(Text("1000"), Text("V1")), LegalEntityRow(Text("2000"), Text("V2"))];
      && (forall i | 0 <= i < |links| :: !(links[i].companyCode == Text("1000") && links[i].vendorNumber == Text("V2")))
      && CheckIfSameLegalEntity(links, "1000", "V2") == Same
  {
  }

  /**
    The goods/services truth table over {true, false, absent}: "Goods" exactly
    when only goods is true, "Services" exactly when only services is true,
    and the combined category in every other case.
   */
  function GetGoodsServices(goods: Flag, services: Flag): (r: Offering)
    ensures r == Goods <==> goods == Yes && services != Yes
    ensures r == Services <==> services == Yes && goods != Yes
    ensures r == GoodsAndServices <==> (goods == Yes) == (services == Yes)
  {
    if goods.Truthy() && services.Truthy() then GoodsAndServices
    else if goods.Truthy() then Goods
    else if services.Truthy() then Services
    else GoodsAndServices
  }

  /** "EU" exactly when the vendor country is one of the 27 listed codes; Python's `in` on a list of strings. */
  function GetEuNonEu(vendorCountry: Cell): (r: Region)
    ensures r == Eu <==> vendorCountry.Text? && vendorCountry.s in EuCountries
  {
    if exists k | 0 <= k < |EuCountries| :: PyEq(vendorCountry, Text(EuCountries[k])) then Eu else NonEu
  }

  /** "Domestic" exactly when the vendor country `==` the reporting country; a missing side is never domestic. */
  function GetDomesticForeign(vendorCountry: Cell, reportingCountry: Option<Cell>): (r: Locality)
    ensures reportingCountry.None? ==> r == Foreign
    ensures vendorCountry == NaN ==> r == Foreign
    ensures vendorCountry.Text? && reportingCountry.Some? && reportingCountry.value.Text? ==>
              (r == Domestic <==> vendorCountry.s == reportingCountry.value.s)
    ensures vendorCountry.Text? && reportingCountry.Some? && !reportingCountry.value.Text? ==> r == Foreign
  {
    if reportingCountry.Some? && PyEq(vendorCountry, reportingCountry.value) then Domestic else Foreign
  }

  /** The request enriched into the parsed-query record; total, whatever the reference tables hold. */
  function QueryParser(
    data: ReferenceData,
    companyCode: string,
    vendorNumber: string,
    isReverseCharge: Flag,
    goods: Flag,
    services: Flag,
    vatRate: string,
    apAr: string): (q: ParsedQuery)
    ensures q.companyCode == companyCode && q.vendorNumber == vendorNumber
    ensures q.vatRate == vatRate && q.apAr == apAr
    ensures q.isReverseCharge == FlagText(isReverseCharge)
    ensures q.isReverseCharge in ["True", "False", "None"]
    ensures (q.reportingCountry, q.reportingName) == GetReportingCountry(data.companies, companyCode)
    ensures (q.vendorCountry, q.vendorName) == GetVendorDetails(data.vendors, vendorNumber)
    ensures (forall j | 0 <= j < |data.companies| :: !CompanyMatches(data.companies[j], companyCode)) <==>
              q.reportingCountry == None && q.reportingName == None
    ensures (forall j | 0 <= j < |data.companies| :: !CompanyMatches(data.companies[j], companyCode)) ==>
              q.domesticForeign == Foreign
    ensures (forall j | 0 <= j < |data.vendors| :: !VendorMatches(data.vendors[j], vendorNumber)) ==>
              && q.vendorCountry == NaN
              && q.vendorName == Text(VendorNotFound)
              && q.euNonEu == NonEu
              && q.domesticForeign == Foreign
    ensures q.euNonEu == Eu <==> q.vendorCountry.Text? && q.vendorCountry.s in EuCountries
    ensures q.domesticForeign == Domestic <==> q.reportingCountry.Some? && PyEq(q.vendorCountry, q.reportingCountry.value)
    ensures q.domesticForeign == Domestic ==> q.reportingCountry.Some? && q.vendorCountry != NaN
    ensures q.legalEntity == Same <==>
      (exists i | 0 <= i < |data.legalEntities| :: Str(data.legalEntities[i].companyCode) == companyCode)
      && (exists j | 0 <= j < |data.legalEntities| :: Str(data.legalEntities[j].vendorNumber) == vendorNumber)
    ensures q.goodsServices == Goods <==> goods == Yes && services != Yes
    ensures q.goodsServices == Services <==> services == Yes && goods != Yes
  {
    var (reportingCountry, reportingName) := GetReportingCountry(data.companies, companyCode);
    var (vendorCountry, vendorName) := GetVendorDetails(data.vendors, vendorNumber);
    ParsedQuery(
      companyCode := companyCode,
      vendorNumber := vendorNumber,
      vatRate := vatRate,
      apAr := apAr,
      reportingCountry := reportingCountry,
      reportingName := reportingName,
      vendorCountry := vendorCountry,
      vendorName := vendorName,
      isReverseCharge := FlagText(isReverseCharge),
      legalEntity := CheckIfSameLegalEntity(data.legalEntities, companyCode, vendorNumber),
      goodsServices := GetGoodsServices(goods, services),
      euNonEu := GetEuNonEu(vendorCountry),
      domesticForeign := GetDomesticForeign(vendorCountry, reportingCountry))
  }

  /**
    When company row `i` and vendor row `j` are the first rows matching the
    request, the parsed query carries their names, and the transaction is
    domestic exactly when the vendor's country key equals the company's
    reporting country.
   */
  lemma ParsedQueryFromFirstMatches(
    data: ReferenceData, companyCode: string, vendorNumber: string,
    isReverseCharge: Flag, goods: Flag, services: Flag, vatRate: string, apAr: string,
    i: nat, j: nat)
    requires IsFirstMatch(data.companies, (row: CompanyRow) => CompanyMatches(row, companyCode), i)
    requires IsFirstMatch(data.vendors, (row: VendorRow) => VendorMatches(row, vendorNumber), j)
    ensures var q := QueryParser(data, companyCode, vendorNumber, isReverseCharge, goods, services, vatRate, apAr);
      && q.reportingCountry == Some(data.companies[i].reportingCountry)
      && q.reportingName == Some(data.companies[i].companyName)
      && q.vendorCountry == data.vendors[j].countryKey
      && q.vendorName == data.vendors[j].vendorName
      && (q.domesticForeign == Domestic <==> PyEq(data.vendors[j].countryKey, data.companies[i].reportingCountry))
      && (q.euNonEu == Eu <==> data.vendors[j].countryKey.Text? && data.vendors[j].countryKey.s in EuCountries)
  {
  }
}
