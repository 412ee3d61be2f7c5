/**
  Worked scenarios: a small set of reference tables and the behaviour the
  engine shows on them, from request to candidate list.
 */
module Scenarios {
  import opened Wrappers
  import opened Cells
  import opened Seqs
  import opened Tables
  import opened Enrichment
  import opened CandidateFilter

  /** German company 1027, US vendor 373458, and a catalog with one row passing and one failing each test. */
  function SampleData(): ReferenceData {
    ReferenceData(
      companies := [CompanyRow(Text("1027"), Text("DE"), Text("Sample GmbH"))],
      vendors := [VendorRow(Int(373458), Text("US"), Text("Sample Inc"))],
      legalEntities := [LegalEntityRow(Text("1027"), Text("999"))],
      catalog := SampleCatalog(),
      descriptions := DescriptionTable(["Tax code", "Description"], []),
      config := CategoricalConfig([], map[]))
  }

  function SampleCatalog(): seq<CatalogRow> {
    [ CatalogRow(Text("DE"), Text("V0"), Text("Goods"), Bool(false), Int(0)),
      CatalogRow(Text("DE"), Text("V1"), Text("Goods/Services"), Bool(false), Int(0)),
      CatalogRow(Text("FR"), Text("V2"), Text("Goods"), Bool(false), Int(0)),
      CatalogRow(Text("DE"), Text("V3"), Text("Services"), Bool(false), Int(0)),
      CatalogRow(Text("DE"), Text("V4"), Text("Goods"), Bool(true), Int(0)),
      CatalogRow(Text("DE"), Text("V5"), Text("Goods"), Bool(false), Int(19)) ]
  }

  /** `str()` of the integer vendor number 373458 is the text "373458". */
  lemma VendorNumberPrints()
    ensures Str(Int(373458)) == "373458"
  {
    assert NatToDecimal(3) == "3";
    assert NatToDecimal(37) == "37";
    assert NatToDecimal(373) == "373";
    assert NatToDecimal(3734) == "3734";
    assert NatToDecimal(37345) == "37345";
  }

  /** The enrichment of a goods-only purchase without reverse charge at rate "0" by company 1027 from vendor 373458. */
  lemma GoodsFromUsVendorIsParsed()
    ensures var q := QueryParser(SampleData(), "1027", "373458", No, Yes, No, "0", "AP");
      && q.reportingCountry == Some(Text("DE"))
      && q.vendorCountry == Text("US")
      && q.goodsServices == Goods
      && q.euNonEu == NonEu
      && q.domesticForeign == Foreign
      && q.isReverseCharge == "False"
      && q.legalEntity == Different
  {
    var data := SampleData();
    assert CompanyMatches(data.companies[0], "1027");
    assert GetReportingCountry(data.companies, "1027") == (Some(Text("DE")), Some(Text("Sample GmbH")));
    VendorNumberPrints();
    assert VendorMatches(data.vendors[0], "373458");
    assert GetVendorDetails(data.vendors, "373458") == (Text("US"), Text("Sample Inc"));
    assert "US" !in EuCountries;
    assert GetEuNonEu(Text("US")) == NonEu;
    assert Str(Text("999")) != "373458";
    assert CheckIfSameLegalEntity(data.legalEntities, "1027", "373458") == Different;
  }

  /** Which sample catalog rows pass the four tests for a German goods query without reverse charge at rate "0". */
  lemma GermanGoodsVerdicts(q: ParsedQuery)
    requires q.reportingCountry == Some(Text("DE"))
    requires q.goodsServices == Goods && q.isReverseCharge == "False" && q.vatRate == "0"
    ensures var c := SampleCatalog();
      && KeepsRow(c[0], q) && KeepsRow(c[1], q)
      && forall k | 2 <= k < |c| :: !KeepsRow(c[k], q)
  {
  }

  /** A mask that accepts the first two rows and rejects the rest selects the first two rows. */
  lemma WhereFirstTwo<T>(c: seq<T>, keep: T -> bool)
    requires |c| >= 2 && keep(c[0]) && keep(c[1])
    requires forall k | 2 <= k < |c| :: !keep(c[k])
    ensures Where(c, keep) == c[..2]
  {
  }

  /** Against the sample catalog, a German goods query without reverse charge at rate "0" keeps exactly the first two rows. */
  lemma GermanGoodsCandidates(q: ParsedQuery)
    requires q.reportingCountry == Some(Text("DE"))
    requires q.goodsServices == Goods && q.isReverseCharge == "False" && q.vatRate == "0"
    ensures FilterCatalog(SampleCatalog(), q) == SampleCatalog()[..2]
  {
    GermanGoodsVerdicts(q);
    FilterCatalogIsOnePass(SampleCatalog(), q);
    WhereFirstTwo(SampleCatalog(), (row: CatalogRow) => KeepsRow(row, q));
  }

  /**
    The whole scenario: the purchase is classified Goods, Non EU, Foreign, and
    its candidates are the German goods (or generic) rows without reverse
    charge at rate 0.
   */
  lemma GoodsFromUsVendorForGermanCompany()
    ensures var q := QueryParser(SampleData(), "1027", "373458", No, Yes, No, "0", "AP");
      && q.goodsServices == Goods && q.euNonEu == NonEu && q.domesticForeign == Foreign
      && FilterCatalog(SampleData().catalog, q) == SampleCatalog()[..2]
  {
    GoodsFromUsVendorIsParsed();
    GermanGoodsCandidates(QueryParser(SampleData(), "1027", "373458", No, Yes, No, "0", "AP"));
  }

  /** An unknown vendor gets the sentinel name and is classified Non EU and Foreign. */
  lemma UnknownVendorScenario()
    ensures var q := QueryParser(SampleData(), "1027", "42", No, Yes, No, "0", "AP");
      && q.vendorName == Text(VendorNotFound)
      && q.vendorCountry == NaN
      && q.euNonEu == NonEu
      && q.domesticForeign == Foreign
  {
  }
}
