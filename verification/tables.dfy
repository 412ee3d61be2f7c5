/**
  The reference tables the rule engine reads, as an immutable value handed
  to every operation. The service's code to fetch them from blob storage is
  commented out, so as written the tables are never loaded.
 */
module Tables {
  import opened Cells

  /** A row of the company-code table: `Company Code`, `Reporting Country`, `Company Name`. */
  datatype CompanyRow = CompanyRow(companyCode: Cell, reportingCountry: Cell, companyName: Cell)

  /** A row of the vendor table: `Vendor`, `Country Key`, `Vendor Name`. */
  datatype VendorRow = VendorRow(vendor: Cell, countryKey: Cell, vendorName: Cell)

  /** A row of the legal-entity table: `Company Code`, `Vendor Number`. */
  datatype LegalEntityRow = LegalEntityRow(companyCode: Cell, vendorNumber: Cell)

  /** The columns of the static tax-code catalog that the candidate filter reads. */
  datatype CatalogRow = CatalogRow(
    country: Cell,
    taxCode: Cell,
    goodsServices: Cell,
    reverseCharge: Cell,
    vatRateInInvoiceCopy: Cell)

  /** A row of the tax-code description table: `Tax code`, `Description` and its other columns. */
  datatype DescriptionRow = DescriptionRow(taxCode: Cell, description: string, others: seq<Cell>)

  /** The description table with its column names, which the response echoes. */
  datatype DescriptionTable = DescriptionTable(columns: seq<string>, rows: seq<DescriptionRow>)

  /** The categorical configuration: the ordered feature names and each feature's allowed values. */
  datatype CategoricalConfig = CategoricalConfig(featureNames: seq<string>, categories: map<string, seq<Cell>>)

  /** Every table the rule engine consults. */
  datatype ReferenceData = ReferenceData(
    companies: seq<CompanyRow>,
    vendors: seq<VendorRow>,
    legalEntities: seq<LegalEntityRow>,
    catalog: seq<CatalogRow>,
    descriptions: DescriptionTable,
    config: CategoricalConfig)
}
