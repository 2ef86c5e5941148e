/** The description of one sale handed to the engine (`CapitalGainInput`),
    restricted to the fields the calculation reads. Each enumeration has an
    `Unlisted…` case for a value outside its list, which only an unvalidated
    caller can pass. */
module Inputs {
  import opened Common
  import opened HoldingPeriod
  import opened EarlyRepayment

  /** Seller: individual (`pp`), tax-transparent company (`sci_ir`),
      corporate-tax company (`sci_is`). */
  datatype Role = Pp | SciIr | SciIs | UnlistedRole

  /** `rp` primary residence, `rs` secondary residence,
      `first_sale_reinvestment` first sale with reinvestment. */
  datatype Occupation = PrimaryResidence | SecondaryResidence | FirstSaleReinvestment | UnlistedOccupation

  datatype FeesType = FlatFees | ActualFees | UnlistedFees

  datatype WorksType = FlatWorks | ActualWorks | NoWorks | UnlistedWorks

  datatype SaleInput = SaleInput(
    role: Role,
    occupation: Occupation,
    salePrice: real,
    purchasePrice: real,
    purchaseDate: Date,
    saleDate: Date,
    // acquisition
    acquisitionFeesType: FeesType,
    acquisitionFeesAmount: Option<real>,
    worksType: WorksType,
    worksAmount: Option<real>,
    otherAcquisitionCosts: real,
    // sale and loan costs
    feesAndLoanEnabled: Option<bool>,
    crd: Option<real>,
    iraMode: Option<IraMode>,
    iraPct: Option<real>,
    annualInterestRate: Option<real>,
    releaseFeeCost: Option<real>,
    agencyFees: Option<real>,
    diagnosticsCosts: Option<real>,
    propertyTaxProration: Option<real>,
    otherCessionCosts: Option<real>,
    // corporate-tax company
    vnc: Option<real>,
    cessionFeesDeductible: Option<real>,
    distributedDividends: Option<real>,
    pmeSmeThreshold: Option<real>,
    // exemption conditions
    wasNonOwnerFor4Years: Option<bool>,
    willReinvestIn24Months: Option<bool>)
}
