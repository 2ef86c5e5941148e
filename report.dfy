/** `buildEnrichedResult`: the report built from one engine result, its
    amounts each rounded once to the cent. Only the numeric sections are
    modelled (no address, references, labels or timestamps). */
module Report {
  import opened Common
  import opened HoldingPeriod
  import opened SurchargeSchedule
  import opened EarlyRepayment
  import opened Inputs
  import opened CapitalGain

  datatype FeesMethod = FlatFeesMethod | ActualFeesMethod
  datatype WorksMethod = FlatWorksMethod | ActualWorksMethod | NoWorksMethod

  /** `percent` is `None` where JavaScript would divide by a zero purchase
      price and produce a non-finite number. */
  datatype AcqFeesLine = AcqFeesLine(feesMethod: FeesMethod, percent: Option<real>, amount: real)
  datatype WorksLine = WorksLine(worksMethod: WorksMethod, percent: Option<real>, amount: real, eligible: bool)
  datatype AcquisitionBreakdown = AcquisitionBreakdown(
    purchasePrice: real, acqFees: AcqFeesLine, works: WorksLine, other: real, basisTotal: real)
  datatype PlusValue = PlusValue(pvBrute: real, holding: Period)
  datatype Abatement = Abatement(rate: real, amount: real)
  datatype Abatements = Abatements(ir: Abatement, ps: Abatement)
  datatype TaxLine = TaxLine(base: real, amount: real, rate: real)
  datatype Surtaxe = Surtaxe(amount: real, applied: bool, tranche: Option<Tranche>)
  datatype Taxes = Taxes(ir: TaxLine, ps: TaxLine, surtaxe: Surtaxe, total: real)
  datatype IraLine = IraLine(mode: IraLabel, amount: real, selected: IraSelection)
  datatype FeesAndLoan = FeesAndLoan(
    enabled: bool, crd: real, ira: IraLine, mainlevee: real, agency: real,
    diagnostics: real, prorataTf: real, misc: real, total: real)
  datatype Nets = Nets(priceNetVendeur: real, netBeforeLoan: real, netFinal: real)
  datatype General = General(purchasePrice: real, purchaseDate: Date, salePrice: real, saleDate: Date)

  datatype EnrichedReport = EnrichedReport(
    general: General,
    acquisitionBreakdown: AcquisitionBreakdown,
    plusValue: PlusValue,
    abatements: Abatements,
    taxes: Taxes,
    feesAndLoan: FeesAndLoan,
    nets: Nets)

  /** Every sale and loan cost: principal, penalty, release fee, agency fee,
      diagnostics, property-tax proration, other costs. */
  function FeesTotal(input: SaleInput): real {
    OrZero(input.crd) + IraOf(input).amount + OrZero(input.releaseFeeCost) + OrZero(input.agencyFees)
      + OrZero(input.diagnosticsCosts) + OrZero(input.propertyTaxProration) + OrZero(input.otherCessionCosts)
  }

  /** The costs that do not concern the loan. */
  function NonLoanFees(input: SaleInput): real {
    OrZero(input.agencyFees) + OrZero(input.diagnosticsCosts) + OrZero(input.propertyTaxProration)
      + OrZero(input.otherCessionCosts)
  }

  /** The three net amounts before rounding. */
  function RawNets(input: SaleInput, totalTax: real): Nets {
    Nets(
      input.salePrice - OrZero(input.agencyFees),
      input.salePrice - totalTax - NonLoanFees(input),
      input.salePrice - totalTax - FeesTotal(input))
  }

  /** An allowance line: the rate and the part of the gross gain it relieves,
      each rounded to the cent. */
  function AbatementOf(gross: real, pct: real): Abatement {
    Abatement(Round2(pct), Round2(gross * (pct / 100.0)))
  }

  /** A share of the purchase price in percent, undefined for a zero price. */
  function PercentOfPurchase(amount: real, purchasePrice: real): Option<real> {
    if purchasePrice == 0.0 then None else Some(Round2(amount / purchasePrice * 100.0))
  }

  /** The report of one engine result: every amount in whole cents, the
      holding period as years and months 0-11. */
  function BuildReport(input: SaleInput, r: CapitalGainResult): (rep: EnrichedReport)
    ensures AmountsInCents(rep)
    ensures rep.plusValue.holding == PeriodOf(input.purchaseDate, input.saleDate)
    ensures rep.plusValue.holding.months < 12
    ensures rep.taxes.surtaxe.applied <==> r.surcharge > 0.0
  {
    var holding := PeriodOf(input.purchaseDate, input.saleDate);
    var ira := IraOf(input);
    var raw := RawNets(input, r.totalTax);
    var acqFees := AcqFeesLine(
      if input.acquisitionFeesType == FlatFees then FlatFeesMethod else ActualFeesMethod,
      if input.acquisitionFeesType == FlatFees then Some(Round2(7.5)) else PercentOfPurchase(r.acquisitionFeesUsed, input.purchasePrice),
      Round2(r.acquisitionFeesUsed));
    var works := WorksLine(
      if input.worksType == FlatWorks then FlatWorksMethod else if input.worksType == ActualWorks then ActualWorksMethod else NoWorksMethod,
      if input.worksType == FlatWorks then Some(Round2(15.0)) else PercentOfPurchase(r.worksUsed, input.purchasePrice),
      Round2(r.worksUsed),
      r.holdingYears >= 5 || input.worksType == ActualWorks);
    EnrichedReport(
      General(input.purchasePrice, input.purchaseDate, input.salePrice, input.saleDate),
      AcquisitionBreakdown(input.purchasePrice, acqFees, works, Round2(input.otherAcquisitionCosts), Round2(r.acquisitionBase)),
      PlusValue(Round2(r.grossCapitalGain), holding),
      Abatements(AbatementOf(r.grossCapitalGain, r.irAllowancePercent), AbatementOf(r.grossCapitalGain, r.psAllowancePercent)),
      Taxes(
        TaxLine(Round2(r.irTaxableBase), Round2(r.irTax), 19.0),
        TaxLine(Round2(r.psTaxableBase), Round2(r.psTax), 17.2),
        Surtaxe(Round2(r.surcharge), r.surcharge > 0.0, r.surchargeTranche),
        Round2(r.totalTax)),
      FeesAndLoan(
        OrFalse(input.feesAndLoanEnabled),
        Round2(OrZero(input.crd)),
        IraLine(ira.mode, Round2(ira.amount), ira.selected),
        Round2(OrZero(input.releaseFeeCost)),
        Round2(OrZero(input.agencyFees)),
        Round2(OrZero(input.diagnosticsCosts)),
        Round2(OrZero(input.propertyTaxProration)),
        Round2(OrZero(input.otherCessionCosts)),
        Round2(FeesTotal(input))),
      Nets(Round2(raw.priceNetVendeur), Round2(raw.netBeforeLoan), Round2(raw.netFinal)))
  }

  /** `buildEnrichedResult`: fails exactly when the engine does. */
  function BuildEnrichedResult(input: SaleInput): (rep: Result<EnrichedReport, EngineError>)
    ensures rep.Ok? <==> CalculateCapitalGain(input).Ok?
  {
    match CalculateCapitalGain(input)
    case Err(e) => Err(e)
    case Ok(r) => Ok(BuildReport(input, r))
  }

  // ---------------------------------------------------------------------------
  // Properties

  /** Before rounding, the final net is the net before the loan less the
      principal, the penalty and the release fee; and it is the engine's own
      net proceeds. */
  lemma RawNetsAccounting(input: SaleInput)
    requires CalculateCapitalGain(input).Ok?
    ensures var r := CalculateCapitalGain(input).value;
      var raw := RawNets(input, r.totalTax);
      && raw.netFinal == raw.netBeforeLoan - OrZero(input.crd) - IraOf(input).amount - OrZero(input.releaseFeeCost)
      && raw.netFinal == r.netProceeds
  {
    NetProceedsAccounting(input);
  }

  /** The reported final net is the engine's net proceeds rounded once. */
  lemma ReportedNetIsRoundedProceeds(input: SaleInput)
    requires BuildEnrichedResult(input).Ok?
    ensures BuildEnrichedResult(input).value.nets.netFinal == Round2(CalculateCapitalGain(input).value.netProceeds)
  {
    RawNetsAccounting(input);
  }

  /** Every amount of the report is a whole number of cents. */
  predicate AmountsInCents(rep: EnrichedReport) {
    && IsCents(rep.acquisitionBreakdown.acqFees.amount)
    && IsCents(rep.acquisitionBreakdown.works.amount)
    && IsCents(rep.acquisitionBreakdown.other)
    && IsCents(rep.acquisitionBreakdown.basisTotal)
    && IsCents(rep.plusValue.pvBrute)
    && IsCents(rep.abatements.ir.amount) && IsCents(rep.abatements.ps.amount)
    && IsCents(rep.taxes.ir.base) && IsCents(rep.taxes.ir.amount)
    && IsCents(rep.taxes.ps.base) && IsCents(rep.taxes.ps.amount)
    && IsCents(rep.taxes.surtaxe.amount) && IsCents(rep.taxes.total)
    && IsCents(rep.feesAndLoan.crd) && IsCents(rep.feesAndLoan.ira.amount)
    && IsCents(rep.feesAndLoan.mainlevee) && IsCents(rep.feesAndLoan.agency)
    && IsCents(rep.feesAndLoan.diagnostics) && IsCents(rep.feesAndLoan.prorataTf)
    && IsCents(rep.feesAndLoan.misc) && IsCents(rep.feesAndLoan.total)
    && IsCents(rep.nets.priceNetVendeur) && IsCents(rep.nets.netBeforeLoan) && IsCents(rep.nets.netFinal)
  }

  /** Every reported amount is in cents, and each lies within half a cent of
      the unrounded value it reports, so no amount is rounded twice from an
      already rounded intermediate. */
  lemma ReportRoundedOnce(input: SaleInput)
    requires BuildEnrichedResult(input).Ok?
    ensures AmountsInCents(BuildEnrichedResult(input).value)
    ensures var rep := BuildEnrichedResult(input).value;
      var r := CalculateCapitalGain(input).value;
      && r.totalTax - 0.005 < rep.taxes.total <= r.totalTax + 0.005
      && r.netProceeds - 0.005 < rep.nets.netFinal <= r.netProceeds + 0.005
      && FeesTotal(input) - 0.005 < rep.feesAndLoan.total <= FeesTotal(input) + 0.005
  {
    RawNetsAccounting(input);
  }

  /** Each reported acquisition, gain and allowance amount is its unrounded
      value rounded once with `Round2`. */
  lemma ReportAcquisitionRounded(input: SaleInput, r: CapitalGainResult)
    ensures var rep := BuildReport(input, r);
      var ab := rep.acquisitionBreakdown;
      && ab.purchasePrice == input.purchasePrice
      && ab.acqFees.amount == Round2(r.acquisitionFeesUsed)
      && ab.works.amount == Round2(r.worksUsed)
      && ab.other == Round2(input.otherAcquisitionCosts)
      && ab.basisTotal == Round2(r.acquisitionBase)
      && rep.plusValue.pvBrute == Round2(r.grossCapitalGain)
      && rep.abatements.ir == AbatementOf(r.grossCapitalGain, r.irAllowancePercent)
      && rep.abatements.ps == AbatementOf(r.grossCapitalGain, r.psAllowancePercent)
  {
  }

  /** A flat rate is reported as its percentage, 7.5 or 15; an actual amount
      as its rounded share of the purchase price, undefined for a zero
      price. */
  lemma ReportPercents(input: SaleInput, r: CapitalGainResult)
    ensures var ab := BuildReport(input, r).acquisitionBreakdown;
      && ab.acqFees.percent == (if input.acquisitionFeesType == FlatFees then Some(7.5)
                                else PercentOfPurchase(r.acquisitionFeesUsed, input.purchasePrice))
      && ab.works.percent == (if input.worksType == FlatWorks then Some(15.0)
                              else PercentOfPurchase(r.worksUsed, input.purchasePrice))
  {
    assert (7.5 * 100.0).Floor == 750;
    assert (15.0 * 100.0).Floor == 1500;
    Round2OfCents(7.5);
    Round2OfCents(15.0);
    var ab := BuildReport(input, r).acquisitionBreakdown;
    assert ab.acqFees.percent == (if input.acquisitionFeesType == FlatFees then Some(Round2(7.5))
                                  else PercentOfPurchase(r.acquisitionFeesUsed, input.purchasePrice));
  }

  /** Each reported tax amount is the engine's value rounded once. */
  lemma ReportTaxesRounded(input: SaleInput, r: CapitalGainResult)
    ensures var taxes := BuildReport(input, r).taxes;
      && taxes.ir == TaxLine(Round2(r.irTaxableBase), Round2(r.irTax), 19.0)
      && taxes.ps == TaxLine(Round2(r.psTaxableBase), Round2(r.psTax), 17.2)
      && taxes.surtaxe.amount == Round2(r.surcharge)
      && taxes.total == Round2(r.totalTax)
  {
  }

  /** Each reported cost and net is its unrounded value rounded once: the
      price net of agency fees, the net before the loan (less tax and
      non-loan costs) and the final net (less tax and every cost). */
  lemma ReportCostsRounded(input: SaleInput, r: CapitalGainResult)
    ensures var rep := BuildReport(input, r);
      var fl := rep.feesAndLoan;
      && fl.crd == Round2(OrZero(input.crd))
      && fl.ira.amount == Round2(IraOf(input).amount)
      && fl.mainlevee == Round2(OrZero(input.releaseFeeCost))
      && fl.agency == Round2(OrZero(input.agencyFees))
      && fl.diagnostics == Round2(OrZero(input.diagnosticsCosts))
      && fl.prorataTf == Round2(OrZero(input.propertyTaxProration))
      && fl.misc == Round2(OrZero(input.otherCessionCosts))
      && fl.total == Round2(FeesTotal(input))
      && rep.nets.priceNetVendeur == Round2(input.salePrice - OrZero(input.agencyFees))
      && rep.nets.netBeforeLoan == Round2(input.salePrice - r.totalTax - NonLoanFees(input))
      && rep.nets.netFinal == Round2(input.salePrice - r.totalTax - FeesTotal(input))
  {
  }

  /** The three reported nets in terms of the engine's net proceeds: the
      final net is them rounded; the net before the loan adds back the
      principal, the penalty and the release fee; the price net of agency
      fees ignores tax and every other cost. */
  lemma ReportedNetsFromEngine(input: SaleInput)
    requires BuildEnrichedResult(input).Ok?
    ensures var nets := BuildEnrichedResult(input).value.nets;
      var r := CalculateCapitalGain(input).value;
      && nets.netFinal == Round2(r.netProceeds)
      && nets.netBeforeLoan
         == Round2(r.netProceeds + OrZero(input.crd) + IraOf(input).amount + OrZero(input.releaseFeeCost))
      && nets.priceNetVendeur == Round2(input.salePrice - OrZero(input.agencyFees))
  {
    var r := CalculateCapitalGain(input).value;
    RawNetsAccounting(input);
    ReportCostsRounded(input, r);
    assert input.salePrice - r.totalTax - NonLoanFees(input)
           == r.netProceeds + OrZero(input.crd) + IraOf(input).amount + OrZero(input.releaseFeeCost);
  }

  /** The fees-and-loan switch is reported but changes no amount. */
  lemma FeesSwitchChangesNoAmount(input: SaleInput, enabled: Option<bool>)
    ensures var other := input.(feesAndLoanEnabled := enabled);
      && BuildEnrichedResult(other).Ok? == BuildEnrichedResult(input).Ok?
      && (BuildEnrichedResult(input).Ok? ==>
            var a, b := BuildEnrichedResult(input).value, BuildEnrichedResult(other).value;
            && b.feesAndLoan.enabled == OrFalse(enabled)
            && b == a.(feesAndLoan := a.feesAndLoan.(enabled := OrFalse(enabled))))
  {
    var other := input.(feesAndLoanEnabled := enabled);
    SwitchChangesNoResult(input, enabled);
    if CalculateCapitalGain(input).Ok? {
      SwitchChangesOnlyEnabled(input, enabled, CalculateCapitalGain(input).value);
    }
  }

  /** The engine does not read the switch. */
  lemma SwitchChangesNoResult(input: SaleInput, enabled: Option<bool>)
    ensures CalculateCapitalGain(input.(feesAndLoanEnabled := enabled)) == CalculateCapitalGain(input)
  {
    var other := input.(feesAndLoanEnabled := enabled);
    assert BasisOf(other) == BasisOf(input);
    assert IraOf(other) == IraOf(input);
    assert CorporateTaxesOf(other) == CorporateTaxesOf(input);
    forall tax: real, ira: real
      ensures NetProceeds(other, tax, ira) == NetProceeds(input, tax, ira)
    {
    }
  }

  /** For a given engine result, the switch changes only the report's
      `enabled` field. */
  lemma SwitchChangesOnlyEnabled(input: SaleInput, enabled: Option<bool>, r: CapitalGainResult)
    ensures var a, b := BuildReport(input, r), BuildReport(input.(feesAndLoanEnabled := enabled), r);
      b == a.(feesAndLoan := a.feesAndLoan.(enabled := OrFalse(enabled)))
  {
    var other := input.(feesAndLoanEnabled := enabled);
    assert IraOf(other) == IraOf(input);
    assert FeesTotal(other) == FeesTotal(input);
    assert RawNets(other, r.totalTax) == RawNets(input, r.totalTax);
  }

  /** The surcharge is reported as applied exactly when a bracket applied. */
  lemma SurtaxeAppliedIffBracket(input: SaleInput)
    requires BuildEnrichedResult(input).Ok?
    ensures var s := BuildEnrichedResult(input).value.taxes.surtaxe;
      s.applied <==> (s.tranche.Some? && s.tranche.value != NoTranche)
  {
  }
}
