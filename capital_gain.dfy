/** `calculateCapitalGain`: from one sale description to the gross gain, the
    exemptions, the role-specific taxes, the repayment penalty and the net
    proceeds. */
module CapitalGain {
  import opened Common
  import opened HoldingPeriod
  import opened Allowances
  import opened SurchargeSchedule
  import opened EarlyRepayment
  import opened Inputs

  datatype ExemptionReason = PrimaryResidenceReason | FirstSaleReinvestmentReason

  /** The engine's only failure: a role outside the list. */
  datatype EngineError = InvalidRole

  /** `CapitalGainResult` without its clock-dependent `calculationDate`. */
  datatype CapitalGainResult = CapitalGainResult(
    acquisitionBase: real,
    acquisitionFeesUsed: real,
    worksUsed: real,
    grossCapitalGain: real,
    holdingYears: nat,
    irAllowancePercent: real,
    psAllowancePercent: real,
    irTaxableBase: real,
    psTaxableBase: real,
    irTax: real,
    psTax: real,
    surcharge: real,
    surchargeTranche: Option<Tranche>,
    sciIsResult: Option<real>,
    sciIsTax: Option<real>,
    sciPfuTax: Option<real>,
    isRpExempt: bool,
    isFirstSaleExempt: bool,
    exemptionReasons: seq<ExemptionReason>,
    ira: real,
    totalTax: real,
    netProceeds: real)

  const FlatFeesRate: real := 0.075
  const FlatWorksRate: real := 0.15
  const FlatWorksMinYears: nat := 5
  const IrRate: real := 0.19
  const PsRate: real := 0.172
  const CorporateReducedRate: real := 0.15
  const CorporateNormalRate: real := 0.25
  const DefaultPmeThreshold: real := 42500.0
  const DividendRate: real := 0.30

  // ---------------------------------------------------------------------------
  // Acquisition basis

  /** Acquisition fees: 7.5% of the purchase price when flat, otherwise the
      amount supplied, otherwise 0. */
  function AcquisitionFeesUsed(input: SaleInput): (fees: real)
    ensures input.acquisitionFeesType == FlatFees ==> fees == 0.075 * input.purchasePrice
    ensures input.acquisitionFeesType != FlatFees && input.acquisitionFeesAmount.Some? ==>
              fees == input.acquisitionFeesAmount.value
    ensures input.acquisitionFeesType != FlatFees && input.acquisitionFeesAmount.None? ==> fees == 0.0
  {
    if input.acquisitionFeesType == FlatFees then input.purchasePrice * FlatFeesRate
    else if input.acquisitionFeesAmount.Some? then input.acquisitionFeesAmount.value
    else 0.0
  }

  /** Works: 15% of the purchase price when flat and held at least 5 years;
      in every other case the amount supplied (even for `'none'`), else 0. */
  function WorksUsed(input: SaleInput, holdingYears: nat): (works: real)
    ensures input.worksType == FlatWorks && holdingYears >= 5 ==> works == 0.15 * input.purchasePrice
    ensures !(input.worksType == FlatWorks && holdingYears >= 5) ==>
              works == (if input.worksAmount.Some? then input.worksAmount.value else 0.0)
  {
    if input.worksType == FlatWorks && holdingYears >= FlatWorksMinYears then input.purchasePrice * FlatWorksRate
    else if input.worksAmount.Some? then input.worksAmount.value
    else 0.0
  }

  datatype Basis = Basis(
    acquisitionFeesUsed: real,
    worksUsed: real,
    acquisitionBase: real,
    grossCapitalGain: real,
    holdingYears: nat)

  /** Cost basis and gross gain of the sale. */
  function BasisOf(input: SaleInput): (b: Basis)
    ensures b.acquisitionFeesUsed == AcquisitionFeesUsed(input)
    ensures b.holdingYears == HoldingYears(input.purchaseDate, input.saleDate)
    ensures b.worksUsed == WorksUsed(input, b.holdingYears)
    ensures b.acquisitionBase == input.purchasePrice + b.acquisitionFeesUsed + b.worksUsed + input.otherAcquisitionCosts
    ensures b.grossCapitalGain + b.acquisitionBase == input.salePrice
  {
    var fees := AcquisitionFeesUsed(input);
    var years := HoldingYears(input.purchaseDate, input.saleDate);
    var works := WorksUsed(input, years);
    var base := input.purchasePrice + fees + works + input.otherAcquisitionCosts;
    Basis(fees, works, base, input.salePrice - base, years)
  }

  // ---------------------------------------------------------------------------
  // Exemptions (article 150 U of the Code général des impôts)

  predicate IsRpExempt(input: SaleInput) {
    input.occupation == PrimaryResidence
  }

  predicate IsFirstSaleExempt(input: SaleInput) {
    && input.occupation == FirstSaleReinvestment
    && input.wasNonOwnerFor4Years == Some(true)
    && input.willReinvestIn24Months == Some(true)
  }

  predicate IsExempt(input: SaleInput) {
    IsRpExempt(input) || IsFirstSaleExempt(input)
  }

  function ExemptionReasons(input: SaleInput): seq<ExemptionReason> {
    (if IsRpExempt(input) then [PrimaryResidenceReason] else [])
      + (if IsFirstSaleExempt(input) then [FirstSaleReinvestmentReason] else [])
  }

  // ---------------------------------------------------------------------------
  // Penalty and net proceeds

  /** The repayment penalty computed from the input's loan fields. */
  function IraOf(input: SaleInput): IraResult {
    Ira(OrZero(input.crd), input.iraMode, input.iraPct, input.annualInterestRate)
  }

  /** Sale and loan costs other than the penalty: principal repaid, release
      fee, agency fee, diagnostics, property-tax proration, other costs. */
  function CessionCosts(input: SaleInput): real {
    OrZero(input.crd) + OrZero(input.releaseFeeCost) + OrZero(input.agencyFees)
      + OrZero(input.diagnosticsCosts) + OrZero(input.propertyTaxProration) + OrZero(input.otherCessionCosts)
  }

  /** Net proceeds as every branch computes them: the sale price less the
      tax, the principal, the penalty and each cost in turn. */
  function NetProceeds(input: SaleInput, totalTax: real, ira: real): real {
    input.salePrice - totalTax - OrZero(input.crd) - ira - OrZero(input.releaseFeeCost)
      - OrZero(input.agencyFees) - OrZero(input.diagnosticsCosts) - OrZero(input.propertyTaxProration)
      - OrZero(input.otherCessionCosts)
  }

  // ---------------------------------------------------------------------------
  // Individuals and tax-transparent companies

  datatype TransparentTaxes = TransparentTaxes(
    irAllowance: real,
    psAllowance: real,
    irBase: real,
    psBase: real,
    irTax: real,
    psTax: real,
    surcharge: SurchargeResult,
    total: real)

  /** The part of the gain left taxable by an allowance (in percent): with
      the part the allowance relieves, it makes up the whole gain. */
  function Relieved(gross: real, allowance: real): (base: real)
    ensures base + gross * (allowance / 100.0) == gross
  {
    gross * (1.0 - allowance / 100.0)
  }

  /** A relief between 0 and 100% keeps the base between 0 and the gain (or
      the loss), and more relief never leaves more of a gain taxable. */
  lemma RelievedWithin(gross: real, allowance: real)
    requires 0.0 <= allowance <= 100.0
    ensures gross >= 0.0 ==> 0.0 <= Relieved(gross, allowance) <= gross
    ensures gross <= 0.0 ==> gross <= Relieved(gross, allowance) <= 0.0
    ensures allowance < 100.0 && gross < 0.0 ==> Relieved(gross, allowance) < 0.0
  {
    var f := 1.0 - allowance / 100.0;
    assert 0.0 <= f <= 1.0;
    if gross >= 0.0 {
      ScaleWithin(gross, f);
    } else {
      ScaleWithin(-gross, f);
      assert gross * f == -((-gross) * f);
      if allowance < 100.0 {
        ProductPositive(-gross, f);
      }
    }
  }

  lemma ProductPositive(a: real, b: real)
    requires a > 0.0 && b > 0.0
    ensures a * b > 0.0
  {
  }

  lemma RelievedAntitone(gross: real, a1: real, a2: real)
    requires gross >= 0.0 && a1 <= a2
    ensures Relieved(gross, a2) <= Relieved(gross, a1)
  {
    ProductAntitone(gross, 1.0 - a1 / 100.0, 1.0 - a2 / 100.0);
  }

  /** Income tax at 19% and social charges at 17.2% on the gain less each
      allowance, plus the surcharge on the income-tax base; no floor at 0. */
  function TransparentTaxesOf(gross: real, years: nat): (t: TransparentTaxes)
    ensures t.irAllowance == IrAllowance(years) && t.psAllowance == PsAllowance(years)
    ensures t.irBase == Relieved(gross, t.irAllowance) && t.psBase == Relieved(gross, t.psAllowance)
    ensures gross >= 0.0 ==> 0.0 <= t.irBase <= gross && 0.0 <= t.psBase <= gross
    ensures gross <= 0.0 ==> gross <= t.irBase <= 0.0 && gross <= t.psBase <= 0.0
    ensures t.irTax == 0.19 * t.irBase && t.psTax == 0.172 * t.psBase
    ensures t.surcharge == Surcharge(t.irBase)
    ensures t.total == t.irTax + t.psTax + t.surcharge.amount
  {
    var irAllowance := IrAllowance(years);
    var psAllowance := PsAllowance(years);
    RelievedWithin(gross, irAllowance);
    RelievedWithin(gross, psAllowance);
    var irBase := Relieved(gross, irAllowance);
    var psBase := Relieved(gross, psAllowance);
    var irTax := irBase * IrRate;
    var psTax := psBase * PsRate;
    var surcharge := Surcharge(irBase);
    TransparentTaxes(irAllowance, psAllowance, irBase, psBase, irTax, psTax, surcharge, irTax + psTax + surcharge.amount)
  }

  /** Each taxable base is the gross gain less the share its allowance
      relieves: `gross × (1 − allowance / 100)`. */
  lemma TransparentBaseFormula(gross: real, years: nat)
    ensures TransparentTaxesOf(gross, years).irBase == gross * (1.0 - IrAllowance(years) / 100.0)
    ensures TransparentTaxesOf(gross, years).psBase == gross * (1.0 - PsAllowance(years) / 100.0)
  {
    var t := TransparentTaxesOf(gross, years);
    assert t.irBase + gross * (IrAllowance(years) / 100.0) == gross;
    assert t.psBase + gross * (PsAllowance(years) / 100.0) == gross;
  }

  // ---------------------------------------------------------------------------
  // Corporate-tax companies

  /** Corporate tax: 15% up to the SME threshold, 25% above it; that is,
      15% of the part of the result below the threshold plus 25% of the part
      above it. */
  function CorporateTax(result: real, threshold: real): (tax: real)
    ensures tax == CorporateReducedRate * MinReal(result, threshold)
                 + CorporateNormalRate * MaxReal(0.0, result - threshold)
  {
    if result <= threshold then result * CorporateReducedRate
    else threshold * CorporateReducedRate + (result - threshold) * CorporateNormalRate
  }

  datatype CorporateTaxes = CorporateTaxes(result: real, tax: real, pfu: real, total: real)

  /** `pmeSmeThreshold || 42500`: a zero threshold reads as the default. */
  function PmeThreshold(input: SaleInput): real {
    OrDefault(input.pmeSmeThreshold, DefaultPmeThreshold)
  }

  /** Result = sale price less book value and deductible fees; corporate
      tax on it; 30% flat levy on distributed dividends. */
  function CorporateTaxesOf(input: SaleInput): (c: CorporateTaxes)
    ensures c.result == input.salePrice - OrZero(input.vnc) - OrZero(input.cessionFeesDeductible)
    ensures c.tax == 0.15 * MinReal(c.result, PmeThreshold(input)) + 0.25 * MaxReal(0.0, c.result - PmeThreshold(input))
    ensures c.result >= 0.0 && PmeThreshold(input) >= 0.0 ==> 0.15 * c.result <= c.tax <= 0.25 * c.result
    ensures c.pfu == 0.30 * OrZero(input.distributedDividends)
    ensures c.total == c.tax + c.pfu
  {
    var result := input.salePrice - (OrZero(input.vnc) + OrZero(input.cessionFeesDeductible));
    var tax := CorporateTax(result, PmeThreshold(input));
    var pfu := OrZero(input.distributedDividends) * DividendRate;
    CorporateTaxes(result, tax, pfu, tax + pfu)
  }

  // ---------------------------------------------------------------------------
  // The engine

  /** `calculateCapitalGain`: the exemption test comes first and applies to
      every role; otherwise the role selects the branch, and a role outside
      the list is the engine's error. */
  function CalculateCapitalGain(input: SaleInput): (res: Result<CapitalGainResult, EngineError>)
    ensures res.Err? <==> !IsExempt(input) && input.role == UnlistedRole
    ensures res.Ok? ==>
              && res.value.acquisitionBase == BasisOf(input).acquisitionBase
              && res.value.grossCapitalGain == BasisOf(input).grossCapitalGain
              && res.value.acquisitionFeesUsed == BasisOf(input).acquisitionFeesUsed
              && res.value.worksUsed == BasisOf(input).worksUsed
              && res.value.holdingYears == HoldingYears(input.purchaseDate, input.saleDate)
    ensures res.Ok? && IsExempt(input) ==> res.value.totalTax == 0.0
    ensures res.Ok? && !IsExempt(input) && input.role in {Pp, SciIr} ==>
              var t := TransparentTaxesOf(BasisOf(input).grossCapitalGain, BasisOf(input).holdingYears);
              && res.value.irAllowancePercent == t.irAllowance && res.value.psAllowancePercent == t.psAllowance
              && res.value.irTaxableBase == t.irBase && res.value.psTaxableBase == t.psBase
              && res.value.irTax == t.irTax && res.value.psTax == t.psTax
              && res.value.surcharge == t.surcharge.amount && res.value.surchargeTranche == Some(t.surcharge.tranche)
              && res.value.sciIsResult.None? && res.value.sciIsTax.None? && res.value.sciPfuTax.None?
              && res.value.totalTax == t.total
    ensures res.Ok? && !IsExempt(input) && input.role == SciIs ==>
              var c := CorporateTaxesOf(input);
              && res.value.sciIsResult == Some(c.result) && res.value.sciIsTax == Some(c.tax) && res.value.sciPfuTax == Some(c.pfu)
              && res.value.irAllowancePercent == 0.0 && res.value.psAllowancePercent == 0.0
              && res.value.irTaxableBase == 0.0 && res.value.psTaxableBase == 0.0
              && res.value.irTax == 0.0 && res.value.psTax == 0.0
              && res.value.surcharge == 0.0 && res.value.surchargeTranche.None?
              && res.value.totalTax == c.total
  {
    var b := BasisOf(input);
    var ira := IraOf(input).amount;
    if IsExempt(input) then
      Ok(CapitalGainResult(
        b.acquisitionBase, b.acquisitionFeesUsed, b.worksUsed, b.grossCapitalGain, b.holdingYears,
        100.0, 100.0, 0.0, 0.0, 0.0, 0.0, 0.0, None,
        None, None, None,
        IsRpExempt(input), IsFirstSaleExempt(input), ExemptionReasons(input),
        ira, 0.0, NetProceeds(input, 0.0, ira)))
    else
      match input.role
      case Pp | SciIr =>
        var t := TransparentTaxesOf(b.grossCapitalGain, b.holdingYears);
        Ok(CapitalGainResult(
          b.acquisitionBase, b.acquisitionFeesUsed, b.worksUsed, b.grossCapitalGain, b.holdingYears,
          t.irAllowance, t.psAllowance, t.irBase, t.psBase, t.irTax, t.psTax,
          t.surcharge.amount, Some(t.surcharge.tranche),
          None, None, None,
          false, false, [],
          ira, t.total, NetProceeds(input, t.total, ira)))
      case SciIs =>
        var c := CorporateTaxesOf(input);
        Ok(CapitalGainResult(
          b.acquisitionBase, b.acquisitionFeesUsed, b.worksUsed, b.grossCapitalGain, b.holdingYears,
          0.0, 0.0, 0.0, 0.0, 0.0, 0.0, 0.0, None,
          Some(c.result), Some(c.tax), Some(c.pfu),
          false, false, [],
          ira, c.total, NetProceeds(input, c.total, ira)))
      case UnlistedRole =>
        Err(InvalidRole)
  }

  // ---------------------------------------------------------------------------
  // Properties

  /** Every branch nets the same costs from the sale price: the result's net
      proceeds are the price less the tax, the penalty and all sale and loan
      costs, and its penalty is the one of the loan fields. */
  lemma NetProceedsAccounting(input: SaleInput)
    requires CalculateCapitalGain(input).Ok?
    ensures CalculateCapitalGain(input).value.ira == IraOf(input).amount
    ensures CalculateCapitalGain(input).value.netProceeds
            == input.salePrice - CalculateCapitalGain(input).value.totalTax - IraOf(input).amount - CessionCosts(input)
  {
  }

  /** An exempt sale has no tax at all, whatever the role and the gain, full
      relief on both allowances, its reasons recorded, and still nets the
      penalty and every sale and loan cost. */
  lemma ExemptSaleIsUntaxed(input: SaleInput)
    requires IsExempt(input)
    ensures CalculateCapitalGain(input).Ok?
    ensures var r := CalculateCapitalGain(input).value;
      && r.irAllowancePercent == 100.0 && r.psAllowancePercent == 100.0
      && r.irTaxableBase == 0.0 && r.psTaxableBase == 0.0
      && r.irTax == 0.0 && r.psTax == 0.0 && r.surcharge == 0.0 && r.totalTax == 0.0
      && r.grossCapitalGain == BasisOf(input).grossCapitalGain
      && r.isRpExempt == (input.occupation == PrimaryResidence)
      && r.isFirstSaleExempt == IsFirstSaleExempt(input)
      && r.surchargeTranche.None? && r.sciIsResult.None? && r.sciIsTax.None? && r.sciPfuTax.None?
      && r.exemptionReasons == (if input.occupation == PrimaryResidence then [PrimaryResidenceReason] else [FirstSaleReinvestmentReason])
      && r.netProceeds == input.salePrice - IraOf(input).amount - CessionCosts(input)
  {
  }

  /** A taxable sale records no exemption. */
  lemma TaxableSaleHasNoReasons(input: SaleInput)
    requires CalculateCapitalGain(input).Ok? && !IsExempt(input)
    ensures ExemptionReasons(input) == []
    ensures CalculateCapitalGain(input).value.exemptionReasons == []
    ensures !CalculateCapitalGain(input).value.isRpExempt && !CalculateCapitalGain(input).value.isFirstSaleExempt
  {
  }

  /** Individuals and tax-transparent companies are taxed identically. */
  lemma TransparentRolesAgree(input: SaleInput)
    requires input.role == Pp
    ensures CalculateCapitalGain(input) == CalculateCapitalGain(input.(role := SciIr))
  {
    var other := input.(role := SciIr);
    assert BasisOf(other) == BasisOf(input);
    assert IraOf(other) == IraOf(input);
    assert IsExempt(other) == IsExempt(input);
  }

  lemma ScaleWithin(g: real, f: real)
    requires g >= 0.0 && 0.0 <= f <= 1.0
    ensures 0.0 <= g * f <= g
  {
  }

  /** On a gain, an individual's total tax is non-negative and at most
      42.2% of the gross gain (19% + 17.2% + the 6% top surcharge rate). */
  lemma TransparentTaxBounds(gross: real, years: nat)
    requires gross >= 0.0
    ensures 0.0 <= TransparentTaxesOf(gross, years).total <= 0.422 * gross
  {
    var t := TransparentTaxesOf(gross, years);
    SurchargeAtMostSixPercent(t.irBase);
  }

  /** After 30 years nothing is due; from 22 to 29 years only social charges
      remain. */
  lemma TransparentFullRelief(gross: real, years: nat)
    ensures years >= 30 ==> TransparentTaxesOf(gross, years).total == 0.0
    ensures years >= 22 ==>
              && TransparentTaxesOf(gross, years).irTax == 0.0
              && TransparentTaxesOf(gross, years).surcharge.amount == 0.0
              && TransparentTaxesOf(gross, years).total == TransparentTaxesOf(gross, years).psTax
  {
  }

  /** Taxes are not floored at 0: a loss held under 30 years yields a negative
      total tax, which then raises the net proceeds. */
  lemma TransparentLossGivesNegativeTax(gross: real, years: nat)
    requires gross < 0.0 && years < 30
    ensures TransparentTaxesOf(gross, years).total < 0.0
  {
    RelievedWithin(gross, IrAllowance(years));
    RelievedWithin(gross, PsAllowance(years));
  }

  lemma ProductAntitone(g: real, f1: real, f2: real)
    requires g >= 0.0 && f1 >= f2
    ensures g * f1 >= g * f2
  {
  }

  /** On a gain, holding longer never raises an individual's tax, as long as
      neither income-tax base lies in a surcharge gap. */
  lemma TransparentTaxFallsWithHolding(gross: real, y1: nat, y2: nat)
    requires gross >= 0.0 && y1 <= y2
    requires !InGap(TransparentTaxesOf(gross, y1).irBase) && !InGap(TransparentTaxesOf(gross, y2).irBase)
    ensures TransparentTaxesOf(gross, y2).total <= TransparentTaxesOf(gross, y1).total
  {
    var t1, t2 := TransparentTaxesOf(gross, y1), TransparentTaxesOf(gross, y2);
    IrAllowanceMonotone(y1, y2);
    PsAllowanceMonotone(y1, y2);
    RelievedAntitone(gross, IrAllowance(y1), IrAllowance(y2));
    RelievedAntitone(gross, PsAllowance(y1), PsAllowance(y2));
    assert t2.irBase <= t1.irBase && t2.psBase <= t1.psBase;
    SurchargeIsStatutoryOffGaps(t1.irBase);
    SurchargeIsStatutoryOffGaps(t2.irBase);
    StatutoryMonotone(t2.irBase, t1.irBase);
  }

  /** In a gap the rule above fails: a gain of 60 000.50 held 5 years falls in
      the 60 000-60 001 gap and pays no surcharge, while the same gain held 6
      years leaves a base of 56 400.47 that pays it, so the total tax rises by
      about 94 euros. */
  lemma LongerHoldingCanRaiseTaxInGap()
    ensures InGap(TransparentTaxesOf(60000.5, 5).irBase)
    ensures TransparentTaxesOf(60000.5, 6).total > TransparentTaxesOf(60000.5, 5).total + 90.0
  {
    assert TransparentTaxesOf(60000.5, 5).irBase == 60000.5;
    assert TransparentTaxesOf(60000.5, 6).irBase == 56400.47;
  }

  /** Corporate tax lies between the reduced and the normal rate of a
      non-negative result, and grows with the result. */
  lemma CorporateTaxBounds(result: real, threshold: real)
    requires result >= 0.0 && threshold >= 0.0
    ensures 0.15 * result <= CorporateTax(result, threshold) <= 0.25 * result
  {
  }

  lemma CorporateTaxMonotone(r1: real, r2: real, threshold: real)
    requires r1 <= r2
    ensures CorporateTax(r1, threshold) <= CorporateTax(r2, threshold)
  {
  }

  /** A corporate-tax company's tax depends on neither the purchase price, the
      dates nor the acquisition costs: only the sale price, book value, fees,
      dividends and threshold enter it. */
  lemma CorporateTaxIgnoresAcquisition(input: SaleInput, purchasePrice: real, purchaseDate: Date, otherCosts: real)
    requires input.role == SciIs && !IsExempt(input)
    ensures var other := input.(purchasePrice := purchasePrice, purchaseDate := purchaseDate, otherAcquisitionCosts := otherCosts);
      && CalculateCapitalGain(input).Ok? && CalculateCapitalGain(other).Ok?
      && CalculateCapitalGain(other).value.totalTax == CalculateCapitalGain(input).value.totalTax
      && CalculateCapitalGain(input).value.totalTax
         == CorporateTax(input.salePrice - OrZero(input.vnc) - OrZero(input.cessionFeesDeductible), PmeThreshold(input))
            + 0.30 * OrZero(input.distributedDividends)
  {
  }
}
