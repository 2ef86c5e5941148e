/** What the engine guarantees for an input the schema has accepted: a
    submitted simulation is validated before it is calculated, and a stored
    one passed the schema when it was stored and is recomputed as it is. */
module ValidatedEngine {
  import opened Common
  import opened HoldingPeriod
  import opened EarlyRepayment
  import opened Inputs
  import opened CapitalGain
  import opened Report
  import opened Validation

  /** The invalid-role error cannot be raised for a validated input: both the
      engine and the report succeed. */
  lemma ValidInputNeverFails(input: SaleInput)
    requires Valid(input)
    ensures CalculateCapitalGain(input).Ok?
    ensures BuildEnrichedResult(input).Ok?
  {
  }

  /** For a validated input the "minimum of both methods" branch of the
      penalty is unreachable, and the penalty lies between 0 and a tenth of
      the outstanding principal. */
  lemma ValidPenaltyBounds(input: SaleInput)
    requires Valid(input)
    ensures IraOf(input).mode != MinLabel
    ensures 0.0 <= IraOf(input).amount <= OrZero(input.crd) / 10.0
  {
    IraBounds(OrZero(input.crd), input.iraMode, input.iraPct, input.annualInterestRate);
  }

  /** A validated input has a cost basis strictly above the purchase price
      (flat fees are positive, actual fees must be non-zero), so the gross gain
      is strictly below the price difference. */
  lemma ValidBasisAbovePurchase(input: SaleInput)
    requires Valid(input)
    ensures BasisOf(input).acquisitionFeesUsed > 0.0
    ensures BasisOf(input).worksUsed >= 0.0
    ensures BasisOf(input).acquisitionBase > input.purchasePrice
    ensures BasisOf(input).grossCapitalGain < input.salePrice - input.purchasePrice
  {
  }

  /** For a validated input the reported years and months add up exactly to
      the whole months of ownership, and the years are those that select the
      allowances. */
  lemma ValidHoldingPeriodExact(input: SaleInput)
    requires Valid(input)
    ensures var p := PeriodOf(input.purchaseDate, input.saleDate);
      && p.years * 12 + p.months == ElapsedMonths(input.purchaseDate, input.saleDate)
      && p.years == HoldingYears(input.purchaseDate, input.saleDate)
      && p.months < 12
  {
    PeriodExactWhenOrdered(input.purchaseDate, input.saleDate);
    PeriodYearsAreHoldingYears(input.purchaseDate, input.saleDate);
  }

  /** For a validated input every cost is non-negative, so the reported nets
      never increase from the net before the loan to the final net, and the
      reported cost total is non-negative. */
  lemma ValidReportedNetsOrdered(input: SaleInput)
    requires Valid(input)
    ensures BuildEnrichedResult(input).Ok?
    ensures var rep := BuildEnrichedResult(input).value;
      && rep.nets.netFinal <= rep.nets.netBeforeLoan
      && rep.feesAndLoan.total >= 0.0
  {
    ValidInputNeverFails(input);
    ValidPenaltyBounds(input);
    var r := CalculateCapitalGain(input).value;
    var raw := RawNets(input, r.totalTax);
    assert raw.netFinal <= raw.netBeforeLoan;
    Round2Monotone(raw.netFinal, raw.netBeforeLoan);
    Round2Monotone(0.0, FeesTotal(input));
    Round2OfCents(0.0);
  }

  /** A validated exempt sale never nets more than its price. */
  lemma ValidExemptNetAtMostPrice(input: SaleInput)
    requires Valid(input) && IsExempt(input)
    ensures CalculateCapitalGain(input).value.netProceeds <= input.salePrice
  {
    ExemptSaleIsUntaxed(input);
    ValidPenaltyBounds(input);
  }

  /** For a validated taxable sale by an individual or a transparent company,
      the total tax is at most 42.2% of the positive part of the gross gain:
      19% income tax, 17.2% social charges and at most 6% surcharge. */
  lemma ValidTransparentTaxBound(input: SaleInput)
    requires Valid(input) && !IsExempt(input) && input.role in {Pp, SciIr}
    ensures CalculateCapitalGain(input).value.totalTax
            <= 0.422 * MaxReal(0.0, CalculateCapitalGain(input).value.grossCapitalGain)
  {
    var b := BasisOf(input);
    if b.grossCapitalGain >= 0.0 {
      TransparentTaxBounds(b.grossCapitalGain, b.holdingYears);
    } else if b.holdingYears < 30 {
      TransparentLossGivesNegativeTax(b.grossCapitalGain, b.holdingYears);
    } else {
      TransparentFullRelief(b.grossCapitalGain, b.holdingYears);
    }
  }

  /** The defaults the schema fills in are the values the engine and the
      report already read for an absent field: validating changes no result. */
  lemma DefaultsChangeNoResult(input: SaleInput)
    ensures CalculateCapitalGain(WithDefaults(input)) == CalculateCapitalGain(input)
    ensures BuildEnrichedResult(WithDefaults(input)) == BuildEnrichedResult(input)
  {
    var d := WithDefaults(input);
    assert BasisOf(d) == BasisOf(input);
    assert IraOf(d) == IraOf(input);
    assert CorporateTaxesOf(d) == CorporateTaxesOf(input);
    forall tax: real, ira: real
      ensures NetProceeds(d, tax, ira) == NetProceeds(input, tax, ira)
    {
    }
    assert CalculateCapitalGain(d) == CalculateCapitalGain(input);
    if CalculateCapitalGain(input).Ok? {
      DefaultsChangeNoReport(input, CalculateCapitalGain(input).value);
    }
  }

  lemma DefaultsChangeNoReport(input: SaleInput, r: CapitalGainResult)
    ensures BuildReport(WithDefaults(input), r) == BuildReport(input, r)
  {
    var d := WithDefaults(input);
    assert IraOf(d) == IraOf(input);
    assert FeesTotal(d) == FeesTotal(input);
    assert RawNets(d, r.totalTax) == RawNets(input, r.totalTax);
  }
}
