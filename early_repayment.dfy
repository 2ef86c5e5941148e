/** Early loan repayment penalty (IRA, "indemnité de remboursement
    anticipé") due on the outstanding principal (CRD) when the sale pays the
    loan off: a percentage of the principal, or six months of interest. */
module EarlyRepayment {
  import opened Common

  /** The penalty method chosen by the seller; `UnlistedIraMode` stands for
      any other value an unvalidated caller may pass. */
  datatype IraMode = Pct | SixMonths | UnlistedIraMode

  /** The `mode` label of the result: `'none'`, `'<pct>%'`,
      `'6 mois intérêts'` or `'min'`. */
  datatype IraLabel = NoPenalty | PctLabel(pct: Option<real>) | SixMonthsLabel | MinLabel

  /** The `selected` field of the result. */
  datatype IraSelection = SelectedMin | SelectedPct | SelectedSixMonths

  datatype IraResult = IraResult(amount: real, mode: IraLabel, selected: IraSelection)

  /** Penalty as a percentage of the outstanding principal. */
  function PctAmount(crd: real, pct: real): real {
    crd * pct / 100.0
  }

  /** Penalty as six months of interest at the annual rate (in percent). */
  function SixMonthsAmount(crd: real, annualRate: real): real {
    crd * annualRate / 100.0 * 6.0 / 12.0
  }

  /** `calculateIRA`. Without a mode, or without principal, there is no
      penalty. A listed mode computes that method's amount, an absent or zero
      rate giving 0. Only a mode outside the list reaches the "minimum of
      both" branch, where both amounts are 0. */
  function Ira(crd: real, mode: Option<IraMode>, pct: Option<real>, annualRate: Option<real>): (r: IraResult)
    ensures mode.None? || crd <= 0.0 ==> r == IraResult(0.0, NoPenalty, SelectedMin)
    ensures crd > 0.0 && mode == Some(Pct) ==> r == IraResult(PctAmount(crd, OrZero(pct)), PctLabel(pct), SelectedPct)
    ensures crd > 0.0 && mode == Some(SixMonths) ==> r == IraResult(SixMonthsAmount(crd, OrZero(annualRate)), SixMonthsLabel, SelectedSixMonths)
    ensures r.mode == MinLabel <==> crd > 0.0 && mode == Some(UnlistedIraMode)
    ensures r.mode == MinLabel ==> r.amount == 0.0 && r.selected == SelectedPct
  {
    if mode.None? || crd <= 0.0 then IraResult(0.0, NoPenalty, SelectedMin)
    else
      var pctAmount := if mode == Some(Pct) && Truthy(pct) then PctAmount(crd, pct.value) else 0.0;
      var sixMonthsAmount := if mode == Some(SixMonths) && Truthy(annualRate) then SixMonthsAmount(crd, annualRate.value) else 0.0;
      match mode.value
      case Pct => IraResult(pctAmount, PctLabel(pct), SelectedPct)
      case SixMonths => IraResult(sixMonthsAmount, SixMonthsLabel, SelectedSixMonths)
      case UnlistedIraMode =>
        var minAmount := MinReal(pctAmount, sixMonthsAmount);
        IraResult(minAmount, MinLabel, if minAmount == pctAmount then SelectedPct else SelectedSixMonths)
  }

  /** A rate that is absent or within [0, hi]. */
  predicate RateWithin(x: Option<real>, hi: real) {
    x.None? || 0.0 <= x.value <= hi
  }

  lemma ProductBounds(a: real, b: real, hi: real)
    requires a >= 0.0 && 0.0 <= b <= hi
    ensures 0.0 <= a * b <= a * hi
  {
  }

  lemma ProductMonotone(a1: real, a2: real, k: real)
    requires 0.0 <= a1 <= a2 && k >= 0.0
    ensures a1 * k <= a2 * k
  {
  }

  lemma QuotientMonotone(x: real, y: real, d: real)
    requires x <= y && d > 0.0
    ensures x / d <= y / d
  {
  }

  /** Both methods, at their highest admitted rates, stay within a tenth of
      the principal. */
  lemma MethodAmountBounds(crd: real, pct: real, annualRate: real)
    requires crd >= 0.0 && 0.0 <= pct <= 10.0 && 0.0 <= annualRate <= 20.0
    ensures 0.0 <= PctAmount(crd, pct) <= crd / 10.0
    ensures 0.0 <= SixMonthsAmount(crd, annualRate) <= crd / 10.0
  {
    var x := crd * pct;
    ProductBounds(crd, pct, 10.0);
    assert 0.0 <= x <= crd * 10.0;
    assert PctAmount(crd, pct) == x / 100.0;
    var y := crd * annualRate;
    ProductBounds(crd, annualRate, 20.0);
    assert 0.0 <= y <= crd * 20.0;
    assert SixMonthsAmount(crd, annualRate) == y / 200.0;
  }

  /** With rates in the ranges the input schema admits (at most 10% of the
      principal, at most 20% a year of interest) the penalty is never
      negative and never more than a tenth of the outstanding principal. */
  lemma IraBounds(crd: real, mode: Option<IraMode>, pct: Option<real>, annualRate: Option<real>)
    requires RateWithin(pct, 10.0) && RateWithin(annualRate, 20.0)
    ensures 0.0 <= Ira(crd, mode, pct, annualRate).amount <= MaxReal(0.0, crd / 10.0)
  {
    if crd > 0.0 {
      MethodAmountBounds(crd, OrZero(pct), OrZero(annualRate));
    }
  }

  /** A rate that is absent or not negative. */
  predicate RateNonNegative(x: Option<real>) {
    x.None? || x.value >= 0.0
  }

  /** With non-negative rates, whatever their size and whether or not the
      caller validated them, the penalty is never negative. */
  lemma IraNonNegative(crd: real, mode: Option<IraMode>, pct: Option<real>, annualRate: Option<real>)
    requires RateNonNegative(pct) && RateNonNegative(annualRate)
    ensures Ira(crd, mode, pct, annualRate).amount >= 0.0
  {
    if crd > 0.0 {
      var p, a := OrZero(pct), OrZero(annualRate);
      ProductBounds(crd, p, p);
      ProductBounds(crd, a, a);
      QuotientMonotone(0.0, crd * p, 100.0);
      QuotientMonotone(0.0, crd * a, 200.0);
      assert PctAmount(crd, p) == (crd * p) / 100.0;
      assert SixMonthsAmount(crd, a) == (crd * a) / 200.0;
    }
  }

  /** Without a mode the engine charges no penalty, whatever the rates: the
      "minimum of both methods" rule is never applied to a listed mode. */
  lemma NoModeNoPenalty(crd: real, pct: Option<real>, annualRate: Option<real>)
    ensures Ira(crd, None, pct, annualRate).amount == 0.0
    ensures Ira(crd, Some(Pct), pct, annualRate).mode != MinLabel
    ensures Ira(crd, Some(SixMonths), pct, annualRate).mode != MinLabel
  {
  }

  /** The larger the outstanding principal, the larger the penalty, for a
      fixed method and non-negative rates. */
  lemma IraMonotoneInPrincipal(c1: real, c2: real, mode: Option<IraMode>, pct: Option<real>, annualRate: Option<real>)
    requires 0.0 <= c1 <= c2
    requires RateNonNegative(pct) && RateNonNegative(annualRate)
    ensures Ira(c1, mode, pct, annualRate).amount <= Ira(c2, mode, pct, annualRate).amount
  {
    if c1 > 0.0 && mode == Some(Pct) {
      PctAmountMonotone(c1, c2, OrZero(pct));
    } else if c1 > 0.0 && mode == Some(SixMonths) {
      SixMonthsAmountMonotone(c1, c2, OrZero(annualRate));
    } else {
      IraNonNegative(c2, mode, pct, annualRate);
    }
  }

  lemma PctAmountMonotone(c1: real, c2: real, p: real)
    requires 0.0 <= c1 <= c2 && p >= 0.0
    ensures PctAmount(c1, p) <= PctAmount(c2, p)
  {
    var x1, x2 := c1 * p, c2 * p;
    ProductMonotone(c1, c2, p);
    QuotientMonotone(x1, x2, 100.0);
  }

  lemma SixMonthsAmountMonotone(c1: real, c2: real, a: real)
    requires 0.0 <= c1 <= c2 && a >= 0.0
    ensures SixMonthsAmount(c1, a) <= SixMonthsAmount(c2, a)
  {
    var y1, y2 := c1 * a, c2 * a;
    ProductMonotone(c1, c2, a);
    QuotientMonotone(y1, y2, 200.0);
    assert SixMonthsAmount(c1, a) == y1 / 200.0 && SixMonthsAmount(c2, a) == y2 / 200.0;
  }
}
