/** Holding-period allowances (article 150 VC of the Code général des impôts):
    the percentage of the gross gain relieved from income tax (IR) and from
    social charges (PS), as a step function of whole years of ownership. */
module Allowances {

  /** `calculateIRAllowance`: 0 below 6 years, 6 points per year from the 6th
      to the 21st, full relief from 22 years. */
  function IrAllowance(years: int): (pct: real)
    ensures 0.0 <= pct <= 100.0
    ensures pct == 0.0 <==> years < 6
    ensures pct == 100.0 <==> years >= 22
  {
    if years >= 22 then 100.0
    else if years < 6 then 0.0
    else if 6 <= years <= 21 then 6.0 * (years - 5) as real
    else 0.0
  }

  /** `calculatePSAllowance`: 0 below 6 years, 1.65 points per year from the
      6th to the 21st, 1.60 for the 22nd, 9 per year up to the 30th, full
      relief from 30 years. */
  function PsAllowance(years: int): (pct: real)
    ensures 0.0 <= pct <= 100.0
    ensures pct == 0.0 <==> years < 6
    ensures pct == 100.0 <==> years >= 30
  {
    if years >= 30 then 100.0
    else if years < 6 then 0.0
    else if 6 <= years <= 21 then 1.65 * (years - 5) as real
    else if years == 22 then 1.65 * 16.0 + 1.60
    else if 23 <= years <= 30 then (1.65 * 16.0 + 1.60) + 9.0 * (years - 22) as real
    else 0.0
  }

  /** Published income-tax relief earned during year `y` of ownership. */
  function IrYearRate(y: int): real {
    if 6 <= y <= 21 then 6.0 else if y == 22 then 4.0 else 0.0
  }

  /** Published social-charges relief earned during year `y` of ownership. */
  function PsYearRate(y: int): real {
    if 6 <= y <= 21 then 1.65 else if y == 22 then 1.60 else if 23 <= y <= 30 then 9.0 else 0.0
  }

  /** Relief accumulated year by year from the published per-year rates. */
  function IrCumulative(years: int): real
    decreases years
  {
    if years <= 5 then 0.0 else IrCumulative(years - 1) + IrYearRate(years)
  }

  function PsCumulative(years: int): real
    decreases years
  {
    if years <= 5 then 0.0 else PsCumulative(years - 1) + PsYearRate(years)
  }

  /** The income-tax table is the running sum of the per-year rates. */
  lemma {:induction false} IrAllowanceIsCumulative(years: int)
    ensures IrAllowance(years) == IrCumulative(years)
  {
    if years > 5 {
      IrAllowanceIsCumulative(years - 1);
    }
  }

  /** The social-charges table is the running sum of the per-year rates. */
  lemma {:induction false} PsAllowanceIsCumulative(years: int)
    ensures PsAllowance(years) == PsCumulative(years)
  {
    if years > 5 {
      PsAllowanceIsCumulative(years - 1);
    }
  }

  /** Holding longer never lowers the income-tax relief. */
  lemma {:induction false} IrAllowanceMonotone(y1: int, y2: int)
    requires y1 <= y2
    ensures IrAllowance(y1) <= IrAllowance(y2)
    decreases y2 - y1
  {
    if y1 < y2 {
      IrAllowanceMonotone(y1, y2 - 1);
      IrAllowanceIsCumulative(y2);
      IrAllowanceIsCumulative(y2 - 1);
    }
  }

  /** Holding longer never lowers the social-charges relief. */
  lemma {:induction false} PsAllowanceMonotone(y1: int, y2: int)
    requires y1 <= y2
    ensures PsAllowance(y1) <= PsAllowance(y2)
    decreases y2 - y1
  {
    if y1 < y2 {
      PsAllowanceMonotone(y1, y2 - 1);
      PsAllowanceIsCumulative(y2);
      PsAllowanceIsCumulative(y2 - 1);
    }
  }

  /** Social-charges relief never exceeds income-tax relief. */
  lemma PsAllowanceBelowIr(years: int)
    ensures PsAllowance(years) <= IrAllowance(years)
  {
  }
}
