/** Worked examples of the engine's rules on concrete figures. */
module Scenarios {
  import opened Common
  import opened HoldingPeriod
  import opened Allowances
  import opened SurchargeSchedule
  import opened EarlyRepayment

  /** Bought 2010-01-01, sold 2024-06-15: 14 whole years, shown as 14 years
      and 5 months, with 54% income-tax and 14.85% social-charges relief. */
  lemma FourteenYearHolding()
    ensures HoldingYears(Date(2010, 1, 1), Date(2024, 6, 15)) == 14
    ensures PeriodOf(Date(2010, 1, 1), Date(2024, 6, 15)) == Period(14, 5)
    ensures IrAllowance(14) == 54.0 && PsAllowance(14) == 14.85
  {
    DivMod12(173, 14, 5);
  }

  /** A taxable base of 70 000 pays the flat 2% (1 400); one of 55 000 pays
      2% less the smoothing, 1 100 - 250 = 850. */
  lemma SurchargeExamples()
    ensures Surcharge(70000.0) == SurchargeResult(1400.0, Flat2)
    ensures Surcharge(55000.0) == SurchargeResult(850.0, Decote2)
  {
  }

  /** Without a chosen method there is no penalty, even where both methods
      would give one (3 000 by percentage, 600 by six months of interest). */
  lemma UnsetMethodGivesNoPenalty()
    ensures PctAmount(100000.0, 3.0) == 3000.0
    ensures SixMonthsAmount(100000.0, 1.2) == 600.0
    ensures Ira(100000.0, None, Some(3.0), Some(1.2)) == IraResult(0.0, NoPenalty, SelectedMin)
  {
  }
}
