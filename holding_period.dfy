/** Holding period between the purchase and the sale of a property: whole
    years (which select the allowance rates) and years plus months (shown in
    the report). Dates are calendar triples as read by JavaScript's local
    getters; no leap-year or month-length awareness, as in the engine's
    component arithmetic (the model does not roll days over as `Date` does). */
module HoldingPeriod {
  import opened Common

  type Month = m: int | 1 <= m <= 12 witness 1
  type Day = d: int | 1 <= d <= 31 witness 1

  datatype Date = Date(year: int, month: Month, day: Day)

  /** `a` is strictly earlier than `b` in calendar order. */
  predicate Before(a: Date, b: Date) {
    || a.year < b.year
    || (a.year == b.year && a.month < b.month)
    || (a.year == b.year && a.month == b.month && a.day < b.day)
  }

  /** By `sale`, the `k`-th anniversary of `purchase` has been reached. */
  predicate AnniversaryReached(purchase: Date, sale: Date, k: int) {
    !Before(sale, Date(purchase.year + k, purchase.month, purchase.day))
  }

  /** `calculateHoldingYears`: the number of complete years of ownership,
      that is, the last anniversary reached (0 when none is). */
  function HoldingYears(purchase: Date, sale: Date): (years: nat)
    ensures years > 0 ==> AnniversaryReached(purchase, sale, years)
    ensures !AnniversaryReached(purchase, sale, years + 1)
  {
    var years := sale.year - purchase.year;
    var monthDiff := sale.month - purchase.month;
    var dayDiff := sale.day - purchase.day;
    if monthDiff < 0 || (monthDiff == 0 && dayDiff < 0) then Max0(years - 1) else Max0(years)
  }

  /** Number of whole months from `purchase` to `sale` (negative when the
      sale comes first): a month counts once its day of month is reached. */
  function ElapsedMonths(purchase: Date, sale: Date): int {
    (sale.year - purchase.year) * 12 + (sale.month - purchase.month)
      - (if sale.day < purchase.day then 1 else 0)
  }

  datatype Period = Period(years: nat, months: nat)

  /** Years and months of ownership: the elapsed months split into whole
      years and remaining months, with the years clamped at 0. */
  function PeriodOf(purchase: Date, sale: Date): (period: Period)
    ensures period.months < 12
    ensures ElapsedMonths(purchase, sale) >= 0 ==>
              period.years * 12 + period.months == ElapsedMonths(purchase, sale)
    ensures ElapsedMonths(purchase, sale) < 12 ==> period.years == 0
  {
    var elapsed := ElapsedMonths(purchase, sale);
    Period(Max0(elapsed / 12), elapsed % 12)
  }

  lemma DivMod12(e: int, q: int, r: int)
    requires e == 12 * q + r && 0 <= r < 12
    ensures e / 12 == q && e % 12 == r
  {
  }

  /** `calculateHoldingPeriod`: difference of years and of months, borrowing
      a year when the month difference is negative and a month when the
      sale's day of month precedes the purchase's. */
  method CalculateHoldingPeriod(purchase: Date, sale: Date) returns (period: Period)
    ensures period == PeriodOf(purchase, sale)
    ensures period.months < 12
  {
    var years := sale.year - purchase.year;
    var months := sale.month - purchase.month;
    if months < 0 {
      years := years - 1;
      months := months + 12;
    }
    if sale.day < purchase.day {
      months := months - 1;
      if months < 0 {
        years := years - 1;
        months := months + 12;
      }
    }
    assert 0 <= months < 12;
    DivMod12(ElapsedMonths(purchase, sale), years, months);
    period := Period(Max0(years), Max0(months));
  }

  /** The years shown in the report are the whole years used for the
      allowances. */
  lemma PeriodYearsAreHoldingYears(purchase: Date, sale: Date)
    ensures PeriodOf(purchase, sale).years == HoldingYears(purchase, sale)
  {
    var e := ElapsedMonths(purchase, sale);
    var dy := sale.year - purchase.year;
    var borrow := if sale.month < purchase.month || (sale.month == purchase.month && sale.day < purchase.day) then 1 else 0;
    var rest := e - 12 * (dy - borrow);
    assert 0 <= rest < 12;
    DivMod12(e, dy - borrow, rest);
  }

  /** When the purchase precedes the sale no component is clamped: the period
      adds up to the elapsed months exactly. */
  lemma PeriodExactWhenOrdered(purchase: Date, sale: Date)
    requires Before(purchase, sale)
    ensures ElapsedMonths(purchase, sale) >= 0
    ensures PeriodOf(purchase, sale).years * 12 + PeriodOf(purchase, sale).months == ElapsedMonths(purchase, sale)
  {
    assert ElapsedMonths(purchase, sale) >= 0;
  }
}
