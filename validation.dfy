/** `simulationInputSchema`: the checks a submitted simulation passes before
    it reaches the engine, as a predicate on the sale description (bounds, enumerations,
    defaults and the three cross-field refinements), plus the ISO date text
    the schema demands and its reading as a calendar date. */
module Validation {
  import opened Common
  import opened HoldingPeriod
  import opened EarlyRepayment
  import opened Inputs

  const MaxPrice: real := 100000000.0

  predicate Within(x: real, lo: real, hi: real) {
    lo <= x <= hi
  }

  /** An optional number that is absent or within [lo, hi]. */
  predicate OptWithin(x: Option<real>, lo: real, hi: real) {
    x.None? || Within(x.value, lo, hi)
  }

  /** Every enumerated field holds a listed value (an absent `iraMode` is
      allowed). */
  predicate EnumsListed(input: SaleInput) {
    && input.role != UnlistedRole
    && input.occupation != UnlistedOccupation
    && input.acquisitionFeesType != UnlistedFees
    && input.worksType != UnlistedWorks
    && input.iraMode != Some(UnlistedIraMode)
  }

  /** Both prices positive and at most 100 million. */
  predicate PricesValid(input: SaleInput) {
    && 0.0 < input.salePrice <= MaxPrice
    && 0.0 < input.purchasePrice <= MaxPrice
  }

  /** The numeric bounds of every optional or defaulted amount and rate. */
  predicate AmountsValid(input: SaleInput) {
    && OptWithin(input.acquisitionFeesAmount, 0.0, 10000000.0)
    && OptWithin(input.worksAmount, 0.0, 10000000.0)
    && Within(input.otherAcquisitionCosts, 0.0, 10000000.0)
    && OptWithin(input.crd, 0.0, 10000000.0)
    && OptWithin(input.iraPct, 0.0, 10.0)
    && OptWithin(input.annualInterestRate, 0.0, 20.0)
    && OptWithin(input.releaseFeeCost, 0.0, 100000.0)
    && OptWithin(input.agencyFees, 0.0, 5000000.0)
    && OptWithin(input.diagnosticsCosts, 0.0, 50000.0)
    && OptWithin(input.propertyTaxProration, 0.0, 100000.0)
    && OptWithin(input.otherCessionCosts, 0.0, 1000000.0)
    && OptWithin(input.vnc, 0.0, MaxPrice)
    && OptWithin(input.cessionFeesDeductible, 0.0, 1000000.0)
    && OptWithin(input.distributedDividends, 0.0, MaxPrice)
    && OptWithin(input.pmeSmeThreshold, 0.0, 1000000.0)
  }

  /** Dates written `NNNN-NN-NN` have a four-digit year. */
  predicate DateWritable(d: Date) {
    0 <= d.year <= 9999
  }

  /** First refinement: the purchase strictly precedes the sale. */
  predicate DatesOrdered(input: SaleInput) {
    Before(input.purchaseDate, input.saleDate)
  }

  /** Second and third refinements: an `'actual'` mode needs a truthy amount,
      so an amount of 0 is refused. */
  predicate ActualAmountsGiven(input: SaleInput) {
    && (input.acquisitionFeesType == ActualFees ==> Truthy(input.acquisitionFeesAmount))
    && (input.worksType == ActualWorks ==> Truthy(input.worksAmount))
  }

  /** The schema accepts the input. An accepted `'actual'` mode carries a
      positive amount, and the sale comes strictly after the purchase, so
      the number of whole months elapsed is not negative. */
  predicate Valid(input: SaleInput)
    ensures Valid(input) && input.acquisitionFeesType == ActualFees ==>
              input.acquisitionFeesAmount.Some? && input.acquisitionFeesAmount.value > 0.0
    ensures Valid(input) && input.worksType == ActualWorks ==>
              input.worksAmount.Some? && input.worksAmount.value > 0.0
    ensures Valid(input) ==> ElapsedMonths(input.purchaseDate, input.saleDate) >= 0
  {
    && EnumsListed(input)
    && PricesValid(input)
    && AmountsValid(input)
    && DateWritable(input.purchaseDate) && DateWritable(input.saleDate)
    && DatesOrdered(input)
    && ActualAmountsGiven(input)
  }

  /** A field with a default: kept when present, the default when absent. */
  function Defaulted<T>(x: Option<T>, d: T): (y: Option<T>)
    ensures x.Some? ==> y == x
    ensures x.None? ==> y == Some(d)
  {
    if x.Some? then x else Some(d)
  }

  /** The input as the schema returns it: the switch defaults to false, the
      principal and every sale cost to 0, a value supplied is kept, and no
      other field changes. */
  function WithDefaults(input: SaleInput): (out: SaleInput)
    ensures out.feesAndLoanEnabled == (if input.feesAndLoanEnabled.Some? then input.feesAndLoanEnabled else Some(false))
    ensures out.crd == (if input.crd.Some? then input.crd else Some(0.0))
    ensures out.releaseFeeCost == (if input.releaseFeeCost.Some? then input.releaseFeeCost else Some(0.0))
    ensures out.agencyFees == (if input.agencyFees.Some? then input.agencyFees else Some(0.0))
    ensures out.diagnosticsCosts == (if input.diagnosticsCosts.Some? then input.diagnosticsCosts else Some(0.0))
    ensures out.propertyTaxProration == (if input.propertyTaxProration.Some? then input.propertyTaxProration else Some(0.0))
    ensures out.otherCessionCosts == (if input.otherCessionCosts.Some? then input.otherCessionCosts else Some(0.0))
    ensures out.(feesAndLoanEnabled := input.feesAndLoanEnabled, crd := input.crd,
                 releaseFeeCost := input.releaseFeeCost, agencyFees := input.agencyFees,
                 diagnosticsCosts := input.diagnosticsCosts, propertyTaxProration := input.propertyTaxProration,
                 otherCessionCosts := input.otherCessionCosts) == input
  {
    input.(
      feesAndLoanEnabled := Defaulted(input.feesAndLoanEnabled, false),
      crd := Defaulted(input.crd, 0.0),
      releaseFeeCost := Defaulted(input.releaseFeeCost, 0.0),
      agencyFees := Defaulted(input.agencyFees, 0.0),
      diagnosticsCosts := Defaulted(input.diagnosticsCosts, 0.0),
      propertyTaxProration := Defaulted(input.propertyTaxProration, 0.0),
      otherCessionCosts := Defaulted(input.otherCessionCosts, 0.0))
  }

  /** Filling in the defaults keeps a valid input valid. */
  lemma DefaultsKeepValid(input: SaleInput)
    requires Valid(input)
    ensures Valid(WithDefaults(input))
  {
  }

  // ---------------------------------------------------------------------------
  // ISO date text

  predicate IsDigit(c: char) {
    '0' <= c <= '9'
  }

  /** The pattern `^\d{4}-\d{2}-\d{2}$`: shape only, not calendar validity. */
  predicate IsIsoDateText(s: string) {
    && |s| == 10
    && IsDigit(s[0]) && IsDigit(s[1]) && IsDigit(s[2]) && IsDigit(s[3])
    && s[4] == '-'
    && IsDigit(s[5]) && IsDigit(s[6])
    && s[7] == '-'
    && IsDigit(s[8]) && IsDigit(s[9])
  }

  function DigitValue(c: char): int {
    c as int - '0' as int
  }

  function DigitChar(n: int): char
    requires 0 <= n <= 9
  {
    ('0' as int + n) as char
  }

  /** Reads matching text as a calendar date; `None` when the text does not
      match or names no month 1-12 and day 1-31 (the "Invalid Date" that makes
      the date-order refinement fail). */
  function ParseIsoDate(s: string): (d: Option<Date>)
    ensures d.Some? ==> IsIsoDateText(s) && DateWritable(d.value)
    ensures d.Some? ==> d.value.month == DigitValue(s[5]) * 10 + DigitValue(s[6])
    ensures d.Some? ==> d.value.day == DigitValue(s[8]) * 10 + DigitValue(s[9])
  {
    if !IsIsoDateText(s) then None
    else
      var year := DigitValue(s[0]) * 1000 + DigitValue(s[1]) * 100 + DigitValue(s[2]) * 10 + DigitValue(s[3]);
      var month := DigitValue(s[5]) * 10 + DigitValue(s[6]);
      var day := DigitValue(s[8]) * 10 + DigitValue(s[9]);
      if 1 <= month <= 12 && 1 <= day <= 31 then Some(Date(year, month, day)) else None
  }

  /** A writable date as `YYYY-MM-DD`. */
  function FormatIsoDate(d: Date): (s: string)
    requires DateWritable(d)
    ensures IsIsoDateText(s)
  {
    [DigitChar(d.year / 1000), DigitChar(d.year / 100 % 10), DigitChar(d.year / 10 % 10), DigitChar(d.year % 10),
     '-', DigitChar(d.month / 10), DigitChar(d.month % 10),
     '-', DigitChar(d.day / 10), DigitChar(d.day % 10)]
  }

  /** Every date with a four-digit year is written and read back unchanged. */
  lemma ParseFormatRoundTrip(d: Date)
    requires DateWritable(d)
    ensures ParseIsoDate(FormatIsoDate(d)) == Some(d)
  {
    var y := d.year;
    var a, r1 := y / 1000, y % 1000;
    var b, r2 := r1 / 100, r1 % 100;
    var c, e := r2 / 10, r2 % 10;
    assert y == a * 1000 + b * 100 + c * 10 + e;
    FourDigits(a, b, c, e);
    TwoDigits(d.month / 10, d.month % 10);
    TwoDigits(d.day / 10, d.day % 10);
    var s := FormatIsoDate(d);
    assert DigitValue(s[0]) == a && DigitValue(s[1]) == b && DigitValue(s[2]) == c && DigitValue(s[3]) == e;
  }

  lemma DivMod10(y: int, q: int, r: int)
    requires y == 10 * q + r && 0 <= r < 10
    ensures y / 10 == q && y % 10 == r
  {
  }

  lemma DivMod100(y: int, q: int, r: int)
    requires y == 100 * q + r && 0 <= r < 100
    ensures y / 100 == q
  {
  }

  lemma DivMod1000(y: int, q: int, r: int)
    requires y == 1000 * q + r && 0 <= r < 1000
    ensures y / 1000 == q
  {
  }

  /** The digits of a four-digit number are recovered by division. */
  lemma FourDigits(a: int, b: int, c: int, e: int)
    requires 0 <= a <= 9 && 0 <= b <= 9 && 0 <= c <= 9 && 0 <= e <= 9
    ensures var y := a * 1000 + b * 100 + c * 10 + e;
      y / 1000 == a && y / 100 % 10 == b && y / 10 % 10 == c && y % 10 == e
  {
    var y := a * 1000 + b * 100 + c * 10 + e;
    DivMod1000(y, a, b * 100 + c * 10 + e);
    DivMod100(y, a * 10 + b, c * 10 + e);
    DivMod10(a * 10 + b, a, b);
    DivMod10(y, a * 100 + b * 10 + c, e);
    DivMod10(a * 100 + b * 10 + c, a * 10 + b, c);
  }

  lemma TwoDigits(a: int, b: int)
    requires 0 <= a <= 9 && 0 <= b <= 9
    ensures (a * 10 + b) / 10 == a && (a * 10 + b) % 10 == b
  {
    DivMod10(a * 10 + b, a, b);
  }

  /** Reading then writing gives back the text, for text that names a date. */
  lemma FormatParseRoundTrip(s: string)
    requires ParseIsoDate(s).Some?
    ensures FormatIsoDate(ParseIsoDate(s).value) == s
  {
    var d := ParseIsoDate(s).value;
    FourDigits(DigitValue(s[0]), DigitValue(s[1]), DigitValue(s[2]), DigitValue(s[3]));
    TwoDigits(DigitValue(s[5]), DigitValue(s[6]));
    TwoDigits(DigitValue(s[8]), DigitValue(s[9]));
    var t := FormatIsoDate(d);
    assert t[0] == s[0] && t[1] == s[1] && t[2] == s[2] && t[3] == s[3];
    assert t[5] == s[5] && t[6] == s[6] && t[8] == s[8] && t[9] == s[9];
    assert t == s;
  }
}
