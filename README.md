# Calculnotaire Pro — capital-gains engine in Dafny

A model of the calculation core of Calculnotaire Pro, a simulator of the
French capital-gains tax due when real estate is sold (plus-value
immobilière). Given one sale — seller's role, occupation, prices, dates,
acquisition costs, sale and loan costs — the engine computes the cost basis,
the gross gain, the whole years of ownership, the holding-period allowances
for income tax (IR) and social charges (PS), the taxes, the high-gain
surcharge, the early-repayment penalty of the loan (IRA) and the net
proceeds, and then builds a report whose amounts are rounded to the cent.
The input schema that a submitted simulation must pass before it is
calculated is modelled as a predicate, so that properties can be stated for
validated inputs.

Modules, one per concern of `shared/calc-core.ts` and `shared/validation.ts`:

- `Common` — optional values with JavaScript's `x || default` reading,
  `Result`, and `Round2` (cent rounding as `Math.round(100x)/100`).
- `HoldingPeriod` — calendar dates, whole years of ownership
  (`HoldingYears`), and the years-and-months period, computed by the
  imperative `CalculateHoldingPeriod` as the source does (borrowing a year,
  then a month) and proved equal to the closed form `PeriodOf`.
- `Allowances` — the IR and PS relief tables, proved equal to the running
  sums of the published per-year rates.
- `SurchargeSchedule` — the surcharge on large taxable gains, as written,
  next to `StatutorySurcharge`, the same schedule on contiguous brackets.
- `EarlyRepayment` — the loan penalty.
- `Inputs` — the sale description handed to the engine.
- `CapitalGain` — `calculateCapitalGain`: basis, exemptions, the
  individual / transparent-company branch, the corporate-tax-company branch
  and the invalid-role error.
- `Report` — the numeric part of `buildEnrichedResult`.
- `Validation` — `simulationInputSchema` as `Valid`, its defaults, and the
  ISO date text it demands, with a parse/format round trip.
- `ValidatedEngine` — what holds for every validated input.
- `Scenarios` — the engine's rules on a few concrete figures.

Money and rates are `real`. An optional number is `Option<real>`; the
engine's `x || 0` treats an absent value and 0 alike (`OrZero`), and
`pmeSmeThreshold || 42500` makes a threshold of 0 fall back to 42 500.
Each enumeration has an `Unlisted…` case standing for a value outside the
schema's list. Inputs kept in storage are recomputed without being
validated again (they passed the schema when they were stored), so the
engine itself makes no assumption about its input; these cases are what
reach the invalid-role error and the "minimum of both methods" penalty
branch, and `ValidatedEngine` shows that validated inputs never do.

Where the documentation of the system and the code disagree, the model
follows the code:

- Taxes are not floored at zero: a gross loss gives negative taxable bases
  and negative taxes (`CapitalGain.TransparentLossGivesNegativeTax`).
- With no penalty method chosen, the penalty is 0; the "minimum of both
  methods" rule is applied only to a method outside the list, and there both
  amounts are 0 (`EarlyRepayment.NoModeNoPenalty`,
  `Scenarios.UnsetMethodGivesNoPenalty`).
- Rounding is `Math.round`, which breaks ties upwards (−0.005 rounds to 0),
  not away from zero (`Common.Round2HalfUp`).
- The surcharge brackets are bounded by whole-euro comparisons (`>= 50001`,
  `>= 60001`, …) while the taxable base is fractional, so bases strictly
  between N and N+1 at each bracket boundary (50 000, 60 000, 100 000,
  110 000, 150 000, 160 000, 200 000, 210 000, 250 000) fall through to
  "no surcharge". Off those gaps the surcharge equals the contiguous
  schedule, which is monotone, jumps from 0 to 500 at the 50 000 threshold
  itself, and is continuous above it; in a gap, holding the property
  one year longer can raise the tax (`CapitalGain.LongerHoldingCanRaiseTaxInGap`).

## Model

| member | source | states |
|---|---|---|
| Common.Round2 | shared/calc-core.ts:60-62 | the result is a whole number of cents, more than x − 0.005 and at most x + 0.005 |
| Common.Round2Unique | shared/calc-core.ts:60-62 | any whole number of cents in that half-open window around x is Round2(x): the rounding is fully characterised by its contract |
| Common.CentsApart | shared/calc-core.ts:60-62 | two different whole numbers of cents are at least a cent apart |
| Common.Round2Idempotent | shared/calc-core.ts:60-62 | rounding a rounded amount changes nothing |
| Common.Round2OfCents | shared/calc-core.ts:60-62 | an amount already in cents is unchanged by rounding |
| Common.Round2Monotone | shared/calc-core.ts:60-62 | rounding preserves order |
| Common.Round2HalfUp | shared/calc-core.ts:60-62 | ties go upwards: −0.005 rounds to 0 and 0.005 to 0.01 |
| HoldingPeriod.HoldingYears | shared/calc-core.ts:176-190 | the result is the last anniversary of the purchase reached by the sale date: that anniversary is reached (when positive) and the next one is not |
| HoldingPeriod.PeriodOf | shared/calc-core.ts:196-218 | months are 0–11; when the elapsed whole months are not negative, years × 12 + months is the elapsed whole months; under a year elapsed the years are 0 (partner of `CalculateHoldingPeriod`) |
| HoldingPeriod.CalculateHoldingPeriod | shared/calc-core.ts:196-218 | the year and month borrowing steps give the elapsed months split into clamped years and months 0–11 (`PeriodOf`) |
| HoldingPeriod.PeriodYearsAreHoldingYears | shared/calc-core.ts:176-218 | the years of the displayed period are the whole years that select the allowances |
| HoldingPeriod.PeriodExactWhenOrdered | shared/calc-core.ts:196-218 | when the purchase precedes the sale, years × 12 + months is exactly the number of whole months elapsed |
| Allowances.IrAllowance | shared/calc-core.ts:261-271 | IR relief lies in 0–100, is 0 exactly below 6 years and 100 exactly from 22 years |
| Allowances.PsAllowance | shared/calc-core.ts:277-298 | PS relief lies in 0–100, is 0 exactly below 6 years and 100 exactly from 30 years |
| Allowances.IrAllowanceIsCumulative | shared/calc-core.ts:261-271 | the IR table is the running sum of the per-year rates: 6 points for years 6–21, 4 for year 22 |
| Allowances.PsAllowanceIsCumulative | shared/calc-core.ts:277-298 | the PS table is the running sum of 1.65 points for years 6–21, 1.60 for year 22 and 9 for years 23–30 |
| Allowances.IrAllowanceMonotone | shared/calc-core.ts:261-271 | holding longer never lowers IR relief |
| Allowances.PsAllowanceMonotone | shared/calc-core.ts:277-298 | holding longer never lowers PS relief |
| Allowances.PsAllowanceBelowIr | shared/calc-core.ts:261-298 | PS relief never exceeds IR relief |
| SurchargeSchedule.Surcharge | shared/calc-core.ts:304-370 | no surcharge up to 50 000; an amount is due exactly when a bracket applies; the amount is between 0 and the bracket's rate times the base, and equal to it in a flat bracket |
| SurchargeSchedule.StatutorySurcharge | shared/calc-core.ts:304-370 | the same brackets made contiguous: a bracket applies exactly above 50 000 |
| SurchargeSchedule.SurchargeIsStatutoryOffGaps | shared/calc-core.ts:304-370 | off the one-euro gaps the engine's surcharge is the contiguous schedule |
| SurchargeSchedule.SurchargeGapIsZero | shared/calc-core.ts:309-370 | in a gap the engine charges nothing although the contiguous schedule charges a positive amount |
| SurchargeSchedule.DecoteMeetsFlatAtUpper | shared/calc-core.ts:309-359 | each smoothed bracket reaches the flat rate at its upper bound |
| SurchargeSchedule.StatutoryPositive | shared/calc-core.ts:304-370 | above 50 000 the contiguous surcharge is at least 500 |
| SurchargeSchedule.StatutoryMonotone | shared/calc-core.ts:304-370 | a larger base never pays less surcharge |
| SurchargeSchedule.StatutoryLipschitz | shared/calc-core.ts:304-370 | above 50 000, one more euro of base adds at most 0.31 euro of surcharge (no jump above the threshold) |
| SurchargeSchedule.SurchargeContinuousOffGaps | shared/calc-core.ts:304-370 | between two bases off the gaps, the engine's surcharge rises by at most 0.31 per euro |
| SurchargeSchedule.SurchargeAtMostSixPercent | shared/calc-core.ts:304-370 | the surcharge never exceeds 6% of a positive base |
| EarlyRepayment.Ira | shared/calc-core.ts:224-255 | no method or no principal: no penalty; percentage and six-months methods give their amounts (an absent or zero rate giving 0); the "min" label appears exactly for an unlisted method, with amount 0 |
| EarlyRepayment.IraBounds | shared/calc-core.ts:224-255 | with rates in the admitted ranges the penalty is between 0 and a tenth of the principal |
| EarlyRepayment.NoModeNoPenalty | shared/calc-core.ts:232-249 | without a method the penalty is 0 whatever the rates, and a listed method never gets the "min" label |
| EarlyRepayment.IraNonNegative | shared/calc-core.ts:224-255 | with non-negative rates of any size, validated or not, the penalty is never negative |
| EarlyRepayment.IraMonotoneInPrincipal | shared/calc-core.ts:224-255 | for non-negative rates of any size, a larger principal never gives a smaller penalty |
| CapitalGain.AcquisitionFeesUsed | shared/calc-core.ts:379-384 | flat fees are 7.5% of the purchase price; otherwise the supplied amount, or 0 when none is supplied |
| CapitalGain.WorksUsed | shared/calc-core.ts:388-393 | flat works give 15% of the price only from 5 whole years; otherwise, including flat works held under 5 years and `'none'`, the supplied amount or 0 |
| CapitalGain.BasisOf | shared/calc-core.ts:379-401 | the basis is price plus fees, works (gated by the whole years held) and other costs; gross gain plus basis is the sale price |
| CapitalGain.TransparentTaxesOf | shared/calc-core.ts:455-466 | allowances from the tables; each taxable base is `Relieved` of the gain by its allowance (`TransparentBaseFormula`: gross × (1 − allowance/100)); both bases lie between 0 and a gain, or between a loss and 0; 19% and 17.2% of them; surcharge on the income-tax base; total is their sum (lemmas `TransparentTaxBounds`, `TransparentFullRelief`, `TransparentTaxFallsWithHolding`) |
| CapitalGain.CorporateTaxesOf | shared/calc-core.ts:504-520 | result is the price less book value and deductible fees; corporate tax is 15% of the part up to the threshold plus 25% above it, between 15% and 25% of a non-negative result; 30% levy on dividends |
| CapitalGain.CalculateCapitalGain | shared/calc-core.ts:377-560 | fails exactly on a non-exempt sale with an unlisted role; a success carries the basis, fees, works, gross gain and whole years of `BasisOf`; an exempt sale pays no tax; otherwise an individual or transparent company reports the allowances, both bases, both taxes, the surcharge amount and bracket and the total of `TransparentTaxesOf`, with no corporate-tax fields, while a corporate-tax company reports the result, tax and levy of `CorporateTaxesOf`, zero allowances, bases, taxes and surcharge, and no bracket (lemmas `NetProceedsAccounting`, `ExemptSaleIsUntaxed`, `TransparentRolesAgree`) |
| CapitalGain.Relieved | shared/calc-core.ts:458-459 | the taxable base plus the share of the gain the allowance relieves (gross × allowance/100, the report's allowance amount before rounding) is the whole gain |
| CapitalGain.TransparentBaseFormula | shared/calc-core.ts:458-459 | the income-tax and social-charge bases are gross × (1 − allowance/100) with the allowances of the tables |
| CapitalGain.RelievedWithin | shared/calc-core.ts:458-459 | a relieved base lies between 0 and the gross gain, with the gain's sign, and is strictly negative for a loss not fully relieved |
| CapitalGain.RelievedAntitone | shared/calc-core.ts:458-459 | more relief never raises a non-negative taxable base |
| CapitalGain.CorporateTax | shared/calc-core.ts:508-515 | corporate tax is 15% up to the threshold and 25% above it |
| CapitalGain.NetProceedsAccounting | shared/calc-core.ts:420-530 | in every branch the net proceeds are the price less tax, penalty and all sale and loan costs, and the penalty is the one of the loan fields |
| CapitalGain.ExemptSaleIsUntaxed | shared/calc-core.ts:403-451 | an exempt sale of any role succeeds with full relief, no tax, both exemption flags and the matching reason recorded, no surcharge bracket and no corporate-tax fields, and still nets penalty and costs |
| CapitalGain.TaxableSaleHasNoReasons | shared/calc-core.ts:404-419 | a taxable sale records no exemption |
| CapitalGain.TransparentRolesAgree | shared/calc-core.ts:454 | individuals and transparent companies are taxed identically |
| CapitalGain.TransparentTaxBounds | shared/calc-core.ts:453-466 | total tax on a non-negative gain is between 0 and 42.2% of it |
| CapitalGain.TransparentFullRelief | shared/calc-core.ts:453-466 | from 30 years no tax at all; from 22 years no income tax and no surcharge, only social charges |
| CapitalGain.TransparentLossGivesNegativeTax | shared/calc-core.ts:453-466 | a loss held under 30 years gives a negative total tax (no floor at 0) |
| CapitalGain.TransparentTaxFallsWithHolding | shared/calc-core.ts:453-466 | off the surcharge gaps, holding longer never raises the tax on a non-negative gain |
| CapitalGain.LongerHoldingCanRaiseTaxInGap | shared/calc-core.ts:453-466 | a gain of 60 000.50 held 5 years falls in a gap; held 6 years it pays over 90 more |
| CapitalGain.CorporateTaxBounds | shared/calc-core.ts:508-515 | corporate tax on a non-negative result lies between 15% and 25% of it |
| CapitalGain.CorporateTaxMonotone | shared/calc-core.ts:508-515 | a larger result never pays less corporate tax |
| CapitalGain.CorporateTaxIgnoresAcquisition | shared/calc-core.ts:502-556 | a corporate-tax company's total tax does not depend on purchase price, date or other acquisition costs: it is the 15%/25% corporate tax on the price less book value and fees, plus 30% of dividends |
| Report.BuildEnrichedResult | shared/calc-core.ts:566-568 | the report is produced exactly when the engine succeeds |
| Report.BuildReport | shared/calc-core.ts:566-694 | every reported amount is a whole number of cents, the holding period is `PeriodOf` with months 0–11, and the surcharge is reported applied exactly when it is positive (lemmas `ReportAcquisitionRounded`, `ReportTaxesRounded`, `ReportCostsRounded`, `ReportPercents`) |
| Report.RawNetsAccounting | shared/calc-core.ts:587-598 | the final net is the net before the loan less principal, penalty and release fee, and equals the engine's net proceeds |
| Report.ReportedNetIsRoundedProceeds | shared/calc-core.ts:587-598 | the reported final net is the engine's net proceeds rounded once |
| Report.ReportRoundedOnce | shared/calc-core.ts:610-694 | every reported amount is in cents, and tax, final net and cost total are within half a cent of the unrounded values |
| Report.ReportAcquisitionRounded | shared/calc-core.ts:609-656 | fees, works, other costs, basis, gross gain and both allowance lines are each `Round2` of their unrounded value |
| Report.ReportPercents | shared/calc-core.ts:600-636 | a flat mode reports 7.5 or 15 percent; an actual mode its rounded share of the purchase price, undefined for a zero price |
| Report.ReportTaxesRounded | shared/calc-core.ts:657-673 | each tax base and amount, the surcharge and the total are `Round2` of the engine's values, with rates 19 and 17.2 |
| Report.ReportCostsRounded | shared/calc-core.ts:573-694 | each cost line and the cost total are `Round2` of their values; the price net of agency fees, the net before the loan (less tax and non-loan costs) and the final net (less tax and all costs) are each rounded once |
| Report.ReportedNetsFromEngine | shared/calc-core.ts:587-598 | the final net is the engine's net proceeds rounded; the net before the loan adds back principal, penalty and release fee before rounding; the price net of agency fees is rounded price less agency fees |
| Report.FeesSwitchChangesNoAmount | shared/calc-core.ts:574 | the fees-and-loan switch is reported but changes no amount |
| Report.SurtaxeAppliedIffBracket | shared/calc-core.ts:668-672 | the surcharge is reported applied exactly when a bracket applied |
| Validation.Valid | shared/validation.ts:7-88 | accepted inputs have listed enumerations, bounded prices, amounts and rates, four-digit years and a purchase before the sale; an accepted `'actual'` mode carries a positive amount, and the elapsed months are not negative |
| Validation.WithDefaults | shared/validation.ts:35-44 | an absent switch becomes false and an absent principal or sale cost 0, a supplied value is kept, and no other field changes |
| Validation.DefaultsKeepValid | shared/validation.ts:35-44 | filling in the defaults keeps a valid input valid |
| Validation.ParseIsoDate | shared/validation.ts:24-25 | a date is read only from text of the shape NNNN-NN-NN, with month and day taken from their digits |
| Validation.FormatIsoDate | shared/validation.ts:24-25 | a date with a four-digit year is written in the shape NNNN-NN-NN |
| Validation.ParseFormatRoundTrip | shared/validation.ts:24-25 | writing then reading a date gives it back |
| Validation.FormatParseRoundTrip | shared/validation.ts:24-25 | reading then writing text that names a date gives the text back |
| ValidatedEngine.ValidInputNeverFails | shared/calc-core.ts:558-559 | a validated input never reaches the invalid-role error: engine and report both succeed |
| ValidatedEngine.ValidPenaltyBounds | shared/validation.ts:36-39 | for a validated input the "min" branch is unreachable and the penalty is between 0 and a tenth of the principal |
| ValidatedEngine.ValidBasisAbovePurchase | shared/validation.ts:64-88 | for a validated input fees are positive, works non-negative, the basis strictly above the purchase price |
| ValidatedEngine.ValidHoldingPeriodExact | shared/validation.ts:55-63 | with the purchase before the sale, the reported years and months add up to the elapsed months and the years are those that select the allowances |
| ValidatedEngine.ValidReportedNetsOrdered | shared/validation.ts:36-44 | with non-negative costs the reported final net never exceeds the net before the loan, and the cost total is non-negative |
| ValidatedEngine.ValidExemptNetAtMostPrice | shared/calc-core.ts:419-428 | a validated exempt sale never nets more than its price |
| ValidatedEngine.ValidTransparentTaxBound | shared/calc-core.ts:453-466 | a validated taxable sale by an individual or transparent company pays at most 42.2% of the positive part of its gain |
| ValidatedEngine.DefaultsChangeNoResult | shared/validation.ts:35-44 | the schema's defaults are what the engine reads for absent fields: engine and report results are unchanged |
| ValidatedEngine.DefaultsChangeNoReport | shared/calc-core.ts:574-598 | the report built from a result does not change when the defaults are filled in |
| Scenarios.FourteenYearHolding | shared/calc-core.ts:176-298 | bought 2010-01-01 and sold 2024-06-15: 14 years, 14 years 5 months, 54% and 14.85% relief |
| Scenarios.SurchargeExamples | shared/calc-core.ts:309-319 | a base of 70 000 pays 1 400; one of 55 000 pays 850 |
| Scenarios.UnsetMethodGivesNoPenalty | shared/calc-core.ts:224-255 | with no method chosen no penalty is due although the methods would give 3 000 and 600 |

## Left out

- Date text is read by JavaScript's `Date` in the server's time zone; the model takes dates as calendar triples, so a time-zone shift of the day is not modelled.
- Validation.ParseIsoDate: accepts any day 1–31 in any month and keeps it as written. JavaScript's `Date` instead rolls a day past the month's end into the next month (the 31st of February becomes early March), so for such text the model's whole years and months can differ from the engine's by one, and the schema's date-order refinement compares the rolled-over dates: a purchase on 2020-02-31 (read as 2 March) with a sale on 2020-03-01 is refused by the schema but accepted by `Valid`.
- Numbers are exact reals: IEEE-754 rounding, `NaN` and infinities are not modelled; a percentage of a zero purchase price, which JavaScript makes non-finite, is `None`.
- The report's address, property type, surfaces, label texts, legal references and generation timestamps, and the result's `calculationDate`, are not modelled: they are copied or read from the clock, not computed.
- The penalty's `'<pct>%'` label is kept as the percentage value rather than formatted text.
- The surcharge bracket names are a datatype rather than their French text.
- The schema's checks on address, INSEE and department codes, property type, surfaces and energy label are not modelled: the engine does not read those fields.
- The zod machinery (error messages, paths, coercion) is not modelled; only which inputs are accepted and the defaults filled in.
