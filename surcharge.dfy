/** Surcharge on high real-estate gains (article 1609 nonies G of the Code
    général des impôts), applied to the whole income-tax base: a flat rate of
    2 to 6 percent by bracket, each bracket entered through a smoothing
    ("décote") sub-bracket ten thousand euros wide. */
module SurchargeSchedule {
  import opened Common

  /** The bracket that produced the amount (the label the engine reports). */
  datatype Tranche =
    | NoTranche
    | Decote2 | Flat2
    | Decote3 | Flat3
    | Decote4 | Flat4
    | Decote5 | Flat5
    | Decote6 | Flat6

  datatype SurchargeResult = SurchargeResult(amount: real, tranche: Tranche)

  /** Flat rate of each bracket. */
  function Rate(t: Tranche): real {
    match t
    case NoTranche => 0.0
    case Decote2 | Flat2 => 0.02
    case Decote3 | Flat3 => 0.03
    case Decote4 | Flat4 => 0.04
    case Decote5 | Flat5 => 0.05
    case Decote6 | Flat6 => 0.06
  }

  predicate IsFlat(t: Tranche) {
    t.Flat2? || t.Flat3? || t.Flat4? || t.Flat5? || t.Flat6?
  }

  /** Amount of a smoothing sub-bracket ending at `upper`: the flat amount
      minus `k` per euro still missing to `upper`, floored at 0. */
  function DecoteAmount(rate: real, k: real, upper: real, base: real): real {
    MaxReal(0.0, rate * base - k * (upper - base))
  }

  /** `calculateSurcharge` as written: every bracket delimited by integer
      bounds (`>= 50001 && <= 60000`, ...), so a base strictly between a
      bracket's upper bound N and N + 1 matches no bracket and gets 0. */
  function Surcharge(base: real): (r: SurchargeResult)
    ensures base <= 50000.0 ==> r == SurchargeResult(0.0, NoTranche)
    ensures r.amount > 0.0 <==> r.tranche != NoTranche
    ensures r.tranche == NoTranche ==> r.amount == 0.0
    ensures 0.0 <= r.amount <= Rate(r.tranche) * base
    ensures IsFlat(r.tranche) ==> r.amount == Rate(r.tranche) * base
  {
    if base <= 50000.0 then SurchargeResult(0.0, NoTranche)
    else if 50001.0 <= base <= 60000.0 then SurchargeResult(DecoteAmount(0.02, 1.0 / 20.0, 60000.0, base), Decote2)
    else if 60001.0 <= base <= 100000.0 then SurchargeResult(0.02 * base, Flat2)
    else if 100001.0 <= base <= 110000.0 then SurchargeResult(DecoteAmount(0.03, 1.0 / 10.0, 110000.0, base), Decote3)
    else if 110001.0 <= base <= 150000.0 then SurchargeResult(0.03 * base, Flat3)
    else if 150001.0 <= base <= 160000.0 then SurchargeResult(DecoteAmount(0.04, 15.0 / 100.0, 160000.0, base), Decote4)
    else if 160001.0 <= base <= 200000.0 then SurchargeResult(0.04 * base, Flat4)
    else if 200001.0 <= base <= 210000.0 then SurchargeResult(DecoteAmount(0.05, 20.0 / 100.0, 210000.0, base), Decote5)
    else if 210001.0 <= base <= 250000.0 then SurchargeResult(0.05 * base, Flat5)
    else if 250001.0 <= base <= 260000.0 then SurchargeResult(DecoteAmount(0.06, 25.0 / 100.0, 260000.0, base), Decote6)
    else if base > 260000.0 then SurchargeResult(0.06 * base, Flat6)
    else SurchargeResult(0.0, NoTranche)
  }

  /** The published schedule on contiguous brackets (50 000, 60 000],
      (60 000, 100 000], ..., (260 000, +inf): every base above 50 000 falls in
      exactly one bracket. */
  function StatutorySurcharge(base: real): (r: SurchargeResult)
    ensures base <= 50000.0 <==> r.tranche == NoTranche
  {
    if base <= 50000.0 then SurchargeResult(0.0, NoTranche)
    else if base <= 60000.0 then SurchargeResult(DecoteAmount(0.02, 1.0 / 20.0, 60000.0, base), Decote2)
    else if base <= 100000.0 then SurchargeResult(0.02 * base, Flat2)
    else if base <= 110000.0 then SurchargeResult(DecoteAmount(0.03, 1.0 / 10.0, 110000.0, base), Decote3)
    else if base <= 150000.0 then SurchargeResult(0.03 * base, Flat3)
    else if base <= 160000.0 then SurchargeResult(DecoteAmount(0.04, 15.0 / 100.0, 160000.0, base), Decote4)
    else if base <= 200000.0 then SurchargeResult(0.04 * base, Flat4)
    else if base <= 210000.0 then SurchargeResult(DecoteAmount(0.05, 20.0 / 100.0, 210000.0, base), Decote5)
    else if base <= 250000.0 then SurchargeResult(0.05 * base, Flat5)
    else if base <= 260000.0 then SurchargeResult(DecoteAmount(0.06, 25.0 / 100.0, 260000.0, base), Decote6)
    else SurchargeResult(0.06 * base, Flat6)
  }

  /** `base` lies strictly between a bracket bound N and N + 1. */
  predicate InGap(base: real) {
    || 50000.0 < base < 50001.0
    || 60000.0 < base < 60001.0
    || 100000.0 < base < 100001.0
    || 110000.0 < base < 110001.0
    || 150000.0 < base < 150001.0
    || 160000.0 < base < 160001.0
    || 200000.0 < base < 200001.0
    || 210000.0 < base < 210001.0
    || 250000.0 < base < 250001.0
  }

  /** Outside the gaps (in particular on every whole-euro base) the engine
      applies the published schedule. */
  lemma SurchargeIsStatutoryOffGaps(base: real)
    requires !InGap(base)
    ensures Surcharge(base) == StatutorySurcharge(base)
  {
  }

  /** Inside a gap the engine charges nothing although the schedule charges
      at least 2% of the base less its smoothing. */
  lemma SurchargeGapIsZero(base: real)
    requires InGap(base)
    ensures Surcharge(base) == SurchargeResult(0.0, NoTranche)
    ensures StatutorySurcharge(base).amount > 0.0
  {
  }

  /** Each smoothing sub-bracket reaches the flat amount of its rate at its
      upper bound, so the flat bracket after it starts without a jump. */
  lemma DecoteMeetsFlatAtUpper()
    ensures Surcharge(60000.0).amount == 0.02 * 60000.0
    ensures Surcharge(110000.0).amount == 0.03 * 110000.0
    ensures Surcharge(160000.0).amount == 0.04 * 160000.0
    ensures Surcharge(210000.0).amount == 0.05 * 210000.0
    ensures Surcharge(260000.0).amount == 0.06 * 260000.0
  {
  }

  /** Above 50 000 the published schedule is positive, so the floor at 0 of
      the smoothing never applies there. */
  lemma StatutoryPositive(base: real)
    requires base > 50000.0
    ensures StatutorySurcharge(base).amount >= 500.0
  {
  }

  /** The published schedule never decreases as the base grows. */
  lemma StatutoryMonotone(b1: real, b2: real)
    requires b1 <= b2
    ensures StatutorySurcharge(b1).amount <= StatutorySurcharge(b2).amount
  {
  }

  /** Above 50 000 the published schedule has no cliff: it grows by at most
      31 cents per euro of base (the steepest smoothing slope, 6% + 25%). */
  lemma StatutoryLipschitz(b1: real, b2: real)
    requires 50000.0 < b1 <= b2
    ensures StatutorySurcharge(b2).amount - StatutorySurcharge(b1).amount <= 0.31 * (b2 - b1)
  {
  }

  /** The engine's surcharge, between two bases above 50 000 that avoid the
      gaps, rises with the base and by at most 31 cents per euro. */
  lemma SurchargeContinuousOffGaps(b1: real, b2: real)
    requires 50000.0 < b1 <= b2
    requires !InGap(b1) && !InGap(b2)
    ensures 0.0 <= Surcharge(b2).amount - Surcharge(b1).amount <= 0.31 * (b2 - b1)
  {
    SurchargeIsStatutoryOffGaps(b1);
    SurchargeIsStatutoryOffGaps(b2);
    StatutoryMonotone(b1, b2);
    StatutoryLipschitz(b1, b2);
  }

  /** The surcharge is at most 6% of the base. */
  lemma SurchargeAtMostSixPercent(base: real)
    ensures Surcharge(base).amount <= MaxReal(0.0, 0.06 * base)
  {
  }
}
