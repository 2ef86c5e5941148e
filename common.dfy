/** Value helpers shared by the calculation engine: optional fields read the
    way JavaScript reads them, and the engine's two-decimal rounding. */
module Common {

  datatype Option<+T> = None | Some(value: T)

  datatype Result<+T, +E> = Ok(value: T) | Err(error: E)

  /** JavaScript truthiness of an optional number: present and non-zero. */
  predicate Truthy(x: Option<real>) {
    x.Some? && x.value != 0.0
  }

  /** JavaScript `x || d` on an optional number: absent or zero reads as `d`. */
  function OrDefault(x: Option<real>, d: real): real {
    if Truthy(x) then x.value else d
  }

  /** JavaScript `x || 0`: absent reads as 0 (and 0 stays 0). */
  function OrZero(x: Option<real>): real {
    OrDefault(x, 0.0)
  }

  /** JavaScript `b || false` on an optional flag. */
  function OrFalse(b: Option<bool>): bool {
    b.Some? && b.value
  }

  function Max0(n: int): nat {
    if n < 0 then 0 else n
  }

  function MinReal(a: real, b: real): real {
    if a <= b then a else b
  }

  function MaxReal(a: real, b: real): real {
    if a >= b then a else b
  }

  /** A whole number of cents. */
  predicate IsCents(x: real) {
    (x * 100.0).Floor as real == x * 100.0
  }

  /** `round2`: `Math.round(x * 100) / 100`. `Math.round` takes the floor of
      `y + 0.5`, so halves go towards +infinity (also for negative values).
      The result is the one whole-cent value in (x - 0.005, x + 0.005]. */
  function Round2(x: real): (r: real)
    ensures IsCents(r)
    ensures x - 0.005 < r <= x + 0.005
  {
    (x * 100.0 + 0.5).Floor as real / 100.0
  }

  /** Two whole-cent values closer than a cent are equal. */
  lemma CentsApart(a: real, b: real)
    requires IsCents(a) && IsCents(b)
    requires a < b
    ensures b - a >= 0.01
  {
    var na, nb := (a * 100.0).Floor, (b * 100.0).Floor;
    assert na as real == a * 100.0 && nb as real == b * 100.0;
    assert na < nb;
  }

  /** The contract of `Round2` determines it: any whole-cent value in the
      half-open window around `x` is `Round2(x)`. */
  lemma Round2Unique(x: real, c: real)
    requires IsCents(c)
    requires x - 0.005 < c <= x + 0.005
    ensures c == Round2(x)
  {
    var r := Round2(x);
    if c < r {
      CentsApart(c, r);
    } else if r < c {
      CentsApart(r, c);
    }
  }

  /** Rounding an already rounded value changes nothing, so rounding once at
      assembly and rounding again downstream agree. */
  lemma Round2Idempotent(x: real)
    ensures Round2(Round2(x)) == Round2(x)
  {
    Round2Unique(Round2(x), Round2(x));
  }

  /** Whole-cent values are fixed points of `Round2`. */
  lemma Round2OfCents(c: real)
    requires IsCents(c)
    ensures Round2(c) == c
  {
    Round2Unique(c, c);
  }

  /** Rounding preserves order. */
  lemma Round2Monotone(x: real, y: real)
    requires x <= y
    ensures Round2(x) <= Round2(y)
  {
    var a, b := x * 100.0 + 0.5, y * 100.0 + 0.5;
    assert a <= b;
    assert a.Floor <= b.Floor;
  }

  /** Ties are broken upwards: -0.005 rounds to 0, not to -0.01. */
  lemma Round2HalfUp()
    ensures Round2(-0.005) == 0.0
    ensures Round2(0.005) == 0.01
  {
    Round2Unique(-0.005, 0.0);
    Round2Unique(0.005, 0.01);
  }
}
