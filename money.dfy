/**
 * Money amounts. Amounts are exact reals; `toFixed(2)` followed by
 * `parseFloat` is `Round2`, which rounds to the nearest multiple of 0.01
 * with halves rounded away from zero (as `Number.prototype.toFixed` does
 * on the exact value).
 */
module Money {

  /** The whole number of paise `toFixed(2)` prints for `x`. */
  function Cents(x: real): (c: int)
    ensures x >= 0.0 ==> c >= 0
    ensures -0.005 <= c as real / 100.0 - x <= 0.005
  {
    if x >= 0.0 then (x * 100.0 + 0.5).Floor else -((-x * 100.0 + 0.5).Floor)
  }

  /** `parseFloat(x.toFixed(2))`. */
  function Round2(x: real): (r: real)
    ensures -0.005 <= r - x <= 0.005
    ensures x >= 0.0 ==> r >= 0.0
  {
    Cents(x) as real / 100.0
  }

  /** A whole number of paise is printed as itself. */
  lemma CentsOfCents(c: int)
    ensures Cents(c as real / 100.0) == c
  {
    var x := c as real / 100.0;
    if x >= 0.0 {
      assert x * 100.0 + 0.5 == c as real + 0.5;
    } else {
      assert -x * 100.0 + 0.5 == (-c) as real + 0.5;
    }
  }

  /** Rounding an amount that is already rounded changes nothing. */
  lemma Round2Idempotent(x: real)
    ensures Round2(Round2(x)) == Round2(x)
  {
    CentsOfCents(Cents(x));
  }

  /** `Round2` is odd: a negative amount rounds like its magnitude. */
  lemma Round2Symmetric(x: real)
    ensures Round2(-x) == -Round2(x)
  {
    if x == 0.0 {
    } else if x > 0.0 {
      assert -(-x) == x;
    }
  }

  /** An amount that is a whole number of paise. */
  predicate InPaise(x: real) {
    x == Cents(x) as real / 100.0
  }

  /** Every rounded amount is a whole number of paise. */
  lemma Round2InPaise(x: real)
    ensures InPaise(Round2(x))
  {
    CentsOfCents(Cents(x));
  }

  /** Sums of whole paise are whole paise, and `Round2` leaves them alone. */
  lemma PaiseAdd(x: real, y: real)
    requires InPaise(x) && InPaise(y)
    ensures InPaise(x + y)
    ensures Round2(x + y) == x + y
  {
    var c := Cents(x) + Cents(y);
    assert x + y == c as real / 100.0;
    CentsOfCents(c);
  }

  /** The whole number of thousandths `toFixed(3)` prints for `x`. */
  function Mills(x: real): (m: int)
    ensures x >= 0.0 ==> m >= 0
    ensures -0.0005 <= m as real / 1000.0 - x <= 0.0005
  {
    if x >= 0.0 then (x * 1000.0 + 0.5).Floor else -((-x * 1000.0 + 0.5).Floor)
  }

  /** `parseFloat(x.toFixed(3))`. */
  function Round3(x: real): (r: real)
    ensures -0.0005 <= r - x <= 0.0005
    ensures x >= 0.0 ==> r >= 0.0
  {
    Mills(x) as real / 1000.0
  }
}
