/** Decimal numbers as an integer coefficient and exponent, with rounding to a working precision. */
module Decimals {
  datatype Dec = Dec(coeff: int, exp: int)

  function Abs(x: int): nat {
    if x < 0 then -x else x
  }

  function Pow10(k: nat): (p: nat)
    ensures 1 <= p
  {
    if k == 0 then 1 else 10 * Pow10(k - 1)
  }

  /** The length of the digit string; zero has one digit. */
  function Digits(n: nat): nat {
    if n < 10 then 1 else 1 + Digits(n / 10)
  }

  /** The exponent of the leading digit. */
  function Adjusted(d: Dec): int {
    d.exp + Digits(Abs(d.coeff)) - 1
  }

  /** The value as a whole number of units 10^e. */
  function At(d: Dec, e: int): int
    requires e <= d.exp
  {
    d.coeff * Pow10(d.exp - e)
  }

  function Low(a: Dec, b: Dec): int {
    if a.exp < b.exp then a.exp else b.exp
  }

  predicate Same(a: Dec, b: Dec) {
    At(a, Low(a, b)) == At(b, Low(a, b))
  }

  function ExactAdd(a: Dec, b: Dec): Dec {
    Dec(At(a, Low(a, b)) + At(b, Low(a, b)), Low(a, b))
  }

  function Negated(a: Dec): Dec {
    Dec(-a.coeff, a.exp)
  }

  function ExactMul(a: Dec, b: Dec): Dec {
    Dec(a.coeff * b.coeff, a.exp + b.exp)
  }

  /** Half-even rounding of a coefficient to the given number of digits; shorter ones stay as they are. */
  function Round(d: Dec, precision: nat): Dec
    requires 1 <= precision
  {
    var excess := Digits(Abs(d.coeff)) - precision;
    if excess <= 0 then d else Carried(Kept(d.coeff, Pow10(excess)), d.exp + excess, precision)
  }

  /** The rounded coefficient in units. */
  function Kept(coeff: int, unit: nat): int
    requires 1 <= unit
  {
    if coeff < 0 then -(HalfEven(-coeff, unit) as int) else HalfEven(coeff, unit)
  }

  function HalfEven(n: nat, unit: nat): nat
    requires 1 <= unit
  {
    var kept, cut := n / unit, n % unit;
    if unit < 2 * cut || (unit == 2 * cut && kept % 2 == 1) then kept + 1 else kept
  }

  /** Rounding up to one digit too many moves the exponent instead. */
  function Carried(coeff: int, exp: int, precision: nat): Dec
    requires 1 <= precision
  {
    if coeff == Pow10(precision) then Dec(Pow10(precision - 1), exp + 1)
    else if -coeff == Pow10(precision) then Dec(-1 * Pow10(precision - 1), exp + 1)
    else Dec(coeff, exp)
  }

  lemma {:induction false} Pow10Add(a: nat, b: nat)
    ensures Pow10(a + b) == Pow10(a) * Pow10(b)
    decreases a
  {
    if a != 0 {
      Pow10Add(a - 1, b);
      assert 10 * (Pow10(a - 1) * Pow10(b)) == (10 * Pow10(a - 1)) * Pow10(b);
    }
  }

  lemma {:induction false} Pow10Grows(a: nat, b: nat)
    requires a <= b
    ensures 1 <= Pow10(a) <= Pow10(b)
    decreases b
  {
    if b == 0 {
    } else if a == b {
      Pow10Grows(a - 1, b - 1);
    } else {
      Pow10Grows(a, b - 1);
    }
  }

  /** A number has at most k digits exactly when it is below 10^k. */
  lemma {:induction false} DigitsBound(n: nat, k: nat)
    requires 1 <= k
    ensures Digits(n) <= k <==> n < Pow10(k)
  {
    if k == 1 {
      assert Pow10(1) == 10 * Pow10(0);
    } else {
      Pow10Grows(1, k);
      assert Pow10(1) == 10 * Pow10(0);
      DigitsBound(n / 10, k - 1);
    }
  }

  lemma ProductBelow(a: nat, b: nat, x: nat, y: nat)
    requires a < x && b < y
    ensures a * b < x * y
  {
    assert a * b <= a * y by {
      ProductUpTo(a, b, y);
    }
    assert a * y < x * y by {
      assert x * y == a * y + (x - a) * y;
      assert 1 <= (x - a) * y;
    }
  }

  lemma ProductUpTo(a: nat, b: nat, c: nat)
    requires b <= c
    ensures a * b <= a * c && b * a <= c * a
  {
    assert a * c == a * b + a * (c - b);
  }

  /** A rounded coefficient has exactly the working precision's number of digits. */
  lemma RoundedDigits(d: Dec, precision: nat)
    requires 1 <= precision < Digits(Abs(d.coeff))
    ensures Digits(Abs(Round(d, precision).coeff)) == precision
  {
    var n := Abs(d.coeff);
    var excess := Digits(n) - precision;
    var kept := n / Pow10(excess);
    KeptDigits(n, precision, excess);
    hide Pow10, Digits;
    DigitsBoundsOf(precision);
    DigitsExactly(kept, precision);
    if kept + 1 < Pow10(precision) {
      DigitsExactly(kept + 1, precision);
    }
  }

  /** q units of the given size are nearest to x, with an even q in a tie. */
  predicate NearestMultiple(x: int, q: int, unit: nat) {
    2 * Abs(q * unit - x) <= unit && (2 * Abs(q * unit - x) == unit ==> q % 2 == 0)
  }

  /** Rounding keeps the nearest multiple of the cut unit. */
  lemma RoundedNearest(d: Dec, precision: nat)
    requires 1 <= precision < Digits(Abs(d.coeff))
    ensures var unit := Pow10(Digits(Abs(d.coeff)) - precision);
      && At(Round(d, precision), d.exp) == Kept(d.coeff, unit) * unit
      && NearestMultiple(d.coeff, Kept(d.coeff, unit), unit)
  {
    var excess := Digits(Abs(d.coeff)) - precision;
    KeptNearest(d.coeff, Pow10(excess));
    hide Digits, Carried, Pow10, NearestMultiple, Kept;
    CarriedAt(Kept(d.coeff, Pow10(excess)), d.exp + excess, precision, d.exp);
  }

  lemma KeptNearest(coeff: int, unit: nat)
    requires 1 <= unit
    ensures NearestMultiple(coeff, Kept(coeff, unit), unit)
  {
    hide HalfEven, NearestMultiple;
    Nearest(Abs(coeff), unit);
    if coeff < 0 {
      NearestNegated(-coeff, HalfEven(-coeff, unit), unit);
    }
  }

  lemma NearestNegated(x: int, q: int, unit: nat)
    requires NearestMultiple(x, q, unit)
    ensures NearestMultiple(-x, -q, unit)
  {
    Flip(q, unit);
  }

  lemma Nearest(n: nat, unit: nat)
    requires 1 <= unit
    ensures NearestMultiple(n, HalfEven(n, unit), unit)
  {
    var kept := n / unit;
    assert n == kept * unit + n % unit;
    assert (kept + 1) * unit == kept * unit + unit;
  }

  lemma CarriedAt(coeff: int, exp: int, precision: nat, e: int)
    requires 1 <= precision && e <= exp
    ensures At(Carried(coeff, exp, precision), e) == coeff * Pow10(exp - e)
  {
    Pow10Add(precision - 1, exp + 1 - e);
    Pow10Add(precision, exp - e);
    Flip(Pow10(precision - 1), Pow10(exp + 1 - e));
    Flip(Pow10(precision), Pow10(exp - e));
  }

  lemma DigitsExactly(n: nat, k: nat)
    requires 1 <= k && Pow10(k - 1) <= n < Pow10(k)
    ensures Digits(n) == k
  {
    DigitsBound(n, k);
    if 1 < k {
      DigitsBound(n, k - 1);
    }
  }

  lemma DigitsBoundsOf(k: nat)
    requires 1 <= k
    ensures 1 <= Pow10(k - 1) < Pow10(k) && Digits(Pow10(k - 1)) == k
  {
    Pow10Grows(0, k - 1);
    DigitsExactly(Pow10(k - 1), k);
  }

  lemma KeptDigits(n: nat, precision: nat, excess: nat)
    requires 1 <= precision && 1 <= excess && Digits(n) == precision + excess
    ensures Pow10(precision - 1) <= n / Pow10(excess) < Pow10(precision)
  {
    DigitsBound(n, precision + excess);
    DigitsBound(n, precision + excess - 1);
    Pow10Add(precision, excess);
    Pow10Add(precision - 1, excess);
    hide Pow10, Digits;
    QuotientRange(n, Pow10(excess), Pow10(precision - 1), Pow10(precision));
  }

  lemma QuotientRange(n: nat, unit: nat, low: nat, high: nat)
    requires 1 <= unit && low * unit <= n < high * unit
    ensures low <= n / unit < high
  {
    var q := n / unit;
    assert q * unit <= n < q * unit + unit;
    assert (q + 1) * unit == q * unit + unit;
    if q < low {
      ProductUpTo(unit, q + 1, low);
    }
    if high <= q {
      ProductUpTo(unit, high, q);
    }
  }

  // ---------------------------------------------------------------- common scales

  lemma Rescale(d: Dec, e: int, finer: int)
    requires finer <= e <= d.exp
    ensures At(d, finer) == At(d, e) * Pow10(e - finer)
  {
    Pow10Add(d.exp - e, e - finer);
    Regroup(d.coeff, Pow10(d.exp - e), Pow10(e - finer));
  }

  lemma Regroup(a: int, b: int, c: int)
    ensures a * (b * c) == a * b * c
  {
  }

  /** Equality of values may be judged on any common scale. */
  lemma SameAt(a: Dec, b: Dec, e: int)
    requires e <= Low(a, b)
    ensures Same(a, b) <==> At(a, e) == At(b, e)
  {
    hide At;
    var m := Low(a, b);
    Rescale(a, m, e);
    Rescale(b, m, e);
    Pow10Grows(0, m - e);
    CancelScale(At(a, m), At(b, m), Pow10(m - e));
  }

  lemma CancelScale(x: int, y: int, s: nat)
    requires 1 <= s
    ensures x * s == y * s <==> x == y
  {
  }

  lemma AddAt(a: Dec, b: Dec, e: int)
    requires e <= Low(a, b)
    ensures At(ExactAdd(a, b), e) == At(a, e) + At(b, e)
  {
    var m := Low(a, b);
    Rescale(a, m, e);
    Rescale(b, m, e);
    Distribute(At(a, m), At(b, m), Pow10(m - e));
  }

  lemma Distribute(x: int, y: int, s: int)
    ensures (x + y) * s == x * s + y * s
  {
  }

  lemma MulAt(a: Dec, b: Dec, e: int, f: int)
    requires e <= a.exp && f <= b.exp
    ensures At(ExactMul(a, b), e + f) == At(a, e) * At(b, f)
  {
    var p, q := Pow10(a.exp - e), Pow10(b.exp - f);
    Pow10Add(a.exp - e, b.exp - f);
    Exchange(a.coeff, b.coeff, p, q);
  }

  lemma Exchange(a: int, b: int, p: int, q: int)
    ensures (a * b) * (p * q) == (a * p) * (b * q)
  {
    assert (a * b) * (p * q) == a * (b * p) * q == a * (p * b) * q;
  }

  // ---------------------------------------------------------------- boxes: a multiple of 10^low below 10^high

  predicate InBox(d: Dec, low: int, high: int) {
    low <= d.exp && low <= high && Abs(At(d, low)) < Pow10(high - low)
  }

  lemma BoxWiden(d: Dec, low: int, high: int, lower: int, higher: int)
    requires InBox(d, low, high) && lower <= low && high <= higher
    ensures InBox(d, lower, higher)
  {
    hide At;
    Rescale(d, low, lower);
    Pow10Add(high - low, low - lower);
    Pow10Grows(high - lower, higher - lower);
    Pow10Grows(0, low - lower);
    AbsScale(At(d, low), Pow10(low - lower));
    ScaledBelow(Abs(At(d, low)), Pow10(high - low), Pow10(low - lower));
  }

  lemma AbsScale(x: int, s: nat)
    ensures Abs(x * s) == Abs(x) * s
  {
  }

  lemma AbsProduct(x: int, y: int)
    ensures Abs(x * y) == Abs(x) * Abs(y)
  {
    if y < 0 {
      AbsScale(x, -y);
      assert x * y == -(x * -y);
    } else {
      AbsScale(x, y);
    }
  }

  lemma ScaledBelow(x: nat, y: nat, s: nat)
    requires x < y && 1 <= s
    ensures x * s < y * s
  {
    assert y * s == x * s + (y - x) * s;
  }

  lemma BoxAdd(a: Dec, b: Dec, low: int, high: int)
    requires InBox(a, low, high) && InBox(b, low, high)
    ensures InBox(ExactAdd(a, b), low, high + 1)
  {
    hide At;
    AddAt(a, b, low);
    assert Pow10(high + 1 - low) == 10 * Pow10(high - low);
  }

  lemma BoxMul(a: Dec, b: Dec, low: int, high: int, floor: int, ceiling: int)
    requires InBox(a, low, high) && InBox(b, floor, ceiling)
    ensures InBox(ExactMul(a, b), low + floor, high + ceiling)
  {
    hide At;
    MulAt(a, b, low, floor);
    Pow10Add(high - low, ceiling - floor);
    AbsProduct(At(a, low), At(b, floor));
    ProductBelow(Abs(At(a, low)), Abs(At(b, floor)), Pow10(high - low), Pow10(ceiling - floor));
  }

  lemma BoxNegated(a: Dec, low: int, high: int)
    requires InBox(a, low, high)
    ensures InBox(Negated(a), low, high)
  {
    Flip(a.coeff, Pow10(a.exp - low));
  }

  lemma Flip(x: int, s: int)
    ensures -x * s == -(x * s)
  {
  }

  /** A number in a box has at most as many digits as the box spans. */
  lemma BoxDigits(d: Dec, low: int, high: int)
    requires InBox(d, low, high) && low < high
    ensures Digits(Abs(d.coeff)) <= high - low
  {
    Pow10Grows(0, d.exp - low);
    AbsScale(d.coeff, Pow10(d.exp - low));
    ProductUpTo(Abs(d.coeff), 1, Pow10(d.exp - low));
    DigitsBound(Abs(d.coeff), high - low);
  }

  /** A number fills the box from its exponent to just above its leading digit. */
  lemma OwnBox(d: Dec)
    ensures InBox(d, d.exp, Adjusted(d) + 1)
  {
    var n := Abs(d.coeff);
    DigitsBound(n, Digits(n));
    assert Pow10(0) == 1;
    assert At(d, d.exp) == d.coeff;
  }
}
