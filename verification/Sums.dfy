/** Order-independent totals over dictionaries, and the few real-number helpers shared by the model. */
module Sums {
  ghost function Pick<K(!new), V>(m: map<K, V>): (k: K)
    requires m != map[]
    ensures k in m
  {
    var k :| k in m;
    k
  }

  /** The sum of `w` over the values of a dictionary. */
  ghost function Total<K(!new), V(!new)>(m: map<K, V>, w: V -> real): real
    decreases |m|
  {
    if m == map[] then 0.0
    else
      var k := Pick(m);
      w(m[k]) + Total(m - {k}, w)
  }

  /** Any key may be taken out first: the total does not depend on iteration order. */
  lemma {:induction false} TotalRemove<K(!new), V(!new)>(m: map<K, V>, w: V -> real, k: K)
    requires k in m
    ensures Total(m, w) == w(m[k]) + Total(m - {k}, w)
    decreases |m|
  {
    var p := Pick(m);
    if p != k {
      TotalRemove(m - {p}, w, k);
      TotalRemove(m - {k}, w, p);
      assert m - {p} - {k} == m - {k} - {p};
    }
  }

  lemma TotalPut<K(!new), V(!new)>(m: map<K, V>, w: V -> real, k: K, v: V)
    ensures Total(m[k := v], w) == Total(m, w) + w(v) - (if k in m then w(m[k]) else 0.0)
  {
    var n := m[k := v];
    TotalRemove(n, w, k);
    assert n - {k} == m - {k};
    if k in m {
      TotalRemove(m, w, k);
    } else {
      assert m - {k} == m;
    }
  }

  lemma {:induction false} TotalZero<K(!new), V(!new)>(m: map<K, V>, w: V -> real)
    requires forall k :: k in m ==> w(m[k]) == 0.0
    ensures Total(m, w) == 0.0
    decreases |m|
  {
    if m != map[] {
      TotalZero(m - {Pick(m)}, w);
    }
  }

  lemma {:induction false} TotalSame<K(!new), V(!new)>(m: map<K, V>, v: V -> real, w: V -> real)
    requires forall k :: k in m ==> v(m[k]) == w(m[k])
    ensures Total(m, v) == Total(m, w)
    decreases |m|
  {
    if m != map[] {
      TotalSame(m - {Pick(m)}, v, w);
    }
  }

  /** A total of non-negative weights bounds each of its terms; it is zero only when they all are. */
  lemma {:induction false} TotalNonNegative<K(!new), V(!new)>(m: map<K, V>, w: V -> real)
    requires forall k :: k in m ==> 0.0 <= w(m[k])
    ensures 0.0 <= Total(m, w)
    ensures forall k :: k in m ==> w(m[k]) <= Total(m, w)
    decreases |m|
  {
    if m != map[] {
      var p := Pick(m);
      TotalNonNegative(m - {p}, w);
      forall k | k in m
        ensures w(m[k]) <= Total(m, w)
      {
        if k != p {
          assert k in m - {p};
        }
      }
    }
  }

  lemma {:induction false} TotalAdd<K(!new), V(!new)>(m: map<K, V>, u: V -> real, v: V -> real, w: V -> real)
    requires forall k :: k in m ==> u(m[k]) == v(m[k]) + w(m[k])
    ensures Total(m, u) == Total(m, v) + Total(m, w)
    decreases |m|
  {
    if m != map[] {
      TotalAdd(m - {Pick(m)}, u, v, w);
    }
  }

  function Min(a: real, b: real): real {
    if a <= b then a else b
  }

  function Max(a: real, b: real): real {
    if a >= b then a else b
  }

  function Abs(a: real): real {
    if a < 0.0 then -a else a
  }

  lemma ScaleLe(a: real, b: real, c: real)
    requires a <= b && 0.0 <= c
    ensures a * c <= b * c
  {
  }

  lemma QuotientLe(a: real, b: real, c: real)
    requires a <= b && 0.0 < c
    ensures a / c <= b / c
  {
    var p, q := a / c, b / c;
    assert p * c == a && q * c == b;
    assert (q - p) * c == b - a;
  }

  // Named so that products are matched as terms; every law needed about them is a lemma below.
  function Times(a: real, b: real): real {
    a * b
  }

  lemma TimesDivide(a: real, unit: real)
    requires unit > 0.0
    ensures Times(a, unit) / unit == a && Times(a / unit, unit) == a
  {
  }

  lemma TimesAdd(a: real, b: real, unit: real)
    ensures Times(a + b, unit) == Times(a, unit) + Times(b, unit)
    ensures Times(-a, unit) == -Times(a, unit)
    ensures Times(1.0, unit) == unit && Times(0.0, unit) == 0.0
  {
  }

  lemma TimesMonotone(a: real, b: real, unit: real)
    requires unit > 0.0
    ensures a <= b ==> Times(a, unit) <= Times(b, unit)
    ensures a < b ==> Times(a, unit) < Times(b, unit)
  {
    assert Times(b, unit) - Times(a, unit) == (b - a) * unit;
  }

  lemma TimesLe(a: real, b: real, unit: real)
    requires a <= b && 0.0 <= unit
    ensures Times(a, unit) <= Times(b, unit)
  {
    if 0.0 < unit {
      TimesMonotone(a, b, unit);
    }
  }

  /** Division with its zero case written out: the code divides only by values shown to be positive. */
  function Over(a: real, b: real): real {
    if b == 0.0 then 0.0 else a / b
  }

  lemma OverBounds(part: real, whole: real)
    requires 0.0 <= part && 0.0 < whole
    ensures 0.0 <= Over(part, whole)
    ensures part <= whole ==> Over(part, whole) <= 1.0
    ensures 0.0 < part ==> 0.0 < Over(part, whole)
    ensures Over(whole, whole) == 1.0
  {
    QuotientLe(0.0, part, whole);
    if part <= whole {
      QuotientLe(part, whole, whole);
    }
  }

  /** A smaller positive divisor gives a larger quotient. */
  lemma OverAntitone(a: real, low: real, high: real)
    requires 0.0 <= a && 0.0 < low <= high
    ensures Over(a, high) <= Over(a, low)
  {
    var p, q := a / low, a / high;
    TimesDivide(a, low);
    TimesDivide(a, high);
    QuotientLe(0.0, a, high);
    TimesShift(p, q, low, high);
  }

  lemma TimesShift(p: real, q: real, low: real, high: real)
    requires 0.0 <= q && 0.0 < low <= high && Times(p, low) == Times(q, high)
    ensures q <= p
  {
    ScaleLe(low, high, q);
    assert Times(p - q, low) == p * low - q * low;
    if p < q {
      TimesMonotone(p - q, 0.0, low);
      TimesAdd(0.0, 0.0, low);
      assert false;
    }
  }
}
