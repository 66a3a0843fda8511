/** Lots and ticks: rounding a real to a grid, and what stays on the grid. */
module TickMath {
  import opened Sums

  function Grid(n: int, unit: real): real {
    Times(n as real, unit)
  }

  function Count(value: real, unit: real): int
    requires unit > 0.0
  {
    (value / unit).Floor
  }

  function FloorToUnit(value: real, unit: real): real
    requires unit > 0.0
  {
    Grid(Count(value, unit), unit)
  }

  function CeilToUnit(value: real, unit: real): real
    requires unit > 0.0
  {
    Grid(-Count(-value, unit), unit)
  }

  predicate Whole(value: real) {
    value == value.Floor as real
  }

  /** `value % unit == 0`. */
  predicate Aligned(value: real, unit: real)
    requires unit > 0.0
  {
    FloorToUnit(value, unit) == value
  }

  lemma GridCount(n: int, unit: real)
    requires unit > 0.0
    ensures Count(Grid(n, unit), unit) == n
  {
    TimesDivide(n as real, unit);
  }

  lemma GridAdd(m: int, n: int, unit: real)
    ensures Grid(m + n, unit) == Grid(m, unit) + Grid(n, unit)
    ensures Grid(-m, unit) == -Grid(m, unit)
  {
    hide Times;
    TimesAdd(m as real, n as real, unit);
    assert (m + n) as real == m as real + n as real;
    assert (-m) as real == -(m as real);
  }

  lemma GridBounds(value: real, unit: real)
    requires unit > 0.0
    ensures Grid(Count(value, unit), unit) <= value < Grid(Count(value, unit), unit) + unit
  {
    hide Times;
    var q := value / unit;
    var n := q.Floor as real;
    TimesDivide(value, unit);
    TimesMonotone(n, q, unit);
    TimesMonotone(q, n + 1.0, unit);
    TimesAdd(n, 1.0, unit);
  }

  /** Flooring gives the greatest grid point not above the value. */
  lemma FloorIsGreatest(value: real, unit: real)
    requires unit > 0.0
    ensures Aligned(FloorToUnit(value, unit), unit)
    ensures FloorToUnit(value, unit) <= value < FloorToUnit(value, unit) + unit
  {
    hide Grid, Count;
    GridBounds(value, unit);
    GridCount(Count(value, unit), unit);
  }

  /** Ceiling gives the least grid point not below the value. */
  lemma CeilIsLeast(value: real, unit: real)
    requires unit > 0.0
    ensures Aligned(CeilToUnit(value, unit), unit)
    ensures CeilToUnit(value, unit) - unit < value <= CeilToUnit(value, unit)
  {
    hide Grid, Count;
    GridBounds(-value, unit);
    GridAdd(Count(-value, unit), 0, unit);
    GridCount(-Count(-value, unit), unit);
  }

  lemma CountMonotone(a: real, b: real, unit: real)
    requires unit > 0.0 && a <= b
    ensures Count(a, unit) <= Count(b, unit)
  {
    var p, q := a / unit, b / unit;
    assert p <= q by {
      QuotientLe(a, b, unit);
    }
  }

  lemma FloorMonotone(a: real, b: real, unit: real)
    requires unit > 0.0 && a <= b
    ensures FloorToUnit(a, unit) <= FloorToUnit(b, unit)
  {
    hide Times, Count;
    CountMonotone(a, b, unit);
    TimesMonotone(Count(a, unit) as real, Count(b, unit) as real, unit);
  }

  lemma CeilMonotone(a: real, b: real, unit: real)
    requires unit > 0.0 && a <= b
    ensures CeilToUnit(a, unit) <= CeilToUnit(b, unit)
  {
    hide Grid, Count;
    FloorMonotone(-b, -a, unit);
    GridAdd(Count(-a, unit), 0, unit);
    GridAdd(Count(-b, unit), 0, unit);
  }

  /** Grid points are closed under subtraction and addition, and zero is one. */
  lemma AlignedCombine(a: real, b: real, unit: real)
    requires unit > 0.0 && Aligned(a, unit) && Aligned(b, unit)
    ensures Aligned(a - b, unit) && Aligned(a + b, unit)
  {
    hide Grid, Count;
    var m, n := Count(a, unit), Count(b, unit);
    GridAdd(m, n, unit);
    GridAdd(n, 0, unit);
    GridAdd(m, -n, unit);
    GridCount(m + n, unit);
    GridCount(m + (-n), unit);
  }

  lemma AlignedZero(unit: real)
    requires unit > 0.0
    ensures Aligned(0.0, unit)
  {
    GridCount(0, unit);
    TimesAdd(0.0, 0.0, unit);
  }

  /** A grid point above a value's floor is above the value. */
  lemma AlignedBelowFloor(a: real, value: real, unit: real)
    requires unit > 0.0 && Aligned(a, unit) && a <= value
    ensures a <= FloorToUnit(value, unit)
  {
    FloorMonotone(a, value, unit);
  }

  /** A whole number of units. */
  ghost predicate MultipleOf(value: real, unit: real) {
    exists n: int :: value == Grid(n, unit)
  }

  lemma AlignedIsMultiple(value: real, unit: real)
    requires unit > 0.0
    ensures Aligned(value, unit) <==> MultipleOf(value, unit)
  {
    if Aligned(value, unit) {
      assert value == Grid(Count(value, unit), unit);
    }
    if MultipleOf(value, unit) {
      var n: int :| value == Grid(n, unit);
      GridCount(n, unit);
    }
  }

  /** Of two grid points within one unit of each other neither is greater. */
  lemma SameMultiple(a: real, b: real, unit: real)
    requires unit > 0.0 && MultipleOf(a, unit) && MultipleOf(b, unit) && a - unit < b < a + unit
    ensures a == b
  {
    var m: int :| a == Grid(m, unit);
    var n: int :| b == Grid(n, unit);
    hide Times;
    GridAdd(m, -n, unit);
    GridAdd(n, 0, unit);
    if m < n {
      TimesMonotone(1.0, (n - m) as real, unit);
      GridAdd(n, -m, unit);
      GridAdd(m, 0, unit);
      TimesAdd(1.0, 0.0, unit);
      assert false;
    } else if n < m {
      TimesMonotone(1.0, (m - n) as real, unit);
      TimesAdd(1.0, 0.0, unit);
      assert false;
    }
  }
}
