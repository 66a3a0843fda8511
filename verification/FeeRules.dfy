/** Versioned fee rules: half-up rounding, minimum commission, and effective-dated selection. */
module FeeRules {
  import opened Outcomes
  import opened Sums
  import opened Contracts

  datatype FeeBreakdown = FeeBreakdown(
    commission: real, stampDuty: real, transferFee: real, otherFee: real, total: real)

  predicate ValidBreakdown(b: FeeBreakdown) {
    && 0.0 <= b.commission && 0.0 <= b.stampDuty && 0.0 <= b.transferFee && 0.0 <= b.otherFee
    && b.total == b.commission + b.stampDuty + b.transferFee + b.otherFee
  }

  /** Nearest multiple of the increment; ties go up (assessed values are never negative). */
  function HalfUp(value: real, increment: real): real
    requires increment > 0.0
  {
    Times((value / increment + 0.5).Floor as real, increment)
  }

  /** The result is within half an increment, and zero stays zero. */
  lemma HalfUpNearest(value: real, increment: real)
    requires increment > 0.0
    ensures -increment < 2.0 * (HalfUp(value, increment) - value) <= increment
    ensures HalfUp(0.0, increment) == 0.0
  {
    var q := value / increment;
    var n := (q + 0.5).Floor as real;
    var excess := n - q + 0.5;
    assert 0.0 < excess <= 1.0;
    TimesDivide(value, increment);
    TimesAdd(n, -q, increment);
    TimesAdd(q, 0.0, increment);
    TimesAdd(n - q, 0.5, increment);
    TimesAdd(0.5, 0.5, increment);
    TimesMonotone(0.0, excess, increment);
    TimesLe(excess, 1.0, increment);
    hide Times;
  }

  function Multiple(n: int, increment: real): real {
    Times(n as real, increment)
  }

  /** A multiple of the increment at most half of it away, above on a tie. */
  ghost predicate Nearest(rounded: real, value: real, increment: real) {
    && -increment < 2.0 * (rounded - value) <= increment
    && exists n :: rounded == Multiple(n, increment)
  }

  lemma HalfUpIsNearest(value: real, increment: real)
    requires increment > 0.0
    ensures Nearest(HalfUp(value, increment), value, increment)
  {
    HalfUpNearest(value, increment);
    var n := (value / increment + 0.5).Floor;
    assert HalfUp(value, increment) == Multiple(n, increment);
    hide Times;
  }

  lemma RateNearest(amount: real, rate: real, increment: real)
    requires increment > 0.0 && 0.0 <= amount && 0.0 <= rate
    ensures Nearest(Charge(amount, rate, 0.0, increment), Times(amount, rate), increment)
  {
    hide Nearest, HalfUp;
    TimesLe(0.0, amount, rate);
    HalfUpIsNearest(Times(amount, rate), increment);
  }

  lemma HalfUpMonotone(a: real, b: real, increment: real)
    requires increment > 0.0 && a <= b
    ensures HalfUp(a, increment) <= HalfUp(b, increment)
    ensures HalfUp(0.0, increment) == 0.0
  {
    QuotientLe(a, b, increment);
    TimesLe((a / increment + 0.5).Floor as real, (b / increment + 0.5).Floor as real, increment);
    TimesAdd(0.0, 0.0, increment);
    hide Times;
  }

  /** One rounded component: the rate applied to the amount, but never less than `floor`. */
  function Charge(amount: real, rate: real, floor: real, increment: real): real
    requires increment > 0.0
  {
    HalfUp(Max(Times(amount, rate), floor), increment)
  }

  lemma ChargeMonotone(a: real, b: real, rate: real, floor: real, increment: real)
    requires increment > 0.0 && 0.0 <= a <= b && 0.0 <= rate && 0.0 <= floor
    ensures 0.0 <= Charge(a, rate, floor, increment) <= Charge(b, rate, floor, increment)
  {
    hide Times, HalfUp;
    var p, q := Times(a, rate), Times(b, rate);
    TimesLe(a, b, rate);
    HalfUpMonotone(0.0, Max(p, floor), increment);
    HalfUpMonotone(Max(p, floor), Max(q, floor), increment);
  }

  datatype FeeRule = FeeRule(
    instrumentType: InstrumentType, side: Side, effectiveFrom: Day, version: Id,
    commissionRate: real, minimumCommission: real, stampDutyRate: real, transferFeeRate: real,
    otherFeeRate: real, increment: real)
  {
    predicate Valid() {
      && 0.0 <= commissionRate <= 1.0 && 0.0 <= stampDutyRate <= 1.0
      && 0.0 <= transferFeeRate <= 1.0 && 0.0 <= otherFeeRate <= 1.0
      && 0.0 <= minimumCommission && 0.0 < increment
    }

    // A rate never makes a component negative, so only the commission needs its floor.
    function Fee(amount: real): FeeBreakdown
      requires increment > 0.0
    {
      var commission := Charge(amount, commissionRate, minimumCommission, increment);
      var stampDuty := Charge(amount, stampDutyRate, 0.0, increment);
      var transferFee := Charge(amount, transferFeeRate, 0.0, increment);
      var otherFee := Charge(amount, otherFeeRate, 0.0, increment);
      FeeBreakdown(commission, stampDuty, transferFee, otherFee,
        commission + stampDuty + transferFee + otherFee)
    }

    /** `assess` raises on a non-positive amount; the breakdown it builds must pass its own validator. */
    function Assess(amount: real): Result<FeeBreakdown>
      requires increment > 0.0
    {
      if amount <= 0.0 then Err(InvalidInput) else
      var b := Fee(amount);
      :- Need(ValidBreakdown(b), InvalidInput);
      Ok(b)
    }

    /** Assessment succeeds exactly on positive amounts: the breakdown validator never fires. */
    lemma AssessTotal(amount: real)
      requires Valid()
      ensures Assess(amount).Ok? <==> 0.0 < amount
      ensures 0.0 < amount ==> Assess(amount).value == Fee(amount)
      ensures 0.0 <= amount ==> ValidBreakdown(Fee(amount))
    {
      if 0.0 <= amount {
        ChargeMonotone(amount, amount, commissionRate, minimumCommission, increment);
        ChargeMonotone(amount, amount, stampDutyRate, 0.0, increment);
        ChargeMonotone(amount, amount, transferFeeRate, 0.0, increment);
        ChargeMonotone(amount, amount, otherFeeRate, 0.0, increment);
        assert ValidBreakdown(Fee(amount));
      }
    }

    /**
     * Each component is its own rate of the amount, commission not below its minimum, rounded to the nearest increment.
     */
    lemma FeeComponents(amount: real)
      requires Valid() && 0.0 <= amount
      ensures var f := Fee(amount);
        && Nearest(f.commission, Max(Times(amount, commissionRate), minimumCommission), increment)
        && Nearest(f.stampDuty, Times(amount, stampDutyRate), increment)
        && Nearest(f.transferFee, Times(amount, transferFeeRate), increment)
        && Nearest(f.otherFee, Times(amount, otherFeeRate), increment)
        && f.total == f.commission + f.stampDuty + f.transferFee + f.otherFee
    {
      hide Times, Nearest, HalfUp;
      HalfUpIsNearest(Max(Times(amount, commissionRate), minimumCommission), increment);
      RateNearest(amount, stampDutyRate, increment);
      RateNearest(amount, transferFeeRate, increment);
      RateNearest(amount, otherFeeRate, increment);
    }

    /** A larger trade never costs less in fees, rounding and minimum commission included. */
    lemma FeeMonotone(a: real, b: real)
      requires Valid() && 0.0 <= a <= b
      ensures Fee(a).total <= Fee(b).total
    {
      ChargeMonotone(a, b, commissionRate, minimumCommission, increment);
      ChargeMonotone(a, b, stampDutyRate, 0.0, increment);
      ChargeMonotone(a, b, transferFeeRate, 0.0, increment);
      ChargeMonotone(a, b, otherFeeRate, 0.0, increment);
    }
  }

  predicate Clash(a: FeeRule, b: FeeRule) {
    && a.instrumentType == b.instrumentType && a.side == b.side
    && (a.effectiveFrom == b.effectiveFrom || a.version == b.version)
  }

  /** What the rule-book constructor enforces. */
  predicate ValidBook(rules: seq<FeeRule>) {
    && (forall i :: 0 <= i < |rules| ==> rules[i].Valid())
    && (forall i, j :: 0 <= i < j < |rules| ==> !Clash(rules[i], rules[j]))
  }

  /** The constructor's loop over rules already accepted by their own validators. */
  method CheckBook(rules: seq<FeeRule>) returns (r: Outcome)
    requires forall i :: 0 <= i < |rules| ==> rules[i].Valid()
    ensures r.Pass? <==> ValidBook(rules)
    ensures r.Pass? <==> forall i, j :: (
      0 <= i < j < |rules| && rules[i].instrumentType == rules[j].instrumentType && rules[i].side == rules[j].side ==>
        rules[i].effectiveFrom != rules[j].effectiveFrom && rules[i].version != rules[j].version)
  {
    var identities: set<(InstrumentType, Side, Day)> := {};
    var versions: set<(InstrumentType, Side, Id)> := {};
    for n := 0 to |rules|
      invariant identities == set i | 0 <= i < n :: (rules[i].instrumentType, rules[i].side, rules[i].effectiveFrom)
      invariant versions == set i | 0 <= i < n :: (rules[i].instrumentType, rules[i].side, rules[i].version)
      invariant ValidBook(rules[..n])
    {
      var rule := rules[n];
      var identity := (rule.instrumentType, rule.side, rule.effectiveFrom);
      var versionIdentity := (rule.instrumentType, rule.side, rule.version);
      if identity in identities || versionIdentity in versions {
        var i :| 0 <= i < n && Clash(rules[i], rule);
        return Fail(InvalidInput);
      }
      identities := identities + {identity};
      versions := versions + {versionIdentity};
      assert rules[..n + 1] == rules[..n] + [rule];
    }
    assert rules[..|rules|] == rules;
    return Pass;
  }

  predicate Candidate(rule: FeeRule, kind: InstrumentType, side: Side, day: Day, version: Option<Id>) {
    && rule.instrumentType == kind && rule.side == side && rule.effectiveFrom <= day
    && (version.None? || rule.version == version.value)
  }

  /** The first candidate with the greatest effective date. */
  function Select(rules: seq<FeeRule>, kind: InstrumentType, side: Side, day: Day,
      version: Option<Id>): Option<FeeRule> {
    if rules == [] then None
    else
      var best := Select(rules[..|rules| - 1], kind, side, day, version);
      var rule := rules[|rules| - 1];
      if Candidate(rule, kind, side, day, version) && (best.None? || best.value.effectiveFrom < rule.effectiveFrom)
      then Some(rule) else best
  }

  /** Selection is exact: on a valid book it returns the only latest candidate, and fails only without one. */
  lemma {:induction false} SelectLatest(rules: seq<FeeRule>, kind: InstrumentType, side: Side, day: Day,
      version: Option<Id>)
    ensures var r := Select(rules, kind, side, day, version);
      && (r.None? <==> forall i :: 0 <= i < |rules| ==> !Candidate(rules[i], kind, side, day, version))
      && (r.Some? ==> (r.value in rules && Candidate(r.value, kind, side, day, version)))
      && (r.Some? ==> (forall i :: 0 <= i < |rules| && Candidate(rules[i], kind, side, day, version) ==>
            rules[i].effectiveFrom <= r.value.effectiveFrom))
    ensures match Select(rules, kind, side, day, version)
      case Some(rule) =>
        && rule.instrumentType == kind && rule.side == side && rule.effectiveFrom <= day
        && (version.Some? ==> rule.version == version.value)
      case None =>
        forall i :: 0 <= i < |rules| && rules[i].instrumentType == kind && rules[i].side == side ==>
          day < rules[i].effectiveFrom || (version.Some? && rules[i].version != version.value)
  {
    if rules != [] {
      var n := |rules| - 1;
      var front := rules[..n];
      SelectLatest(front, kind, side, day, version);
      assert forall i :: 0 <= i < n ==> rules[i] == front[i];
    }
  }

  /** On a valid book the latest candidate is unique, so the order of the rules is irrelevant. */
  lemma SelectUnique(rules: seq<FeeRule>, kind: InstrumentType, side: Side, day: Day, version: Option<Id>, i: nat)
    requires ValidBook(rules) && i < |rules| && Candidate(rules[i], kind, side, day, version)
    requires forall j :: 0 <= j < |rules| && Candidate(rules[j], kind, side, day, version) ==>
      rules[j].effectiveFrom <= rules[i].effectiveFrom
    ensures Select(rules, kind, side, day, version) == Some(rules[i])
  {
    SelectLatest(rules, kind, side, day, version);
    var r := Select(rules, kind, side, day, version).value;
    var k :| 0 <= k < |rules| && rules[k] == r;
    if i < k {
      assert Clash(rules[i], rules[k]);
      assert false;
    } else if k < i {
      assert Clash(rules[k], rules[i]);
      assert false;
    }
  }
}
