/** Debounced market regime: one transition decision per observed session. */
module Regime {
  import opened Outcomes
  import opened Contracts

  datatype MarketRegime = Uptrend | RangeStrong | Divergent | Downtrend | BottomRecovery

  datatype Action =
    | Initialized
    | Stable
    | CandidateStarted
    | CandidateAdvanced
    | CandidateRejected
    | CandidateCancelled
    | TransitionConfirmed

  datatype TransitionConfig = TransitionConfig(
    normalSessions: nat,
    bottomSessions: nat,
    minimumConfidence: real,
    severeEnabled: bool,
    severeScoreMax: real,
    severeMinimumConfidence: real,
    severeSessions: nat
  ) {
    /** The constructor's checks. */
    predicate Valid() {
      && 1 <= severeSessions <= normalSessions
      && 1 <= bottomSessions
      && 0.0 <= minimumConfidence <= severeMinimumConfidence <= 1.0
      && 0.0 <= severeScoreMax <= 100.0
    }

    predicate Severe(x: Observation) {
      severeEnabled && x.regime == Downtrend && x.score <= severeScoreMax && severeMinimumConfidence <= x.confidence
    }

    function Required(x: Observation): nat {
      if Severe(x) then severeSessions else if x.regime == BottomRecovery then bottomSessions else normalSessions
    }

    /** The shortest confirmation any observation can need. */
    function Quickest(): nat {
      var fast := if severeEnabled then severeSessions else normalSessions;
      if bottomSessions < fast then bottomSessions else fast
    }
  }

  datatype Observation = Observation(
    day: Day,
    regime: MarketRegime,
    score: real,
    confidence: real,
    identity: Id,
    evidence: seq<Id>
  ) {
    /** What the classifier's own result type guarantees. */
    predicate Valid() {
      0.0 <= score <= 100.0 && 0.0 <= confidence <= 1.0 && evidence != []
    }
  }

  datatype TransitionEvent = TransitionEvent(
    source: Observation,
    previous: Option<MarketRegime>,
    final: MarketRegime,
    action: Action,
    candidate: Option<MarketRegime>,
    count: int,
    required: Option<int>
  ) {
    predicate Valid() {
      && 0 <= count
      && (required.Some? ==> 1 <= required.value && candidate.Some?)
      && source.Valid()
    }
  }

  datatype TransitionResult = TransitionResult(
    raw: Observation,
    final: MarketRegime,
    pending: Option<MarketRegime>,
    count: int,
    required: Option<int>,
    event: TransitionEvent
  ) {
    predicate Valid() {
      && event.source == raw && event.final == final && 0 <= count
      && (if pending.None?
        then count == 0 && required.None? else 1 <= count && required.Some? && count < required.value)
    }
  }

  datatype Memory = Memory(
    identity: Option<Id>,
    lastDay: Option<Day>,
    current: Option<MarketRegime>,
    pending: Option<MarketRegime>,
    count: int,
    required: Option<int>,
    events: seq<TransitionEvent>
  )

  const FRESH := Memory(None, None, None, None, 0, None, [])

  /** The regime part of one step: the new effective state, the new pending fields, and what the event records. */
  function Decide(config: TransitionConfig, m: Memory, x: Observation): TransitionResult {
    if m.current.None? then
      TransitionResult(x, x.regime, None, 0, None, TransitionEvent(x, None, x.regime, Initialized, None, 0, None))
    else
      var previous := m.current.value;
      if x.regime == previous then
        TransitionResult(x, previous, None, 0, None,
          if m.pending.None? then TransitionEvent(x, m.current, previous, Stable, None, 0, None)
          else TransitionEvent(x, m.current, previous, CandidateCancelled, m.pending, m.count, m.required))
      else
        var required := config.Required(x);
        var same := m.pending == Some(x.regime);
        var count := if same then m.count + 1 else 1;
        if x.confidence < config.minimumConfidence then
          TransitionResult(x, previous, None, 0, None,
            TransitionEvent(x, m.current, previous, CandidateRejected, Some(x.regime), 0, Some(required)))
        else if required <= count then
          TransitionResult(x, x.regime, None, 0, None,
            TransitionEvent(x, m.current, x.regime, TransitionConfirmed, Some(x.regime), count, Some(required)))
        else
          TransitionResult(x, previous, Some(x.regime), count, Some(required),
            TransitionEvent(x, m.current, previous, if same then CandidateAdvanced else CandidateStarted,
              Some(x.regime), count, Some(required)))
  }

  function Commit(m: Memory, x: Observation, r: TransitionResult): Memory {
    Memory(Some(if m.identity.Some? then m.identity.value else x.identity), Some(x.day), Some(r.final), r.pending,
      r.count, r.required,
           m.events + [r.event])
  }

  predicate Aligned(m: Memory, x: Observation) {
    (m.lastDay.Some? ==> m.lastDay.value < x.day) && (m.identity.Some? ==> m.identity.value == x.identity)
  }

  function Step(config: TransitionConfig, m: Memory, x: Observation): Result<TransitionResult> {
    var r := Decide(config, m, x);
    if !Aligned(m, x) then Err(InputMismatch)
    else if !r.event.Valid() || !r.Valid() then Err(InvalidInput)
    else Ok(r)
  }

  /** The memory and outputs after a sequence of observations. */
  function RunFrom(config: TransitionConfig, m: Memory, xs: seq<Observation>): Result<(Memory, seq<TransitionResult>)> {
    if xs == [] then Ok((m, []))
    else
      var last := xs[|xs| - 1];
      var before :- RunFrom(config, m, xs[..|xs| - 1]);
      var r :- Step(config, before.0, last);
      Ok((Commit(before.0, last, r), before.1 + [r]))
  }

  /** A run of a fresh engine. */
  function Run(config: TransitionConfig, xs: seq<Observation>): Result<(Memory, seq<TransitionResult>)> {
    RunFrom(config, FRESH, xs)
  }

  predicate MemoryOk(m: Memory) {
    && (m.current.None? ==> m == FRESH)
    && (m.pending.None? <==> m.required.None?)
    && (m.pending.None? ==> m.count == 0)
    && (m.pending.Some? ==> 1 <= m.count < m.required.value && m.current.Some? && m.pending.value != m.current.value)
  }

  /** The result and event validators never refuse what a step builds: only order and identity do. */
  lemma StepAccepted(config: TransitionConfig, m: Memory, x: Observation)
    requires config.Valid() && MemoryOk(m) && x.Valid()
    ensures Step(config, m, x) == if Aligned(m, x) then Ok(Decide(config, m, x)) else Err(InputMismatch)
    ensures MemoryOk(Commit(m, x, Decide(config, m, x)))
  {
  }

  /** Chronological, with one identity. */
  predicate Chronological(xs: seq<Observation>) {
    forall i :: 0 < i < |xs| ==> Follows(xs, i)
  }

  predicate Follows(xs: seq<Observation>, i: nat)
    requires 0 < i < |xs|
  {
    xs[i - 1].day < xs[i].day && xs[i].identity == xs[0].identity
  }

  predicate ValidAll(xs: seq<Observation>) {
    forall i :: 0 <= i < |xs| ==> xs[i].Valid()
  }

  lemma {:induction false} RunShape(config: TransitionConfig, xs: seq<Observation>)
    requires config.Valid() && ValidAll(xs) && Run(config, xs).Ok?
    ensures MemoryOk(Run(config, xs).value.0) && |Run(config, xs).value.1| == |xs|
    ensures xs == [] ==> Run(config, xs).value.0 == FRESH
    ensures xs != [] ==> var m := Run(config, xs).value.0;
      m.current.Some? && m.lastDay == Some(xs[|xs| - 1].day) && m.identity == Some(xs[0].identity)
  {
    if xs != [] {
      var n := |xs| - 1;
      var front := xs[..n];
      RunShape(config, front);
      hide Decide, MemoryOk;
      StepAccepted(config, Run(config, front).value.0, xs[n]);
    }
  }

  lemma ChronologicalLast(xs: seq<Observation>)
    requires xs != []
    ensures var n := |xs| - 1;
      Chronological(xs) <==> Chronological(xs[..n]) && (0 < n ==> Follows(xs, n))
  {
    var n := |xs| - 1;
    forall i | 0 < i < n
      ensures Follows(xs[..n], i) == Follows(xs, i)
    {
    }
    if Chronological(xs[..n]) && (0 < n ==> Follows(xs, n)) {
      forall i | 0 < i < |xs|
        ensures Follows(xs, i)
      {
        assert i < n ==> Follows(xs[..n], i);
      }
    }
  }

  /** A run succeeds exactly on chronological single-identity input. */
  lemma {:induction false} RunAccepted(config: TransitionConfig, xs: seq<Observation>)
    requires config.Valid() && ValidAll(xs)
    ensures Run(config, xs).Ok? <==> Chronological(xs)
  {
    if xs != [] {
      var n := |xs| - 1;
      var front := xs[..n];
      RunAccepted(config, front);
      ChronologicalLast(xs);
      if Run(config, front).Ok? {
        hide Decide, MemoryOk, Chronological;
        RunShape(config, front);
        StepAccepted(config, Run(config, front).value.0, xs[n]);
      }
    }
  }

  predicate Qualifies(config: TransitionConfig, x: Observation, regime: MarketRegime) {
    x.regime == regime && config.minimumConfidence <= x.confidence
  }

  /** The length of the longest suffix of qualifying observations of a regime. */
  function Streak(config: TransitionConfig, xs: seq<Observation>, regime: MarketRegime): nat {
    if xs == [] || !Qualifies(config, xs[|xs| - 1], regime) then 0
    else 1 + Streak(config, xs[..|xs| - 1], regime)
  }

  lemma {:induction false} StreakIsLongest(config: TransitionConfig, xs: seq<Observation>, regime: MarketRegime, n: nat)
    requires n <= |xs|
    ensures n <= Streak(config, xs, regime) <==> forall i :: |xs| - n <= i < |xs| ==> Qualifies(config, xs[i], regime)
    ensures Streak(config, xs, regime) <= |xs|
  {
    if xs != [] {
      var front := xs[..|xs| - 1];
      StreakIsLongest(config, front, regime, if n == 0 then 0 else n - 1);
      if 0 < n && Streak(config, xs, regime) < n && Qualifies(config, xs[|xs| - 1], regime) {
        assert exists i :: |xs| - n <= i < |front| && !Qualifies(config, front[i], regime);
      }
    }
  }

  predicate GoodRun(config: TransitionConfig, xs: seq<Observation>) {
    config.Valid() && ValidAll(xs) && Run(config, xs).Ok?
  }

  lemma LastStep(config: TransitionConfig, xs: seq<Observation>)
    requires GoodRun(config, xs) && xs != []
    ensures var front, x := xs[..|xs| - 1], xs[|xs| - 1];
      && GoodRun(config, front) && MemoryOk(Run(config, front).value.0) && x.Valid()
      && |Run(config, front).value.1| == |front| && |Run(config, xs).value.1| == |xs|
      && var m := Run(config, front).value.0;
      && (front != [] <==> m.current.Some?)
      && Run(config, xs).value.0 == Commit(m, x, Decide(config, m, x))
      && Run(config, xs).value.1 == Run(config, front).value.1 + [Decide(config, m, x)]
  {
    hide Decide, Commit;
    var front := xs[..|xs| - 1];
    RunShape(config, front);
    RunShape(config, xs);
    StepAccepted(config, Run(config, front).value.0, xs[|xs| - 1]);
  }

  /** The effective regime after a non-empty run. */
  function Effective(config: TransitionConfig, xs: seq<Observation>): MarketRegime
    requires GoodRun(config, xs) && xs != []
  {
    RunShape(config, xs);
    Run(config, xs).value.0.current.value
  }

  /**
   * So many consecutive sessions confirm a change on this one: the severe count for a severe downtrend, the bottom
   * count for a bottom recovery, the normal count for everything else.
   */
  predicate Suffices(config: TransitionConfig, x: Observation, sessions: int) {
    if config.severeEnabled && x.regime == Downtrend && x.score <= config.severeScoreMax
      && config.severeMinimumConfidence <= x.confidence
    then config.severeSessions <= sessions
    else if x.regime == BottomRecovery then config.bottomSessions <= sessions
    else config.normalSessions <= sessions
  }

  /** Closed form of the pending state: it depends only on the effective regime and the longest qualifying suffix. */
  lemma {:induction false} PendingMeaning(config: TransitionConfig, xs: seq<Observation>)
    requires GoodRun(config, xs) && xs != []
    ensures var m, last := Run(config, xs).value.0, xs[|xs| - 1];
      if m.current == Some(last.regime) || last.confidence < config.minimumConfidence then
        m.pending == None && m.count == 0 && m.required == None
      else
        && m.pending == Some(last.regime) && m.count == Streak(config, xs, last.regime)
        && m.required.Some? && m.count < m.required.value
        && forall n :: Suffices(config, last, n) <==> m.required.value <= n
  {
    LastStep(config, xs);
    var front := xs[..|xs| - 1];
    if front != [] {
      PendingMeaning(config, front);
    }
  }

  /** The effective regime changes exactly when the raw regime's qualifying suffix reaches its required length. */
  lemma ChangeMeaning(config: TransitionConfig, xs: seq<Observation>)
    requires GoodRun(config, xs) && 2 <= |xs|
    ensures var front, last := xs[..|xs| - 1], xs[|xs| - 1];
      && GoodRun(config, front)
      && var before, after := Effective(config, front), Effective(config, xs);
      && (after != before <==> last.regime != before && Suffices(config, last, Streak(config, xs, last.regime)))
      && (after != before ==> after == last.regime)
      && |Run(config, xs).value.1| == |xs|
      && (after != before <==> Run(config, xs).value.1[|xs| - 1].event.action == TransitionConfirmed)
  {
    var front := xs[..|xs| - 1];
    LastStep(config, xs);
    PendingMeaning(config, front);
    StreakOther(config, front, xs[|xs| - 1].regime);
  }

  /** A regime other than the last raw one has no qualifying suffix. */
  lemma StreakOther(config: TransitionConfig, xs: seq<Observation>, regime: MarketRegime)
    requires xs != []
    ensures !Qualifies(config, xs[|xs| - 1], regime) ==> Streak(config, xs, regime) == 0
  {
  }

  /**
   * What the last session of a run records, in closed form. With the effective regime before it and the qualifying
   * suffix of the raw regime, the action, the candidate, its count and its required count are determined.
   */
  lemma EventMeaning(config: TransitionConfig, xs: seq<Observation>)
    requires GoodRun(config, xs) && 2 <= |xs|
    ensures var front, last, earlier := xs[..|xs| - 1], xs[|xs| - 1], xs[|xs| - 2];
      && GoodRun(config, front) && |Run(config, xs).value.1| == |xs|
      && var before, e := Effective(config, front), Run(config, xs).value.1[|xs| - 1].event;
      var streak := Streak(config, xs, last.regime);
      && e.source == last && e.previous == Some(before) && e.final == Effective(config, xs)
      && e.action == (
           if last.regime == before then
             if earlier.regime == before || earlier.confidence < config.minimumConfidence then Stable
             else CandidateCancelled
           else if last.confidence < config.minimumConfidence then CandidateRejected
           else if Suffices(config, last, streak) then TransitionConfirmed
           else if streak == 1 then CandidateStarted
           else CandidateAdvanced)
      && e.candidate == (
           if e.action == Stable then None
           else if e.action == CandidateCancelled then Some(earlier.regime)
           else Some(last.regime))
      && e.count == (
           if e.action == Stable || e.action == CandidateRejected then 0
           else if e.action == CandidateCancelled then Streak(config, front, earlier.regime)
           else streak)
      && (e.required.None? <==> e.action == Stable)
      && var asked := if e.action == CandidateCancelled then earlier else last;
      e.required.Some? ==> forall n :: Suffices(config, asked, n) <==> e.required.value <= n
  {
    var front := xs[..|xs| - 1];
    LastStep(config, xs);
    PendingMeaning(config, front);
    StreakOther(config, front, xs[|xs| - 1].regime);
    RequiredSuffices(config, xs[|xs| - 1]);
    hide TransitionConfig.Required;
  }

  lemma RequiredSuffices(config: TransitionConfig, x: Observation)
    ensures forall n :: Suffices(config, x, n) <==> config.Required(x) <= n
  {
  }

  /**
   * When a streak changes the regime. Take the whole qualifying suffix of a regime that was not effective before it:
   * the regime is effective at the end exactly when some session of the suffix found enough sessions behind it.
   */
  lemma {:induction false} ConfirmedExactly(config: TransitionConfig, xs: seq<Observation>, regime: MarketRegime,
      start: nat)
    requires GoodRun(config, xs) && 1 <= start <= |xs| && Streak(config, xs, regime) == |xs| - start
    requires GoodRun(config, xs[..start]) && Effective(config, xs[..start]) != regime
    ensures Effective(config, xs) == regime <==>
      exists i :: start <= i < |xs| && Suffices(config, xs[i], i + 1 - start)
    decreases |xs|
  {
    if start == |xs| {
      assert xs[..start] == xs;
    } else {
      var front := xs[..|xs| - 1];
      assert front[..start] == xs[..start];
      LastStep(config, xs);
      hide Decide, Commit, Suffices;
      ConfirmedExactly(config, front, regime, start);
      ChangeOrNot(config, xs);
      assert forall i :: start <= i < |front| ==> front[i] == xs[i];
    }
  }

  lemma ChangeOrNot(config: TransitionConfig, xs: seq<Observation>)
    requires GoodRun(config, xs) && 2 <= |xs|
    ensures var front, last := xs[..|xs| - 1], xs[|xs| - 1];
      && GoodRun(config, front)
      && Effective(config, xs)
        == if Suffices(config, last, Streak(config, xs, last.regime)) && Qualifies(config, last, last.regime)
           then last.regime
           else Effective(config, front)
  {
    ChangeMeaning(config, xs);
    if !Qualifies(config, xs[|xs| - 1], xs[|xs| - 1].regime) {
      StreakOther(config, xs, xs[|xs| - 1].regime);
    }
  }

  /** No session of the suffix is a downtrend that qualifies for the accelerated count. */
  predicate NoneSevere(config: TransitionConfig, xs: seq<Observation>, start: nat) {
    forall i :: start <= i < |xs| && xs[i].regime == Downtrend ==>
      !config.severeEnabled || config.severeScoreMax < xs[i].score || xs[i].confidence < config.severeMinimumConfidence
  }

  /** Without severe sessions a regime becomes effective exactly when its suffix reaches the count of its class. */
  lemma ClassConverges(config: TransitionConfig, xs: seq<Observation>, regime: MarketRegime, start: nat)
    requires GoodRun(config, xs) && 1 <= start <= |xs| && Streak(config, xs, regime) == |xs| - start
    requires GoodRun(config, xs[..start]) && Effective(config, xs[..start]) != regime && NoneSevere(config, xs, start)
    ensures Effective(config, xs) == regime <==>
      start < |xs|
        && (if regime == BottomRecovery then config.bottomSessions else config.normalSessions) <= |xs| - start
  {
    ConfirmedExactly(config, xs, regime, start);
    StreakIsLongest(config, xs, regime, |xs| - start);
    hide GoodRun, Effective;
    if start < |xs| {
      assert Suffices(config, xs[|xs| - 1], |xs| - start) <==>
        (if regime == BottomRecovery then config.bottomSessions else config.normalSessions) <= |xs| - start;
    }
  }

  /** Whatever came before, severe or not, the count of its class is enough to make a regime effective. */
  lemma Converges(config: TransitionConfig, xs: seq<Observation>, regime: MarketRegime)
    requires GoodRun(config, xs) && xs != []
    requires regime == BottomRecovery ==> config.bottomSessions <= Streak(config, xs, regime)
    requires regime != BottomRecovery ==> config.normalSessions <= Streak(config, xs, regime)
    ensures Effective(config, xs) == regime && Run(config, xs).value.0.pending == None
  {
    LastStep(config, xs);
    PendingMeaning(config, xs);
    if 2 <= |xs| {
      ChangeMeaning(config, xs);
    }
  }

  /** Nothing shorter than the quickest confirmation ever changes the effective regime. */
  lemma NeverTooQuick(config: TransitionConfig, xs: seq<Observation>)
    requires GoodRun(config, xs) && 2 <= |xs|
    ensures GoodRun(config, xs[..|xs| - 1])
    ensures Effective(config, xs) != Effective(config, xs[..|xs| - 1]) ==>
      var streak := Streak(config, xs, Effective(config, xs));
      || config.normalSessions <= streak || config.bottomSessions <= streak
      || (config.severeEnabled && config.severeSessions <= streak)
  {
    ChangeMeaning(config, xs);
  }

  class RegimeTransitionEngine {
    const config: TransitionConfig
    var sequenceIdentity: Option<Id>
    var lastDay: Option<Day>
    var current: Option<MarketRegime>
    var pending: Option<MarketRegime>
    var pendingCount: int
    var pendingRequired: Option<int>
    var events: seq<TransitionEvent>

    function Snapshot(): Memory
      reads this
    {
      Memory(sequenceIdentity, lastDay, current, pending, pendingCount, pendingRequired, events)
    }

    constructor (config: TransitionConfig)
      ensures this.config == config && Snapshot() == FRESH
    {
      this.config := config;
      sequenceIdentity, lastDay, current, pending, pendingCount, pendingRequired, events :=
        None, None, None, None, 0, None, [];
    }

    /** What one session decides, before anything is stored. */
    method Choose(x: Observation) returns (output: TransitionResult)
      ensures output == Decide(config, Snapshot(), x)
    {
      var final := x.regime;
      var candidate: Option<MarketRegime>, count, required: Option<int> := None, 0, None;
      var action, eventCandidate: Option<MarketRegime>, eventCount, eventRequired: Option<int> :=
        Initialized, None, 0, None;
      if current.Some? {
        var previous := current.value;
        if x.regime == previous {
          if pending.None? {
            action := Stable;
          } else {
            action, eventCandidate, eventCount, eventRequired :=
              CandidateCancelled, pending, pendingCount, pendingRequired;
          }
        } else {
          var needed := config.Required(x);
          eventCandidate, eventRequired := Some(x.regime), Some(needed);
          if x.confidence < config.minimumConfidence {
            final, action := previous, CandidateRejected;
          } else {
            var same := pending == Some(x.regime);
            eventCount := if same then pendingCount + 1 else 1;
            if eventCount >= needed {
              action := TransitionConfirmed;
            } else {
              final, candidate, count, required := previous, Some(x.regime), eventCount, Some(needed);
              action := if same then CandidateAdvanced else CandidateStarted;
            }
          }
        }
      }
      var event := TransitionEvent(x, current, final, action, eventCandidate, eventCount, eventRequired);
      return TransitionResult(x, final, candidate, count, required, event);
    }

    method Process(x: Observation) returns (r: Result<TransitionResult>)
      modifies this
      ensures r == Step(config, old(Snapshot()), x)
      ensures Snapshot() == if r.Ok? then Commit(old(Snapshot()), x, r.value) else old(Snapshot())
    {
      hide Decide, TransitionEvent.Valid, TransitionResult.Valid;
      if (lastDay.Some? && x.day <= lastDay.value) || (sequenceIdentity.Some? && x.identity != sequenceIdentity.value) {
        return Err(InputMismatch);
      }
      var output := Choose(x);
      if !output.event.Valid() || !output.Valid() {
        return Err(InvalidInput);
      }
      sequenceIdentity := Some(if sequenceIdentity.Some? then sequenceIdentity.value else x.identity);
      lastDay, current, pending := Some(x.day), Some(output.final), output.pending;
      pendingCount, pendingRequired := output.count, output.required;
      events := events + [output.event];
      return Ok(output);
    }

    /** Everything processed before a mismatch stays processed; the outputs are delivered only if all are accepted. */
    method ProcessAll(xs: seq<Observation>) returns (r: Result<seq<TransitionResult>>)
      modifies this
      ensures r.Ok? ==> RunFrom(config, old(Snapshot()), xs) == Ok((Snapshot(), r.value))
      ensures r.Err? ==> RunFrom(config, old(Snapshot()), xs) == Err(r.error)
      ensures r.Err? ==> exists n :: 0 <= n < |xs| && CommittedUpTo(config, old(Snapshot()), xs, n, Snapshot())
    {
      var outputs: seq<TransitionResult> := [];
      for i := 0 to |xs|
        invariant RunFrom(config, old(Snapshot()), xs[..i]) == Ok((Snapshot(), outputs))
      {
        assert xs[..i + 1][..i] == xs[..i];
        var output := Process(xs[i]);
        if output.Err? {
          RunFailure(config, old(Snapshot()), xs, i + 1, output.error);
          assert CommittedUpTo(config, old(Snapshot()), xs, i, Snapshot());
          return Err(output.error);
        }
        outputs := outputs + [output.value];
      }
      assert xs[..|xs|] == xs;
      return Ok(outputs);
    }
  }

  /** Exactly the observations before index n were accepted and the next one was refused. */
  predicate CommittedUpTo(config: TransitionConfig, before: Memory, xs: seq<Observation>, n: nat, after: Memory)
    requires n < |xs|
  {
    && RunFrom(config, before, xs[..n]).Ok? && RunFrom(config, before, xs[..n]).value.0 == after
    && Step(config, after, xs[n]).Err?
  }

  lemma {:induction false} RunFailure(config: TransitionConfig, m: Memory, xs: seq<Observation>, n: nat,
      error: EngineError)
    requires n <= |xs| && RunFrom(config, m, xs[..n]) == Err(error)
    ensures RunFrom(config, m, xs) == Err(error)
    decreases |xs| - n
  {
    if n < |xs| {
      assert xs[..n + 1][..n] == xs[..n];
      RunFailure(config, m, xs, n + 1, error);
    } else {
      assert xs[..n] == xs;
    }
  }
}
