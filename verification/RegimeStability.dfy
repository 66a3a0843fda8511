/** Run-length segments of the effective regime, and what the transition engine guarantees about them. */
module RegimeStability {
  import opened Outcomes
  import opened Contracts
  import opened Regime

  datatype Segment = Segment(regime: MarketRegime, start: Day, end: Day, duration: nat)

  datatype Stability = Stability(observations: nat, opportunities: nat, switches: nat, segments: seq<Segment>)

  method MeasureStability(results: seq<TransitionResult>) returns (r: Stability)
    requires results != []
    ensures r == Stability(|results|, |results| - 1, |Segments(results)| - 1, Segments(results))
  {
    var segments: seq<Segment> := [];
    var start, current, duration, previousDay := results[0].raw.day, results[0].final, 1, results[0].raw.day;
    for i := 1 to |results|
      invariant Segments(results[..i]) == segments + [Segment(current, start, previousDay, duration)]
    {
      assert results[..i + 1][..i] == results[..i];
      var day := results[i].raw.day;
      if results[i].final == current {
        duration := duration + 1;
      } else {
        segments := segments + [Segment(current, start, previousDay, duration)];
        start, current, duration := day, results[i].final, 1;
      }
      previousDay := day;
    }
    segments := segments + [Segment(current, start, previousDay, duration)];
    assert results[..|results|] == results;
    return Stability(|results|, |results| - 1, |segments| - 1, segments);
  }

  /** Extend the last segment or open a new one. */
  function Extend(segments: seq<Segment>, r: TransitionResult): (longer: seq<Segment>) {
    var n := |segments| - 1;
    if segments != [] && segments[n].regime == r.final then
      segments[..n] + [segments[n].(end := r.raw.day, duration := segments[n].duration + 1)]
    else
      segments + [Segment(r.final, r.raw.day, r.raw.day, 1)]
  }

  function Segments(results: seq<TransitionResult>): seq<Segment> {
    if results == [] then [] else Extend(Segments(results[..|results| - 1]), results[|results| - 1])
  }

  function Repeat(regime: MarketRegime, n: nat): seq<MarketRegime> {
    seq(n, _ => regime)
  }

  function Expand(segments: seq<Segment>): seq<MarketRegime> {
    if segments == [] then []
    else Expand(segments[..|segments| - 1]) + Repeat(segments[|segments| - 1].regime, segments[|segments| - 1].duration)
  }

  function Finals(results: seq<TransitionResult>): seq<MarketRegime> {
    seq(|results|, i requires 0 <= i < |results| => results[i].final)
  }

  function Days(segments: seq<Segment>): nat {
    if segments == [] then 0 else Days(segments[..|segments| - 1]) + segments[|segments| - 1].duration
  }

  predicate Alternating(segments: seq<Segment>) {
    forall i :: 0 < i < |segments| ==> Differ(segments, i)
  }

  predicate Differ(segments: seq<Segment>, i: nat)
    requires 0 < i < |segments|
  {
    segments[i - 1].regime != segments[i].regime
  }

  /** One result more: the expansion grows by exactly its regime, and neighbours keep differing. */
  lemma ExtendExpands(segments: seq<Segment>, r: TransitionResult)
    ensures Expand(Extend(segments, r)) == Expand(segments) + [r.final]
    ensures Alternating(segments) ==> Alternating(Extend(segments, r))
    ensures Days(Extend(segments, r)) == Days(segments) + 1
  {
    var longer := Extend(segments, r);
    var n := |longer| - 1;
    assert longer[..n] == segments[..n];
    if |longer| == |segments| {
      assert Repeat(r.final, longer[n].duration) == Repeat(r.final, segments[n].duration) + [r.final];
    } else {
      assert segments[..n] == segments;
      assert Repeat(r.final, 1) == [r.final];
    }
    if Alternating(segments) {
      forall i | 0 < i < |longer|
        ensures Differ(longer, i)
      {
        assert i < |segments| ==> Differ(segments, i);
      }
    }
  }

  /**
   * The segments are the exact run-length code of the effective sequence: they expand back, adjacent ones differ,
   * durations sum up.
   */
  lemma {:induction false} SegmentsMeaning(results: seq<TransitionResult>)
    ensures Expand(Segments(results)) == Finals(results)
    ensures Alternating(Segments(results))
    ensures Days(Segments(results)) == |results|
  {
    if results != [] {
      var n := |results| - 1;
      SegmentsMeaning(results[..n]);
      ExtendExpands(Segments(results[..n]), results[n]);
      assert Finals(results) == Finals(results[..n]) + [results[n].final];
    }
  }

  /** Segment k covers exactly the sessions after the earlier segments, with the days of its first and last one. */
  predicate Spans(results: seq<TransitionResult>, segments: seq<Segment>, k: nat)
    requires k < |segments|
  {
    var first, n := Days(segments[..k]), segments[k].duration;
    1 <= n && first + n <= |results| && segments[k].start == results[first].raw.day
      && segments[k].end == results[first + n - 1].raw.day
  }

  lemma ExtendSpans(results: seq<TransitionResult>, segments: seq<Segment>, r: TransitionResult, k: nat)
    requires k < |Extend(segments, r)| && Days(segments) == |results|
    requires forall i :: 0 <= i < |segments| ==> Spans(results, segments, i)
    ensures Spans(results + [r], Extend(segments, r), k)
  {
    var longer := Extend(segments, r);
    assert k <= |segments| && longer[..k] == segments[..k];
    if k < |segments| {
      assert Spans(results, segments, k);
      if k == |segments| - 1 {
        assert Days(segments) == Days(segments[..k]) + segments[k].duration;
      }
    } else {
      assert segments[..k] == segments;
    }
  }

  lemma {:induction false} SegmentSpans(results: seq<TransitionResult>)
    ensures forall k :: 0 <= k < |Segments(results)| ==> Spans(results, Segments(results), k)
  {
    if results != [] {
      var n := |results| - 1;
      SegmentsMeaning(results[..n]);
      SegmentSpans(results[..n]);
      assert results == results[..n] + [results[n]];
      hide Extend, Spans, Days;
      forall k | 0 <= k < |Segments(results)|
        ensures Spans(results, Segments(results), k)
      {
        ExtendSpans(results[..n], Segments(results[..n]), results[n], k);
      }
    }
  }

  function Back(regimes: seq<MarketRegime>, d: nat): MarketRegime
    requires d < |regimes|
  {
    regimes[|regimes| - 1 - d]
  }

  /** The sequence ends with exactly n copies of the regime. */
  predicate EndsWithRun(regimes: seq<MarketRegime>, regime: MarketRegime, n: nat) {
    && 1 <= n <= |regimes|
    && (forall d :: 0 <= d < n ==> Back(regimes, d) == regime)
    && (n < |regimes| ==> Back(regimes, n) != regime)
  }

  lemma LastRunUnique(regimes: seq<MarketRegime>, r: MarketRegime, n: nat, q: MarketRegime, m: nat)
    requires EndsWithRun(regimes, r, n) && EndsWithRun(regimes, q, m)
    ensures r == q && n == m
  {
    assert Back(regimes, 0) == r && Back(regimes, 0) == q;
  }

  lemma {:induction false} LastRun(segments: seq<Segment>)
    requires segments != [] && Alternating(segments) && (forall i :: 0 <= i < |segments| ==> 1 <= segments[i].duration)
    ensures EndsWithRun(Expand(segments), segments[|segments| - 1].regime, segments[|segments| - 1].duration)
  {
    var k := |segments| - 1;
    if 0 < k {
      assert Differ(segments, k);
      var e := Expand(segments[..k]);
      assert e == Expand(segments[..k][..k - 1]) + Repeat(segments[k - 1].regime, segments[k - 1].duration);
      assert Back(e, 0) == segments[k - 1].regime;
      assert Back(Expand(segments), segments[k].duration) == Back(e, 0);
    }
  }

  predicate SameShape(a: seq<Segment>, b: seq<Segment>) {
    |a| == |b| && forall i :: 0 <= i < |a| ==> a[i].regime == b[i].regime && a[i].duration == b[i].duration
  }

  /** Alternating segments of positive duration are determined by what they expand to. */
  lemma {:induction false} CodeIsUnique(a: seq<Segment>, b: seq<Segment>)
    requires Alternating(a) && (forall i :: 0 <= i < |a| ==> 1 <= a[i].duration)
    requires Alternating(b) && (forall i :: 0 <= i < |b| ==> 1 <= b[i].duration)
    requires Expand(a) == Expand(b)
    ensures SameShape(a, b)
  {
    if a != [] {
      LastRun(a);
    }
    if b != [] {
      LastRun(b);
    }
    if a != [] && b != [] {
      var m, n := |a| - 1, |b| - 1;
      LastRunUnique(Expand(a), a[m].regime, a[m].duration, b[n].regime, b[n].duration);
      var length := |Expand(a)| - a[m].duration;
      assert Expand(a)[..length] == Expand(a[..m]) && Expand(b)[..length] == Expand(b[..n]);
      AlternatingFront(a);
      AlternatingFront(b);
      CodeIsUnique(a[..m], b[..n]);
    }
  }

  lemma AlternatingFront(segments: seq<Segment>)
    requires segments != [] && Alternating(segments)
    ensures Alternating(segments[..|segments| - 1])
  {
    var front := segments[..|segments| - 1];
    forall i | 0 < i < |front|
      ensures Differ(front, i)
    {
      assert Differ(segments, i);
    }
  }

  function Confirmations(results: seq<TransitionResult>): nat {
    if results == [] then 0
    else
      Confirmations(results[..|results| - 1])
      + (if results[|results| - 1].event.action == TransitionConfirmed then 1 else 0)
  }

  predicate AllButLastAtLeast(segments: seq<Segment>, bound: nat) {
    forall i :: 0 <= i < |segments| - 1 ==> bound <= segments[i].duration
  }

  /** What the segments of a fresh run keep after every session. */
  predicate DwellInv(config: TransitionConfig, m: Memory, results: seq<TransitionResult>) {
    var segments := Segments(results);
    && segments != [] && m.current == Some(segments[|segments| - 1].regime)
    && m.count < segments[|segments| - 1].duration
    && |segments| == Confirmations(results) + 1
    && AllButLastAtLeast(segments, config.Quickest())
    && segments[|segments| - 1].end == results[|results| - 1].raw.day
  }

  lemma ExtendKeeps(segments: seq<Segment>, r: TransitionResult, bound: nat)
    requires segments != [] && AllButLastAtLeast(segments, bound)
    requires segments[|segments| - 1].regime != r.final ==> bound <= segments[|segments| - 1].duration
    ensures AllButLastAtLeast(Extend(segments, r), bound)
  {
  }

  lemma DwellStep(config: TransitionConfig, m: Memory, results: seq<TransitionResult>, x: Observation)
    requires config.Valid() && MemoryOk(m) && m.current.Some? && results != [] && DwellInv(config, m, results)
    ensures var r := Decide(config, m, x); DwellInv(config, Commit(m, x, r), results + [r])
  {
    hide Segments, AllButLastAtLeast, Confirmations;
    var r := Decide(config, m, x);
    SegmentsSnoc(results, r);
    ExtendKeeps(Segments(results), r, config.Quickest());
  }

  lemma SegmentsSnoc(results: seq<TransitionResult>, r: TransitionResult)
    ensures Segments(results + [r]) == Extend(Segments(results), r)
    ensures Confirmations(results + [r])
      == Confirmations(results) + (if r.event.action == TransitionConfirmed then 1 else 0)
  {
    assert (results + [r])[..|results|] == results;
  }

  lemma {:induction false} DwellRun(config: TransitionConfig, xs: seq<Observation>)
    requires GoodRun(config, xs) && xs != []
    ensures var (m, results) := Run(config, xs).value; results != [] && DwellInv(config, m, results)
  {
    LastStep(config, xs);
    var front, x := xs[..|xs| - 1], xs[|xs| - 1];
    if front == [] {
      var r := Decide(config, FRESH, x);
      SegmentsSnoc([], r);
      assert [] + [r] == [r];
      assert Run(config, front).value == (FRESH, []);
      assert Segments([r]) == [Segment(r.final, x.day, x.day, 1)];
      assert Confirmations([r]) == 0;
    } else {
      DwellRun(config, front);
      hide Decide, Commit, DwellInv, Run;
      DwellStep(config, Run(config, front).value.0, Run(config, front).value.1, x);
    }
  }

  /**
   * On a fresh engine's outputs switches are exactly confirmed transitions, and every finished segment lasts at least
   * the quickest confirmation.
   */
  lemma DwellTime(config: TransitionConfig, xs: seq<Observation>)
    requires GoodRun(config, xs) && xs != []
    ensures var results := Run(config, xs).value.1;
      && |Segments(results)| - 1 == Confirmations(results)
      && forall i :: 0 <= i < |Segments(results)| - 1 ==>
        || config.normalSessions <= Segments(results)[i].duration
        || config.bottomSessions <= Segments(results)[i].duration
        || (config.severeEnabled && config.severeSessions <= Segments(results)[i].duration)
  {
    DwellRun(config, xs);
  }
}
