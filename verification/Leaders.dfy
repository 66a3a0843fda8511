/** Mid-rank leadership scores within a theme, and capped risk penalties. */
module Leaders {
  import opened Contracts
  import opened Sums

  datatype Entry = Entry(id: Id, theme: Id, value: real)

  function Below(values: seq<real>, v: real): nat {
    if values == [] then 0
    else Below(values[..|values| - 1], v) + (if values[|values| - 1] < v then 1 else 0)
  }

  function Ties(values: seq<real>, v: real): nat {
    if values == [] then 0
    else Ties(values[..|values| - 1], v) + (if values[|values| - 1] == v then 1 else 0)
  }

  /** Percentage of the other members ranked below, ties counted half; a lone member scores nothing. */
  function Score(values: seq<real>, v: real): real {
    if |values| == 1 then 0.0
    else Over(100.0 * (Below(values, v) as real + (Ties(values, v) - 1) as real / 2.0), (|values| - 1) as real)
  }

  /** The values of one theme, in input order. */
  function ThemeValues(entries: seq<Entry>, theme: Id): seq<real> {
    if entries == [] then []
    else
      var last := entries[|entries| - 1];
      ThemeValues(entries[..|entries| - 1], theme) + (if last.theme == theme then [last.value] else [])
  }

  // ---------------------------------------------------------------- conservation

  /** Two for each smaller value, one for each equal one. */
  function Weight(values: seq<real>, v: real): nat {
    2 * Below(values, v) + Ties(values, v)
  }

  /** Two for each larger value, one for each equal one. */
  function Complement(values: seq<real>, v: real): nat {
    if values == [] then 0
    else
      var w := values[|values| - 1];
      Complement(values[..|values| - 1], v) + (if v < w then 2 else if v == w then 1 else 0)
  }

  function Cross(over: seq<real>, values: seq<real>): nat {
    if over == [] then 0 else Cross(over[..|over| - 1], values) + Weight(values, over[|over| - 1])
  }

  lemma {:induction false} WeightComplement(values: seq<real>, v: real)
    ensures Weight(values, v) + Complement(values, v) == 2 * |values|
  {
    if values != [] {
      WeightComplement(values[..|values| - 1], v);
    }
  }

  lemma {:induction false} CrossRight(over: seq<real>, values: seq<real>, v: real)
    ensures Cross(over, values + [v]) == Cross(over, values) + Complement(over, v)
  {
    if over != [] {
      CrossRight(over[..|over| - 1], values, v);
      assert (values + [v])[..|values|] == values;
    }
  }

  lemma {:induction false} CrossSymmetric(a: seq<real>, b: seq<real>)
    ensures Cross(a, b) + Cross(b, a) == 2 * (|a| * |b|)
  {
    if a == [] {
      CrossNothing(b);
    } else {
      var n := |a| - 1;
      CrossSymmetric(a[..n], b);
      assert a == a[..n] + [a[n]];
      CrossRight(b, a[..n], a[n]);
      WeightComplement(b, a[n]);
      CrossLeft(a, b);
      hide Cross, Weight, Complement;
      assert |a| * |b| == n * |b| + |b|;
    }
  }

  lemma CrossLeft(over: seq<real>, values: seq<real>)
    requires over != []
    ensures Cross(over, values) == Cross(over[..|over| - 1], values) + Weight(values, over[|over| - 1])
  {
  }

  lemma {:induction false} CrossNothing(over: seq<real>)
    ensures Cross(over, []) == 0
  {
    if over != [] {
      CrossNothing(over[..|over| - 1]);
    }
  }

  function ScoreSum(values: seq<real>, over: seq<real>): real {
    if over == [] then 0.0 else ScoreSum(values, over[..|over| - 1]) + Score(values, over[|over| - 1])
  }

  lemma ScoreScaled(values: seq<real>, v: real)
    requires 2 <= |values|
    ensures Times(Score(values, v), (|values| - 1) as real) == 50.0 * (Weight(values, v) as real - 1.0)
  {
    var d := (|values| - 1) as real;
    var top := 100.0 * (Below(values, v) as real + (Ties(values, v) - 1) as real / 2.0);
    TimesDivide(top, d);
  }

  lemma {:induction false} ScoreSumScaled(values: seq<real>, over: seq<real>)
    requires 2 <= |values|
    ensures Times(ScoreSum(values, over), (|values| - 1) as real)
      == 50.0 * (Cross(over, values) as real - |over| as real)
  {
    hide Times, Score, Weight;
    var d := (|values| - 1) as real;
    TimesAdd(0.0, 0.0, d);
    if over != [] {
      var n := |over| - 1;
      ScoreSumScaled(values, over[..n]);
      ScoreScaled(values, over[n]);
      TimesAdd(ScoreSum(values, over[..n]), Score(values, over[n]), d);
    }
  }

  /** Whatever the ties, the scores of a theme of n members sum to exactly 50 n. */
  lemma ScoresConserved(values: seq<real>)
    requires 2 <= |values|
    ensures ScoreSum(values, values) == 50.0 * |values| as real
  {
    hide Times, ScoreSum, Cross;
    ScoreSumScaled(values, values);
    CrossSymmetric(values, values);
    SquareScaled(|values|);
    SameProduct(ScoreSum(values, values), 50.0 * |values| as real, (|values| - 1) as real);
  }

  lemma SquareScaled(n: nat)
    requires 1 <= n
    ensures 50.0 * ((n * n) as real - n as real) == Times(50.0 * n as real, (n - 1) as real)
  {
    var x := n as real;
    assert (n * n) as real == x * x;
    assert x * (x - 1.0) == x * x - x;
  }

  lemma SameProduct(x: real, y: real, d: real)
    requires 0.0 < d && Times(x, d) == Times(y, d)
    ensures x == y
  {
    hide Times;
    TimesMonotone(x, y, d);
    TimesMonotone(y, x, d);
  }

  lemma {:induction false} CountsFit(values: seq<real>, v: real)
    ensures Below(values, v) + Ties(values, v) <= |values|
    ensures v in values ==> 1 <= Ties(values, v)
  {
    if values != [] {
      var n := |values| - 1;
      CountsFit(values[..n], v);
      assert values == values[..n] + [values[n]];
    }
  }

  /** The members with a lower return, and those with the same one. */
  function Lower(values: seq<real>, v: real): set<nat> {
    set i | 0 <= i < |values| && values[i] < v
  }

  function Equal(values: seq<real>, v: real): set<nat> {
    set i | 0 <= i < |values| && values[i] == v
  }

  lemma {:induction false} LowerCount(values: seq<real>, v: real)
    ensures |Lower(values, v)| == Below(values, v)
  {
    if values != [] {
      var n := |values| - 1;
      LowerCount(values[..n], v);
      assert Lower(values, v) == Lower(values[..n], v) + if values[n] < v then {n} else {};
    }
  }

  lemma {:induction false} EqualCount(values: seq<real>, v: real)
    ensures |Equal(values, v)| == Ties(values, v)
  {
    if values != [] {
      var n := |values| - 1;
      EqualCount(values[..n], v);
      assert Equal(values, v) == Equal(values[..n], v) + if values[n] == v then {n} else {};
    }
  }

  /** A score is 100 times the share of the other members ranked below, ties counted half; a lone member scores zero. */
  lemma ScoreIs(values: seq<real>, v: real)
    requires v in values
    ensures |values| == 1 ==> Score(values, v) == 0.0
    ensures |values| != 1 ==> (
      Score(values, v) * ((|values| - 1) as real)
      == 100.0 * (|Lower(values, v)| as real + (|Equal(values, v)| - 1) as real / 2.0))
  {
    LowerCount(values, v);
    EqualCount(values, v);
    hide Lower, Equal, Below, Ties;
  }

  /** Scores lie between 0 and 100. */
  lemma ScoreBounds(values: seq<real>, v: real)
    requires v in values
    ensures 0.0 <= Score(values, v) <= 100.0
  {
    CountsFit(values, v);
    if |values| != 1 {
      var d := (|values| - 1) as real;
      ScoreScaled(values, v);
      assert 0.0 <= 50.0 * (Weight(values, v) as real - 1.0) <= 100.0 * d;
      hide Weight, Score;
      Between(Score(values, v), d);
    }
  }

  lemma Between(x: real, d: real)
    requires 0.0 < d && 0.0 <= Times(x, d) <= 100.0 * d
    ensures 0.0 <= x <= 100.0
  {
    if x < 0.0 {
      TimesMonotone(x, 0.0, d);
      TimesAdd(0.0, 0.0, d);
    } else if 100.0 < x {
      TimesMonotone(100.0, x, d);
    }
  }

  lemma {:induction false} BelowGrows(values: seq<real>, v: real, w: real)
    requires v < w
    ensures Below(values, v) + Ties(values, v) <= Below(values, w)
  {
    if values != [] {
      BelowGrows(values[..|values| - 1], v, w);
    }
  }

  /** Equal returns score the same; a better return scores strictly more. */
  lemma ScoreOrder(values: seq<real>, v: real, w: real)
    requires v in values && w in values && 2 <= |values|
    ensures v < w <==> Score(values, v) < Score(values, w)
    ensures v == w <==> Score(values, v) == Score(values, w)
  {
    if v < w {
      StrictlyMore(values, v, w);
    } else if w < v {
      StrictlyMore(values, w, v);
    }
  }

  lemma StrictlyMore(values: seq<real>, v: real, w: real)
    requires v in values && w in values && 2 <= |values| && v < w
    ensures Score(values, v) < Score(values, w)
  {
    CountsFit(values, v);
    CountsFit(values, w);
    BelowGrows(values, v, w);
    ScoreScaled(values, v);
    ScoreScaled(values, w);
    var d := (|values| - 1) as real;
    assert Weight(values, v) < Weight(values, w);
    hide Weight, Score, Times;
    TimesMonotone(Score(values, w), Score(values, v), d);
  }

  // ---------------------------------------------------------------- the loops of the engine

  method RankScore(values: seq<real>, v: real) returns (score: real)
    requires v in values
    ensures score == Score(values, v)
  {
    if |values| == 1 {
      return 0.0;
    }
    var lower, equal := 0, 0;
    for n := 0 to |values|
      invariant lower == Below(values[..n], v) && equal == Ties(values[..n], v)
    {
      assert values[..n + 1][..n] == values[..n];
      if values[n] < v {
        lower := lower + 1;
      }
      if values[n] == v {
        equal := equal + 1;
      }
    }
    assert values[..|values|] == values;
    var peers := equal - 1;
    var below := lower as real + peers as real / 2.0;
    return 100.0 * below / (|values| - 1) as real;
  }

  function ThemeEntries(entries: seq<Entry>, theme: Id): seq<Entry> {
    if entries == [] then []
    else
      var last := entries[|entries| - 1];
      ThemeEntries(entries[..|entries| - 1], theme) + (if last.theme == theme then [last] else [])
  }

  function Values(entries: seq<Entry>): seq<real> {
    seq(|entries|, i requires 0 <= i < |entries| => entries[i].value)
  }

  lemma {:induction false} ThemeMembers(entries: seq<Entry>, theme: Id)
    ensures forall e :: e in ThemeEntries(entries, theme) <==> e in entries && e.theme == theme
  {
    if entries != [] {
      var n := |entries| - 1;
      ThemeMembers(entries[..n], theme);
      assert entries == entries[..n] + [entries[n]];
    }
  }

  lemma {:induction false} ThemeFacts(entries: seq<Entry>, theme: Id)
    ensures Values(ThemeEntries(entries, theme)) == ThemeValues(entries, theme)
    ensures forall e :: e in ThemeEntries(entries, theme) <==> e in entries && e.theme == theme
  {
    ThemeMembers(entries, theme);
    if entries != [] {
      var n := |entries| - 1;
      ThemeFacts(entries[..n], theme);
      var front, last := ThemeEntries(entries[..n], theme), entries[n];
      assert Values(front + [last]) == Values(front) + [last.value];
      assert front + [] == front;
    }
  }

  method GroupByTheme(entries: seq<Entry>) returns (grouped: map<Id, seq<Entry>>)
    ensures forall theme :: theme in grouped <==> exists e :: e in entries && e.theme == theme
    ensures forall theme :: theme in grouped ==> grouped[theme] == ThemeEntries(entries, theme)
  {
    grouped := map[];
    for n := 0 to |entries|
      invariant forall theme :: theme in grouped <==> ThemeEntries(entries[..n], theme) != []
      invariant forall theme :: theme in grouped ==> grouped[theme] == ThemeEntries(entries[..n], theme)
    {
      var e := entries[n];
      assert entries[..n + 1][..n] == entries[..n];
      grouped := grouped[e.theme := (if e.theme in grouped then grouped[e.theme] else []) + [e]];
    }
    assert entries[..|entries|] == entries;
    forall theme
      ensures ThemeEntries(entries, theme) != [] <==> exists e :: e in entries && e.theme == theme
    {
      ThemeFacts(entries, theme);
      if ThemeEntries(entries, theme) != [] {
        assert ThemeEntries(entries, theme)[0] in ThemeEntries(entries, theme);
      }
    }
  }

  function Ids(entries: seq<Entry>): set<Id> {
    set e | e in entries :: e.id
  }

  predicate Identified(entries: seq<Entry>) {
    forall e, f :: e in entries && f in entries && e.id == f.id ==> e == f
  }

  method ScoreTheme(members: seq<Entry>, before: map<Id, real>) returns (scores: map<Id, real>)
    requires Identified(members)
    ensures scores.Keys == before.Keys + Ids(members)
    ensures forall e :: e in members ==> e.id in scores && scores[e.id] == Score(Values(members), e.value)
    ensures forall id :: id in before && id !in Ids(members) ==> scores[id] == before[id]
  {
    hide Score, Ids, Identified, Values;
    scores := before;
    IdsOf(members, 0);
    for n := 0 to |members|
      invariant scores.Keys == before.Keys + Ids(members[..n])
      invariant forall i :: 0 <= i < n ==>
        members[i].id in scores && scores[members[i].id] == Score(Values(members), members[i].value)
      invariant forall id :: id in before && id !in Ids(members) ==> scores[id] == before[id]
    {
      IdsOf(members, n);
      SameMember(members, n);
      var score := RankScore(Values(members), members[n].value);
      scores := scores[members[n].id := score];
    }
    assert members[..|members|] == members;
  }

  lemma IdsOf(members: seq<Entry>, n: nat)
    requires n <= |members|
    ensures Ids(members[..0]) == {}
    ensures n < |members| ==>
      Ids(members[..n + 1]) == Ids(members[..n]) + {members[n].id} && members[n].id in Ids(members)
    ensures n < |members| ==> members[n].value in Values(members)
  {
    if n < |members| {
      assert members[..n + 1] == members[..n] + [members[n]];
      assert members[n] in members;
      assert Values(members)[n] == members[n].value;
    }
  }

  lemma SameMember(members: seq<Entry>, n: nat)
    requires Identified(members) && n < |members|
    ensures forall i :: 0 <= i < |members| && members[i].id == members[n].id ==> members[i].value == members[n].value
  {
  }

  method ThemeReturnRankScores(entries: seq<Entry>) returns (scores: map<Id, real>)
    requires Identified(entries)
    ensures scores.Keys == Ids(entries)
    ensures forall e :: e in entries ==> scores[e.id] == Score(ThemeValues(entries, e.theme), e.value)
  {
    hide Score, ThemeValues, ThemeEntries, Ids, Identified;
    var grouped := GroupByTheme(entries);
    scores := map[];
    var rest := grouped.Keys;
    while rest != {}
      invariant rest <= grouped.Keys
      invariant forall e :: e in entries ==> (e.id in scores <==> e.theme !in rest)
      invariant scores.Keys <= Ids(entries)
      invariant forall e :: e in entries && e.theme !in rest ==>
        scores[e.id] == Score(ThemeValues(entries, e.theme), e.value)
    {
      var theme :| theme in rest;
      ThemeFacts(entries, theme);
      ThemeIds(entries, theme);
      scores := ScoreTheme(grouped[theme], scores);
      rest := rest - {theme};
    }
    AllIds(entries, scores.Keys);
  }

  lemma ThemeIds(entries: seq<Entry>, theme: Id)
    requires Identified(entries)
    ensures Identified(ThemeEntries(entries, theme)) && Ids(ThemeEntries(entries, theme)) <= Ids(entries)
    ensures forall e :: e in entries ==> (e.id in Ids(ThemeEntries(entries, theme)) <==> e.theme == theme)
  {
    ThemeFacts(entries, theme);
    forall e | e in entries && e.theme == theme
      ensures e.id in Ids(ThemeEntries(entries, theme))
    {
      assert e in ThemeEntries(entries, theme);
    }
  }

  lemma AllIds(entries: seq<Entry>, ids: set<Id>)
    requires ids <= Ids(entries) && forall e :: e in entries ==> e.id in ids
    ensures ids == Ids(entries)
  {
  }

  // ---------------------------------------------------------------- risk penalties

  datatype Risk = Risk(code: Id, penalty: real)

  function Penalties(risks: seq<Risk>): real {
    if risks == [] then 0.0 else Penalties(risks[..|risks| - 1]) + risks[|risks| - 1].penalty
  }

  /** The candidates that carry a penalty, in order. */
  function Positive(candidates: seq<Risk>): seq<Risk> {
    if candidates == [] then []
    else
      var last := candidates[|candidates| - 1];
      Positive(candidates[..|candidates| - 1]) + (if 0.0 < last.penalty then [last] else [])
  }

  /**
   * The applied risks are the first positive candidates: all but the last in full, the last no more than in full, and
   * something is cut or left out only once the cap is spent.
   */
  ghost predicate SpentInOrder(candidates: seq<Risk>, maximum: real, applied: seq<Risk>) {
    var all := Positive(candidates);
    && |applied| <= |all| && Penalties(applied) <= maximum
    && (forall i :: 0 <= i < |applied| ==> applied[i].code == all[i].code && 0.0 < applied[i].penalty <= all[i].penalty)
    && (forall i :: 0 <= i < |applied| - 1 ==> applied[i].penalty == all[i].penalty)
    && (Penalties(applied) == maximum || applied == all)
  }

  /** So together they are the smaller of the cap and all positive candidates. */
  lemma {:induction false} FewerPenalties(all: seq<Risk>, n: nat)
    requires n <= |all| && forall i :: 0 <= i < |all| ==> 0.0 < all[i].penalty
    ensures 0.0 <= Penalties(all[..n]) <= Penalties(all)
    decreases |all|
  {
    if n == |all| {
      assert all[..n] == all;
      if n != 0 {
        FewerPenalties(all[..n - 1], n - 1);
        assert all[..n - 1][..n - 1] == all[..n - 1];
      }
    } else {
      FewerPenalties(all[..|all| - 1], n);
      assert all[..|all| - 1][..n] == all[..n];
    }
  }

  lemma {:induction false} PositiveIs(candidates: seq<Risk>)
    ensures forall i :: 0 <= i < |Positive(candidates)| ==> 0.0 < Positive(candidates)[i].penalty
  {
    if candidates != [] {
      PositiveIs(candidates[..|candidates| - 1]);
    }
  }

  lemma {:induction false} PositivePrefix(candidates: seq<Risk>, n: nat)
    requires n <= |candidates|
    ensures Positive(candidates[..n]) <= Positive(candidates)
    decreases |candidates|
  {
    if n == |candidates| {
      assert candidates[..n] == candidates;
    } else {
      PositivePrefix(candidates[..|candidates| - 1], n);
      assert candidates[..|candidates| - 1][..n] == candidates[..n];
    }
  }

  /** What the loop has applied after n candidates while some of the cap is left. */
  ghost predicate Spending(candidates: seq<Risk>, n: nat, maximum: real, remaining: real, applied: seq<Risk>) {
    && n <= |candidates| && Penalties(applied) == maximum - remaining
    && (0.0 < remaining ==> applied == Positive(candidates[..n]))
    && (remaining <= 0.0 ==> remaining == 0.0 && applied == [])
  }

  lemma TakeRisk(candidates: seq<Risk>, n: nat, maximum: real, remaining: real, applied: seq<Risk>)
    requires n < |candidates| && Spending(candidates, n, maximum, remaining, applied)
    requires 0.0 < Min(remaining, candidates[n].penalty)
    ensures var value := Min(remaining, candidates[n].penalty);
      var after := applied + [Risk(candidates[n].code, value)];
      && Penalties(after) == maximum - (remaining - value)
      && (value < remaining ==> Spending(candidates, n + 1, maximum, remaining - value, after))
      && (value == remaining ==> SpentInOrder(candidates, maximum, after))
  {
    var value := Min(remaining, candidates[n].penalty);
    var last := Risk(candidates[n].code, value);
    assert candidates[..n + 1][..n] == candidates[..n];
    assert (applied + [last])[..|applied|] == applied;
    PositivePrefix(candidates, n + 1);
    PositiveIs(candidates);
    assert Positive(candidates[..n + 1]) == applied + [candidates[n]];
    var all := Positive(candidates);
    assert forall i :: 0 <= i <= |applied| ==> all[i] == (applied + [candidates[n]])[i];
  }

  lemma SkipRisk(candidates: seq<Risk>, n: nat, maximum: real, remaining: real, applied: seq<Risk>)
    requires n < |candidates| && Spending(candidates, n, maximum, remaining, applied)
    requires Min(remaining, candidates[n].penalty) <= 0.0
    ensures Spending(candidates, n + 1, maximum, remaining, applied)
  {
    assert candidates[..n + 1][..n] == candidates[..n];
  }

  lemma SpentAll(candidates: seq<Risk>, maximum: real, remaining: real, applied: seq<Risk>)
    requires Spending(candidates, |candidates|, maximum, remaining, applied) && 0.0 <= maximum
    ensures SpentInOrder(candidates, maximum, applied)
  {
    assert candidates[..|candidates|] == candidates;
    PositiveIs(candidates);
  }

  /** Spending in order spends the smaller of the cap and everything there is to spend. */
  lemma SpentTotal(candidates: seq<Risk>, maximum: real, applied: seq<Risk>)
    requires SpentInOrder(candidates, maximum, applied)
    ensures Penalties(applied) == Min(maximum, Penalties(Positive(candidates)))
  {
    PositiveIs(candidates);
    var all, n := Positive(candidates), |applied|;
    FewerPenalties(all, n);
    if applied != all && n != 0 {
      assert applied[..n - 1] == all[..n][..n - 1];
    }
    assert n == 0 ==> applied == [] == all[..n];
  }

  /** The cap is spent in order. */
  method ApplyRisks(candidates: seq<Risk>, maximum: real) returns (applied: seq<Risk>)
    requires 0.0 <= maximum
    ensures SpentInOrder(candidates, maximum, applied)
    ensures Penalties(applied) == Min(maximum, Penalties(Positive(candidates)))
  {
    hide SpentInOrder, Spending;
    var remaining := maximum;
    applied := [];
    assert Spending(candidates, 0, maximum, remaining, applied) by { NothingSpent(candidates, maximum); }
    for n := 0 to |candidates|
      invariant Spending(candidates, n, maximum, remaining, applied)
    {
      var value := Min(remaining, candidates[n].penalty);
      if value <= 0.0 {
        SkipRisk(candidates, n, maximum, remaining, applied);
        continue;
      }
      TakeRisk(candidates, n, maximum, remaining, applied);
      applied := applied + [Risk(candidates[n].code, value)];
      remaining := remaining - value;
      if remaining <= 0.0 {
        SpentTotal(candidates, maximum, applied);
        return;
      }
    }
    SpentAll(candidates, maximum, remaining, applied);
    SpentTotal(candidates, maximum, applied);
  }

  lemma NothingSpent(candidates: seq<Risk>, maximum: real)
    requires 0.0 <= maximum
    ensures Spending(candidates, 0, maximum, maximum, [])
  {
  }
}
