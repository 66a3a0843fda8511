/** Point-in-time selection of revised price and benchmark rows. */
module Revisions {
  import opened Outcomes
  import opened Contracts

  datatype Row<V> = Row(id: Id, day: Day, availableAt: Instant, content: V) {
    function Key(): (Id, Day) {
      (id, day)
    }
  }

  type Selected<V> = map<(Id, Day), Row<V>>

  predicate Eligible<V>(calendar: set<Day>, asOf: Instant, row: Row<V>) {
    row.day in calendar && row.availableAt <= asOf
  }

  /** One step of the selection: keep the later row, refuse a different row of the same availability. */
  function Choose<V(==)>(calendar: set<Day>, asOf: Instant, chosen: Selected<V>, row: Row<V>): Result<Selected<V>> {
    if !Eligible(calendar, asOf, row) then Ok(chosen)
    else if row.Key() !in chosen || chosen[row.Key()].availableAt < row.availableAt then Ok(chosen[row.Key() := row])
    else if row.availableAt == chosen[row.Key()].availableAt && row != chosen[row.Key()] then Err(InvalidInput)
    else Ok(chosen)
  }

  function Selection<V(==)>(calendar: set<Day>, asOf: Instant, rows: seq<Row<V>>): Result<Selected<V>> {
    if rows == [] then Ok(map[])
    else
      var chosen :- Selection(calendar, asOf, rows[..|rows| - 1]);
      Choose(calendar, asOf, chosen, rows[|rows| - 1])
  }

  lemma {:induction false} FailurePersists<V>(calendar: set<Day>, asOf: Instant, rows: seq<Row<V>>, n: nat)
    requires n <= |rows| && Selection(calendar, asOf, rows[..n]) == Err(InvalidInput)
    ensures Selection(calendar, asOf, rows) == Err(InvalidInput)
    decreases |rows| - n
  {
    if n < |rows| {
      assert rows[..n + 1][..n] == rows[..n];
      FailurePersists(calendar, asOf, rows, n + 1);
    } else {
      assert rows[..n] == rows;
    }
  }

  method SelectRevisions<V(==)>(calendar: set<Day>, asOf: Instant, rows: seq<Row<V>>) returns (r: Result<Selected<V>>)
    ensures r == Selection(calendar, asOf, rows)
  {
    var chosen: Selected<V> := map[];
    for n := 0 to |rows|
      invariant Selection(calendar, asOf, rows[..n]) == Ok(chosen)
    {
      var row := rows[n];
      assert rows[..n + 1][..n] == rows[..n];
      assert Selection(calendar, asOf, rows[..n + 1]) == Choose(calendar, asOf, chosen, row);
      if row.day !in calendar || row.availableAt > asOf {
        continue;
      }
      var key := row.Key();
      if key !in chosen || row.availableAt > chosen[key].availableAt {
        chosen := chosen[key := row];
      } else if row.availableAt == chosen[key].availableAt && row != chosen[key] {
        FailurePersists(calendar, asOf, rows, n + 1);
        return Err(InvalidInput);
      }
    }
    assert rows[..|rows|] == rows;
    return Ok(chosen);
  }

  /** The row is the only latest eligible row of its key. */
  predicate UniqueLatest<V(==)>(calendar: set<Day>, asOf: Instant, rows: seq<Row<V>>, row: Row<V>) {
    && row in rows && Eligible(calendar, asOf, row)
    && forall other :: other in rows && Eligible(calendar, asOf, other) && other.Key() == row.Key() && other != row ==>
         other.availableAt < row.availableAt
  }

  /** Whenever selection returns, it holds for each eligible key exactly the unique latest eligible row. */
  lemma {:induction false} SelectionMeaning<V(!new)>(calendar: set<Day>, asOf: Instant, rows: seq<Row<V>>)
    requires Selection(calendar, asOf, rows).Ok?
    ensures var chosen := Selection(calendar, asOf, rows).value;
      && (forall row :: row in rows && Eligible(calendar, asOf, row) ==> row.Key() in chosen)
      && (forall k :: k in chosen ==> chosen[k].Key() == k && UniqueLatest(calendar, asOf, rows, chosen[k]))
  {
    if rows != [] {
      var n := |rows| - 1;
      var front, last := rows[..n], rows[n];
      SelectionMeaning(calendar, asOf, front);
      assert rows == front + [last];
      var before := Selection(calendar, asOf, front).value;
      var chosen := Selection(calendar, asOf, rows).value;
      forall k | k in chosen
        ensures chosen[k].Key() == k && UniqueLatest(calendar, asOf, rows, chosen[k])
      {
        assert k in before ==> UniqueLatest(calendar, asOf, front, before[k]);
      }
    }
  }

  /** So any two orders of the same rows that both return select the same rows. */
  lemma SelectionOrderFree<V(!new)>(calendar: set<Day>, asOf: Instant, a: seq<Row<V>>, b: seq<Row<V>>)
    requires forall row :: row in a <==> row in b
    requires Selection(calendar, asOf, a).Ok? && Selection(calendar, asOf, b).Ok?
    ensures Selection(calendar, asOf, a) == Selection(calendar, asOf, b)
  {
    hide Selection, UniqueLatest, Eligible;
    SelectionMeaning(calendar, asOf, a);
    SelectionMeaning(calendar, asOf, b);
    var x, y := Selection(calendar, asOf, a).value, Selection(calendar, asOf, b).value;
    forall k | k in x
      ensures k in y && x[k] == y[k]
    {
      UniqueLatestIsUnique(calendar, asOf, a, b, x[k], y);
    }
    forall k | k in y
      ensures k in x
    {
      UniqueLatestIsUnique(calendar, asOf, b, a, y[k], x);
    }
    assert x == y;
  }

  lemma UniqueLatestIsUnique<V(!new)>(calendar: set<Day>, asOf: Instant, a: seq<Row<V>>, b: seq<Row<V>>, row: Row<V>,
      chosen: Selected<V>)
    requires forall other :: other in a <==> other in b
    requires UniqueLatest(calendar, asOf, a, row)
    requires forall other :: other in b && Eligible(calendar, asOf, other) ==> other.Key() in chosen
    requires forall k :: k in chosen ==> chosen[k].Key() == k && UniqueLatest(calendar, asOf, b, chosen[k])
    ensures row.Key() in chosen && chosen[row.Key()] == row
  {
    var other := chosen[row.Key()];
    assert UniqueLatest(calendar, asOf, b, other);
    assert other != row ==> other.availableAt < row.availableAt < other.availableAt;
  }

  function Published<V>(asOf: Instant, rows: seq<Row<V>>): seq<Row<V>> {
    if rows == [] then []
    else
      var last := rows[|rows| - 1];
      Published(asOf, rows[..|rows| - 1]) + (if last.availableAt <= asOf then [last] else [])
  }

  /** Rows that become available only after the boundary change nothing, not even whether selection returns. */
  lemma {:induction false} LaterRowsIgnored<V>(calendar: set<Day>, asOf: Instant, rows: seq<Row<V>>)
    ensures Selection(calendar, asOf, rows) == Selection(calendar, asOf, Published(asOf, rows))
  {
    if rows != [] {
      var front, last := rows[..|rows| - 1], rows[|rows| - 1];
      LaterRowsIgnored(calendar, asOf, front);
      var kept := Published(asOf, front);
      assert (kept + [last])[..|kept|] == kept;
      assert kept + [] == kept;
    }
  }

  // ---------------------------------------------------------------- when selection is refused

  /** Different eligible rows of one key and one availability. */
  predicate Tied<V(==)>(calendar: set<Day>, asOf: Instant, a: Row<V>, b: Row<V>) {
    && a != b && Eligible(calendar, asOf, a) && Eligible(calendar, asOf, b)
    && a.Key() == b.Key() && a.availableAt == b.availableAt
  }

  /** Rows i and j are tied, and nothing before j supersedes them. */
  predicate TiedAt<V(==)>(calendar: set<Day>, asOf: Instant, rows: seq<Row<V>>, i: nat, j: nat)
    requires i < j < |rows|
  {
    && Tied(calendar, asOf, rows[i], rows[j])
    && forall k :: 0 <= k < j && Eligible(calendar, asOf, rows[k]) && rows[k].Key() == rows[j].Key() ==>
         rows[k].availableAt <= rows[j].availableAt
  }

  ghost predicate TieMet<V>(calendar: set<Day>, asOf: Instant, rows: seq<Row<V>>) {
    exists i, j :: 0 <= i < j < |rows| && TiedAt(calendar, asOf, rows, i, j)
  }

  /** The last row is refused exactly when it is tied with a row that is still the latest before it. */
  lemma LastRefused<V(!new)>(calendar: set<Day>, asOf: Instant, rows: seq<Row<V>>)
    requires rows != [] && Selection(calendar, asOf, rows[..|rows| - 1]).Ok?
    ensures var j := |rows| - 1;
      Selection(calendar, asOf, rows).Err? <==> exists i :: 0 <= i < j && TiedAt(calendar, asOf, rows, i, j)
  {
    var j := |rows| - 1;
    var front, last := rows[..j], rows[j];
    var chosen := Selection(calendar, asOf, front).value;
    SelectionMeaning(calendar, asOf, front);
    hide Selection;
    assert Selection(calendar, asOf, rows) == Choose(calendar, asOf, chosen, last) by {
      SelectionLast(calendar, asOf, rows);
    }
    assert forall k :: 0 <= k < j ==> rows[k] == front[k] && rows[k] in front;
    if Eligible(calendar, asOf, last) && last.Key() in chosen {
      var best := chosen[last.Key()];
      assert UniqueLatest(calendar, asOf, front, best);
      var i :| 0 <= i < j && front[i] == best;
      if Selection(calendar, asOf, rows).Err? {
        assert TiedAt(calendar, asOf, rows, i, j);
      }
      forall k | 0 <= k < j && TiedAt(calendar, asOf, rows, k, j)
        ensures rows[k] == best
      {
        assert best.availableAt <= last.availableAt by {
          assert rows[i] == best;
        }
      }
    }
  }

  lemma SelectionLast<V>(calendar: set<Day>, asOf: Instant, rows: seq<Row<V>>)
    requires rows != [] && Selection(calendar, asOf, rows[..|rows| - 1]).Ok?
    ensures Selection(calendar, asOf, rows)
      == Choose(calendar, asOf, Selection(calendar, asOf, rows[..|rows| - 1]).value, rows[|rows| - 1])
  {
  }

  /** A tie among the first rows is a tie of all, and a tie of all lies among the first rows or at the last one. */
  lemma TieMetLast<V>(calendar: set<Day>, asOf: Instant, rows: seq<Row<V>>)
    requires rows != []
    ensures var j := |rows| - 1;
      TieMet(calendar, asOf, rows) <==>
      TieMet(calendar, asOf, rows[..j]) || exists i :: 0 <= i < j && TiedAt(calendar, asOf, rows, i, j)
  {
    hide Tied, Eligible;
    var front := rows[..|rows| - 1];
    forall i, j | 0 <= i < j < |front|
      ensures TiedAt(calendar, asOf, rows, i, j) == TiedAt(calendar, asOf, front, i, j)
    {
      assert forall k :: 0 <= k <= j ==> front[k] == rows[k];
    }
  }

  /** Selection is refused exactly when two tied rows meet before a later revision of their key. */
  lemma {:induction false} RefusedExactly<V(!new)>(calendar: set<Day>, asOf: Instant, rows: seq<Row<V>>)
    ensures Selection(calendar, asOf, rows).Err? <==> TieMet(calendar, asOf, rows)
  {
    if rows != [] {
      RefusedExactly(calendar, asOf, rows[..|rows| - 1]);
      TieMetLast(calendar, asOf, rows);
      if Selection(calendar, asOf, rows[..|rows| - 1]).Ok? {
        LastRefused(calendar, asOf, rows);
      }
    }
  }

  // ---------------------------------------------------------------- when the order of the rows matters

  ghost predicate AnyTie<V>(calendar: set<Day>, asOf: Instant, rows: seq<Row<V>>) {
    exists a, b :: a in rows && b in rows && Tied(calendar, asOf, a, b)
  }

  predicate Supersedes<V>(calendar: set<Day>, asOf: Instant, later: Row<V>, row: Row<V>) {
    Eligible(calendar, asOf, later) && later.Key() == row.Key() && row.availableAt < later.availableAt
  }

  /** Some key is tied at its latest availability. */
  ghost predicate LatestTie<V>(calendar: set<Day>, asOf: Instant, rows: seq<Row<V>>) {
    exists a, b :: a in rows && b in rows && Tied(calendar, asOf, a, b)
      && forall other :: other in rows ==> !Supersedes(calendar, asOf, other, a)
  }

  ghost predicate OrderOf<V>(rows: seq<Row<V>>, order: seq<Row<V>>) {
    multiset(order) == multiset(rows)
  }

  lemma SameMembers<V>(rows: seq<Row<V>>, order: seq<Row<V>>)
    requires OrderOf(rows, order)
    ensures forall row :: row in order <==> row in rows
  {
    forall row
      ensures row in order <==> row in rows
    {
      assert row in order <==> row in multiset(order);
      assert row in rows <==> row in multiset(rows);
    }
  }

  /** A key tied at its latest availability is refused in every order. */
  lemma LatestTieRefused<V(!new)>(calendar: set<Day>, asOf: Instant, rows: seq<Row<V>>, order: seq<Row<V>>)
    requires LatestTie(calendar, asOf, rows) && OrderOf(rows, order)
    ensures Selection(calendar, asOf, order).Err?
  {
    hide Selection;
    SameMembers(rows, order);
    RefusedExactly(calendar, asOf, order);
    var a, b :| a in rows && b in rows && Tied(calendar, asOf, a, b)
      && forall other :: other in rows ==> !Supersedes(calendar, asOf, other, a);
    var i :| 0 <= i < |order| && order[i] == a;
    var j :| 0 <= j < |order| && order[j] == b;
    forall k | 0 <= k < |order| && Eligible(calendar, asOf, order[k]) && order[k].Key() == a.Key()
      ensures order[k].availableAt <= a.availableAt
    {
      assert !Supersedes(calendar, asOf, order[k], a);
    }
    if i < j {
      assert TiedAt(calendar, asOf, order, i, j);
    } else {
      assert TiedAt(calendar, asOf, order, j, i);
    }
  }

  /** Without any tie every order is accepted. */
  lemma NoTieAccepted<V(!new)>(calendar: set<Day>, asOf: Instant, rows: seq<Row<V>>, order: seq<Row<V>>)
    requires !AnyTie(calendar, asOf, rows) && OrderOf(rows, order)
    ensures Selection(calendar, asOf, order).Ok?
  {
    hide Selection, Tied;
    SameMembers(rows, order);
    RefusedExactly(calendar, asOf, order);
    forall i, j | 0 <= i < j < |order|
      ensures !TiedAt(calendar, asOf, order, i, j)
    {
      assert order[i] in order && order[j] in order;
    }
  }

  function Insert<V>(row: Row<V>, rows: seq<Row<V>>): seq<Row<V>> {
    if rows == [] || rows[0].availableAt <= row.availableAt then [row] + rows
    else [rows[0]] + Insert(row, rows[1..])
  }

  /** The rows by availability, latest first. */
  function LatestFirst<V>(rows: seq<Row<V>>): seq<Row<V>> {
    if rows == [] then [] else Insert(rows[0], LatestFirst(rows[1..]))
  }

  predicate Descending<V>(rows: seq<Row<V>>) {
    forall i, j :: 0 <= i < j < |rows| ==> rows[j].availableAt <= rows[i].availableAt
  }

  lemma {:induction false} InsertCounts<V>(row: Row<V>, rows: seq<Row<V>>)
    ensures multiset(Insert(row, rows)) == multiset([row]) + multiset(rows)
    ensures forall r :: r in Insert(row, rows) ==> r == row || r in rows
  {
    if rows != [] && row.availableAt < rows[0].availableAt {
      InsertCounts(row, rows[1..]);
      assert rows == [rows[0]] + rows[1..];
    }
  }

  lemma DescendingCons<V>(row: Row<V>, rows: seq<Row<V>>)
    requires Descending(rows) && forall r :: r in rows ==> r.availableAt <= row.availableAt
    ensures Descending([row] + rows)
  {
    forall j | 0 <= j < |rows|
      ensures rows[j].availableAt <= row.availableAt
    {
      assert rows[j] in rows;
    }
  }

  lemma DescendingHead<V>(rows: seq<Row<V>>)
    requires Descending(rows) && rows != []
    ensures Descending(rows[1..]) && forall r :: r in rows ==> r.availableAt <= rows[0].availableAt
  {
  }

  lemma {:induction false} InsertOrders<V>(row: Row<V>, rows: seq<Row<V>>)
    requires Descending(rows)
    ensures Descending(Insert(row, rows))
  {
    hide Descending;
    if rows != [] {
      DescendingHead(rows);
      if row.availableAt < rows[0].availableAt {
        InsertOrders(row, rows[1..]);
        InsertCounts(row, rows[1..]);
        DescendingCons(rows[0], Insert(row, rows[1..]));
      } else {
        DescendingCons(row, rows);
      }
    } else {
      DescendingOne(row);
    }
  }

  lemma DescendingOne<V>(row: Row<V>)
    ensures Descending([row] + [])
  {
  }

  lemma {:induction false} LatestFirstOrders<V>(rows: seq<Row<V>>)
    ensures Descending(LatestFirst(rows)) && OrderOf(rows, LatestFirst(rows))
  {
    if rows != [] {
      LatestFirstOrders(rows[1..]);
      InsertOrders(rows[0], LatestFirst(rows[1..]));
      InsertCounts(rows[0], LatestFirst(rows[1..]));
      assert rows == [rows[0]] + rows[1..];
    }
  }

  /** Among rows with the latest first, a tie that is met is a tie at the latest availability. */
  lemma DescendingTie<V>(calendar: set<Day>, asOf: Instant, order: seq<Row<V>>)
    requires Descending(order) && TieMet(calendar, asOf, order)
    ensures LatestTie(calendar, asOf, order)
  {
    var i, j :| 0 <= i < j < |order| && TiedAt(calendar, asOf, order, i, j);
    hide Tied;
    forall other | other in order
      ensures !Supersedes(calendar, asOf, other, order[i])
    {
      var k :| 0 <= k < |order| && order[k] == other;
      TiedAvailability(calendar, asOf, order[i], order[j]);
    }
  }

  lemma TiedAvailability<V>(calendar: set<Day>, asOf: Instant, a: Row<V>, b: Row<V>)
    requires Tied(calendar, asOf, a, b)
    ensures a.Key() == b.Key() && a.availableAt == b.availableAt
  {
  }

  lemma LatestTieSame<V>(calendar: set<Day>, asOf: Instant, rows: seq<Row<V>>, order: seq<Row<V>>)
    requires OrderOf(rows, order) && LatestTie(calendar, asOf, order)
    ensures LatestTie(calendar, asOf, rows)
  {
    SameMembers(rows, order);
    hide OrderOf, Tied, Supersedes;
  }

  /** Latest first is accepted unless a key is tied at its latest availability. */
  lemma LatestFirstAccepted<V(!new)>(calendar: set<Day>, asOf: Instant, rows: seq<Row<V>>)
    ensures OrderOf(rows, LatestFirst(rows))
    ensures Selection(calendar, asOf, LatestFirst(rows)).Err? ==> LatestTie(calendar, asOf, rows)
  {
    hide Selection, LatestFirst, OrderOf, LatestTie, TieMet, Descending;
    LatestFirstOrders(rows);
    RefusedExactly(calendar, asOf, LatestFirst(rows));
    if TieMet(calendar, asOf, LatestFirst(rows)) {
      DescendingTie(calendar, asOf, LatestFirst(rows));
      LatestTieSame(calendar, asOf, rows, LatestFirst(rows));
    }
  }

  function Without<V(==)>(rows: seq<Row<V>>, row: Row<V>): seq<Row<V>> {
    if rows == [] then [] else if rows[0] == row then rows[1..] else [rows[0]] + Without(rows[1..], row)
  }

  lemma {:induction false} WithoutCounts<V>(rows: seq<Row<V>>, row: Row<V>)
    requires row in rows
    ensures multiset([row]) + multiset(Without(rows, row)) == multiset(rows)
  {
    assert rows == [rows[0]] + rows[1..];
    if rows[0] != row {
      WithoutCounts(rows[1..], row);
    }
  }

  /** Any tie is reported when its two rows come first. */
  lemma TieFirstRefused<V(!new)>(calendar: set<Day>, asOf: Instant, rows: seq<Row<V>>, a: Row<V>, b: Row<V>)
    requires a in rows && b in rows && Tied(calendar, asOf, a, b)
    ensures var order := [a, b] + Without(Without(rows, a), b);
      OrderOf(rows, order) && Selection(calendar, asOf, order).Err?
  {
    hide Selection, Without;
    WithoutCounts(rows, a);
    var rest := Without(rows, a);
    assert b in rest by {
      assert b in multiset(rows) && b in multiset([a]) + multiset(rest);
    }
    WithoutCounts(rest, b);
    var order := [a, b] + Without(rest, b);
    assert order == [a] + ([b] + Without(rest, b));
    RefusedExactly(calendar, asOf, order);
    assert TiedAt(calendar, asOf, order, 0, 1);
  }

  /** All orders of the same rows agree on acceptance. */
  ghost predicate OrdersAgree<V(!new)>(calendar: set<Day>, asOf: Instant, rows: seq<Row<V>>) {
    forall p, q :: OrderOf(rows, p) && OrderOf(rows, q) ==>
      (Selection(calendar, asOf, p).Ok? <==> Selection(calendar, asOf, q).Ok?)
  }

  /** Acceptance depends on the order exactly when rows are tied, but no key is tied at its latest availability. */
  lemma OrderMattersExactly<V(!new)>(calendar: set<Day>, asOf: Instant, rows: seq<Row<V>>)
    ensures OrdersAgree(calendar, asOf, rows) <==> LatestTie(calendar, asOf, rows) || !AnyTie(calendar, asOf, rows)
  {
    hide Selection, OrderOf, LatestTie, Tied;
    if LatestTie(calendar, asOf, rows) {
      forall p | OrderOf(rows, p)
        ensures Selection(calendar, asOf, p).Err?
      {
        LatestTieRefused(calendar, asOf, rows, p);
      }
    } else if !AnyTie(calendar, asOf, rows) {
      forall p | OrderOf(rows, p)
        ensures Selection(calendar, asOf, p).Ok?
      {
        NoTieAccepted(calendar, asOf, rows, p);
      }
    } else {
      var a, b :| a in rows && b in rows && Tied(calendar, asOf, a, b);
      LatestFirstAccepted(calendar, asOf, rows);
      TieFirstRefused(calendar, asOf, rows, a, b);
    }
  }

  /** Whether an old ambiguity is reported does depend on the order: a later revision seen first hides it. */
  lemma AmbiguityDependsOnOrder(id: Id, day: Day, t: Instant)
    ensures var a, b, c := Row(id, day, t, 1), Row(id, day, t, 2), Row(id, day, t + 1, 3);
      && Selection({day}, t + 1, [a, b, c]).Err?
      && Selection({day}, t + 1, [c, a, b]) == Ok(map[(id, day) := c])
  {
    var a, b, c := Row(id, day, t, 1), Row(id, day, t, 2), Row(id, day, t + 1, 3);
    assert [a, b, c][..2] == [a, b] && [a, b][..1] == [a] && [a][..0] == [];
    assert [c, a, b][..2] == [c, a] && [c, a][..1] == [c] && [c][..0] == [];
    assert Selection({day}, t + 1, [a]) == Ok(map[(id, day) := a]);
    assert Selection({day}, t + 1, [a, b]).Err?;
    assert Selection({day}, t + 1, [c]) == Ok(map[(id, day) := c]);
    assert Selection({day}, t + 1, [c, a]) == Ok(map[(id, day) := c]);
  }
}
