/** The replay-stream validator: ordering, unique ids, and contiguous order and fill lifecycles. */
module ReplayStream {
  import opened Outcomes
  import opened Contracts

  datatype ReplayState = ReplayState(
    previousSequence: int, previousTime: Option<Instant>, eventIds: set<Id>,
    orderStates: map<Id, OrderStatus>, fillStates: map<Id, FillStatus>)

  const EMPTY_REPLAY := ReplayState(-1, None, {}, map[], map[])

  function Recorded<T>(states: map<Id, T>, id: Id): Option<T> {
    if id in states then Some(states[id]) else None
  }

  /** The validator's checks on one event, given what it has recorded so far. */
  predicate Admissible(runId: Id, rs: ReplayState, e: Event) {
    && e.Head().runId == runId
    && rs.previousSequence < e.Head().sequence
    && (rs.previousTime.Some? ==> rs.previousTime.value <= e.Head().time)
    && e.Head().eventId !in rs.eventIds
    && (e.OrderEv? ==> e.order.previous == Recorded(rs.orderStates, e.order.orderId))
    && (e.FillEv? ==> e.fill.previous == Recorded(rs.fillStates, e.fill.fillId))
  }

  function Record(rs: ReplayState, e: Event): ReplayState {
    ReplayState(e.Head().sequence, Some(e.Head().time), rs.eventIds + {e.Head().eventId},
      if e.OrderEv? then rs.orderStates[e.order.orderId := e.order.status] else rs.orderStates,
      if e.FillEv? then rs.fillStates[e.fill.fillId := e.fill.status] else rs.fillStates)
  }

  function Replayed(runId: Id, events: seq<Event>): Option<ReplayState> {
    if events == [] then Some(EMPTY_REPLAY)
    else
      var rs := Replayed(runId, events[..|events| - 1]);
      var e := events[|events| - 1];
      if rs.Some? && Admissible(runId, rs.value, e) then Some(Record(rs.value, e)) else None
  }

  /** An empty stream is valid; otherwise the first event fixes the run id. */
  predicate ValidStream(events: seq<Event>) {
    events == [] || Replayed(events[0].Head().runId, events).Some?
  }

  lemma {:induction false} ReplayedPrefix(runId: Id, events: seq<Event>, n: nat)
    requires n <= |events| && Replayed(runId, events).Some?
    ensures Replayed(runId, events[..n]).Some?
    decreases |events| - n
  {
    if n < |events| {
      assert events[..n + 1][..n] == events[..n];
      ReplayedPrefix(runId, events, n + 1);
    } else {
      assert events[..n] == events;
    }
  }

  method ValidateReplayStream(events: seq<Event>) returns (r: Outcome)
    ensures r == if ValidStream(events) then Pass else Fail(ReplayRejected)
  {
    if events == [] {
      return Pass;
    }
    var runId := events[0].Head().runId;
    var rs := EMPTY_REPLAY;
    for n := 0 to |events|
      invariant Replayed(runId, events[..n]) == Some(rs)
    {
      var e := events[n];
      assert events[..n + 1][..n] == events[..n];
      if !Admissible(runId, rs, e) {
        if Replayed(runId, events).Some? {
          ReplayedPrefix(runId, events, n + 1);
          assert false;
        }
        return Fail(ReplayRejected);
      }
      rs := Record(rs, e);
    }
    assert events[..|events|] == events;
    return Pass;
  }

  /** What a valid stream means: strictly increasing sequences, monotone times, unique ids, one run. */
  lemma {:induction false} ValidStreamMeaning(runId: Id, events: seq<Event>)
    requires Replayed(runId, events).Some?
    ensures var rs := Replayed(runId, events).value;
      && rs.eventIds == (set i | 0 <= i < |events| :: events[i].Head().eventId)
      && (events != [] ==> rs.previousSequence == events[|events| - 1].Head().sequence)
      && (events != [] ==> rs.previousTime == Some(events[|events| - 1].Head().time))
    ensures forall i :: 0 <= i < |events| ==> events[i].Head().runId == runId
    ensures forall i, j :: 0 <= i < j < |events| ==>
      && events[i].Head().sequence < events[j].Head().sequence
      && events[i].Head().time <= events[j].Head().time
      && events[i].Head().eventId != events[j].Head().eventId
  {
    if events != [] {
      var n := |events| - 1;
      var front := events[..n];
      ValidStreamMeaning(runId, front);
      assert forall i :: 0 <= i < n ==> events[i] == front[i];
      assert (set i | 0 <= i < |events| :: events[i].Head().eventId)
        == (set i | 0 <= i < n :: front[i].Head().eventId) + {events[n].Head().eventId};
    }
  }

  /** And lifecycles are contiguous: each order event's previous status is the status last recorded for it. */
  lemma {:induction false} OrderHistory(runId: Id, events: seq<Event>, i: nat, j: nat)
    requires Replayed(runId, events).Some? && i < j < |events|
    requires events[i].OrderEv? && events[j].OrderEv? && events[i].order.orderId == events[j].order.orderId
    requires forall k :: i < k < j && events[k].OrderEv? ==> events[k].order.orderId != events[i].order.orderId
    ensures events[j].order.previous == Some(events[i].order.status)
  {
    ReplayedPrefix(runId, events, j + 1);
    assert events[..j + 1][..j] == events[..j];
    LastRecorded(runId, events[..j], i);
  }

  lemma {:induction false} LastRecorded(runId: Id, events: seq<Event>, i: nat)
    requires Replayed(runId, events).Some? && i < |events| && events[i].OrderEv?
    requires forall k :: i < k < |events| && events[k].OrderEv? ==> events[k].order.orderId != events[i].order.orderId
    ensures Recorded(Replayed(runId, events).value.orderStates, events[i].order.orderId) == Some(events[i].order.status)
  {
    var n := |events| - 1;
    if i < n {
      var front := events[..n];
      assert forall k :: 0 <= k < n ==> events[k] == front[k];
      LastRecorded(runId, front, i);
    }
  }

  /** So are the lifecycles of fills. */
  lemma {:induction false} FillHistory(runId: Id, events: seq<Event>, i: nat, j: nat)
    requires Replayed(runId, events).Some? && i < j < |events|
    requires events[i].FillEv? && events[j].FillEv? && events[i].fill.fillId == events[j].fill.fillId
    requires forall k :: i < k < j && events[k].FillEv? ==> events[k].fill.fillId != events[i].fill.fillId
    ensures events[j].fill.previous == Some(events[i].fill.status)
  {
    ReplayedPrefix(runId, events, j + 1);
    assert events[..j + 1][..j] == events[..j];
    LastFillRecorded(runId, events[..j], i);
  }

  lemma {:induction false} LastFillRecorded(runId: Id, events: seq<Event>, i: nat)
    requires Replayed(runId, events).Some? && i < |events| && events[i].FillEv?
    requires forall k :: i < k < |events| && events[k].FillEv? ==> events[k].fill.fillId != events[i].fill.fillId
    ensures Recorded(Replayed(runId, events).value.fillStates, events[i].fill.fillId) == Some(events[i].fill.status)
  {
    var n := |events| - 1;
    if i < n {
      var front := events[..n];
      assert forall k :: 0 <= k < n ==> events[k] == front[k];
      LastFillRecorded(runId, front, i);
    }
  }
}
