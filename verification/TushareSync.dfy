/** Sync partitions and watermarks: what is still to fetch, and resuming after any committed partition. */
module TushareSync {
  import opened Outcomes
  import opened Contracts
  import opened IsoDates

  /** The second key of a watermark or partition object: a text, or any other JSON value, kept in its canonical form. */
  datatype Position = Absent | Text(text: Id) | NotText(json: Id)

  /**
   * A JSON watermark: the text under its date key if there is any, its list status or instrument, and any further keys
   * with their values in canonical form.
   */
  datatype Watermark = Watermark(date: Option<Id>, position: Position, other: map<Id, Id>) {
    /** The date the text stands for, if it is one. */
    function Parsed(): (day: Option<Day>)
      ensures day.Some? ==> 1 <= day.value <= LAST_DAY
    {
      if date.Some? then Parse(date.value) else None
    }
  }

  /** A partition the sources build; its day is written with `isoformat`. */
  datatype Partition = Partition(day: Day, position: Position)

  /** `day.isoformat()`; only representable days are ever written. */
  function Iso(day: Day): Id {
    if 1 <= day <= LAST_DAY then Format(day) else ""
  }

  /** The watermark that holds a date and nothing else. */
  function Plain(day: Day): Watermark {
    Watermark(Some(Iso(day)), Absent, map[])
  }

  lemma IsoParsed(day: Day)
    requires 1 <= day <= LAST_DAY
    ensures Parse(Iso(day)) == Some(day)
  {
    hide Format, Parse;
    ParseFormat(day);
  }

  // ---------------------------------------------------------------- one partition per day

  function DaysFrom(first: Day, end: Day): seq<Partition> {
    seq(if first < end then end - first else 0, i => Partition(first + i, Absent))
  }

  function DatePlan(committed: Watermark, target: Watermark): Result<seq<Partition>> {
    if committed.Parsed().None? || target.Parsed().None? || target.Parsed().value < committed.Parsed().value
      then Err(InvalidInput)
    else if LAST_DAY <= target.Parsed().value then Err(DateOverflow)
    else Ok(DaysFrom(committed.Parsed().value + 1, target.Parsed().value + 1))
  }

  /** `date + timedelta(days=1)`. */
  function NextDay(day: Day): Option<Day> {
    if day < LAST_DAY then Some(day + 1) else None
  }

  method DatePartitions(committed: Watermark, target: Watermark) returns (r: Result<seq<Partition>>)
    ensures r == DatePlan(committed, target)
  {
    hide Parse, Iso;
    if committed.Parsed().None? || target.Parsed().None? {
      return Err(InvalidInput);
    }
    var last := target.Parsed().value;
    if committed.Parsed().value > last {
      return Err(InvalidInput);
    }
    var partitions: seq<Partition> := [];
    var next := NextDay(committed.Parsed().value);
    if next.None? {
      return Err(DateOverflow);
    }
    var current := next.value;
    while current <= last
      invariant committed.Parsed().value < current <= last + 1 && current <= LAST_DAY
      invariant partitions == DaysFrom(committed.Parsed().value + 1, current)
    {
      partitions := partitions + [Partition(current, Absent)];
      next := NextDay(current);
      if next.None? {
        return Err(DateOverflow);
      }
      current := next.value;
    }
    return Ok(partitions);
  }

  /** A plan fails exactly when a date does not read, the target lies before the committed day, or no day follows it. */
  lemma DatePlanFails(committed: Watermark, target: Watermark)
    ensures DatePlan(committed, target) == Err(InvalidInput) <==>
      !(committed.Parsed().Some? && target.Parsed().Some? && committed.Parsed().value <= target.Parsed().value)
    ensures DatePlan(committed, target) == Err(DateOverflow) <==>
      && committed.Parsed().Some? && target.Parsed().Some? && committed.Parsed().value <= target.Parsed().value
      && target.Parsed().value == LAST_DAY
    ensures DatePlan(committed, target).Err? ==> DatePlan(committed, target).error in {InvalidInput, DateOverflow}
  {
    hide Parse;
  }

  /** Exactly the days after the committed one up to the target, in increasing order. */
  lemma DatePlanMeaning(committed: Watermark, target: Watermark)
    requires DatePlan(committed, target).Ok?
    ensures var parts := DatePlan(committed, target).value;
      && (forall p :: p in parts <==> p.position == Absent && committed.Parsed().value < p.day <= target.Parsed().value)
      && (forall i, j :: 0 <= i < j < |parts| ==> parts[i].day < parts[j].day)
  {
    hide Parse, Iso;
    var parts := DatePlan(committed, target).value;
    forall p: Partition | p.position == Absent && committed.Parsed().value < p.day <= target.Parsed().value
      ensures p in parts
    {
      assert parts[p.day - committed.Parsed().value - 1] == p;
    }
  }

  /** Resuming from any partition's watermark continues with exactly the partitions after it. */
  lemma DateResume(committed: Watermark, target: Watermark, k: nat)
    requires DatePlan(committed, target).Ok? && k < |DatePlan(committed, target).value|
    ensures var parts := DatePlan(committed, target).value;
      DatePlan(Plain(parts[k].day), target) == Ok(parts[k + 1..])
  {
    hide Parse, Iso;
    var parts := DatePlan(committed, target).value;
    IsoParsed(parts[k].day);
    assert DaysFrom(parts[k].day + 1, target.Parsed().value + 1) == parts[k + 1..];
  }

  /** A plan through an intermediate day is the two plans in sequence. */
  lemma DateSplit(committed: Watermark, middle: Day, target: Watermark)
    requires DatePlan(committed, target).Ok? && committed.Parsed().value <= middle <= target.Parsed().value
    ensures DatePlan(committed, Plain(middle)).Ok? && DatePlan(Plain(middle), target).Ok?
    ensures DatePlan(committed, target).value
      == DatePlan(committed, Plain(middle)).value + DatePlan(Plain(middle), target).value
  {
    hide Parse, Iso;
    IsoParsed(middle);
    assert DaysFrom(committed.Parsed().value + 1, target.Parsed().value + 1)
        == DaysFrom(committed.Parsed().value + 1, middle + 1) + DaysFrom(middle + 1, target.Parsed().value + 1);
  }

  // ---------------------------------------------------------------- one partition per day and announced instrument

  /** The constructor's sorted, duplicate-free, non-empty instrument list; only the order's being fixed matters here. */
  predicate Normalized(ids: seq<Id>) {
    ids != [] && forall i, j :: 0 <= i < j < |ids| ==> ids[i] != ids[j]
  }

  function IndexOf(ids: seq<Id>, id: Id): (i: nat)
    requires id in ids
    ensures i < |ids| && ids[i] == id
  {
    if ids[0] == id then 0 else 1 + IndexOf(ids[1..], id)
  }

  /** All (day, instrument) pairs on one line, day by day. */
  function Slot(day: Day, index: nat, count: nat): int {
    day * count + index
  }

  lemma SlotParts(day: Day, index: nat, count: nat)
    requires index < count
    ensures Slot(day, index, count) / count == day && Slot(day, index, count) % count == index
  {
    var s := Slot(day, index, count);
    var q, r := s / count, s % count;
    assert s == q * count + r;
    assert (q - day) * count == index - r;
    OnlyZeroMultiple(q - day, count);
  }

  lemma OnlyZeroMultiple(x: int, count: int)
    requires -count < x * count < count
    ensures x == 0
  {
  }

  function PartitionAt(ids: seq<Id>, slot: int): Partition
    requires ids != []
  {
    Partition(slot / |ids|, Text(ids[slot % |ids|]))
  }

  function Line(ids: seq<Id>, first: int, end: int): seq<Partition>
    requires ids != []
  {
    seq(if first < end then end - first else 0, i => PartitionAt(ids, first + i))
  }

  /** The last slot a committed watermark covers. */
  function Cursor(ids: seq<Id>, w: Watermark): int
    requires ids != [] && w.Parsed().Some? && (w.position.Text? ==> w.position.text in ids)
  {
    Slot(w.Parsed().value, if w.position.Text? then IndexOf(ids, w.position.text) else |ids| - 1, |ids|)
  }

  function AnnouncementPlan(ids: seq<Id>, committed: Watermark, target: Watermark): Result<seq<Partition>>
    requires ids != []
  {
    if committed.Parsed().None? || target.Parsed().None? || target.Parsed().value < committed.Parsed().value
      then Err(InvalidInput)
    else if LAST_DAY <= committed.Parsed().value then Err(DateOverflow)
    else if committed.position.NotText? || (committed.position.Text? && committed.position.text !in ids)
      then Err(InvalidInput)
    else if LAST_DAY <= target.Parsed().value then Err(DateOverflow)
    else Ok(Line(ids, Cursor(ids, committed) + 1, Slot(target.Parsed().value + 1, 0, |ids|)))
  }

  /**
   * An announcement plan fails exactly when a date does not read, the target lies before the committed day, the
   * committed instrument is unknown, or no day follows the target; a committed last day is noticed before an unknown
   * instrument.
   */
  lemma AnnouncementPlanFails(ids: seq<Id>, committed: Watermark, target: Watermark)
    requires ids != []
    ensures var ordered := committed.Parsed().Some? && target.Parsed().Some?
        && committed.Parsed().value <= target.Parsed().value;
      var known := committed.position == Absent || (committed.position.Text? && committed.position.text in ids);
      var r := AnnouncementPlan(ids, committed, target);
      && (r == Err(DateOverflow) <==>
        ordered && (committed.Parsed().value == LAST_DAY || (known && target.Parsed().value == LAST_DAY)))
      && (r == Err(InvalidInput) <==> !ordered || (!known && committed.Parsed().value != LAST_DAY))
      && (r.Err? ==> r.error in {InvalidInput, DateOverflow})
  {
    hide Parse;
  }

  method AnnouncementPartitions(ids: seq<Id>, committed: Watermark,
      target: Watermark) returns (r: Result<seq<Partition>>)
    requires Normalized(ids)
    ensures r == AnnouncementPlan(ids, committed, target)
  {
    hide Parse, Iso;
    if committed.Parsed().None? || target.Parsed().None? || committed.Parsed().value > target.Parsed().value {
      return Err(InvalidInput);
    }
    var next := NextDay(committed.Parsed().value);
    if next.None? {
      return Err(DateOverflow);
    }
    var startDay, startIndex: nat := next.value, 0;
    if committed.position != Absent {
      if committed.position.NotText? || committed.position.text !in ids {
        return Err(InvalidInput);
      }
      startIndex := IndexOf(ids, committed.position.text) + 1;
      startDay := committed.Parsed().value;
    }
    var result: seq<Partition> := [];
    var current := startDay;
    ghost var first := Slot(startDay, startIndex, |ids|);
    SlotNext(committed.Parsed().value, |ids|);
    assert first == Cursor(ids, committed) + 1;
    while current <= target.Parsed().value
      invariant startDay <= current <= target.Parsed().value + 1 && current <= LAST_DAY
      invariant startDay == committed.Parsed().value || startIndex == 0
      invariant 0 <= startIndex <= |ids| && (current != startDay ==> startIndex == 0)
      invariant result == Line(ids, first, Slot(current, startIndex, |ids|))
      invariant first <= Slot(current, startIndex, |ids|)
    {
      for i := startIndex to |ids|
        invariant result == Line(ids, first, Slot(current, i, |ids|)) && first <= Slot(current, i, |ids|)
      {
        LineGrows(ids, first, current, i);
        result := result + [Partition(current, Text(ids[i]))];
      }
      SlotNext(current, |ids|);
      startIndex := 0;
      next := NextDay(current);
      if next.None? {
        return Err(DateOverflow);
      }
      current := next.value;
    }
    return Ok(result);
  }

  lemma SlotNext(day: Day, count: nat)
    ensures Slot(day + 1, 0, count) == Slot(day, count, count)
  {
  }

  lemma LineGrows(ids: seq<Id>, first: int, day: Day, index: nat)
    requires index < |ids| && first <= Slot(day, index, |ids|)
    ensures Line(ids, first, Slot(day, index + 1, |ids|))
      == Line(ids, first, Slot(day, index, |ids|)) + [Partition(day, Text(ids[index]))]
  {
    SlotParts(day, index, |ids|);
    var s := Slot(day, index, |ids|);
    assert Slot(day, index + 1, |ids|) == s + 1;
    hide Slot;
    assert PartitionAt(ids, s) == Partition(day, Text(ids[index]));
    assert Line(ids, first, s + 1) == Line(ids, first, s) + [PartitionAt(ids, s)];
  }

  lemma IndexOfAt(ids: seq<Id>, i: nat)
    requires Normalized(ids) && i < |ids|
    ensures IndexOf(ids, ids[i]) == i
  {
    assert ids[IndexOf(ids, ids[i])] == ids[i];
  }

  /** The watermark that committing one partition leaves. */
  function AnnouncementWatermark(ids: seq<Id>, p: Partition): Result<Watermark>
    requires ids != []
  {
    if !p.position.Text? || p.position.text !in ids then Err(InvalidInput)
    else if p.position.text == ids[|ids| - 1] then Ok(Plain(p.day))
    else Ok(Watermark(Some(Iso(p.day)), p.position, map[]))
  }

  /** Committing a partition moves the cursor to exactly that partition's slot. */
  lemma WatermarkCursor(ids: seq<Id>, slot: int)
    requires Normalized(ids) && 1 <= slot / |ids| <= LAST_DAY
    ensures var p := PartitionAt(ids, slot);
      && AnnouncementWatermark(ids, p).Ok?
      && var w := AnnouncementWatermark(ids, p).value;
      w.Parsed() == Some(p.day) && !w.position.NotText? && (w.position.Text? ==> w.position.text in ids)
        && Cursor(ids, w) == slot
  {
    hide Parse, Iso;
    var i := slot % |ids|;
    IndexOfAt(ids, i);
    assert slot == Slot(slot / |ids|, i, |ids|);
    IsoParsed(slot / |ids|);
    hide Slot;
    if ids[i] == ids[|ids| - 1] {
      IndexOfAt(ids, |ids| - 1);
    }
  }

  lemma DayOfSlot(slot: int, day: Day, count: nat)
    requires 0 < count && slot < Slot(day + 1, 0, count)
    ensures slot / count <= day
  {
    assert slot / count * count <= slot;
  }

  lemma DayFromSlot(slot: int, day: Day, count: nat)
    requires 0 < count && Slot(day, 0, count) <= slot
    ensures day <= slot / count
  {
    var q := slot / count;
    assert slot < q * count + count;
    assert (q + 1 - day) * count == q * count + count - day * count;
  }

  /** Resuming from any partition's watermark, mid-day or not, continues with exactly the partitions after it. */
  lemma AnnouncementResume(ids: seq<Id>, committed: Watermark, target: Watermark, k: nat)
    requires Normalized(ids) && AnnouncementPlan(ids, committed, target).Ok?
    requires k < |AnnouncementPlan(ids, committed, target).value|
    ensures var parts := AnnouncementPlan(ids, committed, target).value;
      && AnnouncementWatermark(ids, parts[k]).Ok?
      && AnnouncementPlan(ids, AnnouncementWatermark(ids, parts[k]).value, target) == Ok(parts[k + 1..])
  {
    hide Slot, PartitionAt, Cursor, AnnouncementWatermark, Parse, Iso;
    var first, end := Cursor(ids, committed) + 1, Slot(target.Parsed().value + 1, 0, |ids|);
    var parts := Line(ids, first, end);
    var slot := first + k;
    assert parts[k] == PartitionAt(ids, slot);
    PartitionDay(ids, slot);
    DayOfSlot(slot, target.Parsed().value, |ids|);
    CursorFrom(ids, committed);
    DayFromSlot(slot, committed.Parsed().value, |ids|);
    WatermarkCursor(ids, slot);
    assert Line(ids, slot + 1, end) == parts[k + 1..];
  }

  lemma CursorFrom(ids: seq<Id>, w: Watermark)
    requires ids != [] && w.Parsed().Some? && (w.position.Text? ==> w.position.text in ids)
    ensures Slot(w.Parsed().value, 0, |ids|) <= Cursor(ids, w)
  {
    hide Parse;
  }

  lemma PartitionDay(ids: seq<Id>, slot: int)
    requires ids != []
    ensures PartitionAt(ids, slot).day == slot / |ids|
  {
  }

  predicate OnLine(ids: seq<Id>, p: Partition) {
    p.position.Text? && p.position.text in ids
  }

  function SlotOf(ids: seq<Id>, p: Partition): int
    requires OnLine(ids, p)
  {
    Slot(p.day, IndexOf(ids, p.position.text), |ids|)
  }

  lemma SlotOfAt(ids: seq<Id>, slot: int)
    requires Normalized(ids)
    ensures OnLine(ids, PartitionAt(ids, slot)) && SlotOf(ids, PartitionAt(ids, slot)) == slot
  {
    IndexOfAt(ids, slot % |ids|);
    assert slot == Slot(slot / |ids|, slot % |ids|, |ids|);
    hide Slot;
  }

  lemma AtSlotOf(ids: seq<Id>, p: Partition)
    requires Normalized(ids) && OnLine(ids, p)
    ensures PartitionAt(ids, SlotOf(ids, p)) == p
  {
    SlotParts(p.day, IndexOf(ids, p.position.text), |ids|);
    hide Slot;
  }

  /**
   * The plan is contiguous: its i-th pair sits i + 1 slots after the cursor, so days and instruments strictly increase.
   */
  lemma AnnouncementOrder(ids: seq<Id>, committed: Watermark, target: Watermark, i: nat)
    requires Normalized(ids) && AnnouncementPlan(ids, committed, target).Ok?
    requires i < |AnnouncementPlan(ids, committed, target).value|
    ensures var p := AnnouncementPlan(ids, committed, target).value[i];
      OnLine(ids, p) && SlotOf(ids, p) == Cursor(ids, committed) + 1 + i
  {
    hide Slot, PartitionAt, Cursor, SlotOf, OnLine;
    SlotOfAt(ids, Cursor(ids, committed) + 1 + i);
  }

  /** The plan holds exactly the (day, instrument) pairs after the cursor up to the target day. */
  lemma AnnouncementCovers(ids: seq<Id>, committed: Watermark, target: Watermark, p: Partition)
    requires Normalized(ids) && AnnouncementPlan(ids, committed, target).Ok?
    ensures p in AnnouncementPlan(ids, committed, target).value <==>
      OnLine(ids, p) && Cursor(ids, committed) < SlotOf(ids, p) && p.day <= target.Parsed().value
  {
    hide Parse, Iso;
    var first, end := Cursor(ids, committed) + 1, Slot(target.Parsed().value + 1, 0, |ids|);
    var parts := Line(ids, first, end);
    if OnLine(ids, p) {
      SlotBefore(p.day, IndexOf(ids, p.position.text), |ids|, target.Parsed().value);
      var s := SlotOf(ids, p);
      AtSlotOf(ids, p);
      hide Slot, PartitionAt, Cursor, SlotOf, OnLine;
      if first <= s < end {
        assert parts[s - first] == p;
      }
      forall i | 0 <= i < |parts| && parts[i] == p
        ensures s == first + i
      {
        SlotOfAt(ids, first + i);
      }
    } else {
      hide Slot, PartitionAt, Cursor, SlotOf, OnLine;
      forall i | 0 <= i < |parts|
        ensures parts[i] != p
      {
        SlotOfAt(ids, first + i);
      }
    }
  }

  lemma SlotBefore(day: Day, index: nat, count: nat, last: Day)
    requires index < count
    ensures Slot(day, index, count) < Slot(last + 1, 0, count) <==> day <= last
  {
    assert Slot(last + 1, 0, count) - Slot(day, index, count) == (last - day) * count + count - index;
  }

  /** A plan through an intermediate day is the two plans in sequence. */
  lemma AnnouncementSplit(ids: seq<Id>, committed: Watermark, middle: Day, target: Watermark)
    requires Normalized(ids) && AnnouncementPlan(ids, committed, target).Ok?
    requires committed.Parsed().value <= middle <= target.Parsed().value
    ensures AnnouncementPlan(ids, committed, Plain(middle)).Ok? && AnnouncementPlan(ids, Plain(middle), target).Ok?
    ensures AnnouncementPlan(ids, committed, target).value
         == AnnouncementPlan(ids, committed, Plain(middle)).value + AnnouncementPlan(ids, Plain(middle), target).value
  {
    hide Slot, PartitionAt, IndexOf, Parse, Iso;
    IsoParsed(middle);
    SlotNext(middle, |ids|);
    var cursor, cut, end :=
      Cursor(ids, committed), Slot(middle + 1, 0, |ids|), Slot(target.Parsed().value + 1, 0, |ids|);
    PlainCursor(ids, middle);
    CursorBefore(ids, committed, middle);
    SlotOrder(middle, target.Parsed().value, |ids|);
    hide Cursor;
    LineSplit(ids, cursor + 1, cut, end);
  }

  lemma PlainCursor(ids: seq<Id>, day: Day)
    requires ids != [] && 1 <= day <= LAST_DAY
    ensures Plain(day).Parsed() == Some(day) && Cursor(ids, Plain(day)) + 1 == Slot(day + 1, 0, |ids|)
  {
    hide Parse, Iso;
    IsoParsed(day);
    SlotNext(day, |ids|);
  }

  lemma CursorBefore(ids: seq<Id>, w: Watermark, day: Day)
    requires ids != [] && w.Parsed().Some? && (w.position.Text? ==> w.position.text in ids) && w.Parsed().value <= day
    ensures Cursor(ids, w) < Slot(day + 1, 0, |ids|)
  {
    var index := if w.position.Text? then IndexOf(ids, w.position.text) else |ids| - 1;
    SlotBefore(w.Parsed().value, index, |ids|, day);
    hide Slot;
  }

  lemma LineSplit(ids: seq<Id>, first: int, cut: int, end: int)
    requires ids != [] && first <= cut <= end
    ensures Line(ids, first, end) == Line(ids, first, cut) + Line(ids, cut, end)
  {
    hide PartitionAt;
  }

  lemma SlotOrder(a: Day, b: Day, count: nat)
    requires a <= b
    ensures Slot(a, count, count) <= Slot(b + 1, 0, count) && Slot(a + 1, 0, count) <= Slot(b + 1, 0, count)
  {
    assert Slot(b + 1, 0, count) - Slot(a, count, count) == (b - a) * count;
  }

  // ---------------------------------------------------------------- instrument master snapshots

  const STATUSES: seq<Id> := ["L", "D", "P"]

  function Snapshots(day: Day, start: nat): seq<Partition>
    requires start <= |STATUSES|
  {
    seq(|STATUSES| - start, i requires 0 <= i < |STATUSES| - start => Partition(day, Text(STATUSES[start + i])))
  }

  function InstrumentPlan(stock: bool, committed: Watermark, target: Watermark): Result<seq<Partition>> {
    if target.Parsed().None? then Err(InvalidInput)
    else if committed == target then Ok([])
    else if !stock then Ok([Partition(target.Parsed().value, Absent)])
    else if committed.date == Some(Iso(target.Parsed().value)) && committed.position.Text? then
      if committed.position.text in STATUSES
        then Ok(Snapshots(target.Parsed().value, IndexOf(STATUSES, committed.position.text) + 1))
      else Err(InvalidInput)
    else Ok(Snapshots(target.Parsed().value, 0))
  }

  function InstrumentWatermark(stock: bool, p: Partition): Result<Watermark> {
    if !stock then Ok(Plain(p.day))
    else if !p.position.Text? || p.position.text !in STATUSES then Err(InvalidInput)
    else if p.position.text != STATUSES[|STATUSES| - 1] then Ok(Watermark(Some(Iso(p.day)), p.position, map[]))
    else Ok(Plain(p.day))
  }

  /** The resume law at one partition of an instrument plan. */
  predicate Resumes(stock: bool, committed: Watermark, target: Watermark, k: nat)
    requires InstrumentPlan(stock, committed, target).Ok? && k < |InstrumentPlan(stock, committed, target).value|
  {
    var parts := InstrumentPlan(stock, committed, target).value;
    && InstrumentWatermark(stock, parts[k]).Ok?
    && InstrumentPlan(stock, InstrumentWatermark(stock, parts[k]).value, target) == Ok(parts[k + 1..])
  }

  lemma SnapshotAt(day: Day, start: nat, k: nat)
    requires start + k < |STATUSES|
    ensures var i := start + k;
      && Snapshots(day, start)[k] == Partition(day, Text(STATUSES[i])) && STATUSES[i] in STATUSES
      && IndexOf(STATUSES, STATUSES[i]) == i
      && Snapshots(day, start)[k + 1..] == Snapshots(day, i + 1)
      && (STATUSES[i] == STATUSES[|STATUSES| - 1] <==> i == |STATUSES| - 1)
  {
    var i := start + k;
    assert STATUSES[0] == "L" && STATUSES[1] == "D" && STATUSES[2] == "P";
    assert STATUSES[0][0] == 'L' && STATUSES[1][0] == 'D' && STATUSES[2][0] == 'P';
    IndexOfAt(STATUSES, i);
    assert Snapshots(day, start)[k + 1..] == Snapshots(day, i + 1);
  }

  /**
   * Resuming at partition k works exactly when the target is not mistaken for its watermark too early, nor for another
   * one at the end.
   */
  lemma InstrumentResume(stock: bool, committed: Watermark, target: Watermark, k: nat)
    requires InstrumentPlan(stock, committed, target).Ok? && k < |InstrumentPlan(stock, committed, target).value|
    ensures var parts := InstrumentPlan(stock, committed, target).value;
      && InstrumentWatermark(stock, parts[k]).Ok?
      && var w := InstrumentWatermark(stock, parts[k]).value;
      Resumes(stock, committed, target, k) <==> (if k + 1 < |parts| then target != w else target == w)
  {
    hide Parse, Iso;
    var parts := InstrumentPlan(stock, committed, target).value;
    if stock {
      var day := target.Parsed().value;
      var start := |STATUSES| - |parts|;
      assert parts == Snapshots(day, start);
      SnapshotAt(day, start, k);
      assert |Snapshots(day, 0)| == |STATUSES| && |Snapshots(day, start + k + 1)| == |parts| - k - 1;
      hide Snapshots, IndexOf;
    } else {
      assert parts[k + 1..] == [];
    }
  }

  /** So the law holds at every partition exactly for a target that is just a date, as the sync pipeline builds it. */
  lemma InstrumentResumesAlways(stock: bool, committed: Watermark, target: Watermark)
    requires InstrumentPlan(stock, committed, target).Ok? && InstrumentPlan(stock, committed, target).value != []
    ensures var parts := InstrumentPlan(stock, committed, target).value;
      (forall k :: 0 <= k < |parts| ==> Resumes(stock, committed, target, k)) <==>
        target == Plain(target.Parsed().value)
  {
    hide Parse, Iso;
    var parts := InstrumentPlan(stock, committed, target).value;
    forall k | 0 <= k < |parts|
      ensures InstrumentWatermark(stock, parts[k]).Ok?
      ensures Resumes(stock, committed, target, k) <==>
        (k + 1 < |parts| <==> target != InstrumentWatermark(stock, parts[k]).value)
    {
      InstrumentResume(stock, committed, target, k);
    }
    forall k | 0 <= k < |parts|
      ensures InstrumentWatermark(stock, parts[k]).Ok?
      ensures InstrumentWatermark(stock, parts[k]).value == Plain(target.Parsed().value) <==> k == |parts| - 1
    {
      WatermarkPlain(stock, committed, target, k);
    }
    hide Resumes, InstrumentWatermark, InstrumentPlan;
    assert Resumes(stock, committed, target, |parts| - 1) <==>
      target == InstrumentWatermark(stock, parts[|parts| - 1]).value;
  }

  const NOTHING := Watermark(None, Absent, map[])

  /** With one more key in the target the committed snapshot is fetched again, forever. */
  lemma ExtraKeyRepeats(day: Day)
    requires 1 <= day <= LAST_DAY
    ensures var target := Plain(day).(other := map["run" := "1"]);
      && InstrumentPlan(false, NOTHING, target) == Ok([Partition(day, Absent)])
      && InstrumentWatermark(false, Partition(day, Absent)) == Ok(Plain(day))
      && InstrumentPlan(false, Plain(day), target) == Ok([Partition(day, Absent)])
  {
    hide Parse, Iso;
    IsoParsed(day);
    assert "run" in map["run" := "1"] && "run" !in Plain(day).other;
  }

  /**
   * So it is when the target's date is written without separators: it parses, but is not the text a watermark is
   * written with.
   */
  lemma CompactDateRepeats()
    ensures var day, target := Ordinal(2024, 1, 5), Watermark(Some("20240105"), Absent, map[]);
      && target.Parsed() == Some(day)
      && InstrumentPlan(false, NOTHING, target) == Ok([Partition(day, Absent)])
      && InstrumentWatermark(false, Partition(day, Absent)) == Ok(Plain(day))
      && InstrumentPlan(false, Plain(day), target) == Ok([Partition(day, Absent)])
      && InstrumentPlan(true, Plain(day), target) == Ok(Snapshots(day, 0))
  {
    hide Parse, Iso, Ordinal, Snapshots;
    CompactJanuaryFifth();
    IsoParsed(Ordinal(2024, 1, 5));
    IsoLength(Ordinal(2024, 1, 5));
  }

  lemma IsoLength(day: Day)
    requires 1 <= day <= LAST_DAY
    ensures |Iso(day)| == 10
  {
    hide DateOf;
  }

  lemma JanuaryFifth()
    ensures 1 <= Ordinal(2024, 1, 5) <= LAST_DAY && 5 <= DaysInMonth(2024, 1)
  {
  }

  lemma CompactJanuaryFifth()
    ensures Parse("20240105") == Some(Ordinal(2024, 1, 5))
  {
    hide Number, CalendarDate, Parse, Ordinal, DaysInMonth;
    var t := "20240105";
    assert t[..4] == Two(20) + Two(24) == Four(2024) && t[4..6] == Two(1) && t[6..8] == Two(5);
    JanuaryFifth();
    DateParts(2024, 1, 5);
    CompactRead(t);
  }

  lemma WatermarkPlain(stock: bool, committed: Watermark, target: Watermark, k: nat)
    requires InstrumentPlan(stock, committed, target).Ok? && k < |InstrumentPlan(stock, committed, target).value|
    ensures var parts := InstrumentPlan(stock, committed, target).value;
      && InstrumentWatermark(stock, parts[k]).Ok?
      && (InstrumentWatermark(stock, parts[k]).value == Plain(target.Parsed().value) <==> k == |parts| - 1)
  {
    hide Parse, Iso;
    var parts := InstrumentPlan(stock, committed, target).value;
    if stock {
      var start := |STATUSES| - |parts|;
      assert parts == Snapshots(target.Parsed().value, start);
      SnapshotAt(target.Parsed().value, start, k);
      hide Snapshots, IndexOf;
    }
  }
}
