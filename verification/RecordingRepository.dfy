/** The in-memory index of recordings and motion events (src/store/InMemoryRecordingRepository.cpp, src/store/Ids.hpp). */
module RecordingRepository {
  import opened Text
  import opened Recording
  import opened Sorting

  // ---------------------------------------------------------------- identifiers

  const SEGMENT_PREFIX := "5e600001"
  const EVENT_PREFIX := "30110001"

  function MakeId(prefix: string, counter: nat): string {
    prefix + "-0000-4000-8000-" + PaddedHex(counter, 12)
  }

  lemma IdsDiffer(prefix: string, m: nat, n: nat)
    requires MakeId(prefix, m) == MakeId(prefix, n)
    ensures m == n
  {
    var start := |prefix + "-0000-4000-8000-"|;
    assert MakeId(prefix, m)[start..] == PaddedHex(m, 12) && MakeId(prefix, n)[start..] == PaddedHex(n, 12);
    HexReadsBack(m, |PaddedHex(m, 12)| - |Hex(m)|);
    HexReadsBack(n, |PaddedHex(n, 12)| - |Hex(n)|);
  }

  ghost predicate Issued(prefix: string, id: string, counter: nat) {
    exists n: nat :: n < counter && id == MakeId(prefix, n)
  }

  lemma NextIsNew(prefix: string, counter: nat)
    ensures !Issued(prefix, MakeId(prefix, counter), counter)
    ensures Issued(prefix, MakeId(prefix, counter), counter + 1)
  {
    forall n: nat | n < counter ensures MakeId(prefix, counter) != MakeId(prefix, n) {
      if MakeId(prefix, counter) == MakeId(prefix, n) { IdsDiffer(prefix, counter, n); }
    }
  }

  // ---------------------------------------------------------------- one list, keyed by path

  /** What the repository stands for: a row for each path, and the next identifier. */
  datatype Table = Table(rows: map<string, Segment>, next: nat)

  const Empty := Table(map[], 1)

  datatype Op = Upsert(segment: Segment) | Remove(ids: seq<string>)

  /** A later message about a file keeps its row's id, and never takes motion away. */
  function Merged(row: Segment, segment: Segment): Segment {
    segment.(id := row.id, hasMotion := row.hasMotion || segment.hasMotion,
             motionEventId := if segment.motionEventId == "" then row.motionEventId else segment.motionEventId)
  }

  function Next(t: Table, op: Op): Table {
    match op
    case Upsert(segment) =>
      if segment.path == "" then t
      else if segment.path in t.rows then t.(rows := t.rows[segment.path := Merged(t.rows[segment.path], segment)])
      else Table(t.rows[segment.path := segment.(id := MakeId(SEGMENT_PREFIX, t.next))], t.next + 1)
    case Remove(ids) => t.(rows := map p | p in t.rows && t.rows[p].id !in ids :: t.rows[p])
  }

  function Run(ops: seq<Op>): Table {
    if ops == [] then Empty else Next(Run(ops[..|ops| - 1]), ops[|ops| - 1])
  }

  ghost predicate RowOk(t: Table, p: string)
    requires p in t.rows
  {
    t.rows[p].path == p && p != "" && Issued(SEGMENT_PREFIX, t.rows[p].id, t.next)
  }

  ghost predicate TableOk(t: Table) {
    && (forall p :: p in t.rows ==> RowOk(t, p))
    && (forall p, q :: p in t.rows && q in t.rows && t.rows[p].id == t.rows[q].id ==> p == q)
  }

  lemma NextOk(t: Table, op: Op)
    requires TableOk(t)
    ensures TableOk(Next(t, op)) && t.next <= Next(t, op).next
  {
    hide MakeId;
    NextIsNew(SEGMENT_PREFIX, t.next);
    var u := Next(t, op);
    forall p | p in u.rows ensures RowOk(u, p) { if p in t.rows { assert RowOk(t, p); } }
    forall p, q | p in u.rows && q in u.rows && u.rows[p].id == u.rows[q].id ensures p == q {
      if p in t.rows { assert RowOk(t, p); }
      if q in t.rows { assert RowOk(t, q); }
    }
  }

  lemma {:induction false} AlwaysOk(ops: seq<Op>)
    ensures TableOk(Run(ops))
  {
    if ops != [] {
      AlwaysOk(ops[..|ops| - 1]);
      NextOk(Run(ops[..|ops| - 1]), ops[|ops| - 1]);
    }
  }

  /** The row with this id, wherever it is in a later table. */
  ghost predicate SameRowLater(row: Segment, t: Table) {
    && (forall p :: p in t.rows && t.rows[p].id == row.id ==>
                      p == row.path && (row.hasMotion ==> t.rows[p].hasMotion)
                      && (row.motionEventId != "" ==> t.rows[p].motionEventId != ""))
    && Issued(SEGMENT_PREFIX, row.id, t.next)
  }

  lemma LaterStep(row: Segment, t: Table, op: Op)
    requires SameRowLater(row, t)
    ensures SameRowLater(row, Next(t, op))
  {
    hide MakeId;
    NextIsNew(SEGMENT_PREFIX, t.next);
    if op.Upsert? && op.segment.path in t.rows {
      hide Merged;
    }
  }

  /** An id stands for one file for ever: whatever happens after a row is stored, a row with its id
      is that file's row, and once it has motion it has it as long as it exists. The id is not given
      out again even after the row is removed. */
  lemma {:induction false} IdsAreForEver(ops: seq<Op>, i: nat, p: string)
    requires i <= |ops| && p in Run(ops[..i]).rows
    ensures SameRowLater(Run(ops[..i]).rows[p], Run(ops))
    decreases |ops| - i, |ops|
  {
    AlwaysOk(ops[..i]);
    assert RowOk(Run(ops[..i]), p);
    if i == |ops| {
      assert ops[..i] == ops;
    } else {
      var before := ops[..|ops| - 1];
      assert before[..i] == ops[..i];
      IdsAreForEver(before, i, p);
      LaterStep(Run(ops[..i]).rows[p], Run(before), ops[|ops| - 1]);
    }
  }

  /** A removed row does not come back: the file's next row, if any, has another id. */
  lemma {:induction false} RemovedIdsStayGone(ops: seq<Op>, i: nat, row: Segment)
    requires i <= |ops| && Issued(SEGMENT_PREFIX, row.id, Run(ops[..i]).next)
    requires forall p :: p in Run(ops[..i]).rows ==> Run(ops[..i]).rows[p].id != row.id
    ensures Issued(SEGMENT_PREFIX, row.id, Run(ops).next)
    ensures forall p :: p in Run(ops).rows ==> Run(ops).rows[p].id != row.id
    decreases |ops| - i, |ops|
  {
    if i == |ops| {
      assert ops[..i] == ops;
    } else {
      var before := ops[..|ops| - 1];
      assert before[..i] == ops[..i];
      RemovedIdsStayGone(before, i, row);
      GoneStep(row, Run(before), ops[|ops| - 1]);
    }
  }

  lemma GoneStep(row: Segment, t: Table, op: Op)
    requires Issued(SEGMENT_PREFIX, row.id, t.next) && forall p :: p in t.rows ==> t.rows[p].id != row.id
    ensures Issued(SEGMENT_PREFIX, row.id, Next(t, op).next)
    ensures forall p :: p in Next(t, op).rows ==> Next(t, op).rows[p].id != row.id
  {
    hide MakeId;
    NextIsNew(SEGMENT_PREFIX, t.next);
  }

  // ---------------------------------------------------------------- what a row holds

  /** Message `m` is about the file at `p`. */
  predicate About(ops: seq<Op>, m: nat, p: string)
    requires m < |ops|
  {
    ops[m].Upsert? && ops[m].segment.path == p
  }

  /** The file's row was made by message `b` and has stood ever since. */
  ghost predicate StandsSince(ops: seq<Op>, b: nat, n: nat, p: string)
    requires b < n <= |ops|
  {
    p !in Run(ops[..b]).rows && About(ops, b, p) && forall m :: b < m <= n ==> p in Run(ops[..m]).rows
  }

  /** The last message about the file before `n`. */
  ghost predicate LastAbout(ops: seq<Op>, l: nat, n: nat, p: string)
    requires l < n <= |ops|
  {
    About(ops, l, p) && forall m :: l < m < n ==> !About(ops, m, p)
  }

  /** What the messages from `b` on add up to: motion if any of them had it, and the last motion
      event any of them named. */
  ghost predicate AddsUp(ops: seq<Op>, b: nat, n: nat, p: string, row: Segment)
    requires b < n <= |ops|
  {
    && (row.hasMotion <==> exists m :: b <= m < n && About(ops, m, p) && ops[m].segment.hasMotion)
    && (row.motionEventId == "" ==> forall m :: b <= m < n && About(ops, m, p) ==> ops[m].segment.motionEventId == "")
    && (row.motionEventId != "" ==> exists m :: Names(ops, b, n, p, m, row.motionEventId))
  }

  /** Message `m` names this motion event, and none after it names another. */
  ghost predicate Names(ops: seq<Op>, b: nat, n: nat, p: string, m: int, event: string)
    requires b < n <= |ops|
  {
    && b <= m < n && About(ops, m, p) && ops[m].segment.motionEventId == event
    && forall k :: m < k < n && About(ops, k, p) ==> ops[k].segment.motionEventId == ""
  }

  /** Over every run: a file's row is the last message about the file, under the id its first message
      was given, with all that was ever said of its motion since. */
  lemma {:induction false} RowIs(ops: seq<Op>, n: nat, p: string) returns (b: nat, l: nat)
    requires n <= |ops| && p in Run(ops[..n]).rows
    ensures b <= l < n && StandsSince(ops, b, n, p) && LastAbout(ops, l, n, p)
    ensures var row := Run(ops[..n]).rows[p];
            && row == ops[l].segment.(id := MakeId(SEGMENT_PREFIX, Run(ops[..b]).next),
                                      hasMotion := row.hasMotion, motionEventId := row.motionEventId)
            && AddsUp(ops, b, n, p, row)
  {
    hide MakeId;
    hide Run;
    hide Next;
    hide AddsUp;
    hide Merged;
    hide StandsSince;
    NoRows(ops);
    RunNext(ops, n - 1);
    var t, op := Run(ops[..n - 1]), ops[n - 1];
    RowHasPath(ops[..n], p);
    RowFrom(t, op, p);
    if p !in t.rows {
      b, l := n - 1, n - 1;
      FirstStands(ops, n, p);
      FirstAddsUp(ops, n, p, MakeId(SEGMENT_PREFIX, t.next));
    } else {
      b, l := RowIs(ops, n - 1, p);
      StandsOn(ops, b, n, p);
      MoreAddsUp(ops, b, n, p, t.rows[p]);
      if About(ops, n - 1, p) { l := n - 1; }
      MergedIs(t.rows[p], ops[l].segment);
    }
  }

  lemma RowHasPath(ops: seq<Op>, p: string)
    requires p in Run(ops).rows
    ensures p != ""
  {
    AlwaysOk(ops);
    assert RowOk(Run(ops), p);
  }

  lemma NoRows(ops: seq<Op>)
    ensures Run(ops[..0]).rows == map[]
  {
  }

  lemma RowFrom(t: Table, op: Op, p: string)
    requires p in Next(t, op).rows && p != ""
    ensures var row, about := Next(t, op).rows[p], op.Upsert? && op.segment.path == p;
            if p !in t.rows then about && row == op.segment.(id := MakeId(SEGMENT_PREFIX, t.next))
            else row == if about then Merged(t.rows[p], op.segment) else t.rows[p]
  {
    hide MakeId;
    hide Merged;
  }

  lemma FirstStands(ops: seq<Op>, n: nat, p: string)
    requires 0 < n <= |ops| && About(ops, n - 1, p) && p !in Run(ops[..n - 1]).rows && p in Run(ops[..n]).rows
    ensures StandsSince(ops, n - 1, n, p)
  {
  }

  lemma StandsOn(ops: seq<Op>, b: nat, n: nat, p: string)
    requires b < n - 1 < |ops| && StandsSince(ops, b, n - 1, p) && p in Run(ops[..n]).rows
    ensures StandsSince(ops, b, n, p)
  {
    hide Run;
  }

  lemma RunNext(ops: seq<Op>, i: nat)
    requires i < |ops|
    ensures Run(ops[..i + 1]) == Next(Run(ops[..i]), ops[i])
  {
    assert ops[..i + 1][..i] == ops[..i];
  }

  lemma MergedIs(row: Segment, segment: Segment)
    ensures var merged := Merged(row, segment);
            merged == segment.(id := row.id, hasMotion := merged.hasMotion, motionEventId := merged.motionEventId)
  {
  }

  lemma FirstAddsUp(ops: seq<Op>, n: nat, p: string, id: string)
    requires 0 < n <= |ops| && About(ops, n - 1, p)
    ensures AddsUp(ops, n - 1, n, p, ops[n - 1].segment.(id := id))
  {
    assert Names(ops, n - 1, n, p, n - 1, ops[n - 1].segment.motionEventId);
  }

  lemma MoreAddsUp(ops: seq<Op>, b: nat, n: nat, p: string, row: Segment)
    requires b < n - 1 && n <= |ops| && AddsUp(ops, b, n - 1, p, row)
    ensures AddsUp(ops, b, n, p, if About(ops, n - 1, p) then Merged(row, ops[n - 1].segment) else row)
  {
    var after := if About(ops, n - 1, p) then Merged(row, ops[n - 1].segment) else row;
    if row.hasMotion {
      var m :| b <= m < n - 1 && About(ops, m, p) && ops[m].segment.hasMotion;
      assert About(ops, m, p);
    }
    if row.motionEventId != "" && after.motionEventId == row.motionEventId && !(About(ops, n - 1, p) && ops[n - 1].segment.motionEventId != "") {
      var m :| Names(ops, b, n - 1, p, m, row.motionEventId);
      assert Names(ops, b, n, p, m, row.motionEventId);
    } else if About(ops, n - 1, p) && ops[n - 1].segment.motionEventId != "" {
      assert Names(ops, b, n, p, n - 1, ops[n - 1].segment.motionEventId);
    }
  }

  /** Message `b` is about the file, and none after it removes the file's row. */
  ghost predicate Keeps(ops: seq<Op>, b: nat, n: nat, p: string)
    requires b < n <= |ops|
  {
    About(ops, b, p) && forall m :: b < m < n ==> !Removes(ops, m, p)
  }

  ghost predicate Kept(ops: seq<Op>, n: nat, p: string)
    requires n <= |ops|
  {
    exists b: nat :: b < n && Keeps(ops, b, n, p)
  }

  lemma KeptNext(ops: seq<Op>, n: nat, p: string)
    requires n < |ops|
    ensures Kept(ops, n + 1, p) <==> About(ops, n, p) || (Kept(ops, n, p) && !Removes(ops, n, p))
  {
    hide Removes;
    var next := n + 1;
    if b: nat :| b < next && Keeps(ops, b, next, p) {
      if b < n { assert Keeps(ops, b, n, p) && !Removes(ops, n, p); }
    }
    if About(ops, n, p) {
      assert Keeps(ops, n, n + 1, p);
    } else if Kept(ops, n, p) && !Removes(ops, n, p) {
      var b: nat :| b < n && Keeps(ops, b, n, p);
      assert Keeps(ops, b, n + 1, p);
    }
  }

  /** Which files have a row: those with a message about them that no removal of its row has followed. */
  lemma {:induction false} RowStandsExactly(ops: seq<Op>, n: nat, p: string)
    requires n <= |ops| && p != ""
    ensures p in Run(ops[..n]).rows <==> Kept(ops, n, p)
  {
    if n == 0 {
      NoRows(ops);
    } else {
      RunNext(ops, n - 1);
      RowStandsExactly(ops, n - 1, p);
      RowAfter(Run(ops[..n - 1]), ops[n - 1], p);
      KeptNext(ops, n - 1, p);
      hide Run;
      hide Next;
      hide Kept;
    }
  }

  lemma RowAfter(t: Table, op: Op, p: string)
    requires p != ""
    ensures p in Next(t, op).rows <==>
              (op.Upsert? && op.segment.path == p) || (p in t.rows && !(op.Remove? && t.rows[p].id in op.ids))
  {
    hide MakeId;
    hide Merged;
  }

  /** Message `m` removes the file's row. */
  ghost predicate Removes(ops: seq<Op>, m: nat, p: string)
    requires m < |ops|
  {
    ops[m].Remove? && p in Run(ops[..m]).rows && Run(ops[..m]).rows[p].id in ops[m].ids
  }

  // ---------------------------------------------------------------- the queries

  predicate ByEnd(a: Segment, b: Segment) { a.endMs <= b.endMs }

  /** Exactly the chosen rows, each once. */
  ghost predicate Lists(out: seq<Segment>, rows: map<string, Segment>, chosen: Segment -> bool) {
    forall s: Segment :: multiset(out)[s] == if s.path in rows && rows[s.path] == s && chosen(s) then 1 else 0
  }

  /** Two answers to the same query over the same table, in the order of starts, are the same list. */
  lemma QueryHasOneAnswer(t: Table, chosen: Segment -> bool, a: seq<Segment>, b: seq<Segment>)
    requires TableOk(t) && Lists(a, t.rows, chosen) && Lists(b, t.rows, chosen) && SortedBy(a, ByStart) && SortedBy(b, ByStart)
    ensures a == b
  {
    assert multiset(a) == multiset(b);
    forall x, y | x in a && y in a && x.id == y.id ensures x == y {
      assert multiset(a)[x] > 0 && multiset(a)[y] > 0;
      assert x.path in t.rows && y.path in t.rows;
    }
    OnlyOneListing(a, b);
  }

  // ---------------------------------------------------------------- the class

  /** A motion event; `endMs` is 0 while it is open. */
  datatype MotionEvent = MotionEvent(
    id: string, cameraId: string, startMs: int, endMs: int, maxScore: real, cells: string, gridX: int, gridY: int,
    imagePath: string)

  datatype Events = Events(rows: map<string, MotionEvent>, next: nat)

  ghost predicate IdOk(segments: map<string, Segment>, byPath: map<string, string>, next: nat, id: string)
    requires id in segments
  {
    var row := segments[id];
    row.id == id && row.path != "" && row.path in byPath && byPath[row.path] == id && Issued(SEGMENT_PREFIX, id, next)
  }

  ghost predicate PathOk(segments: map<string, Segment>, byPath: map<string, string>, p: string)
    requires p in byPath
  {
    byPath[p] in segments && segments[byPath[p]].path == p
  }

  /** The two maps are inverses of each other. */
  ghost predicate Inverses(segments: map<string, Segment>, byPath: map<string, string>, next: nat) {
    && (forall id :: id in segments ==> IdOk(segments, byPath, next, id))
    && (forall p :: p in byPath ==> PathOk(segments, byPath, p))
  }

  ghost function TableOf(segments: map<string, Segment>, byPath: map<string, string>, next: nat): Table
    requires Inverses(segments, byPath, next)
  {
    assert forall p :: p in byPath ==> PathOk(segments, byPath, p);
    Table(map p | p in byPath :: segments[byPath[p]], next)
  }

  lemma UpdateIs(segments: map<string, Segment>, byPath: map<string, string>, next: nat, segment: Segment)
    requires Inverses(segments, byPath, next) && segment.path != "" && segment.path in byPath
    ensures byPath[segment.path] in segments
    ensures var id := byPath[segment.path];
            var updated := segments[id := Merged(segments[id], segment)];
            && Inverses(updated, byPath, next)
            && TableOf(updated, byPath, next) == Next(TableOf(segments, byPath, next), Upsert(segment))
  {
    assert PathOk(segments, byPath, segment.path);
    var id := byPath[segment.path];
    var updated := segments[id := Merged(segments[id], segment)];
    forall i | i in updated ensures IdOk(updated, byPath, next, i) { assert IdOk(segments, byPath, next, i); }
    forall p | p in byPath ensures PathOk(updated, byPath, p) { assert PathOk(segments, byPath, p); }
    var t, u := TableOf(segments, byPath, next), TableOf(updated, byPath, next);
    forall p | p in byPath && p != segment.path ensures u.rows[p] == t.rows[p] {
      assert PathOk(segments, byPath, p);
    }
    assert u.rows == t.rows[segment.path := Merged(t.rows[segment.path], segment)];
  }

  lemma InsertIs(segments: map<string, Segment>, byPath: map<string, string>, next: nat, segment: Segment)
    requires Inverses(segments, byPath, next) && segment.path != "" && segment.path !in byPath
    ensures var row := segment.(id := MakeId(SEGMENT_PREFIX, next));
            && Inverses(segments[row.id := row], byPath[row.path := row.id], next + 1)
            && TableOf(segments[row.id := row], byPath[row.path := row.id], next + 1)
               == Next(TableOf(segments, byPath, next), Upsert(segment))
  {
    hide MakeId;
    NextIsNew(SEGMENT_PREFIX, next);
    var row := segment.(id := MakeId(SEGMENT_PREFIX, next));
    var grown, paths := segments[row.id := row], byPath[row.path := row.id];
    forall i | i in grown ensures IdOk(grown, paths, next + 1, i) { if i in segments { assert IdOk(segments, byPath, next, i); } }
    forall p | p in paths ensures PathOk(grown, paths, p) {
      if p in byPath {
        assert PathOk(segments, byPath, p);
        assert IdOk(segments, byPath, next, byPath[p]);
      }
    }
    var t, u := TableOf(segments, byPath, next), TableOf(grown, paths, next + 1);
    forall p | p in byPath ensures u.rows[p] == t.rows[p] {
      assert PathOk(segments, byPath, p) && IdOk(segments, byPath, next, byPath[p]);
    }
    assert u.rows == t.rows[row.path := row];
  }

  lemma RemoveIs(segments: map<string, Segment>, byPath: map<string, string>, next: nat, id: string)
    requires Inverses(segments, byPath, next) && id in segments
    ensures Inverses(segments - {id}, byPath - {segments[id].path}, next)
    ensures TableOf(segments - {id}, byPath - {segments[id].path}, next) == Next(TableOf(segments, byPath, next), Remove([id]))
  {
    var fewer, paths := segments - {id}, byPath - {segments[id].path};
    assert IdOk(segments, byPath, next, id);
    forall i | i in fewer ensures IdOk(fewer, paths, next, i) { assert IdOk(segments, byPath, next, i); }
    forall p | p in paths ensures PathOk(fewer, paths, p) { assert PathOk(segments, byPath, p); }
    var t, u := TableOf(segments, byPath, next), TableOf(fewer, paths, next);
    forall p | p in t.rows ensures t.rows[p].id == byPath[p] {
      assert PathOk(segments, byPath, p) && IdOk(segments, byPath, next, byPath[p]);
    }
    assert u.rows == map p | p in t.rows && t.rows[p].id !in [id] :: t.rows[p];
  }

  lemma NotThere(segments: map<string, Segment>, byPath: map<string, string>, next: nat, id: string)
    requires Inverses(segments, byPath, next) && id !in segments
    ensures Next(TableOf(segments, byPath, next), Remove([id])) == TableOf(segments, byPath, next)
  {
    var t := TableOf(segments, byPath, next);
    forall p | p in t.rows ensures t.rows[p].id != id {
      assert PathOk(segments, byPath, p) && IdOk(segments, byPath, next, byPath[p]);
    }
    assert t.rows == map p | p in t.rows && t.rows[p].id !in [id] :: t.rows[p];
  }

  lemma RemoveOneMore(t: Table, ids: seq<string>, i: nat)
    requires i < |ids|
    ensures Next(t, Remove(ids[..i + 1])) == Next(Next(t, Remove(ids[..i])), Remove([ids[i]]))
  {
    assert ids[..i + 1] == ids[..i] + [ids[i]];
  }

  class InMemoryRecordingRepository {
    var segments: map<string, Segment>
    var segmentByPath: map<string, string>
    var nextSegmentId: nat
    var motionEvents: map<string, MotionEvent>
    var nextEventId: nat

    ghost predicate Valid()
      reads this
    {
      && Inverses(segments, segmentByPath, nextSegmentId)
      && (forall id :: id in motionEvents ==> motionEvents[id].id == id && Issued(EVENT_PREFIX, id, nextEventId))
    }

    ghost function Abstract(): Table
      requires Valid()
      reads this
    {
      TableOf(segments, segmentByPath, nextSegmentId)
    }

    ghost function AbstractEvents(): Events
      reads this
    {
      Events(motionEvents, nextEventId)
    }

    constructor ()
      ensures Valid() && Abstract() == Empty && AbstractEvents() == Events(map[], 1)
    {
      segments, segmentByPath, motionEvents, nextSegmentId, nextEventId := map[], map[], map[], 1, 1;
    }

    method UpsertSegment(segment: Segment) returns (stored: Option<Segment>)
      requires Valid()
      modifies this`segments, this`segmentByPath, this`nextSegmentId
      ensures Valid() && Abstract() == Next(old(Abstract()), Upsert(segment))
      ensures stored == if segment.path == "" then None else Some(Abstract().rows[segment.path])
    {
      hide Inverses;
      hide MakeId;
      if segment.path == "" { return None; }
      if segment.path in segmentByPath {
        UpdateIs(segments, segmentByPath, nextSegmentId, segment);
        var id := segmentByPath[segment.path];
        if id in segments {
          var updated := segment.(id := segments[id].id, hasMotion := segments[id].hasMotion || segment.hasMotion);
          if updated.motionEventId == "" {
            updated := updated.(motionEventId := segments[id].motionEventId);
          }
          assert updated == Merged(segments[id], segment);
          segments := segments[id := updated];
          return Some(segments[id]);
        }
      }
      InsertIs(segments, segmentByPath, nextSegmentId, segment);
      var row := segment.(id := MakeId(SEGMENT_PREFIX, nextSegmentId));
      nextSegmentId := nextSegmentId + 1;
      segments := segments[row.id := row];
      segmentByPath := segmentByPath[row.path := row.id];
      return Some(row);
    }

    method RemoveSegments(ids: seq<string>)
      requires Valid()
      modifies this`segments, this`segmentByPath
      ensures Valid() && Abstract() == Next(old(Abstract()), Remove(ids))
    {
      hide Inverses;
      ghost var before := Abstract();
      for i := 0 to |ids|
        invariant Valid() && Abstract() == Next(before, Remove(ids[..i]))
      {
        RemoveOneMore(before, ids, i);
        if ids[i] in segments {
          RemoveIs(segments, segmentByPath, nextSegmentId, ids[i]);
          segmentByPath := segmentByPath - {segments[ids[i]].path};
          segments := segments - {ids[i]};
        } else {
          NotThere(segments, segmentByPath, nextSegmentId, ids[i]);
        }
      }
      assert ids[..|ids|] == ids;
    }

    method SegmentById(id: string) returns (segment: Option<Segment>)
      requires Valid()
      ensures segment.Some? ==> segment.value.id == id && segment.value in Abstract().rows.Values
      ensures segment.None? ==> forall p :: p in Abstract().rows ==> Abstract().rows[p].id != id
    {
      if id !in segments { return None; }
      assert Abstract().rows[segments[id].path] == segments[id];
      return Some(segments[id]);
    }

    /** Walks the rows for the ones a query wants. */
    method Chosen(chosen: Segment -> bool) returns (out: seq<Segment>)
      requires Valid()
      ensures Lists(out, Abstract().rows, chosen)
    {
      out := [];
      var todo := segments.Keys;
      while todo != {}
        invariant todo <= segments.Keys
        invariant forall s: Segment :: multiset(out)[s] ==
                    if s.id in segments && segments[s.id] == s && s.id !in todo && chosen(s) then 1 else 0
      {
        var id :| id in todo;
        if chosen(segments[id]) { out := out + [segments[id]]; }
        todo := todo - {id};
      }
      ghost var rows := Abstract().rows;
      assert forall s: Segment :: s.id in segments && segments[s.id] == s <==> s.path in rows && rows[s.path] == s;
    }

    /** A camera's rows that meet the window, by start and then id: the only such list, by `OnlyOneListing`. */
    method SegmentsInRange(cameraId: string, fromMs: int, toMs: int) returns (out: seq<Segment>)
      requires Valid()
      ensures SortedBy(out, ByStart)
      ensures Lists(out, Abstract().rows, (s: Segment) => s.cameraId == cameraId && Overlaps(s.startMs, s.endMs, fromMs, toMs))
    {
      var all := Chosen((s: Segment) => s.cameraId == cameraId);
      out := SegmentsForWindow(all, fromMs, toMs);
    }

    /** The finished rows of a camera that ended before an instant, oldest end first. */
    method SegmentsEndingBefore(cameraId: string, beforeMs: int) returns (out: seq<Segment>)
      requires Valid()
      ensures SortedBy(out, ByEnd)
      ensures Lists(out, Abstract().rows, (s: Segment) => s.cameraId == cameraId && s.complete && s.endMs < beforeMs)
    {
      var all := Chosen((s: Segment) => s.cameraId == cameraId && s.complete && s.endMs < beforeMs);
      out := Sort(all, ByEnd);
    }

    method InsertMotionEvent(event: MotionEvent) returns (stored: MotionEvent)
      requires Valid()
      modifies this`motionEvents, this`nextEventId
      ensures Valid() && stored == event.(id := MakeId(EVENT_PREFIX, old(nextEventId)))
      ensures stored.id !in old(motionEvents)
      ensures AbstractEvents() == Events(old(motionEvents)[stored.id := stored], old(nextEventId) + 1)
    {
      hide MakeId;
      NextIsNew(EVENT_PREFIX, nextEventId);
      stored := event.(id := MakeId(EVENT_PREFIX, nextEventId));
      nextEventId := nextEventId + 1;
      motionEvents := motionEvents[stored.id := stored];
    }

    method CloseMotionEvent(id: string, endMs: int, maxScore: real, cells: string) returns (found: bool)
      requires Valid()
      modifies this`motionEvents
      ensures Valid() && found == (id in old(motionEvents))
      ensures AbstractEvents() == Events(
                if found then old(motionEvents)[id := old(motionEvents)[id].(endMs := endMs, maxScore := maxScore, cells := cells)]
                else old(motionEvents), nextEventId)
    {
      if id !in motionEvents { return false; }
      motionEvents := motionEvents[id := motionEvents[id].(endMs := endMs, maxScore := maxScore, cells := cells)];
      return true;
    }
  }
}
