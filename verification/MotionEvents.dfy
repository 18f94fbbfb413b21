/** From frames to motion events (src/media/ai/AiRuntime.cpp, MotionEventRecorder.cpp). */
module MotionEvents {
  import T = Text
  import R = RecordingRepository
  import D = MotionDetector

  // ---------------------------------------------------------------- sets of cells as text

  /** The cells a text names, each once. */
  function Tokens(fields: seq<string>): set<string> {
    if fields == [] then {}
    else Tokens(fields[..|fields| - 1]) + if fields[|fields| - 1] == "" then {} else {fields[|fields| - 1]}
  }

  function CellsIn(text: string): set<string> { Tokens(T.Split(text, ',')) }

  lemma TokensOneMore(done: seq<string>, field: string)
    ensures Tokens(done + [field]) == Tokens(done) + if field == "" then {} else {field}
  {
    assert (done + [field])[..|done|] == done;
  }

  method Collect(cells: string, into: set<string>) returns (all: set<string>)
    ensures all == into + CellsIn(cells)
  {
    hide T.Split;
    hide T.Find;
    hide Tokens;
    all := into;
    ghost var done: seq<string> := [];
    NoTokens();
    var at := 0;
    T.NoFieldDone(cells, ',');
    while at <= |cells|
      invariant at <= |cells| && T.Split(cells, ',') == done + T.Split(cells[at..], ',')
      invariant all == into + Tokens(done)
      decreases |cells| - at
    {
      var comma := T.Find(cells, ',', at);
      var token := cells[at..comma];
      TokensOneMore(done, token);
      if token != "" { all := all + {token}; }
      if comma == |cells| {
        T.LastFieldDone(cells, ',', done, at);
        assert token == cells[at..];
        break;
      }
      T.FieldDone(cells, ',', done, at, comma);
      done := done + [token];
      at := comma + 1;
    }
  }

  lemma NoTokens() ensures Tokens([]) == {} {}

  ghost predicate Least(x: string, s: set<string>) { x in s && forall y <- s :: T.AtMost(x, y) }

  lemma {:induction false} LeastExists(s: set<string>)
    requires s != {}
    ensures exists x :: Least(x, s)
  {
    var x :| x in s;
    if s == {x} {
      T.AtMostIsTotal(x, x);
      assert Least(x, s);
    } else {
      var rest := s - {x};
      assert s == rest + {x};
      LeastExists(rest);
      var y :| Least(y, rest);
      T.AtMostIsTotal(x, y);
      T.AtMostIsTotal(x, x);
      if T.AtMost(x, y) {
        forall z <- s ensures T.AtMost(x, z) { if z != x { T.AtMostIsTransitive(x, y, z); } }
        assert Least(x, s);
      } else {
        assert Least(y, s);
      }
    }
  }

  /** A set in the order of its strings. */
  ghost function Listing(s: set<string>): (list: seq<string>)
    ensures |list| == |s|
  {
    if s == {} then []
    else
      LeastExists(s);
      var x :| Least(x, s);
      [x] + Listing(s - {x})
  }

  ghost predicate Lists(list: seq<string>, s: set<string>) {
    && (forall x :: x in list <==> x in s)
    && forall i, j :: 0 <= i < j < |list| ==> T.AtMost(list[i], list[j]) && list[i] != list[j]
  }

  lemma {:induction false} ListingIs(s: set<string>)
    ensures Lists(Listing(s), s)
  {
    if s != {} {
      var x := ListingStarts(s);
      ListingIs(s - {x});
      hide Lists;
      ListsOneMore(x, Listing(s - {x}), s);
    }
  }

  lemma ListsOneMore(x: string, rest: seq<string>, s: set<string>)
    requires Least(x, s) && Lists(rest, s - {x})
    ensures Lists([x] + rest, s)
  {
    hide T.AtMost;
    var list := [x] + rest;
    forall y ensures y in list <==> y in s { assert y in list <==> y == x || y in rest; }
    forall j | 0 < j < |list| ensures T.AtMost(list[0], list[j]) && list[0] != list[j] {
      assert list[j] == rest[j - 1] && rest[j - 1] in rest;
    }
  }

  lemma ListingStarts(s: set<string>) returns (x: string)
    requires s != {}
    ensures Least(x, s) && Listing(s) == [x] + Listing(s - {x})
  {
    LeastExists(s);
    x := Listing(s)[0];
    assert Least(x, s);
  }

  /** The set's least string is the only one. */
  lemma LeastIsFirst(s: set<string>, x: string)
    requires Least(x, s)
    ensures Listing(s) == [x] + Listing(s - {x})
  {
    LeastExists(s);
    var y := Listing(s)[0];
    assert Least(y, s);
    T.AtMostIsTotal(x, y);
  }

  method FindLeast(s: set<string>) returns (x: string)
    requires s != {}
    ensures Least(x, s)
  {
    x :| x in s;
    var todo := s - {x};
    T.AtMostIsTotal(x, x);
    while todo != {}
      invariant todo <= s && x in s && forall y <- s - todo :: T.AtMost(x, y)
    {
      var y :| y in todo;
      T.AtMostIsTotal(x, y);
      T.AtMostIsTotal(y, y);
      if T.AtMost(y, x) {
        forall z <- s - todo ensures T.AtMost(y, z) { T.AtMostIsTransitive(y, x, z); }
        x := y;
      }
      todo := todo - {y};
    }
  }

  /** Goes through the set in its order. */
  method JoinCells(cells: set<string>) returns (out: string)
    requires "" !in cells
    ensures out == T.Join(Listing(cells), ',')
  {
    out := "";
    var todo := cells;
    ghost var done: seq<string> := [];
    while todo != {}
      invariant todo <= cells && Listing(cells) == done + Listing(todo)
      invariant out == T.Join(done, ',') && forall t <- done :: t != ""
    {
      var cell := FindLeast(todo);
      LeastIsFirst(todo, cell);
      T.Regroup(done, cell, Listing(todo - {cell}));
      D.JoinOneMore(done, cell);
      if out != "" { out := out + ","; }
      out := out + cell;
      done := done + [cell];
      todo := todo - {cell};
    }
    assert Listing({}) == [] && done + [] == done;
  }

  /** A joined set reads back as the set. */
  lemma JoinedReadsBack(cells: set<string>)
    requires forall c <- cells :: c != "" && ',' !in c
    ensures CellsIn(T.Join(Listing(cells), ',')) == cells
  {
    ListingIs(cells);
    if cells != {} {
      forall f <- Listing(cells) ensures ',' !in f {}
      T.SplitJoin(Listing(cells), ',');
      TokensOfPlain(Listing(cells));
    } else {
      assert [""][..0] == [];
      assert T.Split("", ',') == [""];
    }
  }

  lemma {:induction false} TokensOfPlain(fields: seq<string>)
    requires "" !in fields
    ensures forall t :: t in Tokens(fields) <==> t in fields
  {
    if fields != [] {
      TokensOfPlain(fields[..|fields| - 1]);
      assert fields == fields[..|fields| - 1] + [fields[|fields| - 1]];
    }
  }

  lemma {:induction false} TokensNotEmpty(fields: seq<string>)
    ensures "" !in Tokens(fields)
  {
    if fields != [] { TokensNotEmpty(fields[..|fields| - 1]); }
  }

  /** What an event gathers from a frame is the frame's moved cells inside the zones, as the detector printed them. */
  lemma GathersInsideCells(g: D.Grid, zones: seq<D.Zone>, cells: seq<nat>)
    requires D.Usable(g) && D.OnGrid(g, cells)
    ensures var inside := T.Join(D.Side(zones, T.Split(D.Printed(g, cells), ','), true), ',');
            forall t :: t in CellsIn(inside) <==> t in D.CellTexts(g, D.SideCells(g, zones, cells, true))
  {
    var side := D.SideCells(g, zones, cells, true);
    D.SplitPartitions(g, zones, cells, true);
    assert D.OnGrid(g, side) by {
      forall i | 0 <= i < |side| ensures side[i] < g.rows * g.columns { assert side[i] in cells; }
    }
    D.TokensOfPrinted(g, side);
    D.CellTextsReadBack(g, side);
    if side == [] { assert [""][..0] == []; } else { TokensOfPlain(D.CellTexts(g, side)); }
  }

  // ---------------------------------------------------------------- runs of triggered notices

  /** What the recorder hears of one camera. */
  datatype Sighting = Sighting(at: int, triggered: bool, cells: set<string>, gridX: int, gridY: int)

  /** One stretch of motion: from its first triggered notice to the first one after it that is not. */
  datatype Stretch = Stretch(startMs: int, end: T.Option<int>, cells: set<string>, gridX: int, gridY: int)

  function Lead(seen: seq<Sighting>): (n: nat)
    ensures n <= |seen| && (forall i :: 0 <= i < n ==> seen[i].triggered) && (n < |seen| ==> !seen[n].triggered)
  {
    if seen == [] || !seen[0].triggered then 0 else 1 + Lead(seen[1..])
  }

  function AllCells(seen: seq<Sighting>): set<string> {
    if seen == [] then {} else AllCells(seen[..|seen| - 1]) + seen[|seen| - 1].cells
  }

  /** The maximal stretches of triggered notices, in order, with everything that moved during each. */
  function Stretches(seen: seq<Sighting>): seq<Stretch> {
    if seen == [] then []
    else if !seen[0].triggered then Stretches(seen[1..])
    else
      var n := Lead(seen);
      [Stretch(seen[0].at, if n < |seen| then T.Some(seen[n].at) else T.None, AllCells(seen[..n]), seen[0].gridX, seen[0].gridY)]
      + Stretches(seen[n..])
  }

  predicate EndsTriggered(seen: seq<Sighting>) { seen != [] && seen[|seen| - 1].triggered }

  /** How one more notice changes the stretches. */
  function Extended(stretches: seq<Stretch>, s: Sighting): seq<Stretch> {
    var n := |stretches|;
    if n > 0 && stretches[n - 1].end.None? then
      stretches[n - 1 := if s.triggered then stretches[n - 1].(cells := stretches[n - 1].cells + s.cells)
                         else stretches[n - 1].(end := T.Some(s.at))]
    else if s.triggered then stretches + [Stretch(s.at, T.None, s.cells, s.gridX, s.gridY)]
    else stretches
  }

  lemma {:induction false} LeadOfLonger(seen: seq<Sighting>, s: Sighting)
    ensures Lead(seen + [s]) == if Lead(seen) == |seen| && s.triggered then |seen| + 1 else Lead(seen)
  {
    if seen != [] {
      assert (seen + [s])[1..] == seen[1..] + [s];
      if seen[0].triggered { LeadOfLonger(seen[1..], s); }
    } else {
      assert [s][1..] == [];
    }
  }

  lemma ExtendedPast(first: Stretch, rest: seq<Stretch>, s: Sighting)
    requires rest != [] || first.end.Some?
    ensures Extended([first] + rest, s) == [first] + Extended(rest, s)
  {
  }

  lemma {:induction false} OneMoreNotice(seen: seq<Sighting>, s: Sighting)
    ensures Stretches(seen + [s]) == Extended(Stretches(seen), s)
    decreases |seen|
  {
    var more := seen + [s];
    if seen == [] {
      FirstNotice(s);
      assert more == [s];
    } else if !seen[0].triggered {
      assert more[1..] == seen[1..] + [s];
      OneMoreNotice(seen[1..], s);
      hide Extended;
    } else {
      var n := Lead(seen);
      LeadOfLonger(seen, s);
      if n < |seen| {
        assert more[n..] == seen[n..] + [s] && more[..n] == seen[..n];
        OneMoreNotice(seen[n..], s);
        hide AllCells;
        var first := Stretch(seen[0].at, T.Some(seen[n].at), AllCells(seen[..n]), seen[0].gridX, seen[0].gridY);
        ExtendedPast(first, Stretches(seen[n..]), s);
        hide Extended;
        assert Stretches(seen) == [first] + Stretches(seen[n..]) && Stretches(more) == [first] + Stretches(more[n..]);
      } else {
        WholeStretch(seen, s);
      }
    }
  }

  lemma {:induction false} FirstNotice(s: Sighting)
    ensures Stretches([s]) == Extended([], s) && Stretches([]) == []
  {
    assert [s][1..] == [] && [s][..1] == [s] && [s][..0] == [];
    assert AllCells([s]) == s.cells;
  }

  lemma {:induction false} WholeStretch(seen: seq<Sighting>, s: Sighting)
    requires seen != [] && Lead(seen) == |seen|
    ensures Stretches(seen) == [Stretch(seen[0].at, T.None, AllCells(seen), seen[0].gridX, seen[0].gridY)]
    ensures Stretches(seen + [s]) == Extended(Stretches(seen), s)
  {
    var more := seen + [s];
    LeadOfLonger(seen, s);
    assert seen[..|seen|] == seen && seen[|seen|..] == [] && more[0] == seen[0];
    if s.triggered {
      assert more[..|more|] == more && more[|more|..] == [];
      assert more[..|more| - 1] == seen;
    } else {
      assert more[..|seen|] == seen && more[|seen|..] == [s] && [s][1..] == [];
      assert Stretches([s]) == [];
    }
  }

  // ---------------------------------------------------------------- the recorder

  datatype Notice = Notice(cameraId: string, triggered: bool, insideCells: string, gridX: int, gridY: int)

  /** An event still open: its place in the log of events, and what moved so far. */
  datatype Open = Open(index: nat, cells: set<string>, startMs: int)

  datatype Recorder = Recorder(saving: map<string, bool>, open: map<string, Open>, log: seq<R.MotionEvent>)

  const Idle := Recorder(map[], map[], [])

  /** `accepts` is whether the repository takes a new row; the clock reads `at`, or, when everything
      is closed, something for each event. */
  datatype Step =
    | SetSaving(cameraId: string, saving: bool)
    | Observe(notice: Notice, at: int, accepts: bool)
    | CloseAll(times: map<string, int>)

  /** What the clock reads when a camera's event is closed with the rest. */
  function TimeOf(times: map<string, int>, c: string): int { if c in times then times[c] else 0 }

  function EventId(index: nat): string { R.MakeId(R.EVENT_PREFIX, index + 1) }

  function Opened(notice: Notice, at: int, index: nat): R.MotionEvent {
    R.MotionEvent(EventId(index), notice.cameraId, at, 0, 0.0, "", notice.gridX, notice.gridY, "")
  }

  ghost function Closed(event: R.MotionEvent, cells: set<string>, at: int): R.MotionEvent {
    event.(endMs := at, maxScore := 1.0, cells := T.Join(Listing(cells), ','))
  }

  predicate Saves(w: Recorder, cameraId: string) { cameraId != "" && cameraId in w.saving && w.saving[cameraId] }

  ghost predicate RecorderOk(w: Recorder) {
    && (forall c :: c in w.open ==> OpenOk(w, c))
    && (forall k :: 0 <= k < |w.log| ==> w.log[k].id == EventId(k))
  }

  /** An open event is its camera's last row. */
  ghost predicate OpenOk(w: Recorder, c: string)
    requires c in w.open
  {
    var k := w.open[c].index;
    k < |w.log| && w.log[k].cameraId == c && w.log[k].startMs == w.open[c].startMs && (forall j :: k < j < |w.log| ==> w.log[j].cameraId != c) && "" !in w.open[c].cells
  }

  ghost function ObserveStep(w: Recorder, notice: Notice, at: int, accepts: bool): Recorder
    requires RecorderOk(w)
  {
    var c := notice.cameraId;
    if !Saves(w, c) then w
    else if notice.triggered then
      if c !in w.open then
        if !accepts then w
        else
          w.(log := w.log + [Opened(notice, at, |w.log|)],
             open := w.open[c := Open(|w.log|, CellsIn(notice.insideCells), at)])
      else w.(open := w.open[c := w.open[c].(cells := w.open[c].cells + CellsIn(notice.insideCells))])
    else if c !in w.open then w
    else
      assert OpenOk(w, c);
      w.(log := w.log[w.open[c].index := Closed(w.log[w.open[c].index], w.open[c].cells, at)], open := w.open - {c})
  }

  /** The row at a place in the log once everything still open is closed. */
  ghost function ClosedAt(w: Recorder, k: nat, times: map<string, int>): R.MotionEvent
    requires k < |w.log|
  {
    var row := w.log[k];
    if row.cameraId in w.open && w.open[row.cameraId].index == k
    then Closed(row, w.open[row.cameraId].cells, TimeOf(times, row.cameraId)) else row
  }

  ghost function CloseAllStep(w: Recorder, times: map<string, int>): Recorder {
    w.(log := seq(|w.log|, k requires 0 <= k < |w.log| => ClosedAt(w, k, times)), open := map[])
  }

  ghost function Next(w: Recorder, step: Step): Recorder
    requires RecorderOk(w)
  {
    match step
    case SetSaving(c, saving) => w.(saving := w.saving[c := saving])
    case Observe(notice, at, accepts) => ObserveStep(w, notice, at, accepts)
    case CloseAll(times) => CloseAllStep(w, times)
  }

  lemma NextOk(w: Recorder, step: Step)
    requires RecorderOk(w)
    ensures RecorderOk(Next(w, step))
  {
    CellsNotEmpty(step);
    hide CellsIn;
    hide Listing;
    hide EventId;
    if step.Observe? {
      ObserveOk(w, step.notice, step.at, step.accepts);
    } else {
      forall c | c in Next(w, step).open ensures OpenOk(Next(w, step), c) { assert OpenOk(w, c); }
    }
  }

  lemma ObserveOk(w: Recorder, notice: Notice, at: int, accepts: bool)
    requires RecorderOk(w) && "" !in CellsIn(notice.insideCells)
    ensures RecorderOk(ObserveStep(w, notice, at, accepts))
  {
    hide CellsIn;
    hide Listing;
    hide EventId;
    var v := ObserveStep(w, notice, at, accepts);
    forall c | c in v.open ensures OpenOk(v, c) { if c in w.open { assert OpenOk(w, c); } }
  }

  lemma CellsNotEmpty(step: Step)
    ensures step.Observe? ==> "" !in CellsIn(step.notice.insideCells)
  {
    if step.Observe? { TokensNotEmpty(T.Split(step.notice.insideCells, ',')); }
  }

  ghost function Run(steps: seq<Step>): (w: Recorder)
    ensures RecorderOk(w)
  {
    if steps == [] then Idle
    else
      NextOk(Run(steps[..|steps| - 1]), steps[|steps| - 1]);
      Next(Run(steps[..|steps| - 1]), steps[|steps| - 1])
  }

  // ---------------------------------------------------------------- events are stretches

  /** Whether a camera's events are saved after these steps. */
  function SavingAfter(steps: seq<Step>, c: string): bool {
    if steps == [] then false
    else
      var last := steps[|steps| - 1];
      if last.SetSaving? && last.cameraId == c then last.saving else SavingAfter(steps[..|steps| - 1], c)
  }

  /** What one step tells about a camera: a notice while its events are saved, or the end of
      everything. A triggered notice that would begin a stretch, but whose row the repository
      refuses, counts as not triggered. */
  function Heard(saving: bool, going: bool, step: Step, c: string): seq<Sighting> {
    match step
    case SetSaving(_, _) => []
    case Observe(n, at, accepts) =>
      if n.cameraId == c && saving
      then [Sighting(at, n.triggered && (going || accepts), CellsIn(n.insideCells), n.gridX, n.gridY)] else []
    case CloseAll(times) => [Sighting(TimeOf(times, c), false, {}, 0, 0)]
  }

  /** What is heard of a camera, from the steps alone. */
  function Seen(steps: seq<Step>, c: string): seq<Sighting> {
    if steps == [] then []
    else
      var before := steps[..|steps| - 1];
      Seen(before, c) + Heard(SavingAfter(before, c), EndsTriggered(Seen(before, c)), steps[|steps| - 1], c)
  }

  lemma {:induction false} SavesIs(steps: seq<Step>, c: string)
    ensures Saves(Run(steps), c) == (c != "" && SavingAfter(steps, c))
  {
    if steps != [] {
      SavesIs(steps[..|steps| - 1], c);
      hide CellsIn;
      hide Closed;
    }
  }

  /** The last stretch goes on exactly when the last notice was triggered. */
  lemma GoingOn(seen: seq<Sighting>)
    ensures LastIsOpen(Stretches(seen)) <==> EndsTriggered(seen)
  {
    if seen != [] {
      var before, s := seen[..|seen| - 1], seen[|seen| - 1];
      assert seen == before + [s];
      OneMoreNotice(before, s);
      hide Stretches;
    }
  }

  function RowsOf(log: seq<R.MotionEvent>, c: string): seq<R.MotionEvent> {
    if log == [] then []
    else RowsOf(log[..|log| - 1], c) + if log[|log| - 1].cameraId == c then [log[|log| - 1]] else []
  }

  /** The row of a stretch: open rows have no end and no cells yet. */
  ghost predicate RowIs(row: R.MotionEvent, c: string, s: Stretch) {
    && row.cameraId == c && row.startMs == s.startMs && row.gridX == s.gridX && row.gridY == s.gridY
    && match s.end
       case None => row.endMs == 0 && row.cells == ""
       case Some(at) => row.endMs == at && row.maxScore == 1.0 && row.cells == T.Join(Listing(s.cells), ',')
  }

  ghost predicate RowsAre(rows: seq<R.MotionEvent>, c: string, stretches: seq<Stretch>) {
    |rows| == |stretches| && forall i :: 0 <= i < |rows| ==> RowIs(rows[i], c, stretches[i])
  }

  predicate LastIsOpen(stretches: seq<Stretch>) { stretches != [] && stretches[|stretches| - 1].end.None? }

  /** A camera's rows are its stretches, and it has an open event exactly when the last one is open. */
  ghost predicate Matches(w: Recorder, c: string, stretches: seq<Stretch>) {
    && RowsAre(RowsOf(w.log, c), c, stretches)
    && (c in w.open <==> LastIsOpen(stretches))
    && (c in w.open ==> w.open[c].cells == stretches[|stretches| - 1].cells)
  }

  lemma RowsOfLonger(log: seq<R.MotionEvent>, row: R.MotionEvent, c: string)
    ensures RowsOf(log + [row], c) == RowsOf(log, c) + if row.cameraId == c then [row] else []
  {
    assert (log + [row])[..|log|] == log;
  }

  lemma {:induction false} OtherRows(a: seq<R.MotionEvent>, b: seq<R.MotionEvent>, c: string)
    requires |a| == |b| && forall k :: 0 <= k < |a| ==> a[k].cameraId == b[k].cameraId && (a[k].cameraId == c ==> a[k] == b[k])
    ensures RowsOf(a, c) == RowsOf(b, c)
  {
    if a != [] { OtherRows(a[..|a| - 1], b[..|b| - 1], c); }
  }

  lemma {:induction false} LastRowChanges(log: seq<R.MotionEvent>, k: nat, row: R.MotionEvent, c: string)
    requires k < |log| && log[k].cameraId == c == row.cameraId && forall j :: k < j < |log| ==> log[j].cameraId != c
    ensures var rows := RowsOf(log, c);
            rows != [] && rows[|rows| - 1] == log[k] && RowsOf(log[k := row], c) == rows[|rows| - 1 := row]
  {
    var n := |log| - 1;
    if k == n {
      assert log[k := row][..n] == log[..n];
    } else {
      LastRowChanges(log[..n], k, row, c);
      assert log[k := row][..n] == log[..n][k := row];
    }
  }

  lemma RowsGrow(rows: seq<R.MotionEvent>, c: string, stretches: seq<Stretch>, row: R.MotionEvent, s: Stretch)
    requires RowsAre(rows, c, stretches) && RowIs(row, c, s)
    ensures RowsAre(rows + [row], c, stretches + [s])
  {
    hide RowIs;
  }

  lemma LastRowBecomes(rows: seq<R.MotionEvent>, c: string, stretches: seq<Stretch>, row: R.MotionEvent, s: Stretch)
    requires RowsAre(rows, c, stretches) && rows != [] && RowIs(row, c, s)
    ensures RowsAre(rows[|rows| - 1 := row], c, stretches[|rows| - 1 := s])
  {
    hide RowIs;
  }

  /** What another camera's notice leaves of this one's rows: everything. */
  lemma OtherCamera(w: Recorder, notice: Notice, at: int, accepts: bool, c: string)
    requires RecorderOk(w) && notice.cameraId != c
    ensures var v := ObserveStep(w, notice, at, accepts);
            && RowsOf(v.log, c) == RowsOf(w.log, c) && (c in v.open <==> c in w.open) && (c in w.open ==> v.open[c] == w.open[c])
  {
    hide CellsIn;
    hide Listing;
    hide EventId;
    var d, v := notice.cameraId, ObserveStep(w, notice, at, accepts);
    if Saves(w, d) {
      if d in w.open {
        assert OpenOk(w, d);
        OtherRows(w.log, v.log, c);
      } else if notice.triggered && accepts {
        RowsOfLonger(w.log, Opened(notice, at, |w.log|), c);
      }
    }
  }

  lemma NothingHeard(w: Recorder, step: Step, c: string, stretches: seq<Stretch>)
    requires RecorderOk(w) && Matches(w, c, stretches) && Heard(Saves(w, c), c in w.open, step, c) == []
    ensures Matches(Next(w, step), c, stretches)
  {
    if step.Observe? && step.notice.cameraId != c {
      OtherCamera(w, step.notice, step.at, step.accepts, c);
    }
    hide RowsAre;
    hide RowsOf;
    hide CellsIn;
  }

  lemma NoticeHeard(w: Recorder, notice: Notice, at: int, accepts: bool, stretches: seq<Stretch>)
    requires RecorderOk(w) && Saves(w, notice.cameraId) && Matches(w, notice.cameraId, stretches)
    ensures Matches(ObserveStep(w, notice, at, accepts), notice.cameraId,
                    Extended(stretches, Heard(true, notice.cameraId in w.open, Observe(notice, at, accepts), notice.cameraId)[0]))
  {
    hide CellsIn;
    if notice.cameraId in w.open {
      if notice.triggered { NoticeAdds(w, notice, at, stretches); } else { NoticeCloses(w, notice, at, stretches); }
    } else if notice.triggered && accepts {
      NoticeOpens(w, notice, at, stretches);
    }
    hide RowsAre;
    hide RowsOf;
  }

  lemma NoticeOpens(w: Recorder, notice: Notice, at: int, stretches: seq<Stretch>)
    requires RecorderOk(w) && Saves(w, notice.cameraId) && Matches(w, notice.cameraId, stretches)
    requires notice.triggered && notice.cameraId !in w.open
    ensures Matches(ObserveStep(w, notice, at, true), notice.cameraId,
                    stretches + [Stretch(at, T.None, CellsIn(notice.insideCells), notice.gridX, notice.gridY)])
  {
    hide CellsIn;
    hide EventId;
    var c, row := notice.cameraId, Opened(notice, at, |w.log|);
    RowsOfLonger(w.log, row, c);
    RowsGrow(RowsOf(w.log, c), c, stretches, row, Stretch(at, T.None, CellsIn(notice.insideCells), notice.gridX, notice.gridY));
    hide RowsAre;
    hide RowsOf;
  }

  lemma NoticeAdds(w: Recorder, notice: Notice, at: int, stretches: seq<Stretch>)
    requires RecorderOk(w) && Saves(w, notice.cameraId) && Matches(w, notice.cameraId, stretches)
    requires notice.triggered && notice.cameraId in w.open
    ensures var n := |stretches| - 1;
            Matches(ObserveStep(w, notice, at, true), notice.cameraId,
                    stretches[n := stretches[n].(cells := stretches[n].cells + CellsIn(notice.insideCells))])
  {
    hide CellsIn;
    var c, n := notice.cameraId, |stretches| - 1;
    var rows, more := RowsOf(w.log, c), stretches[n].(cells := stretches[n].cells + CellsIn(notice.insideCells));
    assert RowIs(rows[n], c, stretches[n]);
    LastRowBecomes(rows, c, stretches, rows[n], more);
    assert rows[n := rows[n]] == rows;
    hide RowsAre;
    hide RowsOf;
  }

  lemma NoticeCloses(w: Recorder, notice: Notice, at: int, stretches: seq<Stretch>)
    requires RecorderOk(w) && Saves(w, notice.cameraId) && Matches(w, notice.cameraId, stretches)
    requires !notice.triggered && notice.cameraId in w.open
    ensures var n := |stretches| - 1;
            Matches(ObserveStep(w, notice, at, true), notice.cameraId, stretches[n := stretches[n].(end := T.Some(at))])
  {
    var c := notice.cameraId;
    LastCloses(w, c, at, stretches);
    hide RowsAre;
    hide RowsOf;
    hide Closed;
  }

  /** The row of an open event, closed. */
  lemma LastCloses(w: Recorder, c: string, at: int, stretches: seq<Stretch>)
    requires RecorderOk(w) && Matches(w, c, stretches) && c in w.open
    ensures OpenOk(w, c) && stretches != []
    ensures var k, n := w.open[c].index, |stretches| - 1;
            RowsAre(RowsOf(w.log[k := Closed(w.log[k], w.open[c].cells, at)], c), c,
                    stretches[n := stretches[n].(end := T.Some(at))])
  {
    hide Listing;
    assert OpenOk(w, c);
    var k, n := w.open[c].index, |stretches| - 1;
    var row, rows := Closed(w.log[k], w.open[c].cells, at), RowsOf(w.log, c);
    LastRowChanges(w.log, k, row, c);
    assert RowIs(rows[n], c, stretches[n]);
    LastRowBecomes(rows, c, stretches, row, stretches[n].(end := T.Some(at)));
    hide RowsAre;
    hide RowsOf;
  }

  lemma EverythingCloses(w: Recorder, times: map<string, int>, c: string, stretches: seq<Stretch>)
    requires RecorderOk(w) && Matches(w, c, stretches)
    ensures Matches(CloseAllStep(w, times), c, Extended(stretches, Sighting(TimeOf(times, c), false, {}, 0, 0)))
  {
    var v, at := CloseAllStep(w, times), TimeOf(times, c);
    hide Listing;
    if c in w.open {
      LastCloses(w, c, at, stretches);
      var k := w.open[c].index;
      OtherRows(w.log[k := Closed(w.log[k], w.open[c].cells, at)], v.log, c);
    } else {
      OtherRows(w.log, v.log, c);
    }
    hide RowsAre;
    hide RowsOf;
  }

  /** Over any run: a camera's rows are exactly the maximal stretches of triggered notices heard
      while its events were saved, from the first one whose row the repository took. Each closed row
      ends at the notice that ended the stretch and holds the sorted union of the cells inside
      zones of all its notices; only the last can be open, and is open exactly while the stretch
      goes on. */
  lemma {:induction false} EventsAreStretches(steps: seq<Step>, c: string)
    requires c != ""
    ensures Matches(Run(steps), c, Stretches(Seen(steps, c)))
  {
    if steps != [] {
      var before, step := steps[..|steps| - 1], steps[|steps| - 1];
      EventsAreStretches(before, c);
      var w, seen := Run(before), Seen(before, c);
      SavesIs(before, c);
      GoingOn(seen);
      RunAndSeen(steps, c);
      hide Run;
      hide Seen;
      var heard := Heard(Saves(w, c), c in w.open, step, c);
      assert Seen(steps, c) == seen + heard;
      if heard == [] {
        NothingHeard(w, step, c, Stretches(seen));
        assert seen + heard == seen;
      } else {
        OneMoreNotice(seen, heard[0]);
        if step.Observe? {
          NoticeHeard(w, step.notice, step.at, step.accepts, Stretches(seen));
        } else {
          EverythingCloses(w, step.times, c, Stretches(seen));
        }
      }
    }
  }

  lemma RunAndSeen(steps: seq<Step>, c: string)
    requires steps != []
    ensures var before, step := steps[..|steps| - 1], steps[|steps| - 1];
            && Run(steps) == Next(Run(before), step)
            && Seen(steps, c) == Seen(before, c) + Heard(SavingAfter(before, c), EndsTriggered(Seen(before, c)), step, c)
  {
  }

  /** At most one row of a camera is open, and it is the last. */
  lemma AtMostOneOpen(steps: seq<Step>, c: string, i: nat)
    requires c != "" && forall s <- steps :: (s.Observe? ==> s.at != 0) && (s.CloseAll? ==> TimeOf(s.times, c) != 0)
    requires i < |RowsOf(Run(steps).log, c)| && RowsOf(Run(steps).log, c)[i].endMs == 0
    ensures i == |RowsOf(Run(steps).log, c)| - 1 && c in Run(steps).open
  {
    EventsAreStretches(steps, c);
    SeenAtSomeTime(steps, c);
    OnlyLastOpen(Seen(steps, c));
    hide Run;
    hide Seen;
    assert RowIs(RowsOf(Run(steps).log, c)[i], c, Stretches(Seen(steps, c))[i]);
  }

  lemma {:induction false} SeenAtSomeTime(steps: seq<Step>, c: string)
    requires forall s <- steps :: (s.Observe? ==> s.at != 0) && (s.CloseAll? ==> TimeOf(s.times, c) != 0)
    ensures forall s <- Seen(steps, c) :: s.at != 0
  {
    if steps != [] {
      SeenAtSomeTime(steps[..|steps| - 1], c);
      assert steps[|steps| - 1] in steps;
    }
  }

  lemma {:induction false} OnlyLastOpen(seen: seq<Sighting>)
    requires forall s <- seen :: s.at != 0
    ensures forall i :: 0 <= i < |Stretches(seen)| ==>
              var end := Stretches(seen)[i].end; if end.None? then i == |Stretches(seen)| - 1 else end.value != 0
    decreases |seen|
  {
    if seen != [] {
      if !seen[0].triggered {
        OnlyLastOpen(seen[1..]);
      } else {
        OnlyLastOpen(seen[Lead(seen)..]);
      }
    }
  }

  // ---------------------------------------------------------------- which notices share a stretch

  /** The place among the stretches of the one a triggered notice belongs to. */
  function StretchOf(seen: seq<Sighting>, i: nat): nat
    requires i < |seen| && seen[i].triggered
    decreases |seen|
  {
    if !seen[0].triggered then StretchOf(seen[1..], i - 1)
    else if i < Lead(seen) then 0
    else 1 + StretchOf(seen[Lead(seen)..], i - Lead(seen))
  }

  lemma {:induction false} CellsOfPrefix(seen: seq<Sighting>, i: nat)
    requires i < |seen|
    ensures seen[i].cells <= AllCells(seen)
  {
    if i < |seen| - 1 { CellsOfPrefix(seen[..|seen| - 1], i); }
  }

  /** The stretch of a notice holds what moved in it. */
  lemma {:induction false} StretchHolds(seen: seq<Sighting>, i: nat)
    requires i < |seen| && seen[i].triggered
    ensures StretchOf(seen, i) < |Stretches(seen)| && seen[i].cells <= Stretches(seen)[StretchOf(seen, i)].cells
    decreases |seen|
  {
    var n := Lead(seen);
    if !seen[0].triggered {
      StretchHolds(seen[1..], i - 1);
    } else if i < n {
      CellsOfPrefix(seen[..n], i);
    } else {
      StretchHolds(seen[n..], i - n);
    }
  }

  ghost predicate AllTriggered(seen: seq<Sighting>, i: int, j: int)
    requires 0 <= i <= j < |seen|
  {
    forall k :: i <= k <= j ==> seen[k].triggered
  }

  /** Two triggered notices are of one stretch exactly when every notice between them is triggered. */
  lemma {:induction false} SameStretchExactly(seen: seq<Sighting>, i: nat, j: nat)
    requires i <= j < |seen| && seen[i].triggered && seen[j].triggered
    ensures StretchOf(seen, i) == StretchOf(seen, j) <==> AllTriggered(seen, i, j)
    decreases |seen|
  {
    var n := Lead(seen);
    if !seen[0].triggered {
      SameStretchExactly(seen[1..], i - 1, j - 1);
      Shifted(seen, 1, i, j);
    } else if n <= i {
      SameStretchExactly(seen[n..], i - n, j - n);
      Shifted(seen, n, i, j);
    } else if n <= j {
      assert !seen[n].triggered;
    }
  }

  lemma Shifted(seen: seq<Sighting>, n: nat, i: nat, j: nat)
    requires n <= i <= j < |seen|
    ensures AllTriggered(seen, i, j) <==> AllTriggered(seen[n..], i - n, j - n)
  {
    if AllTriggered(seen[n..], i - n, j - n) {
      forall k | i <= k <= j ensures seen[k].triggered { assert seen[n..][k - n] == seen[k]; }
    }
  }

  // ---------------------------------------------------------------- the hold

  /** One analysed frame: when, and whether it made a zone fire. */
  datatype Reading = Reading(at: int, firing: bool)

  /** When a zone last fired, 0 before it ever did, and whether the last notice was triggered. */
  datatype Sense = Sense(lastTriggerMs: int, wasTriggered: bool)

  function Since(s: Sense, r: Reading): int { if r.firing then r.at else s.lastTriggerMs }

  predicate Held(s: Sense, holdMs: int, r: Reading) {
    r.firing || (Since(s, r) != 0 && r.at - Since(s, r) < holdMs)
  }

  function Sensed(holdMs: int, readings: seq<Reading>): Sense {
    if readings == [] then Sense(0, false)
    else
      var before, r := Sensed(holdMs, readings[..|readings| - 1]), readings[|readings| - 1];
      Sense(Since(before, r), Held(before, holdMs, r))
  }

  predicate TriggeredAt(holdMs: int, readings: seq<Reading>, i: nat)
    requires i < |readings|
  {
    Held(Sensed(holdMs, readings[..i]), holdMs, readings[i])
  }

  /** The last frame among the first `n` that fired, or -1. */
  function LastFiring(readings: seq<Reading>, n: nat): (j: int)
    requires n <= |readings|
    ensures -1 <= j < n && (j >= 0 ==> readings[j].firing) && forall k :: j < k < n ==> !readings[k].firing
  {
    if n == 0 then -1 else if readings[n - 1].firing then n - 1 else LastFiring(readings, n - 1)
  }

  lemma {:induction false} SenseIs(holdMs: int, readings: seq<Reading>, n: nat)
    requires n <= |readings|
    ensures var j := LastFiring(readings, n);
            Sensed(holdMs, readings[..n]).lastTriggerMs == if j < 0 then 0 else readings[j].at
    ensures n > 0 ==> Sensed(holdMs, readings[..n]).wasTriggered == TriggeredAt(holdMs, readings, n - 1)
  {
    if n > 0 {
      SenseIs(holdMs, readings, n - 1);
      assert readings[..n][..n - 1] == readings[..n - 1];
    }
  }

  ghost predicate ClockRuns(readings: seq<Reading>) { forall r <- readings :: r.at != 0 }

  /** A notice is triggered exactly when its frame fires or the last frame that fired is less than the hold before it. */
  lemma TriggeredExactly(holdMs: int, readings: seq<Reading>, i: nat)
    requires i < |readings| && ClockRuns(readings)
    ensures TriggeredAt(holdMs, readings, i) <==>
            readings[i].firing
            || (LastFiring(readings, i) >= 0 && readings[i].at - readings[LastFiring(readings, i)].at < holdMs)
  {
    SenseIs(holdMs, readings, i);
    hide Sensed;
    if LastFiring(readings, i) >= 0 { assert readings[LastFiring(readings, i)] in readings; }
  }

  // ---------------------------------------------------------------- from frames to rows

  /** The steps at which the recorder is told of a camera's frames. */
  function Notices(steps: seq<Step>, c: string): (places: seq<nat>)
    ensures forall i :: 0 <= i < |places| ==> places[i] < |steps| && steps[places[i]].Observe? && steps[places[i]].notice.cameraId == c
  {
    if steps == [] then []
    else
      var n := |steps| - 1;
      Notices(steps[..n], c) + if steps[n].Observe? && steps[n].notice.cameraId == c then [n] else []
  }

  lemma {:induction false} NoticesInOrder(steps: seq<Step>, c: string)
    ensures forall i, j :: 0 <= i < j < |Notices(steps, c)| ==> Notices(steps, c)[i] < Notices(steps, c)[j]
    ensures forall m :: 0 <= m < |steps| && steps[m].Observe? && steps[m].notice.cameraId == c ==> m in Notices(steps, c)
  {
    if steps != [] {
      var n := |steps| - 1;
      NoticesInOrder(steps[..n], c);
      assert Notices(steps, c) == Notices(steps[..n], c) + if steps[n].Observe? && steps[n].notice.cameraId == c then [n] else [];
    }
  }

  /** One sink's frames are the camera's notices from number `base` on. */
  ghost predicate FromSink(holdMs: int, readings: seq<Reading>, steps: seq<Step>, c: string, base: nat) {
    && base + |readings| <= |Notices(steps, c)|
    && forall i :: 0 <= i < |readings| ==>
         steps[Notices(steps, c)[base + i]].notice.triggered == TriggeredAt(holdMs, readings, i)
  }

  /** After these two steps the same row is open for the camera. */
  ghost predicate SameRow(steps: seq<Step>, c: string, p: nat, q: nat)
    requires p < |steps| && q < |steps|
  {
    var w, v := Run(steps[..p + 1]), Run(steps[..q + 1]);
    c in w.open && c in v.open && w.open[c].index == v.open[c].index
  }

  /** The camera's events are saved from step `p` to step `q`, and nothing closes them all between. */
  ghost predicate SavedThroughout(steps: seq<Step>, c: string, p: nat, q: nat)
    requires q < |steps|
  {
    forall m :: p < m <= q ==> Saves(Run(steps[..m]), c) && !steps[m].CloseAll?
  }

  predicate IsNotice(steps: seq<Step>, c: string, m: nat)
    requires m < |steps|
  {
    steps[m].Observe? && steps[m].notice.cameraId == c
  }

  lemma RunOneMore(steps: seq<Step>, m: nat)
    requires m < |steps|
    ensures Run(steps[..m + 1]) == Next(Run(steps[..m]), steps[m])
  {
    assert steps[..m + 1][..m] == steps[..m];
  }

  /** An open row stays open through triggered notices; once closed it is never opened again. */
  lemma RowStep(w: Recorder, step: Step, c: string, k: nat)
    requires RecorderOk(w) && k < |w.log| && !step.CloseAll? && Saves(w, c) && (c in w.open ==> w.open[c].index >= k)
    ensures var v := Next(w, step);
            && k < |v.log| && (c in v.open ==> v.open[c].index >= k)
            && ((c in v.open && v.open[c].index == k) <==>
                (c in w.open && w.open[c].index == k && (step.Observe? && step.notice.cameraId == c ==> step.notice.triggered)))
  {
    hide CellsIn;
    hide Listing;
    hide EventId;
    hide Closed;
  }

  ghost predicate TriggeredBetween(steps: seq<Step>, c: string, p: nat, q: nat)
    requires q < |steps|
  {
    forall m :: p < m <= q && IsNotice(steps, c, m) ==> steps[m].notice.triggered
  }

  lemma {:induction false} RowUntil(steps: seq<Step>, c: string, p: nat, q: nat)
    requires p <= q < |steps| && SavedThroughout(steps, c, p, q) && c in Run(steps[..p + 1]).open
    ensures var k, v := Run(steps[..p + 1]).open[c].index, Run(steps[..q + 1]);
            && k < |v.log| && (c in v.open ==> v.open[c].index >= k)
            && (SameRow(steps, c, p, q) <==> TriggeredBetween(steps, c, p, q))
  {
    hide Run;
    hide Next;
    hide RecorderOk;
    hide Saves;
    if p == q {
      OpenIsOk(Run(steps[..p + 1]), c);
    } else {
      RowUntil(steps, c, p, q - 1);
      RunOneMore(steps, q);
      assert TriggeredBetween(steps, c, p, q) <==>
             TriggeredBetween(steps, c, p, q - 1) && (IsNotice(steps, c, q) ==> steps[q].notice.triggered);
      hide TriggeredBetween;
      RowStep(Run(steps[..q]), steps[q], c, Run(steps[..p + 1]).open[c].index);
    }
  }

  /** The notices between two frames' are those of the frames between. */
  lemma TriggeredBetweenFrames(holdMs: int, readings: seq<Reading>, steps: seq<Step>, c: string, base: nat, i: nat, j: nat)
    requires FromSink(holdMs, readings, steps, c, base) && i <= j < |readings|
    ensures Notices(steps, c)[base + i] <= Notices(steps, c)[base + j]
    ensures TriggeredBetween(steps, c, Notices(steps, c)[base + i], Notices(steps, c)[base + j])
            <==> forall k :: i < k <= j ==> TriggeredAt(holdMs, readings, k)
  {
    var places := Notices(steps, c);
    NoticesInOrder(steps, c);
    hide Notices;
    hide TriggeredAt;
    var p, q := places[base + i], places[base + j];
    if forall k :: i < k <= j ==> TriggeredAt(holdMs, readings, k) {
      forall m | p < m <= q && IsNotice(steps, c, m) ensures steps[m].notice.triggered {
        var k :| 0 <= k < |places| && places[k] == m;
        assert base + i < k <= base + j;
        var x := k - base;
        assert i < x <= j && places[base + x] == m && TriggeredAt(holdMs, readings, x);
      }
    }
    if TriggeredBetween(steps, c, p, q) {
      forall k | i < k <= j ensures TriggeredAt(holdMs, readings, k) {
        assert p < places[base + k] <= q && IsNotice(steps, c, places[base + k]);
      }
    }
  }

  /** Over any run: two frames of one sink that both make a zone fire, with the camera's events
      saved between them and a row open after the first, fall in the same stored row exactly when
      every frame between them fires too or comes less than the hold after the last that did. */
  lemma FiringsShareARowExactly(holdMs: int, readings: seq<Reading>, steps: seq<Step>, c: string, base: nat, i: nat, j: nat)
    requires FromSink(holdMs, readings, steps, c, base) && ClockRuns(readings)
    requires i <= j < |readings| && readings[i].firing && readings[j].firing
    requires SavedThroughout(steps, c, Notices(steps, c)[base + i], Notices(steps, c)[base + j])
    requires c in Run(steps[..Notices(steps, c)[base + i] + 1]).open
    ensures SameRow(steps, c, Notices(steps, c)[base + i], Notices(steps, c)[base + j]) <==>
            forall k :: i < k < j ==> HeldAt(holdMs, readings, k)
  {
    hide Run;
    hide SameRow;
    hide Notices;
    hide TriggeredBetween;
    hide SavedThroughout;
    hide RecorderOk;
    TriggeredBetweenFrames(holdMs, readings, steps, c, base, i, j);
    RowUntil(steps, c, Notices(steps, c)[base + i], Notices(steps, c)[base + j]);
    hide FromSink;
    forall k | i < k <= j ensures TriggeredAt(holdMs, readings, k) <==> HeldAt(holdMs, readings, k) {
      TriggeredExactly(holdMs, readings, k);
    }
    hide TriggeredAt;
  }

  /** A frame that fires, or comes less than the hold after the last one that did. */
  predicate HeldAt(holdMs: int, readings: seq<Reading>, k: nat)
    requires k < |readings|
  {
    readings[k].firing
    || (LastFiring(readings, k) >= 0 && readings[k].at - readings[LastFiring(readings, k)].at < holdMs)
  }

  /** With a clock that does not go back between them, any two firings closer than the hold fall in
      the same stored row, whatever the frames between them do. */
  lemma CloseFiringsShareARow(holdMs: int, readings: seq<Reading>, steps: seq<Step>, c: string, base: nat, i: nat, j: nat)
    requires FromSink(holdMs, readings, steps, c, base) && ClockRuns(readings)
    requires i <= j < |readings| && readings[i].firing && readings[j].firing
    requires SavedThroughout(steps, c, Notices(steps, c)[base + i], Notices(steps, c)[base + j])
    requires c in Run(steps[..Notices(steps, c)[base + i] + 1]).open
    requires forall k, m :: i <= k <= m <= j ==> readings[k].at <= readings[m].at
    requires readings[j].at - readings[i].at < holdMs
    ensures SameRow(steps, c, Notices(steps, c)[base + i], Notices(steps, c)[base + j])
  {
    FiringsShareARowExactly(holdMs, readings, steps, c, base, i, j);
    hide SameRow;
    forall k | i < k < j ensures HeldAt(holdMs, readings, k) {
      assert LastFiring(readings, k) >= i;
    }
  }

  // ---------------------------------------------------------------- pictures

  /** Whether the sink copies the picture of a frame. */
  ghost predicate PictureAt(holdMs: int, saveEvents: bool, readings: seq<Reading>, i: nat)
    requires i < |readings|
  {
    saveEvents && TriggeredAt(holdMs, readings, i) && !Sensed(holdMs, readings[..i]).wasTriggered
  }

  /** The first notice of its stretch. */
  ghost predicate Begins(seen: seq<Sighting>, i: nat)
    requires i < |seen|
  {
    seen[i].triggered && forall h :: 0 <= h < i && seen[h].triggered ==> StretchOf(seen, h) != StretchOf(seen, i)
  }

  lemma BeginsAfterAGap(seen: seq<Sighting>, i: nat)
    requires i < |seen|
    ensures Begins(seen, i) <==> seen[i].triggered && (i == 0 || !seen[i - 1].triggered)
  {
    if seen[i].triggered {
      forall h | 0 <= h < i && seen[h].triggered
        ensures StretchOf(seen, h) == StretchOf(seen, i) <==> AllTriggered(seen, h, i)
      {
        SameStretchExactly(seen, h, i);
      }
    }
  }

  /** What the frames' notices come to as sightings. */
  function HeardOf(holdMs: int, readings: seq<Reading>): seq<Sighting> {
    seq(|readings|, i requires 0 <= i < |readings| => Sighting(readings[i].at, TriggeredAt(holdMs, readings, i), {}, 0, 0))
  }

  /** While events are saved, the sink takes a picture of the first frame of every stretch of
      triggered frames, and of no other. */
  lemma PictureAtEveryStart(holdMs: int, saveEvents: bool, readings: seq<Reading>, i: nat)
    requires i < |readings|
    ensures PictureAt(holdMs, saveEvents, readings, i) <==> saveEvents && Begins(HeardOf(holdMs, readings), i)
  {
    SenseIs(holdMs, readings, i);
    hide Sensed;
    hide TriggeredAt;
    BeginsAfterAGap(HeardOf(holdMs, readings), i);
  }

  /** Step `p` stores a new row for the camera. */
  ghost predicate OpensRow(steps: seq<Step>, c: string, p: nat)
    requires p < |steps|
  {
    c !in Run(steps[..p]).open && c in Run(steps[..p + 1]).open
  }

  /** Over any run, a row is stored without a picture exactly when the sink was made while events
      were not saved, or its frame is not the first of its stretch of triggered frames, because the
      frame before it was triggered too but left no row open: the events were not saved then, the
      repository refused the row, or everything was closed in between. `saveEvents` is what the
      setting was when the sink was made; the recorder follows the setting at once. */
  lemma RowHasPictureExactly(holdMs: int, saveEvents: bool, readings: seq<Reading>, steps: seq<Step>, c: string, base: nat, i: nat)
    requires FromSink(holdMs, readings, steps, c, base) && i < |readings| && OpensRow(steps, c, Notices(steps, c)[base + i])
    ensures var places := Notices(steps, c);
            !PictureAt(holdMs, saveEvents, readings, i) <==>
            || !saveEvents
            || (i > 0 && TriggeredAt(holdMs, readings, i - 1) && LeftNoRow(steps, c, places[base + i - 1], places[base + i]))
  {
    hide Run;
    hide Notices;
    hide TriggeredAt;
    hide PictureAt;
    hide OpensRow;
    hide LeftNoRow;
    hide FromSink;
    SinkSays(holdMs, readings, steps, c, base, i);
    OpenedByTrigger(steps, c, Notices(steps, c)[base + i]);
    NoPictureInside(holdMs, saveEvents, readings, i);
    if i > 0 && TriggeredAt(holdMs, readings, i - 1) {
      SinkSays(holdMs, readings, steps, c, base, i - 1);
      RowBetween(steps, c, base + i);
    }
  }

  /** A sink made while events were not saved, saving switched on, and then a frame that fires, the
      first of its stretch: its row is stored, without a picture. */
  lemma StaleSinkTakesNoPicture(holdMs: int, c: string, cells: string, at: int)
    requires c != ""
    ensures var readings := [Reading(at, true)];
            var steps := [SetSaving(c, true), Observe(Notice(c, true, cells, 0, 0), at, true)];
            && FromSink(holdMs, readings, steps, c, 0) && Notices(steps, c) == [1] && OpensRow(steps, c, 1)
            && Begins(HeardOf(holdMs, readings), 0) && !PictureAt(holdMs, false, readings, 0)
  {
    var readings := [Reading(at, true)];
    var notice := Notice(c, true, cells, 0, 0);
    var steps := [SetSaving(c, true), Observe(notice, at, true)];
    assert steps[..1] == [SetSaving(c, true)] && steps[..2] == steps && steps[..1][..0] == [];
    assert Run([]) == Idle && Notices([], c) == [];
    assert Run(steps[..1]) == Recorder(map[c := true], map[], []);
    assert Notices(steps[..1], c) == [];
    assert Notices(steps, c) == [1];
    assert Run(steps) == Next(Run(steps[..1]), steps[1]);
    hide Run;
    hide CellsIn;
    hide EventId;
    assert TriggeredAt(holdMs, readings, 0);
    BeginsAfterAGap(HeardOf(holdMs, readings), 0);
  }

  lemma SinkSays(holdMs: int, readings: seq<Reading>, steps: seq<Step>, c: string, base: nat, i: nat)
    requires FromSink(holdMs, readings, steps, c, base) && i < |readings|
    ensures base + i < |Notices(steps, c)|
    ensures steps[Notices(steps, c)[base + i]].notice.triggered == TriggeredAt(holdMs, readings, i)
  {
  }

  lemma NoPictureInside(holdMs: int, saveEvents: bool, readings: seq<Reading>, i: nat)
    requires i < |readings|
    ensures TriggeredAt(holdMs, readings, i) && saveEvents ==>
              (PictureAt(holdMs, saveEvents, readings, i) <==> i == 0 || !TriggeredAt(holdMs, readings, i - 1))
    ensures !saveEvents ==> !PictureAt(holdMs, saveEvents, readings, i)
  {
    SenseIs(holdMs, readings, i);
    hide TriggeredAt;
  }

  /** A row that a notice stores was not left open by the notice before. */
  lemma RowBetween(steps: seq<Step>, c: string, n: nat)
    requires 0 < n < |Notices(steps, c)| && OpensRow(steps, c, Notices(steps, c)[n]) && steps[Notices(steps, c)[n - 1]].notice.triggered
    ensures LeftNoRow(steps, c, Notices(steps, c)[n - 1], Notices(steps, c)[n])
  {
    AdjacentNotices(steps, c, n);
    var m, p := Notices(steps, c)[n - 1], Notices(steps, c)[n];
    hide LeftNoRow;
    hide Notices;
    if !LeftNoRow(steps, c, m, p) { OpenUntil(steps, c, m, p); }
  }

  lemma AdjacentNotices(steps: seq<Step>, c: string, n: nat)
    requires 0 < n < |Notices(steps, c)|
    ensures Notices(steps, c)[n - 1] < Notices(steps, c)[n]
    ensures forall x :: Notices(steps, c)[n - 1] < x < Notices(steps, c)[n] ==> !IsNotice(steps, c, x)
  {
    NoticesInOrder(steps, c);
    var places := Notices(steps, c);
    hide Notices;
    forall x | places[n - 1] < x < places[n] ensures !IsNotice(steps, c, x) {
      assert forall k :: 0 <= k < |places| ==> places[k] <= places[n - 1] || places[k] >= places[n];
    }
  }

  /** After a triggered notice at step `m` no row is open up to step `p`. */
  ghost predicate LeftNoRow(steps: seq<Step>, c: string, m: nat, p: nat)
    requires m < |steps| && p < |steps| && steps[m].Observe?
  {
    !Saves(Run(steps[..m]), c) || !steps[m].accepts || exists x :: m < x < p && steps[x].CloseAll?
  }

  lemma OpenedByTrigger(steps: seq<Step>, c: string, p: nat)
    requires p < |steps| && OpensRow(steps, c, p)
    ensures IsNotice(steps, c, p) && steps[p].notice.triggered
  {
    RunOneMore(steps, p);
    hide Run;
    hide CellsIn;
  }

  lemma {:induction false} OpenUntil(steps: seq<Step>, c: string, m: nat, p: nat)
    requires m < p < |steps| && IsNotice(steps, c, m) && steps[m].notice.triggered && !LeftNoRow(steps, c, m, p)
    requires forall x :: m < x < p ==> !IsNotice(steps, c, x)
    ensures c in Run(steps[..p]).open
  {
    hide Run;
    hide Next;
    hide RecorderOk;
    hide Saves;
    RunOneMore(steps, p - 1);
    if p > m + 1 {
      assert !IsNotice(steps, c, p - 1);
      OpenUntil(steps, c, m, p - 1);
    }
    OpenStep(Run(steps[..p - 1]), steps[p - 1], c);
  }

  lemma OpenStep(w: Recorder, step: Step, c: string)
    requires RecorderOk(w) && !step.CloseAll?
    requires if step.Observe? && step.notice.cameraId == c then step.notice.triggered && Saves(w, c) && step.accepts else c in w.open
    ensures c in Next(w, step).open
  {
    hide CellsIn;
    hide Closed;
  }

  /** What runs on every frame of a camera. */
  class MotionSink {
    const cameraId: string
    const zones: seq<D.Zone>
    const grid: D.Grid
    const holdMs: int
    const saveEvents: bool
    var lastTriggerMs: int
    var wasTriggered: bool

    constructor (cameraId: string, zones: seq<D.Zone>, grid: D.Grid, postMotionSeconds: int, saveEvents: bool)
      ensures Sense(lastTriggerMs, wasTriggered) == Sensed(holdMs, [])
      ensures holdMs == (if postMotionSeconds < 0 then 0 else postMotionSeconds) * 1000
      ensures this.cameraId == cameraId && this.zones == zones && this.grid == grid && this.saveEvents == saveEvents
    {
      this.cameraId, this.zones, this.grid, this.saveEvents := cameraId, zones, grid, saveEvents;
      holdMs := (if postMotionSeconds < 0 then 0 else postMotionSeconds) * 1000;
      lastTriggerMs, wasTriggered := 0, false;
    }

    /** `cells` is what the detector printed for the frame. */
    method OnFrame(cells: string, nowMs: int) returns (notice: Notice, outside: string, picture: bool, fired: bool)
      modifies this
      ensures fired == (zones != [] && cells != "" && D.Triggered(grid, zones, D.Marked(grid, T.Split(cells, ','))))
      ensures var s, r := Sense(old(lastTriggerMs), old(wasTriggered)), Reading(nowMs, fired);
              && Sense(lastTriggerMs, wasTriggered) == Sense(Since(s, r), Held(s, holdMs, r))
              && notice.triggered == Held(s, holdMs, r)
              && picture == (saveEvents && Held(s, holdMs, r) && !s.wasTriggered)
      ensures notice.cameraId == cameraId && notice.gridX == grid.columns && notice.gridY == grid.rows
      ensures notice.insideCells == T.Join(D.Side(zones, T.Split(cells, ','), true), ',')
      ensures outside == T.Join(D.Side(zones, T.Split(cells, ','), false), ',')
    {
      fired := D.ZonesTriggered(cells, zones, grid);
      if fired { lastTriggerMs := nowMs; }
      var since := lastTriggerMs;
      var triggered := fired || (since != 0 && nowMs - since < holdMs);
      var inside;
      inside, outside := D.SplitByZones(cells, zones);
      notice := Notice(cameraId, triggered, inside, grid.columns, grid.rows);
      var previously := wasTriggered;
      wasTriggered := triggered;
      picture := saveEvents && triggered && !previously;
    }
  }

  // ---------------------------------------------------------------- the recorder's class

  datatype OpenEvent = OpenEvent(eventId: string, cells: set<string>, startMs: int)

  ghost predicate EventsAre(events: R.Events, log: seq<R.MotionEvent>) {
    events.next == |log| + 1 && forall k :: 0 <= k < |log| ==> EventIs(events, log, k)
  }

  ghost predicate EventIs(events: R.Events, log: seq<R.MotionEvent>, k: nat)
    requires k < |log|
  {
    EventId(k) in events.rows && events.rows[EventId(k)] == log[k]
  }

  lemma InsertedEvent(events: R.Events, log: seq<R.MotionEvent>, row: R.MotionEvent)
    requires EventsAre(events, log) && row.id == EventId(|log|)
    ensures EventsAre(R.Events(events.rows[row.id := row], events.next + 1), log + [row])
  {
    var after := R.Events(events.rows[row.id := row], events.next + 1);
    forall k | 0 <= k < |log| + 1 ensures EventIs(after, log + [row], k) {
      if k < |log| {
        assert EventIs(events, log, k);
        if EventId(k) == EventId(|log|) { R.IdsDiffer(R.EVENT_PREFIX, k + 1, |log| + 1); }
      }
      hide EventId;
    }
  }

  lemma ChangedEvent(events: R.Events, log: seq<R.MotionEvent>, k: nat, row: R.MotionEvent)
    requires EventsAre(events, log) && k < |log|
    ensures EventId(k) in events.rows && events.rows[EventId(k)] == log[k]
    ensures EventsAre(events.(rows := events.rows[EventId(k) := row]), log[k := row])
  {
    assert EventIs(events, log, k);
    var after := events.(rows := events.rows[EventId(k) := row]);
    var changed := log[k := row];
    forall j | 0 <= j < |log| ensures EventIs(after, changed, j) {
      assert EventIs(events, log, j);
      if EventId(k) == EventId(j) { R.IdsDiffer(R.EVENT_PREFIX, k + 1, j + 1); }
      hide EventId;
    }
  }

  ghost function OpenMap(open: map<string, OpenEvent>, places: map<string, nat>): map<string, Open> {
    map c | c in open && c in places :: Open(places[c], open[c].cells, open[c].startMs)
  }

  lemma OpenMapAdds(open: map<string, OpenEvent>, places: map<string, nat>, c: string, event: OpenEvent, k: nat)
    requires open.Keys == places.Keys
    ensures OpenMap(open[c := event], places[c := k]) == OpenMap(open, places)[c := Open(k, event.cells, event.startMs)]
    ensures c in places && k == places[c] ==>
              OpenMap(open[c := event], places) == OpenMap(open, places)[c := Open(k, event.cells, event.startMs)]
  {
    if c in places { assert places[c := places[c]] == places; }
  }

  lemma OpenMapDrops(open: map<string, OpenEvent>, places: map<string, nat>, c: string)
    requires open.Keys == places.Keys
    ensures OpenMap(open - {c}, places - {c}) == OpenMap(open, places) - {c}
  {
  }

  lemma OpenMapKeys(open: map<string, OpenEvent>, places: map<string, nat>)
    requires open.Keys == places.Keys
    ensures OpenMap(open, places).Keys == open.Keys
    ensures forall c :: c in open ==> OpenMap(open, places)[c] == Open(places[c], open[c].cells, open[c].startMs)
  {
  }

  class MotionEventRecorder {
    const recordings: R.InMemoryRecordingRepository
    var saving: map<string, bool>
    var open: map<string, OpenEvent>
    /** Where each open event is in the log of everything stored. */
    ghost var places: map<string, nat>
    ghost var log: seq<R.MotionEvent>

    ghost predicate Valid()
      reads this, recordings
    {
      && recordings.Valid() && EventsAre(recordings.AbstractEvents(), log)
      && places.Keys == open.Keys && RecorderOk(State())
      && forall c :: c in open ==> open[c].eventId == EventId(places[c])
    }

    ghost function State(): Recorder
      reads this
    {
      Recorder(saving, OpenMap(open, places), log)
    }

    constructor (recordings: R.InMemoryRecordingRepository)
      requires recordings.Valid() && recordings.AbstractEvents() == R.Events(map[], 1)
      ensures Valid() && State() == Idle && this.recordings == recordings
    {
      this.recordings := recordings;
      saving, open, places, log := map[], map[], map[], [];
    }

    method SetSaving(cameraId: string, saves: bool)
      requires Valid()
      modifies this`saving
      ensures Valid() && State() == Next(old(State()), Step.SetSaving(cameraId, saves))
    {
      ghost var before := State();
      saving := saving[cameraId := saves];
      NextOk(before, Step.SetSaving(cameraId, saves));
    }

    /** `accepts` is whether the repository takes a new row; the clock reads `at`. */
    method Observe(notice: Notice, at: int, accepts: bool)
      requires Valid()
      modifies this`open, this`places, this`log, recordings`motionEvents, recordings`nextEventId
      ensures Valid() && State() == ObserveStep(old(State()), notice, at, accepts)
    {
      hide R.InMemoryRecordingRepository.Valid;
      if notice.cameraId == "" { return; }
      if notice.cameraId !in saving || !saving[notice.cameraId] { return; }
      var isOpen := notice.cameraId in open;
      if notice.triggered {
        if !isOpen {
          if !accepts { return; }
          OpenRow(notice, at);
          return;
        }
        AddCells(notice, at, accepts);
        return;
      }
      if !isOpen { return; }
      CloseRow(notice, at, accepts);
    }

    method OpenRow(notice: Notice, at: int)
      requires Valid() && Saves(State(), notice.cameraId) && notice.triggered && notice.cameraId !in open
      modifies this`open, this`places, this`log, recordings`motionEvents, recordings`nextEventId
      ensures Valid() && State() == ObserveStep(old(State()), notice, at, true)
    {
      hide CellsIn;
      hide Listing;
      hide EventId;
      hide EventsAre;
      hide RecorderOk;
      hide OpenMap;
      ghost var before := State();
      OpenMapKeys(open, places);
      NextOk(before, Step.Observe(notice, at, true));
      var event := R.MotionEvent("", notice.cameraId, at, 0, 0.0, "", notice.gridX, notice.gridY, "");
      ghost var stored := recordings.AbstractEvents();
      ghost var k := |log|;
      RowId(stored, log);
      var row := recordings.InsertMotionEvent(event);
      InsertedEvent(stored, log, row);
      var cells := Collect(notice.insideCells, {});
      assert cells == CellsIn(notice.insideCells);
      OpenMapAdds(open, places, notice.cameraId, OpenEvent(row.id, cells, at), k);
      places := places[notice.cameraId := k];
      log := log + [row];
      open := open[notice.cameraId := OpenEvent(row.id, cells, at)];
    }

    method AddCells(notice: Notice, at: int, accepts: bool)
      requires Valid() && Saves(State(), notice.cameraId) && notice.triggered && notice.cameraId in open
      modifies this`open
      ensures Valid() && State() == ObserveStep(old(State()), notice, at, accepts)
    {
      hide CellsIn;
      hide Listing;
      hide EventId;
      hide EventsAre;
      hide RecorderOk;
      hide OpenMap;
      ghost var before := State();
      OpenMapKeys(open, places);
      NextOk(before, Step.Observe(notice, at, accepts));
      var event := open[notice.cameraId];
      var cells := Collect(notice.insideCells, event.cells);
      OpenMapAdds(open, places, notice.cameraId, OpenEvent(event.eventId, cells, event.startMs), places[notice.cameraId]);
      open := open[notice.cameraId := OpenEvent(event.eventId, cells, event.startMs)];
    }

    method CloseRow(notice: Notice, at: int, accepts: bool)
      requires Valid() && Saves(State(), notice.cameraId) && !notice.triggered && notice.cameraId in open
      modifies this`open, this`places, this`log, recordings`motionEvents
      ensures Valid() && State() == ObserveStep(old(State()), notice, at, accepts)
    {
      hide CellsIn;
      hide Listing;
      hide EventId;
      hide EventsAre;
      hide RecorderOk;
      hide OpenMap;
      ghost var before := State();
      OpenMapKeys(open, places);
      NextOk(before, Step.Observe(notice, at, accepts));
      OpenIsOk(before, notice.cameraId);
      var event := open[notice.cameraId];
      var text := JoinCells(event.cells);
      ghost var k := places[notice.cameraId];
      ghost var row := Closed(log[k], event.cells, at);
      ChangedEvent(recordings.AbstractEvents(), log, k, row);
      var found := recordings.CloseMotionEvent(event.eventId, at, 1.0, text);
      OpenMapDrops(open, places, notice.cameraId);
      log := log[k := row];
      open := open - {notice.cameraId};
      places := places - {notice.cameraId};
    }

    /** Closes every open event, one after the other; the clock reads `times` for them. */
    method CloseAll(times: map<string, int>)
      requires Valid()
      modifies this`open, this`places, this`log, recordings`motionEvents
      ensures Valid() && State() == CloseAllStep(old(State()), times)
    {
      hide CellsIn;
      hide Listing;
      hide EventId;
      hide EventsAre;
      hide RecorderOk;
      hide OpenMap;
      ghost var before := State();
      OpenMapKeys(open, places);
      NextOk(before, Step.CloseAll(times));
      NoneClosed(before, times);
      CloseRows(open.Keys, times);
      AllClosed(before, times);
      open, places := map[], map[];
      OpenMapKeys(open, places);
    }

    method CloseRows(cameras: set<string>, times: map<string, int>)
      requires Valid() && cameras == open.Keys
      modifies this`log, recordings`motionEvents
      ensures recordings.Valid() && EventsAre(recordings.AbstractEvents(), log)
      ensures log == ClosedLog(old(State()), cameras, times)
    {
      hide CellsIn;
      hide Listing;
      hide EventId;
      hide EventsAre;
      hide RecorderOk;
      hide OpenMap;
      hide ClosedLog;
      ghost var before := State();
      OpenMapKeys(open, places);
      NoneClosed(before, times);
      var todo, done := cameras, {};
      while todo != {}
        invariant todo + done == cameras && todo !! done
        invariant recordings.Valid() && EventsAre(recordings.AbstractEvents(), log)
        invariant log == ClosedLog(before, done, times)
      {
        var c :| c in todo;
        OpenIsOk(before, c);
        var text := JoinCells(open[c].cells);
        ghost var k := places[c];
        OneMoreClosed(before, done, c, times);
        ChangedEvent(recordings.AbstractEvents(), log, k, Closed(log[k], open[c].cells, TimeOf(times, c)));
        var found := recordings.CloseMotionEvent(open[c].eventId, TimeOf(times, c), 1.0, text);
        log := log[k := Closed(log[k], open[c].cells, TimeOf(times, c))];
        todo, done := todo - {c}, done + {c};
      }
    }
  }

  lemma OpenIsOk(w: Recorder, c: string)
    requires RecorderOk(w) && c in w.open
    ensures OpenOk(w, c)
  {
  }

  lemma RowId(events: R.Events, log: seq<R.MotionEvent>)
    requires EventsAre(events, log)
    ensures R.MakeId(R.EVENT_PREFIX, events.next) == EventId(|log|)
  {
  }

  /** The log with the open events of these cameras closed. */
  ghost function ClosedLog(w: Recorder, cameras: set<string>, times: map<string, int>): seq<R.MotionEvent> {
    seq(|w.log|, k requires 0 <= k < |w.log| => if w.log[k].cameraId in cameras then ClosedAt(w, k, times) else w.log[k])
  }

  lemma NoneClosed(w: Recorder, times: map<string, int>)
    ensures ClosedLog(w, {}, times) == w.log
  {
  }

  lemma AllClosed(w: Recorder, times: map<string, int>)
    ensures ClosedLog(w, w.open.Keys, times) == CloseAllStep(w, times).log
  {
  }

  lemma OneMoreClosed(w: Recorder, cameras: set<string>, c: string, times: map<string, int>)
    requires RecorderOk(w) && c in w.open && c !in cameras
    ensures w.open[c].index < |w.log|
    ensures var k, log := w.open[c].index, ClosedLog(w, cameras, times);
            && |log| == |w.log| && log[k] == w.log[k]
            && ClosedLog(w, cameras + {c}, times) == log[k := Closed(log[k], w.open[c].cells, TimeOf(times, c))]
  {
    assert OpenOk(w, c);
    hide Closed;
  }
}
