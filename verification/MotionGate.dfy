/** Which recorded segments to keep (src/media/recording/MotionGate.cpp). */
module MotionGate {
  // When a camera records only around events, a closed segment is held for the pre-roll and
  // decided afterwards, against the events not yet forgotten.

  import opened Recording
  import opened Sorting

  datatype Options = Options(preSeconds: int, postSeconds: int)

  datatype Decision = Decision(segment: Segment, keep: bool)

  function Clamp(seconds: int): nat {
    if seconds < 0 then 0 else seconds
  }

  function HoldMs(o: Options): nat { Clamp(o.preSeconds) * 1000 }

  function PostMs(o: Options): nat { Clamp(o.postSeconds) * 1000 }

  predicate Covers(o: Options, at: int, segment: Segment) {
    SegmentIsWorthKeeping(segment, MotionWindow(at, at, HoldMs(o), PostMs(o)))
  }

  /** The gate as a value: what it holds and the event instants it remembers. */
  datatype Gate = Gate(held: seq<Segment>, events: set<int>)

  /** What is done to a gate. Instants are the clock's reading at the call. */
  datatype Op = Note(at: int) | Offer(segment: Segment) | Settle(now: int) | Flush

  predicate Remembered(o: Options, events: set<int>, segment: Segment) {
    exists at :: at in events && Covers(o, at, segment)
  }

  predicate Ripe(o: Options, segment: Segment, now: int) {
    segment.endMs + HoldMs(o) <= now
  }

  function StillHeld(o: Options, held: seq<Segment>, now: int): seq<Segment> {
    if held == [] then []
    else (if Ripe(o, held[0], now) then [] else [held[0]]) + StillHeld(o, held[1..], now)
  }

  function Decided(o: Options, held: seq<Segment>, events: set<int>, now: int): seq<Decision> {
    if held == [] then []
    else
      (if Ripe(o, held[0], now) then [Decision(held[0], Remembered(o, events, held[0]))] else [])
      + Decided(o, held[1..], events, now)
  }

  function DecideAll(o: Options, held: seq<Segment>, events: set<int>): seq<Decision> {
    if held == [] then []
    else [Decision(held[0], Remembered(o, events, held[0]))] + DecideAll(o, held[1..], events)
  }

  function Horizon(o: Options, now: int): int { now - PostMs(o) - HoldMs(o) }

  function Forget(o: Options, events: set<int>, now: int): set<int> {
    set at | at in events && at >= Horizon(o, now)
  }

  function Next(o: Options, g: Gate, op: Op): Gate {
    match op
    case Note(at) => Gate(g.held, g.events + {at})
    case Offer(segment) => Gate(g.held + [segment], g.events)
    case Settle(now) => Gate(StillHeld(o, g.held, now), Forget(o, g.events, now))
    case Flush => Gate([], g.events)
  }

  /** The decisions a step hands back. */
  function Output(o: Options, g: Gate, op: Op): seq<Decision> {
    match op
    case Settle(now) => Decided(o, g.held, g.events, now)
    case Flush => DecideAll(o, g.held, g.events)
    case _ => []
  }

  function Run(o: Options, ops: seq<Op>): Gate {
    if ops == [] then Gate([], {}) else Next(o, Run(o, ops[..|ops| - 1]), ops[|ops| - 1])
  }

  // ---------------------------------------------------------------- the offline rule

  /** Every event instant a run notes, early or late. */
  function Noted(ops: seq<Op>): set<int> {
    set i | 0 <= i < |ops| && ops[i].Note? :: ops[i].at
  }

  predicate Timed(op: Op) { op.Note? || op.Settle? }

  function Time(op: Op): int
    requires Timed(op)
  {
    if op.Note? then op.at else op.now
  }

  /** The clock the instants are read from does not go back. */
  ghost predicate Monotone(ops: seq<Op>) {
    forall i, j :: 0 <= i < j < |ops| && Timed(ops[i]) && Timed(ops[j]) ==> Time(ops[i]) <= Time(ops[j])
  }

  /** No settle before `p` had already passed the segment's start by more than the hold. It fails
      for a segment that straddles `now - hold` while it waits, or that is offered that late. */
  ghost predicate Timely(o: Options, ops: seq<Op>, p: nat, segment: Segment)
    requires p <= |ops|
  {
    forall i :: 0 <= i < p && ops[i].Settle? ==> ops[i].now - HoldMs(o) <= segment.startMs + 1
  }

  /** Forgetting loses only events below the horizon of some settle on the way. */
  lemma {:induction false} WhatIsForgotten(o: Options, ops: seq<Op>)
    ensures Run(o, ops).events <= Noted(ops)
    ensures forall at :: at in Noted(ops) && at !in Run(o, ops).events ==>
                           exists i :: 0 <= i < |ops| && ops[i].Settle? && at < Horizon(o, ops[i].now)
  {
    if ops != [] {
      var n := |ops| - 1;
      var before := ops[..n];
      WhatIsForgotten(o, before);
      forall at | at in Noted(before) ensures at in Noted(ops) {
        var i :| 0 <= i < n && before[i].Note? && before[i].at == at;
        assert ops[i].Note?;
      }
      forall at | at in Run(o, ops).events ensures at in Noted(ops) {
        if ops[n] == Note(at) { assert ops[n].Note?; }
      }
      forall at | at in Noted(ops) && at !in Run(o, ops).events
        ensures exists i :: 0 <= i < |ops| && ops[i].Settle? && at < Horizon(o, ops[i].now)
      {
        var k :| 0 <= k < |ops| && ops[k].Note? && ops[k].at == at;
        if k < n && at !in Run(o, before).events {
          assert before[k].Note?;
          var i :| 0 <= i < n && before[i].Settle? && at < Horizon(o, before[i].now);
          assert ops[i].Settle?;
        } else {
          assert ops[n].Settle?;
        }
      }
    }
  }

  lemma {:induction false} DecidedElements(o: Options, held: seq<Segment>, events: set<int>, now: int, d: Decision)
    requires d in Decided(o, held, events, now)
    ensures Ripe(o, d.segment, now) && d.keep == Remembered(o, events, d.segment)
  {
    if !(Ripe(o, held[0], now) && d == Decision(held[0], Remembered(o, events, held[0]))) {
      DecidedElements(o, held[1..], events, now, d);
    }
  }

  lemma {:induction false} DecideAllElements(o: Options, held: seq<Segment>, events: set<int>, d: Decision)
    requires d in DecideAll(o, held, events)
    ensures d.keep == Remembered(o, events, d.segment)
  {
    if d != DecideAll(o, held, events)[0] { DecideAllElements(o, held[1..], events, d); }
  }

  /** What the gate keeps, some event noted by then covers: no clock is needed for that. */
  lemma KeptIsCovered(o: Options, ops: seq<Op>, p: nat, d: Decision)
    requires p < |ops| && d in Output(o, Run(o, ops[..p]), ops[p]) && d.keep
    ensures Remembered(o, Noted(ops[..p]), d.segment)
  {
    var g := Run(o, ops[..p]);
    WhatIsForgotten(o, ops[..p]);
    if ops[p].Settle? {
      DecidedElements(o, g.held, g.events, ops[p].now, d);
    } else {
      DecideAllElements(o, g.held, g.events, d);
    }
  }

  /** The online gate decides what an omniscient rule would. With a clock that does not go back,
      a settled segment is kept exactly when some event of the whole run covers it, past or
      future, and a flushed one exactly when some event noted so far does, provided the segment
      was timely. */
  lemma OnlineIsOffline(o: Options, ops: seq<Op>, p: nat, d: Decision)
    requires Monotone(ops) && p < |ops|
    requires d in Output(o, Run(o, ops[..p]), ops[p]) && Timely(o, ops, p, d.segment)
    ensures ops[p].Settle? ==> (d.keep <==> Remembered(o, Noted(ops), d.segment))
    ensures ops[p].Flush? ==> (d.keep <==> Remembered(o, Noted(ops[..p]), d.segment))
  {
    var g := Run(o, ops[..p]);
    WhatIsForgotten(o, ops[..p]);
    forall at | at in Noted(ops[..p]) && at !in g.events ensures !Covers(o, at, d.segment) {
      var i :| 0 <= i < p && ops[..p][i].Settle? && at < Horizon(o, ops[..p][i].now);
      assert ops[i].Settle?;
    }
    forall at | at in Noted(ops[..p]) ensures at in Noted(ops) {
      var i :| 0 <= i < p && ops[..p][i].Note? && ops[..p][i].at == at;
      assert ops[i].Note?;
    }
    if ops[p].Settle? {
      DecidedElements(o, g.held, g.events, ops[p].now, d);
      forall at | at in Noted(ops) && at !in Noted(ops[..p]) ensures !Covers(o, at, d.segment) {
        LateEventsMiss(o, ops, p, d.segment, at);
      }
    } else {
      DecideAllElements(o, g.held, g.events, d);
    }
  }

  /** An event noted after a segment ripened comes too late to cover it. */
  lemma LateEventsMiss(o: Options, ops: seq<Op>, p: nat, segment: Segment, at: int)
    requires Monotone(ops) && p < |ops| && ops[p].Settle? && Ripe(o, segment, ops[p].now)
    requires at in Noted(ops) && at !in Noted(ops[..p])
    ensures !Covers(o, at, segment)
  {
    var i :| 0 <= i < |ops| && ops[i].Note? && ops[i].at == at;
    assert forall k :: 0 <= k < p && ops[k].Note? ==> ops[..p][k].Note? && ops[k].at in Noted(ops[..p]);
    assert p < i && Time(ops[p]) <= Time(ops[i]);
  }

  // ---------------------------------------------------------------- what is decided when

  /** A segment that ends at this instant has been held for the pre-roll. */
  predicate HeldLongEnough(o: Options, segment: Segment, now: int) {
    segment.endMs + 1000 * (if o.preSeconds > 0 then o.preSeconds else 0) <= now
  }

  /** Step `n` decides this segment if it is held: a flush, or a settle late enough. */
  predicate IsDue(o: Options, op: Op, segment: Segment) {
    op.Flush? || (op.Settle? && HeldLongEnough(o, segment, op.now))
  }

  /** The segment offered at step `p` is not decided before step `n`. */
  ghost predicate Waits(o: Options, ops: seq<Op>, p: nat, n: nat)
    requires p < n <= |ops|
  {
    ops[p].Offer? && forall m :: p < m < n ==> !IsDue(o, ops[m], ops[p].segment)
  }

  /** The segments offered before step `q` that still wait at step `n`, in the order they came. */
  ghost function Waiting(o: Options, ops: seq<Op>, q: nat, n: nat): seq<Segment>
    requires q <= n <= |ops|
  {
    if q == 0 then []
    else Waiting(o, ops, q - 1, n) + if Waits(o, ops, q - 1, n) then [ops[q - 1].segment] else []
  }

  /** Those of them that step `n` decides. */
  ghost function Due(o: Options, ops: seq<Op>, q: nat, n: nat): seq<Segment>
    requires q <= n < |ops|
  {
    if q == 0 then []
    else
      Due(o, ops, q - 1, n) +
      if Waits(o, ops, q - 1, n) && IsDue(o, ops[n], ops[q - 1].segment) then [ops[q - 1].segment] else []
  }

  lemma {:induction false} StillHeldOneMore(o: Options, held: seq<Segment>, now: int, last: Segment)
    ensures StillHeld(o, held + [last], now) == StillHeld(o, held, now) + if Ripe(o, last, now) then [] else [last]
  {
    if held == [] {
      assert [last][1..] == [];
    } else {
      assert (held + [last])[1..] == held[1..] + [last];
      StillHeldOneMore(o, held[1..], now, last);
    }
  }

  function Segments(decisions: seq<Decision>): seq<Segment> {
    seq(|decisions|, i requires 0 <= i < |decisions| => decisions[i].segment)
  }

  lemma SegmentsSum(a: seq<Decision>, b: seq<Decision>)
    ensures Segments(a + b) == Segments(a) + Segments(b)
  {
  }

  lemma {:induction false} DecidedOneMore(o: Options, held: seq<Segment>, events: set<int>, now: int, last: Segment)
    ensures Segments(Decided(o, held + [last], events, now)) ==
            Segments(Decided(o, held, events, now)) + if Ripe(o, last, now) then [last] else []
  {
    hide Ripe;
    hide Remembered;
    hide Segments;
    if held == [] {
      NoneDecided(o, events, now);
      LastDecided(o, events, now, last);
      assert [] + [last] == [last];
    } else {
      assert (held + [last])[1..] == held[1..] + [last];
      DecidedOneMore(o, held[1..], events, now, last);
      var first := if Ripe(o, held[0], now) then [Decision(held[0], Remembered(o, events, held[0]))] else [];
      SegmentsSum(first, Decided(o, held[1..], events, now));
      SegmentsSum(first, Decided(o, held[1..] + [last], events, now));
    }
  }

  lemma NoneDecided(o: Options, events: set<int>, now: int)
    ensures Segments(Decided(o, [], events, now)) == []
  {
  }

  lemma LastDecided(o: Options, events: set<int>, now: int, last: Segment)
    ensures Segments(Decided(o, [last], events, now)) == if Ripe(o, last, now) then [last] else []
  {
    assert [last][1..] == [];
  }

  lemma {:induction false} AllDecided(o: Options, held: seq<Segment>, events: set<int>)
    ensures Segments(DecideAll(o, held, events)) == held
  {
    if held != [] { AllDecided(o, held[1..], events); }
  }

  lemma WaitsNext(o: Options, ops: seq<Op>, p: nat, n: nat)
    requires p < n < |ops|
    ensures Waits(o, ops, p, n) ==> ops[p].Offer?
    ensures Waits(o, ops, p, n + 1) <==> Waits(o, ops, p, n) && !IsDue(o, ops[n], ops[p].segment)
    ensures ops[n].Settle? && Waits(o, ops, p, n) ==> (IsDue(o, ops[n], ops[p].segment) <==> Ripe(o, ops[p].segment, ops[n].now))
  {
  }

  lemma {:induction false} WaitingNext(o: Options, ops: seq<Op>, q: nat, n: nat)
    requires q <= n < |ops|
    ensures Waiting(o, ops, q, n + 1) ==
            match ops[n]
            case Flush => []
            case Settle(now) => StillHeld(o, Waiting(o, ops, q, n), now)
            case _ => Waiting(o, ops, q, n)
  {
    if q > 0 {
      WaitingNext(o, ops, q - 1, n);
      WaitsNext(o, ops, q - 1, n);
      hide Waits;
      hide Ripe;
      if ops[n].Settle? && Waits(o, ops, q - 1, n) {
        StillHeldOneMore(o, Waiting(o, ops, q - 1, n), ops[n].now, ops[q - 1].segment);
      }
      assert Waiting(o, ops, q - 1, n) + [] == Waiting(o, ops, q - 1, n);
      hide StillHeld;
    }
  }

  /** At every moment the gate holds exactly the segments offered that no flush, and no settle at or
      past their end plus the pre-roll, has come after, in the order they came. */
  lemma {:induction false} HeldExactly(o: Options, ops: seq<Op>, n: nat)
    requires n <= |ops|
    ensures Run(o, ops[..n]).held == Waiting(o, ops, n, n)
  {
    if n > 0 {
      HeldExactly(o, ops, n - 1);
      WaitingNext(o, ops, n - 1, n - 1);
      assert ops[..n][..n - 1] == ops[..n - 1];
      assert Waits(o, ops, n - 1, n) <==> ops[n - 1].Offer?;
      hide StillHeld;
    }
  }

  lemma {:induction false} DueIs(o: Options, ops: seq<Op>, q: nat, n: nat, events: set<int>)
    requires q <= n < |ops|
    ensures Due(o, ops, q, n) ==
            match ops[n]
            case Flush => Waiting(o, ops, q, n)
            case Settle(now) => Segments(Decided(o, Waiting(o, ops, q, n), events, now))
            case _ => []
  {
    hide Waits;
    hide Ripe;
    hide Segments;
    if q == 0 {
      if ops[n].Settle? { NoneDecided(o, events, ops[n].now); }
    } else {
      DueIs(o, ops, q - 1, n, events);
      WaitsNext(o, ops, q - 1, n);
      if ops[n].Settle? && Waits(o, ops, q - 1, n) {
        DecidedOneMore(o, Waiting(o, ops, q - 1, n), events, ops[n].now, ops[q - 1].segment);
      }
      assert Waiting(o, ops, q - 1, n) + [] == Waiting(o, ops, q - 1, n);
      hide Decided;
    }
  }

  /** What a step decides: those that wait and are due, each once, in the order they came. */
  lemma DecidesExactly(o: Options, ops: seq<Op>, n: nat)
    requires n < |ops|
    ensures Segments(Output(o, Run(o, ops[..n]), ops[n])) == Due(o, ops, n, n)
  {
    var g := Run(o, ops[..n]);
    HeldExactly(o, ops, n);
    DueIs(o, ops, n, n, g.events);
    AllDecided(o, g.held, g.events);
  }

  // ---------------------------------------------------------------- where forgetting differs

  /** Some instant exists at which an event would save this segment. */
  predicate Savable(o: Options, segment: Segment) {
    segment.startMs + 1 - PostMs(o) - HoldMs(o) < segment.endMs
  }

  lemma SavableExactly(o: Options, segment: Segment)
    ensures Savable(o, segment) <==> exists at :: Covers(o, at, segment)
  {
    if Savable(o, segment) { assert Covers(o, segment.startMs + 1 - PostMs(o), segment); }
  }

  function Inserted(ops: seq<Op>, i: nat, op: Op): seq<Op>
    requires i <= |ops|
  {
    ops[..i] + [op] + ops[i..]
  }

  /** Where a note of instant `at` belongs: before the first reading past it. */
  lemma {:induction false} NotePlace(ops: seq<Op>, at: int, k: nat) returns (i: nat)
    requires Monotone(ops) && k < |ops| && Timed(ops[k]) && at < Time(ops[k])
    ensures i <= k && Monotone(Inserted(ops, i, Note(at)))
  {
    i := 0;
    while !(Timed(ops[i]) && at < Time(ops[i]))
      invariant i <= k && forall j :: 0 <= j < i && Timed(ops[j]) ==> Time(ops[j]) <= at
      decreases k - i
    {
      i := i + 1;
    }
    assert forall j :: i <= j < |ops| && Timed(ops[j]) ==> Time(ops[i]) <= Time(ops[j]);
  }

  /** Two gates that differ at most by remembering one more event. */
  ghost predicate OneMore(g: Gate, h: Gate, at: int) {
    h.held == g.held && g.events <= h.events <= g.events + {at}
  }

  /** A run with one more note, up to the same operation. */
  lemma {:induction false} InsertedRun(o: Options, ops: seq<Op>, i: nat, at: int, n: nat)
    requires i <= n <= |ops|
    ensures OneMore(Run(o, ops[..n]), Run(o, Inserted(ops, i, Note(at))[..n + 1]), at)
    ensures (exists k :: i <= k < n && ops[k].Settle? && at < Horizon(o, ops[k].now)) ==>
              Run(o, ops[..n]) == Run(o, Inserted(ops, i, Note(at))[..n + 1])
  {
    var more := Inserted(ops, i, Note(at));
    if n == i {
      assert more[..n + 1][..n] == ops[..n];
    } else {
      InsertedRun(o, ops, i, at, n - 1);
      assert ops[..n][..n - 1] == ops[..n - 1] && more[..n + 1][..n] == more[..n];
      assert more[n] == ops[n - 1];
      OneMoreStep(o, Run(o, ops[..n - 1]), Run(o, more[..n]), at, ops[n - 1]);
      hide Next;
      hide OneMore;
    }
  }

  lemma OneMoreStep(o: Options, g: Gate, h: Gate, at: int, op: Op)
    requires OneMore(g, h, at)
    ensures OneMore(Next(o, g, op), Next(o, h, op), at)
    ensures op.Settle? && at < Horizon(o, op.now) ==> Next(o, g, op) == Next(o, h, op)
  {
    hide StillHeld;
  }

  /** A dropped segment that was not timely could have been one to keep: for some instant, in
      clock order, an event noted then covers it, and the gate still drops it. */
  lemma UntimelyDropCanBeWrong(o: Options, ops: seq<Op>, p: nat, segment: Segment) returns (i: nat, at: int)
    requires Monotone(ops) && p < |ops| && Decision(segment, false) in Output(o, Run(o, ops[..p]), ops[p])
    requires !Timely(o, ops, p, segment) && Savable(o, segment)
    ensures i <= p && Monotone(Inserted(ops, i, Note(at))) && Covers(o, at, segment)
    ensures var more := Inserted(ops, i, Note(at));
            Decision(segment, false) in Output(o, Run(o, more[..p + 1]), more[p + 1])
  {
    var k :| 0 <= k < p && ops[k].Settle? && ops[k].now - HoldMs(o) > segment.startMs + 1;
    at := segment.startMs + 1 - PostMs(o);
    i := NotePlace(ops, at, k);
    InsertedRun(o, ops, i, at, p);
    assert at < Horizon(o, ops[k].now);
    assert Inserted(ops, i, Note(at))[p + 1] == ops[p];
  }

  /** The drop is right whatever else might have happened: no event noted on the way, in clock
      order, both covers the segment and leaves it dropped. */
  ghost predicate DropStands(o: Options, ops: seq<Op>, p: nat, segment: Segment)
    requires p < |ops|
  {
    forall i: nat, at ::
      i <= p && Monotone(Inserted(ops, i, Note(at)))
      && Decision(segment, false) in
         Output(o, Run(o, Inserted(ops, i, Note(at))[..p + 1]), Inserted(ops, i, Note(at))[p + 1])
      ==> !Covers(o, at, segment)
  }

  /** A drop stands exactly when the segment was timely, or too short for any event to save. */
  lemma DropStandsExactly(o: Options, ops: seq<Op>, p: nat, segment: Segment)
    requires Monotone(ops) && p < |ops| && Decision(segment, false) in Output(o, Run(o, ops[..p]), ops[p])
    ensures DropStands(o, ops, p, segment) <==> Timely(o, ops, p, segment) || !Savable(o, segment)
  {
    SavableExactly(o, segment);
    if Timely(o, ops, p, segment) {
      forall i: nat, at |
        i <= p && Monotone(Inserted(ops, i, Note(at)))
        && Decision(segment, false) in
           Output(o, Run(o, Inserted(ops, i, Note(at))[..p + 1]), Inserted(ops, i, Note(at))[p + 1])
        ensures !Covers(o, at, segment)
      {
        TimelyDropStands(o, ops, p, segment, i, at);
      }
    } else if Savable(o, segment) {
      var i, at := UntimelyDropCanBeWrong(o, ops, p, segment);
    }
  }

  lemma TimelyDropStands(o: Options, ops: seq<Op>, p: nat, segment: Segment, i: nat, at: int)
    requires i <= p < |ops| && Timely(o, ops, p, segment) && Monotone(Inserted(ops, i, Note(at)))
    requires Decision(segment, false) in
             Output(o, Run(o, Inserted(ops, i, Note(at))[..p + 1]), Inserted(ops, i, Note(at))[p + 1])
    ensures !Covers(o, at, segment)
  {
    var more := Inserted(ops, i, Note(at));
    assert forall j :: 0 <= j < p + 1 && more[j].Settle? ==> more[j] == ops[if j < i then j else j - 1];
    assert more[..p + 1][i].Note? && more[i].Note?;
    assert at in Noted(more[..p + 1]) && at in Noted(more);
    OnlineIsOffline(o, more, p + 1, Decision(segment, false));
  }

  /** The smallest such run at the default ten and twenty seconds: the event keeps the segment
      from its start until 8 s, but is forgotten at 19 s, a second before the segment ripens. */
  lemma StraddlerIsLost()
    ensures var o := Options(10, 20);
            var segment := Segment("", "", "", 100_000, 110_000, false, "", true, 0);
            var ops := [Note(88_000), Offer(segment), Settle(119_000), Settle(120_000)];
            && Monotone(ops) && Covers(o, 88_000, segment)
            && Output(o, Run(o, ops[..3]), ops[3]) == [Decision(segment, false)]
  {
    var o := Options(10, 20);
    var segment := Segment("", "", "", 100_000, 110_000, false, "", true, 0);
    var ops := [Note(88_000), Offer(segment), Settle(119_000), Settle(120_000)];
    assert ops[..3][..2] == ops[..2] && ops[..2][..1] == ops[..1] && ops[..1][..0] == [];
    assert Run(o, ops[..1]) == Gate([], {88_000});
    assert Run(o, ops[..2]) == Gate([segment], {88_000});
    assert StillHeld(o, [segment], 119_000) == [segment];
    assert Run(o, ops[..3]) == Gate([segment], {});
    assert [segment][1..] == [] && !Remembered(o, {}, segment);
    assert Decided(o, [segment], {}, 120_000) == [Decision(segment, false)] + Decided(o, [], {}, 120_000);
  }

  // ---------------------------------------------------------------- the class

  class MotionGate {
    const options: Options
    var held: seq<Segment>
    var events: seq<int>

    ghost predicate Valid()
      reads this
    {
      SortedBy(events, (a, b) => a <= b)
    }

    ghost function State(): Gate
      reads this
    {
      Gate(held, set at | at in events)
    }

    constructor (options: Options)
      ensures Valid() && State() == Gate([], {}) && this.options == options
    {
      this.options := options;
      held, events := [], [];
    }

    method NoteEvent(at: int)
      requires Valid()
      modifies this`events
      ensures Valid() && State() == Next(options, old(State()), Note(at))
      ensures multiset(events) == multiset(old(events)) + multiset{at}
    {
      events := events + [at];
      if |events| > 1 && events[|events| - 2] > at {
        var sorted := Sort(events, (a, b) => a <= b);
        SameElements(sorted, events);
        events := sorted;
      }
    }

    method Offer(segment: Segment)
      modifies this`held
      ensures State() == Next(options, old(State()), Op.Offer(segment))
    {
      held := held + [segment];
    }

    method AnyEventCovers(segment: Segment) returns (covered: bool)
      ensures covered == Remembered(options, State().events, segment)
    {
      for i := 0 to |events|
        invariant forall j :: 0 <= j < i ==> !Covers(options, events[j], segment)
      {
        if Covers(options, events[i], segment) { return true; }
      }
      return false;
    }

    method ForgetOldEvents(now: int)
      requires Valid()
      modifies this`events
      ensures Valid() && State().events == Forget(options, old(State()).events, now)
    {
      var stale := LowerBound(events, Horizon(options, now));
      events := events[stale..];
    }

    method Settle(now: int) returns (decided: seq<Decision>)
      requires Valid()
      modifies this
      ensures Valid() && State() == Next(options, old(State()), Op.Settle(now))
      ensures decided == Output(options, old(State()), Op.Settle(now))
    {
      var stillHeld;
      decided, stillHeld := Resolve(now);
      held := stillHeld;
      ForgetOldEvents(now);
    }

    /** Sorts what is held into what can be decided by now and what cannot. */
    method Resolve(now: int) returns (decided: seq<Decision>, stillHeld: seq<Segment>)
      ensures decided == Decided(options, held, State().events, now)
      ensures stillHeld == StillHeld(options, held, now)
    {
      decided, stillHeld := [], [];
      for i := 0 to |held|
        invariant stillHeld + StillHeld(options, held[i..], now) == StillHeld(options, held, now)
        invariant decided + Decided(options, held[i..], State().events, now) ==
                  Decided(options, held, State().events, now)
      {
        assert held[i..][1..] == held[i + 1..];
        if held[i].endMs + HoldMs(options) > now {
          stillHeld := stillHeld + [held[i]];
          continue;
        }
        var keep := AnyEventCovers(held[i]);
        decided := decided + [Decision(held[i], keep)];
      }
    }

    method Flush() returns (decided: seq<Decision>)
      requires Valid()
      modifies this`held
      ensures State() == Next(options, old(State()), Op.Flush)
      ensures decided == Output(options, old(State()), Op.Flush)
    {
      decided := [];
      for i := 0 to |held|
        invariant held == old(held)
        invariant decided + DecideAll(options, held[i..], State().events) ==
                  DecideAll(options, held, State().events)
      {
        assert held[i..][1..] == held[i + 1..];
        var keep := AnyEventCovers(held[i]);
        decided := decided + [Decision(held[i], keep)];
      }
      held := [];
    }
  }
}
