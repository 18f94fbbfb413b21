/** What becomes of a camera's segments (src/media/recording/RecordingManager.cpp). */
module RecordingGates {
  import opened Recording
  import G = MotionGate

  datatype Option<+T> = None | Some(value: T)

  /** One camera's entry: its gate, and whether it was built to record around events. */
  datatype Entry = Entry(gate: Option<G.Gate>, options: G.Options, motion: bool)

  /** `offered`, `decided` and `lost` keep account of the segments: those that reached a gate, those
      a gate decided, and those that went with a gate that was replaced or removed. */
  datatype World = World(entry: Option<Entry>, offered: multiset<Segment>, decided: multiset<Segment>, lost: multiset<Segment>)

  const Init := World(None, multiset{}, multiset{}, multiset{})

  /** `Rebuild` is the second locked phase of `apply`: without a source it stops short, and when the
      session does not start the gate is new but what the entry was built for is not. */
  datatype Step =
    | Rebuild(options: G.Options, motion: bool, hasSource: bool, starts: bool)
    | Remove
    | Note(at: int)
    | Report(segment: Segment)
    | Settle(now: int)
    | Stop

  function Held(w: World): seq<Segment> {
    if w.entry.Some? && w.entry.value.gate.Some? then w.entry.value.gate.value.held else []
  }

  function SegmentsOf(decisions: seq<G.Decision>): multiset<Segment> {
    if decisions == [] then multiset{}
    else SegmentsOf(decisions[..|decisions| - 1]) + multiset{decisions[|decisions| - 1].segment}
  }

  /** One of the gate's own operations, if there is a gate. */
  function GateStep(w: World, op: G.Op): World {
    if w.entry.None? || w.entry.value.gate.None? then w
    else
      var e := w.entry.value;
      w.(entry := Some(Entry(Some(G.Next(e.options, e.gate.value, op)), e.options, e.motion)),
         decided := w.decided + SegmentsOf(G.Output(e.options, e.gate.value, op)))
  }

  function Next(w: World, step: Step): World {
    match step
    case Rebuild(options, motion, hasSource, starts) =>
      var e := if w.entry.Some? then w.entry.value else Entry(None, options, false);
      if !hasSource then w.(entry := Some(e))
      else
        w.(entry := Some(Entry(Some(G.Gate([], {})), options, if starts then motion else e.motion)),
           lost := w.lost + multiset(Held(w)))
    case Remove => w.(entry := None, lost := w.lost + multiset(Held(w)))
    case Note(at) => GateStep(w, G.Note(at))
    case Report(segment) =>
      if w.entry.Some? && w.entry.value.motion && w.entry.value.gate.Some? && segment.complete
      then GateStep(w, G.Offer(segment)).(offered := w.offered + multiset{segment})
      else w
    case Settle(now) => GateStep(w, G.Settle(now))
    case Stop => GateStep(w, G.Flush).(entry := None)
  }

  function Run(steps: seq<Step>): World {
    if steps == [] then Init else Next(Run(steps[..|steps| - 1]), steps[|steps| - 1])
  }

  // ---------------------------------------------------------------- the account

  lemma {:induction false} SegmentsOfLonger(d: G.Decision, rest: seq<G.Decision>)
    ensures SegmentsOf([d] + rest) == multiset{d.segment} + SegmentsOf(rest)
  {
    var all := [d] + rest;
    if rest == [] {
      assert all == [d] && [d][..0] == [];
    } else {
      assert all[..|all| - 1] == [d] + rest[..|rest| - 1];
      SegmentsOfLonger(d, rest[..|rest| - 1]);
    }
  }

  lemma FirstOff<T>(s: seq<T>)
    requires s != []
    ensures multiset(s) == multiset{s[0]} + multiset(s[1..])
  {
    assert s == [s[0]] + s[1..];
  }

  /** How settling treats the first segment held. */
  lemma FirstSettled(o: G.Options, held: seq<Segment>, events: set<int>, now: int)
    requires held != []
    ensures var d, rest := G.Decision(held[0], G.Remembered(o, events, held[0])), held[1..];
            if G.Ripe(o, held[0], now) then
              G.Decided(o, held, events, now) == [d] + G.Decided(o, rest, events, now)
              && G.StillHeld(o, held, now) == G.StillHeld(o, rest, now)
            else
              G.Decided(o, held, events, now) == G.Decided(o, rest, events, now)
              && G.StillHeld(o, held, now) == [held[0]] + G.StillHeld(o, rest, now)
  {
    hide G.Ripe;
  }

  /** Settling splits what is held into what is decided and what is still held. */
  lemma {:induction false} SettledOrHeld(o: G.Options, held: seq<Segment>, events: set<int>, now: int)
    ensures multiset(held) == SegmentsOf(G.Decided(o, held, events, now)) + multiset(G.StillHeld(o, held, now))
  {
    if held != [] {
      SettledOrHeld(o, held[1..], events, now);
      FirstOff(held);
      FirstSettled(o, held, events, now);
      SegmentsOfLonger(G.Decision(held[0], G.Remembered(o, events, held[0])), G.Decided(o, held[1..], events, now));
      hide *;
    }
  }

  lemma {:induction false} FlushedAll(o: G.Options, held: seq<Segment>, events: set<int>)
    ensures multiset(held) == SegmentsOf(G.DecideAll(o, held, events))
  {
    if held != [] {
      FlushedAll(o, held[1..], events);
      SegmentsOfLonger(G.Decision(held[0], G.Remembered(o, events, held[0])), G.DecideAll(o, held[1..], events));
      FirstOff(held);
      hide SegmentsOf;
    }
  }

  ghost predicate Accounted(w: World) {
    w.offered == w.decided + multiset(Held(w)) + w.lost
  }

  /** What one operation on a gate does to what it holds. */
  lemma GateAccounted(o: G.Options, g: G.Gate, op: G.Op)
    ensures op.Offer? ==>
              multiset(g.held) + multiset{op.segment} == multiset(G.Next(o, g, op).held) + SegmentsOf(G.Output(o, g, op))
    ensures !op.Offer? ==> multiset(g.held) == multiset(G.Next(o, g, op).held) + SegmentsOf(G.Output(o, g, op))
  {
    match op
    case Note(_) => assert SegmentsOf([]) == multiset{};
    case Offer(_) => assert SegmentsOf([]) == multiset{};
    case Settle(now) => SettledOrHeld(o, g.held, g.events, now);
    case Flush => FlushedAll(o, g.held, g.events);
  }

  lemma Rearranged(offered: multiset<Segment>, decided: multiset<Segment>, held: multiset<Segment>, lost: multiset<Segment>,
        more: multiset<Segment>, after: multiset<Segment>, out: multiset<Segment>)
    requires offered == decided + held + lost && held + more == after + out
    ensures offered + more == (decided + out) + after + lost
  {
    forall s ensures (offered + more)[s] == ((decided + out) + after + lost)[s] {
      assert offered[s] == (decided + held + lost)[s] && (held + more)[s] == (after + out)[s];
    }
  }

  lemma GateStepAccounted(w: World, op: G.Op)
    requires Accounted(w)
    ensures var v := GateStep(w, op);
            v.lost == w.lost && v.offered == w.offered
            && (op.Offer? && w.entry.Some? && w.entry.value.gate.Some? ==>
                  w.offered + multiset{op.segment} == v.decided + multiset(Held(v)) + v.lost)
            && (!op.Offer? ==> Accounted(v))
  {
    hide SegmentsOf;
    hide G.Next;
    hide G.Output;
    if w.entry.Some? && w.entry.value.gate.Some? {
      var e, g := w.entry.value, w.entry.value.gate.value;
      GateAccounted(e.options, g, op);
      Rearranged(w.offered, w.decided, multiset(g.held), w.lost, if op.Offer? then multiset{op.segment} else multiset{},
                 multiset(G.Next(e.options, g, op).held), SegmentsOf(G.Output(e.options, g, op)));
    }
  }

  lemma FlushEmpties(w: World)
    ensures Held(GateStep(w, G.Flush)) == []
  {
  }

  lemma StepAccounted(w: World, step: Step)
    requires Accounted(w)
    ensures Accounted(Next(w, step))
  {
    hide SegmentsOf;
    hide G.Next;
    hide G.Output;
    match step
    case Note(at) => GateStepAccounted(w, G.Note(at));
    case Settle(now) => GateStepAccounted(w, G.Settle(now));
    case Report(segment) =>
      GateStepAccounted(w, G.Offer(segment));
      hide GateStep;
    case Stop =>
      GateStepAccounted(w, G.Flush);
      FlushEmpties(w);
      hide GateStep;
    case _ =>
  }

  /** Over every run: each segment that reached the camera's gate is decided once, or still held, or
      went with a gate that a rebuild or a remove did away with. */
  lemma {:induction false} EverySegmentIsAccountedFor(steps: seq<Step>)
    ensures var w := Run(steps); w.offered == w.decided + multiset(Held(w)) + w.lost
  {
    if steps != [] {
      EverySegmentIsAccountedFor(steps[..|steps| - 1]);
      StepAccounted(Run(steps[..|steps| - 1]), steps[|steps| - 1]);
    }
  }

  /** A step that takes a gate away while it holds something. */
  predicate Discards(w: World, step: Step) {
    (step.Remove? || (step.Rebuild? && step.hasSource)) && Held(w) != []
  }

  ghost predicate NeverDiscards(steps: seq<Step>) {
    forall i :: 0 <= i < |steps| ==> !DiscardsAt(steps, i)
  }

  ghost predicate DiscardsAt(steps: seq<Step>, i: nat)
    requires i < |steps|
  {
    Discards(Run(steps[..i]), steps[i])
  }

  lemma SamePrefix(steps: seq<Step>, i: nat)
    requires i < |steps| - 1
    ensures DiscardsAt(steps[..|steps| - 1], i) == DiscardsAt(steps, i)
  {
    assert steps[..|steps| - 1][..i] == steps[..i];
  }

  lemma NeverDiscardsLonger(steps: seq<Step>)
    requires steps != []
    ensures var before := steps[..|steps| - 1];
            NeverDiscards(steps) <==> NeverDiscards(before) && !DiscardsAt(steps, |before|)
  {
    var before := steps[..|steps| - 1];
    forall i | 0 <= i < |before| ensures DiscardsAt(before, i) == DiscardsAt(steps, i) { SamePrefix(steps, i); }
    hide DiscardsAt;
  }

  /** A segment is lost exactly when a gate that holds one is rebuilt or removed. */
  lemma {:induction false} LostExactlyWhenDiscarded(steps: seq<Step>)
    ensures Run(steps).lost == multiset{} <==> NeverDiscards(steps)
  {
    if steps != [] {
      var before := steps[..|steps| - 1];
      LostExactlyWhenDiscarded(before);
      LostBy(Run(before), steps[|steps| - 1]);
      NeverDiscardsLonger(steps);
      hide NeverDiscards;
      hide Discards;
      hide Held;
      if Held(Run(before)) != [] { assert Held(Run(before))[0] in multiset(Held(Run(before))); }
      DiscardsSomething(Run(before), steps[|steps| - 1]);
    }
  }

  lemma DiscardsSomething(w: World, step: Step)
    ensures Discards(w, step) ==> multiset(Held(w)) != multiset{}
  {
    if Discards(w, step) { assert Held(w)[0] in multiset(Held(w)); }
  }

  /** So a run that ends in a stop has decided every segment offered, unless a gate was discarded with some in it. */
  lemma StopDecidesEverything(steps: seq<Step>)
    requires steps != [] && steps[|steps| - 1].Stop?
    ensures Run(steps).decided == Run(steps).offered <==> NeverDiscards(steps)
  {
    EverySegmentIsAccountedFor(steps);
    LostExactlyWhenDiscarded(steps);
    assert Held(Run(steps)) == [];
    hide NeverDiscards;
    hide Run;
    NothingElse(Run(steps).offered, Run(steps).decided, Run(steps).lost);
  }

  lemma NothingElse<T>(all: multiset<T>, decided: multiset<T>, lost: multiset<T>)
    requires all == decided + multiset([]) + lost
    ensures decided == all <==> lost == multiset{}
  {
    assert all - decided == lost;
  }

  lemma LostBy(w: World, step: Step)
    ensures Next(w, step).lost == w.lost + if Discards(w, step) then multiset(Held(w)) else multiset{}
  {
  }

  // ---------------------------------------------------------------- the fate of one segment

  /** A segment reaches the gate. */
  predicate Offers(w: World, step: Step, s: Segment) {
    step == Report(s) && s.complete && w.entry.Some? && w.entry.value.motion && w.entry.value.gate.Some?
  }

  /** The gate is done away with. */
  predicate TakesGate(step: Step) { step.Remove? || (step.Rebuild? && step.hasSource) }

  /** The gate decides a segment it holds: a settle at or past its end plus the hold, or a stop. */
  predicate Decides(w: World, step: Step, s: Segment) {
    step.Stop? || (step.Settle? && w.entry.Some? && G.Ripe(w.entry.value.options, s, step.now))
  }

  lemma {:induction false} StillHeldExactly(o: G.Options, held: seq<Segment>, now: int, s: Segment)
    ensures s in G.StillHeld(o, held, now) <==> s in held && !G.Ripe(o, s, now)
  {
    if held != [] {
      StillHeldExactly(o, held[1..], now, s);
      FirstSettled(o, held, {}, now);
      assert s in held <==> s == held[0] || s in held[1..];
      hide G.Ripe;
    }
  }

  predicate HasGate(w: World) { w.entry.Some? && w.entry.value.gate.Some? }

  lemma GateStepHolds(w: World, op: G.Op, s: Segment)
    ensures GateStep(w, op).lost == w.lost
    ensures s in Held(GateStep(w, op)) <==>
            HasGate(w) &&
            match op
            case Note(_) => s in Held(w)
            case Offer(x) => x == s || s in Held(w)
            case Settle(now) => s in Held(w) && !G.Ripe(w.entry.value.options, s, now)
            case Flush => false
  {
    hide SegmentsOf;
    hide G.Output;
    hide G.Ripe;
    hide G.StillHeld;
    if HasGate(w) && op.Settle? { StillHeldExactly(w.entry.value.options, Held(w), op.now, s); }
  }

  lemma HeldStep(w: World, step: Step, s: Segment)
    ensures s in Held(Next(w, step)) <==>
            Offers(w, step, s) || (s in Held(w) && !TakesGate(step) && !Decides(w, step, s))
    ensures s in Next(w, step).lost <==> s in w.lost || (TakesGate(step) && s in Held(w))
  {
    hide GateStep;
    hide G.Ripe;
    assert s in Held(w) ==> HasGate(w);
    match step
    case Note(at) => GateStepHolds(w, G.Note(at), s);
    case Report(segment) => GateStepHolds(w, G.Offer(segment), s);
    case Settle(now) => GateStepHolds(w, G.Settle(now), s);
    case Stop => GateStepHolds(w, G.Flush, s);
    case _ =>
  }

  /** Offered at step `p`, a segment is neither decided nor taken away before step `n`. */
  ghost predicate Waits(steps: seq<Step>, p: nat, n: nat, s: Segment)
    requires p < n <= |steps|
  {
    && Offers(Run(steps[..p]), steps[p], s)
    && forall m :: p < m < n ==> !TakesGate(steps[m]) && !Decides(Run(steps[..m]), steps[m], s)
  }

  lemma OneMore(steps: seq<Step>, n: nat)
    requires n < |steps|
    ensures Run(steps[..n + 1]) == Next(Run(steps[..n]), steps[n])
  {
    assert steps[..n + 1][..n] == steps[..n];
  }

  lemma NothingAtFirst(steps: seq<Step>)
    ensures Held(Run(steps[..0])) == [] && Run(steps[..0]).lost == multiset{}
  {
  }

  lemma {:induction false} HeldWasOffered(steps: seq<Step>, n: nat, s: Segment) returns (p: nat)
    requires n <= |steps| && s in Held(Run(steps[..n]))
    ensures p < n && Waits(steps, p, n, s)
    decreases n
  {
    hide Run;
    hide Next;
    hide Held;
    hide Offers;
    hide TakesGate;
    hide Decides;
    assert n > 0 by { NothingAtFirst(steps); }
    OneMore(steps, n - 1);
    HeldStep(Run(steps[..n - 1]), steps[n - 1], s);
    if Offers(Run(steps[..n - 1]), steps[n - 1], s) { p := n - 1; } else { p := HeldWasOffered(steps, n - 1, s); }
  }

  lemma {:induction false} WaitsIsHeld(steps: seq<Step>, p: nat, n: nat, s: Segment)
    requires p < n <= |steps| && Waits(steps, p, n, s)
    ensures s in Held(Run(steps[..n]))
    decreases n
  {
    hide Run;
    hide Next;
    hide Held;
    hide Offers;
    hide TakesGate;
    hide Decides;
    OneMore(steps, n - 1);
    HeldStep(Run(steps[..n - 1]), steps[n - 1], s);
    if p < n - 1 { WaitsIsHeld(steps, p, n - 1, s); }
  }

  lemma {:induction false} LostWasTaken(steps: seq<Step>, n: nat, s: Segment) returns (p: nat, q: nat)
    requires n <= |steps| && s in Run(steps[..n]).lost
    ensures p < q < n && TakesGate(steps[q]) && Waits(steps, p, q, s)
    decreases n
  {
    hide Run;
    hide Next;
    hide Held;
    hide Offers;
    hide TakesGate;
    hide Decides;
    hide Waits;
    assert n > 0 by { NothingAtFirst(steps); }
    OneMore(steps, n - 1);
    HeldStep(Run(steps[..n - 1]), steps[n - 1], s);
    if s in Run(steps[..n - 1]).lost {
      p, q := LostWasTaken(steps, n - 1, s);
    } else {
      p := HeldWasOffered(steps, n - 1, s);
      q := n - 1;
    }
  }

  lemma {:induction false} TakenIsLost(steps: seq<Step>, p: nat, q: nat, n: nat, s: Segment)
    requires p < q < n <= |steps| && TakesGate(steps[q]) && Waits(steps, p, q, s)
    ensures s in Run(steps[..n]).lost
    decreases n
  {
    hide Run;
    hide Next;
    hide Held;
    hide Offers;
    hide TakesGate;
    hide Decides;
    hide Waits;
    OneMore(steps, n - 1);
    HeldStep(Run(steps[..n - 1]), steps[n - 1], s);
    if q == n - 1 { WaitsIsHeld(steps, p, q, s); } else { TakenIsLost(steps, p, q, n - 1, s); }
  }

  /** A rebuild or a remove takes the gate while the segment waits in it. */
  ghost predicate TakenFromGate(steps: seq<Step>, p: nat, q: nat, s: Segment) {
    p < q < |steps| && TakesGate(steps[q]) && Waits(steps, p, q, s)
  }

  /** Over every run: a segment is lost exactly when a rebuild or a remove falls between its offer
      and the first settle at or past its end plus the hold, before any stop. */
  lemma LostExactlyWhenTaken(steps: seq<Step>, s: Segment)
    ensures s in Run(steps).lost <==> exists p, q :: TakenFromGate(steps, p, q, s)
  {
    assert steps[..|steps|] == steps;
    if s in Run(steps).lost {
      var p, q := LostWasTaken(steps, |steps|, s);
      assert TakenFromGate(steps, p, q, s);
    }
    if p, q :| TakenFromGate(steps, p, q, s) { TakenIsLost(steps, p, q, |steps|, s); }
  }

  // ---------------------------------------------------------------- the gate is a motion gate

  /** What a step is to the gate it finds. */
  ghost function OpsOf(w: World, step: Step): seq<G.Op> {
    match step
    case Note(at) => [G.Note(at)]
    case Report(segment) => if Offers(w, step, segment) then [G.Offer(segment)] else []
    case Settle(now) => [G.Settle(now)]
    case Stop => [G.Flush]
    case _ => []
  }

  /** What a gate made at step `q` has been through before step `n`. */
  ghost function OpsSince(steps: seq<Step>, q: nat, n: nat): seq<G.Op>
    requires q < n <= |steps|
  {
    if n == q + 1 then [] else OpsSince(steps, q, n - 1) + OpsOf(Run(steps[..n - 1]), steps[n - 1])
  }

  /** The gate made at step `q` is the camera's until step `n`. */
  ghost predicate GateStands(steps: seq<Step>, q: nat, n: nat) {
    && q < n <= |steps| && steps[q].Rebuild? && steps[q].hasSource
    && forall m :: q < m < n ==> !TakesGate(steps[m]) && !steps[m].Stop?
  }

  lemma SameGate(w: World, step: Step, o: G.Options, ops: seq<G.Op>)
    requires HasGate(w) && w.entry.value.gate == Some(G.Run(o, ops)) && w.entry.value.options == o
    requires !TakesGate(step) && !step.Stop?
    ensures var v := Next(w, step);
            HasGate(v) && v.entry.value.gate == Some(G.Run(o, ops + OpsOf(w, step))) && v.entry.value.options == o
  {
    hide SegmentsOf;
    hide G.Output;
    var more := OpsOf(w, step);
    assert ops + [] == ops;
    if |more| == 1 { assert (ops + more)[..|ops|] == ops; }
    hide G.Next;
  }

  /** Over every run: from a rebuild with a source on, the camera's gate is a new motion gate with the
      options of that rebuild, to which every event is noted, every complete segment of a session
      recording around events is offered, and every settle is passed on, and nothing else. */
  lemma {:induction false} GateIs(steps: seq<Step>, q: nat, n: nat)
    requires GateStands(steps, q, n)
    ensures var w := Run(steps[..n]);
            && HasGate(w) && w.entry.value.options == steps[q].options
            && w.entry.value.gate == Some(G.Run(steps[q].options, OpsSince(steps, q, n)))
    decreases n
  {
    OneMore(steps, n - 1);
    if n > q + 1 {
      GateIs(steps, q, n - 1);
      hide Run;
      hide Next;
      SameGate(Run(steps[..n - 1]), steps[n - 1], steps[q].options, OpsSince(steps, q, n - 1));
    }
  }

  /** So what a settle or a stop decides of the camera's segments is what that motion gate hands back. */
  lemma GateDecides(steps: seq<Step>, q: nat, n: nat)
    requires GateStands(steps, q, n) && n < |steps| && (steps[n].Settle? || steps[n].Stop?)
    ensures var o := steps[q].options;
            Run(steps[..n + 1]).decided == Run(steps[..n]).decided +
              SegmentsOf(G.Output(o, G.Run(o, OpsSince(steps, q, n)), if steps[n].Stop? then G.Flush else G.Settle(steps[n].now)))
  {
    hide Run;
    hide Next;
    hide GateStands;
    hide SegmentsOf;
    hide G.Output;
    hide G.Run;
    hide OpsSince;
    GateIs(steps, q, n);
    OneMore(steps, n);
    DecidesStep(Run(steps[..n]), steps[n]);
  }

  lemma DecidesStep(w: World, step: Step)
    requires HasGate(w) && (step.Settle? || step.Stop?)
    ensures Next(w, step).decided == w.decided +
              SegmentsOf(G.Output(w.entry.value.options, w.entry.value.gate.value, if step.Stop? then G.Flush else G.Settle(step.now)))
  {
    hide SegmentsOf;
    hide G.Output;
    hide G.Next;
  }

  // ---------------------------------------------------------------- segments no gate sees

  /** A step after which the camera's entry no longer records around events: it is erased, or built for something else. */
  predicate EndsMotion(step: Step) {
    step.Remove? || step.Stop? || (step.Rebuild? && step.hasSource && step.starts && !step.motion)
  }

  /** Before step `n` a session was started to record around events, at step `q`, and nothing has ended that since. */
  ghost predicate RecordsMotion(steps: seq<Step>, q: nat, n: nat) {
    && q < n <= |steps| && steps[q].Rebuild? && steps[q].hasSource && steps[q].starts && steps[q].motion
    && forall m :: q < m < n ==> !EndsMotion(steps[m])
  }

  predicate MotionGateStands(w: World) { w.entry.Some? && w.entry.value.motion && w.entry.value.gate.Some? }

  predicate MotionGated(w: World) { w.entry.Some? && w.entry.value.motion ==> w.entry.value.gate.Some? }

  lemma GateStandsStep(w: World, step: Step)
    requires MotionGated(w)
    ensures var v := Next(w, step);
            && MotionGated(v)
            && (MotionGateStands(v) <==>
                  || (step.Rebuild? && step.hasSource && step.starts && step.motion)
                  || (MotionGateStands(w) && !EndsMotion(step)))
  {
    hide SegmentsOf;
    hide G.Next;
    hide G.Output;
  }

  lemma FirstUngated(steps: seq<Step>)
    ensures MotionGated(Run(steps[..0])) && !MotionGateStands(Run(steps[..0]))
  {
  }

  lemma {:induction false} MotionHasGate(steps: seq<Step>, n: nat)
    requires n <= |steps|
    ensures MotionGated(Run(steps[..n]))
    decreases n
  {
    hide Run;
    hide Next;
    hide MotionGated;
    hide MotionGateStands;
    hide EndsMotion;
    if n == 0 {
      FirstUngated(steps);
    } else {
      MotionHasGate(steps, n - 1);
      OneMore(steps, n - 1);
          GateStandsStep(Run(steps[..n - 1]), steps[n - 1]);
    }
  }

  lemma {:induction false} GateStandsSince(steps: seq<Step>, n: nat) returns (q: nat)
    requires n <= |steps| && MotionGateStands(Run(steps[..n]))
    ensures RecordsMotion(steps, q, n)
    decreases n
  {
    hide Run;
    hide Next;
    hide MotionGated;
    hide MotionGateStands;
    hide EndsMotion;
    assert n > 0 by { FirstUngated(steps); }
    MotionHasGate(steps, n - 1);
    OneMore(steps, n - 1);
    GateStandsStep(Run(steps[..n - 1]), steps[n - 1]);
    var step := steps[n - 1];
    if step.Rebuild? && step.hasSource && step.starts && step.motion { q := n - 1; } else { q := GateStandsSince(steps, n - 1); }
  }

  lemma {:induction false} GateStandsWhile(steps: seq<Step>, q: nat, n: nat)
    requires RecordsMotion(steps, q, n)
    ensures MotionGateStands(Run(steps[..n]))
    decreases n
  {
    hide Run;
    hide Next;
    hide MotionGated;
    hide MotionGateStands;
    hide EndsMotion;
    MotionHasGate(steps, n - 1);
    OneMore(steps, n - 1);
    GateStandsStep(Run(steps[..n - 1]), steps[n - 1]);
    if q < n - 1 { GateStandsWhile(steps, q, n - 1); }
  }

  /** Over every run: a complete segment that is reported reaches no gate, and so is stored and never
      decided, exactly when no session started to record around events still stands: each has been
      ended by a remove, a stop or a rebuild to record everything, whose own session's last
      segment this may be. */
  lemma ReportedToNoGateExactly(steps: seq<Step>, p: nat, s: Segment)
    requires p < |steps| && steps[p] == Report(s) && s.complete
    ensures !Offers(Run(steps[..p]), steps[p], s) <==> forall q :: !RecordsMotion(steps, q, p)
    ensures !Offers(Run(steps[..p]), steps[p], s) ==> Run(steps[..p + 1]) == Run(steps[..p])
  {
    OneMore(steps, p);
    hide Run;
    hide RecordsMotion;
    if MotionGateStands(Run(steps[..p])) { var q := GateStandsSince(steps, p); }
    if q :| RecordsMotion(steps, q, p) { GateStandsWhile(steps, q, p); }
  }

  /** A session that records around events is removed, or everything is stopped, and its last
      segment closes as it ends: no gate is left to decide it. */
  lemma LastSegmentIsNotDecided(options: G.Options, s: Segment, stop: bool)
    requires s.complete
    ensures var w := Run([Rebuild(options, true, true, true), if stop then Stop else Remove, Report(s)]);
            s !in w.offered && s !in w.decided && s !in w.lost && Held(w) == []
  {
    var built, gone := Rebuild(options, true, true, true), if stop then Stop else Remove;
    var steps := [built, gone, Report(s)];
    assert steps[..1] == [built] && steps[..2] == [built, gone] && steps[..3] == steps && steps[..0] == [];
    OneMore(steps, 0);
    OneMore(steps, 1);
    OneMore(steps, 2);
    assert Run([]) == Init;
    hide Run;
    assert Run(steps[..1]) == World(Some(Entry(Some(G.Gate([], {})), options, true)), multiset{}, multiset{}, multiset{});
    EmptyGateEnds(Run(steps[..1]), gone);
    hide Next;
    assert Run(steps[..2]) == Init;
    NothingReported(s);
  }

  lemma EmptyGateEnds(w: World, gone: Step)
    requires w.entry.Some? && w.entry.value.gate == Some(G.Gate([], {})) && (gone.Stop? || gone.Remove?)
    ensures Next(w, gone) == w.(entry := None)
  {
    assert SegmentsOf([]) == multiset{};
  }

  lemma NothingReported(s: Segment)
    ensures Next(Init, Report(s)) == Init
  {
  }
}
