/** Every recording operation can be run to its end (src/media/recording/RecordingManager.cpp). */
module RecordingProgress {
  import opened RecordingManager

  // From a reachable state, steps are found that bring one operation to its end: first whatever it
  // waits for is moved out of its way, and then it moves on itself.

  function RunFrom(w: World, more: seq<Step>): World {
    if more == [] then w else Next(RunFrom(w, more[..|more| - 1]), more[|more| - 1])
  }

  ghost predicate Leads(w: World, v: World) { exists more :: RunFrom(w, more) == v }

  lemma LeadsHere(w: World)
    ensures Leads(w, w)
  {
    assert RunFrom(w, []) == w;
  }

  lemma LeadsByOne(w: World, step: Step)
    ensures Leads(w, Next(w, step))
  {
    assert [step][..0] == [];
    assert RunFrom(w, []) == w;
    assert RunFrom(w, [step]) == Next(w, step);
  }

  lemma {:induction false} RunOn(w: World, a: seq<Step>, b: seq<Step>)
    ensures RunFrom(w, a + b) == RunFrom(RunFrom(w, a), b)
  {
    if b == [] {
      assert a + b == a;
    } else {
      RunOn(w, a, b[..|b| - 1]);
      assert (a + b)[..|a + b| - 1] == a + b[..|b| - 1];
    }
  }

  lemma LeadsOn(u: World, v: World, w: World)
    requires Leads(u, v) && Leads(v, w)
    ensures Leads(u, w)
  {
    var a :| RunFrom(u, a) == v;
    var b :| RunFrom(v, b) == w;
    RunOn(u, a, b);
  }

  lemma {:induction false} RunsOn(steps: seq<Step>, more: seq<Step>)
    ensures Run(steps + more) == RunFrom(Run(steps), more)
  {
    if more == [] {
      assert steps + more == steps;
    } else {
      RunsOn(steps, more[..|more| - 1]);
      assert (steps + more)[..|steps + more| - 1] == steps + more[..|more| - 1];
    }
  }

  // ---------------------------------------------------------------- what every step keeps

  /** A stop joins the worker only after it has told it to end. */
  ghost predicate Told(w: World) {
    forall t :: t in w.clients && w.clients[t] == StopJoinWorker ==> !w.running
  }

  ghost predicate Good(w: World) { Sound(w) && Told(w) }

  lemma ToldStep(w: World, step: Step)
    requires Told(w)
    ensures Told(Next(w, step))
  {
    if step.Move? && step.actor.Client? && Can(w, step.actor, step.choice) {
      ClientTold(w, step.actor.t, step.choice);
    }
    hide ClientStep;
    hide ClientCan;
  }

  lemma ClientTold(w: World, t: nat, choice: Choice)
    requires Told(w) && ClientCan(w, t, choice)
    ensures Told(ClientStep(w, t, choice))
  {
    if w.clients[t].ApplyIn1? { Phase1Frame(w, t, w.clients[t].camera, w.clients[t].codecKnown); }
    hide Phase1;
    hide BuiltFor;
  }

  lemma GoodStep(w: World, step: Step)
    requires Good(w)
    ensures Good(Next(w, step))
  {
    ToldStep(w, step);
    SoundStep(w, step);
    hide Next;
    hide Sound;
    hide Told;
  }

  lemma {:induction false} AlwaysGood(steps: seq<Step>)
    ensures Good(Run(steps))
  {
    if steps != [] {
      AlwaysGood(steps[..|steps| - 1]);
      GoodStep(Run(steps[..|steps| - 1]), steps[|steps| - 1]);
      hide Good;
    }
  }

  // ---------------------------------------------------------------- out of the way

  /** Of the other clients only one that held the manager's lock has moved, and not into an apply. */
  ghost predicate Calm(w: World, v: World, u: nat) {
    && v.clients.Keys == w.clients.Keys
    && forall x :: x in w.clients && x != u ==>
         v.clients[x] == w.clients[x] || (InMutex(w.clients[x]) && (InApply(v.clients[x]) ==> InApply(w.clients[x])))
  }

  lemma CalmOn(w: World, v: World, x: World, u: nat)
    requires Calm(w, v, u) && Calm(v, x, u)
    ensures Calm(w, x, u)
  {
  }

  /** What a watcher's steps leave alone. */
  lemma WatcherMovesOnly(w: World, s: nat)
    requires WatcherCan(w, s, Ok)
    ensures var v := Next(w, Move(BusWatcher(s), Ok));
            && v.clients == w.clients && v.worker == w.worker && v.running == w.running && s in v.sessions
            && (w.holder == v.holder || w.sessions[s].watcher == Wanting || w.sessions[s].watcher == Holding)
            && v.sessions == w.sessions[s := w.sessions[s].(watcher := v.sessions[s].watcher)]
  {
  }

  /** A watcher told to stop, and not about to take the lock, ends. */
  lemma QuietEnds(w: World, s: nat) returns (v: World)
    requires Good(w) && s in w.sessions && w.sessions[s].stopping && Quiet(w.sessions[s].watcher)
    ensures Leads(w, v) && Good(v)
    ensures v == w.(sessions := w.sessions[s := w.sessions[s].(watcher := Gone)])
  {
    hide Good;
    hide Leads;
    v := w;
    LeadsHere(w);
    if v.sessions[s].watcher == Gone {
      assert w.sessions == w.sessions[s := w.sessions[s].(watcher := Gone)];
      return;
    }
    if v.sessions[s].watcher == Reporting(false) {
      v := OneStep(w, w, Move(BusWatcher(s), Ok));
      assert v == w.(sessions := w.sessions[s := w.sessions[s].(watcher := Idle)]);
    }
    v := OneStep(w, v, Move(BusWatcher(s), Ok));
  }

  /** One step further. */
  lemma OneStep(w: World, v: World, step: Step) returns (x: World)
    requires Leads(w, v) && Good(v)
    ensures x == Next(v, step) && Leads(w, x) && Good(x)
  {
    x := Next(v, step);
    GoodStep(v, step);
    LeadsByOne(v, step);
    LeadsOn(w, v, x);
  }

  /** The step by which the holder of the manager's lock gives it back. */
  function Leaving(pc: Pc): Choice { Choice(!pc.ApplyIn2?, 0, Done) }

  ghost predicate SameWatchers(w: World, v: World) {
    forall r :: r in w.sessions ==> r in v.sessions && v.sessions[r].watcher == w.sessions[r].watcher
  }

  /** Client `h` has moved and given the lock back. */
  ghost predicate Left(w: World, v: World, h: nat) {
    && v.holder.None? && SameWatchers(w, v) && v.worker == w.worker
    && h in v.clients && v.clients == w.clients[h := v.clients[h]]
  }

  lemma ClientLeaves(w: World, h: nat)
    requires h in w.clients && InMutex(w.clients[h]) && ClientCan(w, h, Leaving(w.clients[h])) && HandOk(w, h)
    ensures var v := Next(w, Move(Client(h), Leaving(w.clients[h])));
            Left(w, v, h) && (InApply(v.clients[h]) ==> InApply(w.clients[h]))
  {
    if w.clients[h].ApplyIn1? { Phase1Leaves(w, h, w.clients[h].camera, w.clients[h].codecKnown); }
    hide Phase1;
    hide BuiltFor;
    hide ShouldRecord;
  }

  lemma Phase1Leaves(w: World, h: nat, camera: Camera, codecKnown: bool)
    ensures Left(w, Phase1(w, h, camera, codecKnown), h)
  {
    RetireLeaves(w, h, camera, false);
    RetireLeaves(w, h, camera, true);
    EntryLeaves(w, h, camera);
    hide Left;
    hide Retire;
    hide LeaveEntry;
    hide Decide;
  }

  lemma RetireLeaves(w: World, h: nat, camera: Camera, build: bool)
    ensures Left(w, Retire(w, h, camera, build), h)
  {
  }

  lemma EntryLeaves(w: World, h: nat, camera: Camera)
    ensures Left(w, LeaveEntry(w, h, camera), h)
  {
  }

  /** Whatever has the manager's lock gives it back. */
  lemma LockFreed(w: World, u: nat) returns (v: World)
    requires Good(w) && w.holder != Some(Client(u))
    ensures Leads(w, v) && Good(v) && v.holder.None? && Calm(w, v, u)
    ensures u in w.clients ==> v.clients[u] == w.clients[u]
    ensures !WorkerHolds(w.worker) ==> v.worker == w.worker
    ensures forall r :: r in w.sessions ==>
              r in v.sessions && (v.sessions[r].watcher == w.sessions[r].watcher || Quiet(w.sessions[r].watcher)
                                  || w.sessions[r].watcher == Holding)
  {
    v := w;
    LeadsHere(w);
    if w.holder.Some? {
      match w.holder.value
      case Client(h) => v := ClientFrees(w, h, u);
      case BusWatcher(s) =>
        assert WatcherLock(w, s);
        hide Good;
        hide Leads;
        v := OneStep(w, w, Move(BusWatcher(s), Ok));
      case Worker =>
        assert WorkerHolds(w.worker);
        hide Good;
        hide Leads;
        v := OneStep(w, w, Move(Worker, Ok));
    }
  }

  /** A failed start's watcher has ended, so its apply can go on. */
  lemma AbortReady(w: World, h: nat) returns (pc: Pc, mid: World)
    requires Good(w) && w.holder == Some(Client(h))
    ensures h in w.clients && pc == w.clients[h] && InMutex(pc)
    ensures Leads(w, mid) && Good(mid) && mid == w.(sessions := mid.sessions) && ClientCan(mid, h, Leaving(pc))
    ensures forall r :: r in w.sessions ==>
              r in mid.sessions && (mid.sessions[r].watcher == w.sessions[r].watcher || Quiet(w.sessions[r].watcher))
  {
    assert ClientLocks(w, h) && HandOk(w, h);
    pc, mid := w.clients[h], w;
    LeadsHere(w);
    if pc.ApplyAbort? {
      assert SessionOk(w, pc.made);
      mid := QuietEnds(w, pc.made);
    }
    hide Good;
    hide Leads;
  }

  lemma ClientFrees(w: World, h: nat, u: nat) returns (v: World)
    requires Good(w) && w.holder == Some(Client(h)) && h != u
    ensures Leads(w, v) && Good(v) && v.holder.None? && Calm(w, v, u) && v.worker == w.worker
    ensures u in w.clients ==> v.clients[u] == w.clients[u]
    ensures forall r :: r in w.sessions ==>
              r in v.sessions && (v.sessions[r].watcher == w.sessions[r].watcher || Quiet(w.sessions[r].watcher))
  {
    hide Leads;
    var pc, mid := AbortReady(w, h);
    assert HandOk(mid, h) by { HandOf(mid, h); }
    hide Good;
    ClientLeaves(mid, h);
    hide Next;
    v := OneStep(w, mid, Move(Client(h), Leaving(pc)));
  }

  predicate WatcherRank(watcher: Watcher, n: nat) {
    match watcher
    case Gone => n == 0
    case Idle => n == 1
    case Holding => n == 2
    case Wanting => n == 3
    case Reporting(complete) => n == if complete then 4 else 2
  }

  /** The watcher that a client joins ends. */
  lemma {:induction false} WatcherEnds(w: World, t: nat, s: nat, n: nat) returns (v: World)
    requires Good(w) && t in w.clients && Joining(w.clients[t]) == Some(s)
    requires s in w.sessions && WatcherRank(w.sessions[s].watcher, n)
    ensures Leads(w, v) && Good(v) && Calm(w, v, t) && t in v.clients && v.clients[t] == w.clients[t] && Ended?(v, s)
    decreases n
  {
    assert w.sessions[s].stopping by { HandOf(w, t); }
    if Quiet(w.sessions[s].watcher) {
      v := QuietEnds(w, s);
      return;
    }
    var mid := w;
    LeadsHere(w);
    if w.sessions[s].watcher == Wanting {
      NotLockedOut(w, t, s);
      mid := LockFreed(w, t);
    }
    hide Good;
    hide Leads;
    assert mid.sessions[s].watcher == w.sessions[s].watcher;
    WatcherMovesOnly(mid, s);
    var x := OneStep(w, mid, Move(BusWatcher(s), Ok));
    var m := MovedOn(mid, s, n);
    hide Next;
    v := WatcherEnds(x, t, s, m);
    LeadsOn(w, x, v);
  }

  lemma MovedOn(w: World, s: nat, n: nat) returns (m: nat)
    requires s in w.sessions && WatcherRank(w.sessions[s].watcher, n) && !Quiet(w.sessions[s].watcher) && WatcherCan(w, s, Ok)
    ensures var v := Next(w, Move(BusWatcher(s), Ok)); s in v.sessions && WatcherRank(v.sessions[s].watcher, m) && m < n
  {
    m := if w.sessions[s].watcher == Holding then 1 else if w.sessions[s].watcher == Wanting then 2 else 3;
  }

  /** A client that joins a watcher about to take the manager's lock does not hold it. */
  lemma NotLockedOut(w: World, t: nat, s: nat)
    requires Good(w) && t in w.clients && Joining(w.clients[t]) == Some(s) && s in w.sessions && w.sessions[s].watcher == Wanting
    ensures w.holder != Some(Client(t))
  {
    assert ClientLocks(w, t) && HandOk(w, t) && SessionOk(w, s);
  }

  function WorkerRank(pc: WorkerPc): nat {
    match pc
    case Ended => 0
    case Top => 1
    case Held => 1
    case Settling => 1
    case Want => 2
    case Rewant => 2
    case Deleting => 2
    case Asleep => 3
  }

  /** The worker that a stop joins ends. */
  lemma {:induction false} WorkerEnds(w: World, t: nat) returns (v: World)
    requires Good(w) && t in w.clients && w.clients[t] == StopJoinWorker
    ensures Leads(w, v) && Good(v) && Calm(w, v, t) && t in v.clients && v.clients[t] == w.clients[t] && v.worker == Ended
    decreases WorkerRank(w.worker)
  {
    LeadsHere(w);
    if w.worker == Ended { return w; }
    var mid := w;
    if w.worker == Want || w.worker == Rewant {
      assert ClientLocks(w, t);
      mid := LockFreed(w, t);
    }
    assert !mid.running;
    hide Good;
    hide Leads;
    var x := OneStep(w, mid, Move(Worker, Ok));
    assert x.clients == mid.clients && WorkerRank(x.worker) < WorkerRank(w.worker);
    hide Next;
    v := WorkerEnds(x, t);
    LeadsOn(w, x, v);
  }

  // ---------------------------------------------------------------- to the end

  /** How far an operation is from its end. */
  function Phase(pc: Pc): nat {
    match pc
    case Done => 0
    case ApplyStart(_, _) => 1
    case ApplyAbort(_, _) => 1
    case ApplyIn2(_) => 2
    case ApplyWant2(_) => 3
    case ApplyJoin(_, _, _) => 4
    case ApplyIn1(_, _) => 5
    case ApplyWant1(_, _) => 6
    case ApplyBegin(_, _) => 7
    case RemoveJoin(_) => 1
    case RemoveIn(_) => 2
    case RemoveWant(_) => 3
    case NoteIn(_) => 1
    case NoteWant(_) => 2
    case StopNext(_) => 1
    case StopJoin(_, _) => 1
    case StopIn => 2
    case StopWant => 3
    case StopJoinWorker => 4
    case StopBegin => 5
  }

  function Remaining(pc: Pc): nat {
    match pc
    case StopNext(todo) => 2 * |todo|
    case StopJoin(_, todo) => 2 * |todo| + 1
    case _ => 0
  }

  predicate Nearer(a: Pc, b: Pc) { Phase(a) < Phase(b) || (Phase(a) == Phase(b) && Remaining(a) < Remaining(b)) }

  /** The choice with which an operation moves on: a start that succeeds, and no source for a new session. */
  ghost function Onward(pc: Pc): Choice {
    if pc.StopNext? && pc.todo != {} then (var s :| s in pc.todo; Choice(true, s, Done)) else Leaving(pc)
  }

  lemma ApplyNearer(w: World, t: nat)
    requires t in w.clients && ClientCan(w, t, Onward(w.clients[t])) && HandOk(w, t)
    requires w.clients[t].ApplyBegin? || InApply(w.clients[t])
    ensures var v := ClientStep(w, t, Onward(w.clients[t]));
            t in v.clients && v.clients == w.clients[t := v.clients[t]] && Nearer(v.clients[t], w.clients[t])
  {
    if w.clients[t].ApplyIn1? { Phase1Nearer(w, t, w.clients[t].camera, w.clients[t].codecKnown); }
    hide Phase1;
    hide BuiltFor;
    hide ShouldRecord;
  }

  lemma Phase1Nearer(w: World, t: nat, camera: Camera, codecKnown: bool)
    ensures var v := Phase1(w, t, camera, codecKnown);
            t in v.clients && v.clients == w.clients[t := v.clients[t]] && Phase(v.clients[t]) < 5
  {
    Phase1Leaves(w, t, camera, codecKnown);
    hide Decide;
    hide SameWatchers;
  }

  lemma OtherNearer(w: World, t: nat)
    requires t in w.clients && ClientCan(w, t, Onward(w.clients[t]))
    requires w.clients[t] != Done && !w.clients[t].ApplyBegin? && !InApply(w.clients[t])
    ensures var v := ClientStep(w, t, Onward(w.clients[t]));
            t in v.clients && v.clients == w.clients[t := v.clients[t]] && Nearer(v.clients[t], w.clients[t])
  {
    var pc := w.clients[t];
    hide ClientStep;
    hide ClientCan;
    hide Nearer;
    if pc.StopNext? || pc.StopJoin? { StopNearer(w, t); } else { PlainNearer(w, t); }
  }

  lemma StopNearer(w: World, t: nat)
    requires t in w.clients && ClientCan(w, t, Onward(w.clients[t])) && (w.clients[t].StopNext? || w.clients[t].StopJoin?)
    ensures var v := ClientStep(w, t, Onward(w.clients[t]));
            t in v.clients && v.clients == w.clients[t := v.clients[t]] && Nearer(v.clients[t], w.clients[t])
  {
    hide Phase1;
    hide BuiltFor;
    hide ShouldRecord;
  }

  lemma PlainNearer(w: World, t: nat)
    requires t in w.clients && ClientCan(w, t, Onward(w.clients[t])) && !w.clients[t].StopNext? && !w.clients[t].StopJoin?
    requires w.clients[t] != Done && !w.clients[t].ApplyBegin? && !InApply(w.clients[t])
    ensures var v := ClientStep(w, t, Onward(w.clients[t]));
            t in v.clients && v.clients == w.clients[t := v.clients[t]] && Nearer(v.clients[t], w.clients[t])
  {
    hide Phase1;
    hide BuiltFor;
    hide ShouldRecord;
  }

  /** Nothing keeps an operation any more from its next step. */
  lemma Unhindered(w: World, t: nat) returns (v: World)
    requires Good(w) && t in w.clients && w.clients[t] != Done && !w.clients[t].ApplyBegin?
    ensures Leads(w, v) && Good(v) && Calm(w, v, t) && t in v.clients && v.clients[t] == w.clients[t]
    ensures ClientCan(v, t, Onward(w.clients[t]))
  {
    var pc := w.clients[t];
    v := w;
    LeadsHere(w);
    if WantsMutex(pc) {
      assert ClientLocks(w, t);
      v := LockFreed(w, t);
    } else if Joining(pc).Some? {
      HandOf(w, t);
      var n := RankOf(w.sessions[Joining(pc).value].watcher);
      v := WatcherEnds(w, t, Joining(pc).value, n);
    } else if pc == StopJoinWorker {
      v := WorkerEnds(w, t);
    } else if pc.StopNext? && pc.todo != {} {
      HandOf(w, t);
      assert TakenOut(w, Onward(pc).pick);
    }
    hide Good;
    hide Leads;
  }

  lemma RankOf(watcher: Watcher) returns (n: nat)
    ensures WatcherRank(watcher, n)
  {
    match watcher
    case Gone => n := 0;
    case Idle => n := 1;
    case Holding => n := 2;
    case Wanting => n := 3;
    case Reporting(complete) => n := if complete then 4 else 2;
  }

  /** An operation under way comes one step nearer to its end. */
  lemma Advanced(w: World, t: nat) returns (v: World)
    requires Good(w) && t in w.clients && w.clients[t] != Done && !w.clients[t].ApplyBegin?
    ensures Leads(w, v) && Good(v) && Calm(w, v, t) && t in v.clients && Nearer(v.clients[t], w.clients[t])
  {
    var mid := Unhindered(w, t);
    var step := Move(Client(t), Onward(w.clients[t]));
    assert HandOk(mid, t) by { HandOf(mid, t); }
    hide Good;
    hide Leads;
    hide ClientCan;
    v := OneStep(w, mid, step);
    assert v == ClientStep(mid, t, Onward(w.clients[t]));
    hide ClientStep;
    if InApply(w.clients[t]) { ApplyNearer(mid, t); } else { OtherNearer(mid, t); }
    assert Calm(mid, v, t);
    CalmOn(w, mid, v, t);
  }

  lemma {:induction false} Ends(w: World, t: nat) returns (v: World)
    requires Good(w) && t in w.clients && !w.clients[t].ApplyBegin?
    ensures Leads(w, v) && Good(v) && Calm(w, v, t) && t in v.clients && v.clients[t] == Done
    decreases Phase(w.clients[t]), Remaining(w.clients[t])
  {
    hide Good;
    hide Leads;
    if w.clients[t] == Done {
      v := w;
      LeadsHere(w);
    } else {
      var x := Advanced(w, t);
      v := Ends(x, t);
      LeadsOn(w, x, v);
      CalmOn(w, x, v, t);
    }
  }

  /** An apply waiting for the one under way gets its turn. */
  lemma TurnComes(w: World, t: nat) returns (v: World)
    requires Good(w) && t in w.clients && w.clients[t].ApplyBegin?
    ensures Leads(w, v) && Good(v) && t in v.clients && v.clients[t].ApplyWant1?
  {
    var mid := w;
    LeadsHere(w);
    if w.applyHolder.Some? {
      var u := w.applyHolder.value;
      assert ClientLocks(w, u) && u in w.clients;
      mid := Ends(w, u);
      ApplyFree(w, mid, u);
      assert mid.clients[t] == w.clients[t];
    }
    hide Good;
    hide Leads;
    v := OneStep(w, mid, Move(Client(t), Ok));
  }

  lemma ApplyFree(w: World, v: World, u: nat)
    requires Good(w) && Good(v) && Calm(w, v, u) && w.applyHolder == Some(u) && u in v.clients && v.clients[u] == Done
    ensures v.applyHolder.None?
  {
    assert forall x :: x in v.clients ==> ClientLocks(v, x);
    assert forall x :: x in w.clients ==> ClientLocks(w, x);
  }

  /** In every reachable state every operation under way can be run to its end, whatever the other
      threads are at: some steps of theirs and its own, after which it is done. */
  lemma EveryOperationCanEnd(steps: seq<Step>, t: nat) returns (more: seq<Step>)
    requires t in Run(steps).clients
    ensures t in Run(steps + more).clients && Run(steps + more).clients[t] == Done
  {
    var w := Run(steps);
    AlwaysGood(steps);
    hide Run;
    hide Good;
    var mid := w;
    LeadsHere(w);
    if w.clients[t].ApplyBegin? { mid := TurnComes(w, t); }
    var v := Ends(mid, t);
    LeadsOn(w, mid, v);
    more :| RunFrom(w, more) == v;
    RunsOn(steps, more);
  }
}
