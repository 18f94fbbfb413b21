/** What is recorded, and by which threads (src/media/recording/RecordingManager.cpp). */
module RecordingManager {
  // Keeping every camera that should be recording, recording, as a protocol between threads. Any
  // number of client threads run `apply`, `remove`, `stop` and `noteEvent`; one worker settles the
  // gates; each recording session has a bus watcher thread that reports segments. A step is one
  // thread passing a lock operation, a join, or the body between two of those.

  datatype Option<+T> = None | Some(value: T)

  // ---------------------------------------------------------------- what is to be recorded

  datatype Mode = Off | Continuous | Motion

  datatype Camera = Camera(id: string, inputRtsp: string, mode: Mode, recordingEnabled: bool, segmentSeconds: int)

  /** What the running session of an entry was built for. */
  datatype Built = Built(source: string, mode: Mode, segmentSeconds: int)

  const NotBuilt := Built("", Off, 0)

  predicate ShouldRecord(camera: Camera) {
    camera.inputRtsp != "" && (camera.mode != Off || camera.recordingEnabled)
  }

  predicate NeedsRestart(camera: Camera, built: Built) {
    camera.inputRtsp != built.source || camera.mode != built.mode || camera.segmentSeconds != built.segmentSeconds
  }

  /** What a session built for this camera is recorded as having been built for. */
  function BuiltFor(camera: Camera): Built {
    Built(camera.inputRtsp, if camera.mode == Off then Continuous else camera.mode,
          if camera.segmentSeconds < 1 then 1 else camera.segmentSeconds)
  }

  // ---------------------------------------------------------------- the threads

  /** A session's bus watcher: between messages, in the segment callback with a segment that is
      complete or not, waiting for the manager's lock there, holding it, or ended. */
  datatype Watcher = Idle | Reporting(complete: bool) | Wanting | Holding | Gone

  /** `started` once start() has returned well; `stopping` once stop() has been entered. */
  datatype Session = Session(camera: string, watcher: Watcher, started: bool, stopping: bool)

  datatype Entry = Entry(session: Option<nat>, built: Built)

  datatype Pc =
    | Done
    | ApplyBegin(camera: Camera, codecKnown: bool)  // wants m_applyMutex
    | ApplyWant1(camera: Camera, codecKnown: bool)  // wants m_mutex
    | ApplyIn1(camera: Camera, codecKnown: bool)    // first locked phase
    | ApplyJoin(camera: Camera, retired: nat, build: bool)
    | ApplyWant2(camera: Camera)
    | ApplyIn2(camera: Camera)                      // second locked phase, before start()
    | ApplyStart(camera: Camera, made: nat)         // in start(), under the lock
    | ApplyAbort(camera: Camera, made: nat)         // start() failed and joins, under the lock
    | RemoveWant(cameraId: string)
    | RemoveIn(cameraId: string)
    | RemoveJoin(retired: nat)
    | StopBegin
    | StopJoinWorker
    | StopWant
    | StopIn
    | StopNext(todo: set<nat>)
    | StopJoin(retired: nat, todo: set<nat>)
    | NoteWant(cameraId: string)
    | NoteIn(cameraId: string)

  datatype WorkerPc = Top | Want | Held | Asleep | Rewant | Settling | Deleting | Ended

  datatype Actor = Client(t: nat) | BusWatcher(s: nat) | Worker

  datatype World = World(
    applyHolder: Option<nat>,
    holder: Option<Actor>, // of m_mutex
    entries: map<string, Entry>,
    sessions: map<nat, Session>,
    nextSession: nat,
    clients: map<nat, Pc>,
    worker: WorkerPc,
    running: bool)

  const Init := World(None, None, map[], map[], 0, map[], Top, true)

  predicate InMutex(pc: Pc) {
    pc.ApplyIn1? || pc.ApplyIn2? || pc.ApplyStart? || pc.ApplyAbort? || pc.RemoveIn? || pc.StopIn? || pc.NoteIn?
  }

  predicate InApply(pc: Pc) {
    pc.ApplyWant1? || pc.ApplyIn1? || pc.ApplyJoin? || pc.ApplyWant2? || pc.ApplyIn2? || pc.ApplyStart? || pc.ApplyAbort?
  }

  predicate WantsMutex(pc: Pc) {
    pc.ApplyWant1? || pc.ApplyWant2? || pc.RemoveWant? || pc.StopWant? || pc.NoteWant?
  }

  predicate WorkerHolds(pc: WorkerPc) { pc == Held || pc == Settling }

  /** The session whose watcher a thread is joining. */
  function Joining(pc: Pc): Option<nat> {
    match pc
    case ApplyJoin(_, s, _) => Some(s)
    case ApplyAbort(_, s) => Some(s)
    case RemoveJoin(s) => Some(s)
    case StopJoin(s, _) => Some(s)
    case _ => None
  }

  /** How a step that is not determined goes: whether a start or an acquire succeeds, whether a
      message reports a complete segment, whether the watcher looks at its stop flag now, which
      session is stopped next, and what operation a new client runs. */
  datatype Choice = Choice(ok: bool, pick: nat, op: Pc)

  datatype Step = Spawn(t: nat, choice: Choice) | Move(actor: Actor, choice: Choice)

  predicate Entrance(pc: Pc) {
    pc.ApplyBegin? || pc.RemoveWant? || pc.StopBegin? || pc.NoteWant?
  }

  predicate Ended?(w: World, s: nat) {
    s in w.sessions && w.sessions[s].watcher == Gone
  }

  predicate ClientCan(w: World, t: nat, choice: Choice) {
    t in w.clients &&
    var pc := w.clients[t];
    && pc != Done
    && (pc.ApplyBegin? ==> w.applyHolder.None?)
    && (WantsMutex(pc) ==> w.holder.None?)
    && (Joining(pc).Some? ==> Ended?(w, Joining(pc).value))
    && (pc == StopJoinWorker ==> w.worker == Ended)
    && (pc.StopNext? && pc.todo != {} ==> choice.pick in pc.todo && choice.pick in w.sessions)
  }

  predicate WatcherCan(w: World, s: nat, choice: Choice) {
    s in w.sessions &&
    var session := w.sessions[s];
    match session.watcher
    case Idle => true
    case Reporting(_) => true
    case Wanting => w.holder.None?
    case Holding => true
    case Gone => false
  }

  predicate WorkerCan(w: World) {
    w.worker != Ended && (w.worker == Want || w.worker == Rewant ==> w.holder.None?)
  }

  predicate Can(w: World, a: Actor, choice: Choice) {
    match a
    case Client(t) => ClientCan(w, t, choice)
    case BusWatcher(s) => WatcherCan(w, s, choice)
    case Worker => WorkerCan(w)
  }

  // ---------------------------------------------------------------- the steps

  function Goto(w: World, t: nat, pc: Pc): World { w.(clients := w.clients[t := pc]) }

  function Release(w: World): World { w.(holder := None) }

  function StopFlag(w: World, s: nat): World {
    if s in w.sessions then w.(sessions := w.sessions[s := w.sessions[s].(stopping := true)]) else w
  }

  function SessionOf(w: World, cameraId: string): Option<nat> {
    if cameraId in w.entries then w.entries[cameraId].session else None
  }

  function BuiltOf(w: World, cameraId: string): Built {
    if cameraId in w.entries then w.entries[cameraId].built else NotBuilt
  }

  datatype Verdict = LeaveAlone | TurnOff | Rebuild

  /** What the first locked phase of `apply` decides for a camera. */
  function Decide(camera: Camera, codecKnown: bool, present: bool, running: bool, built: Built): Verdict {
    if !ShouldRecord(camera) then (if present then TurnOff else LeaveAlone)
    else if !codecKnown then LeaveAlone
    else if present && running && !NeedsRestart(camera, built) then LeaveAlone
    else Rebuild
  }

  function LeaveEntry(w: World, t: nat, camera: Camera): World {
    var entry := Entry(SessionOf(w, camera.id), BuiltOf(w, camera.id));
    Finish(Release(w.(entries := w.entries[camera.id := entry])), t)
  }

  /** What is retired leaves its entry and is told to stop; nothing is joined under the lock. */
  function Retire(w: World, t: nat, camera: Camera, build: bool): World {
    var session, built := SessionOf(w, camera.id), BuiltOf(w, camera.id);
    var left := Entry(None, if build then built else built.(source := ""));
    var emptied := Release(w.(entries := w.entries[camera.id := left]));
    if session.Some? then Goto(StopFlag(emptied, session.value), t, ApplyJoin(camera, session.value, build))
    else if build then Goto(emptied, t, ApplyWant2(camera))
    else Finish(emptied, t)
  }

  function Phase1(w: World, t: nat, camera: Camera, codecKnown: bool): World {
    var session := SessionOf(w, camera.id);
    var running := session.Some? && session.value in w.sessions && w.sessions[session.value].started;
    match Decide(camera, codecKnown, session.Some?, running, BuiltOf(w, camera.id))
    case LeaveAlone => LeaveEntry(w, t, camera)
    case TurnOff => Retire(w, t, camera, false)
    case Rebuild => Retire(w, t, camera, true)
  }

  function Finish(w: World, t: nat): World {
    Goto(w.(applyHolder := None), t, Done)
  }

  function ClientStep(w: World, t: nat, choice: Choice): World
    requires ClientCan(w, t, choice)
  {
    match w.clients[t]
    case Done => w
    case ApplyBegin(c, k) => Goto(w.(applyHolder := Some(t)), t, ApplyWant1(c, k))
    case ApplyWant1(c, k) => Goto(w.(holder := Some(Client(t))), t, ApplyIn1(c, k))
    case ApplyIn1(c, k) => Phase1(w, t, c, k)
    case ApplyJoin(c, _, build) => if build then Goto(w, t, ApplyWant2(c)) else Finish(w, t)
    case ApplyWant2(c) => Goto(w.(holder := Some(Client(t))), t, ApplyIn2(c))
    case ApplyIn2(c) =>
      var w := if c.id in w.entries then w else w.(entries := w.entries[c.id := Entry(None, NotBuilt)]);
      if choice.ok then
        Goto(w.(sessions := w.sessions[w.nextSession := Session(c.id, Idle, false, false)],
                nextSession := w.nextSession + 1), t, ApplyStart(c, w.nextSession))
      else Finish(Release(w), t)
    case ApplyStart(c, s) =>
      if choice.ok && s in w.sessions then
        Finish(Release(w.(sessions := w.sessions[s := w.sessions[s].(started := true)],
                          entries := w.entries[c.id := Entry(Some(s), BuiltFor(c))])), t)
      else Goto(StopFlag(w, s), t, ApplyAbort(c, s))
    case ApplyAbort(_, _) => Finish(Release(w), t)
    case RemoveWant(c) => Goto(w.(holder := Some(Client(t))), t, RemoveIn(c))
    case RemoveIn(c) =>
      var session := SessionOf(w, c);
      var erased := Release(w.(entries := w.entries - {c}));
      if session.Some? then Goto(StopFlag(erased, session.value), t, RemoveJoin(session.value))
      else Goto(erased, t, Done)
    case RemoveJoin(_) => Goto(w, t, Done)
    case StopBegin => if w.running then Goto(w.(running := false), t, StopJoinWorker) else Goto(w, t, Done)
    case StopJoinWorker => Goto(w, t, StopWant)
    case StopWant => Goto(w.(holder := Some(Client(t))), t, StopIn)
    case StopIn =>
      var todo := set c | c in w.entries && w.entries[c].session.Some? :: w.entries[c].session.value;
      Goto(Release(w.(entries := map[])), t, StopNext(todo))
    case StopNext(todo) =>
      if todo == {} then Goto(w, t, Done)
      else Goto(StopFlag(w, choice.pick), t, StopJoin(choice.pick, todo - {choice.pick}))
    case StopJoin(_, todo) => Goto(w, t, StopNext(todo))
    case NoteWant(c) => Goto(w.(holder := Some(Client(t))), t, NoteIn(c))
    case NoteIn(_) => Goto(Release(w), t, Done)
  }

  /** A watcher's thread: takes a message or, once told to stop, ends. Only a session that has
      started has a complete segment to report, and only that report takes the lock. */
  function WatcherStep(w: World, s: nat, choice: Choice): World
    requires WatcherCan(w, s, choice)
  {
    var session := w.sessions[s];
    var moved := (watcher: Watcher) => w.(sessions := w.sessions[s := session.(watcher := watcher)]);
    match session.watcher
    case Idle =>
      if session.stopping && choice.ok then moved(Gone)
      else moved(Reporting(session.started && choice.pick == 0))
    case Reporting(complete) => if complete then moved(Wanting) else moved(Idle)
    case Wanting => moved(Holding).(holder := Some(BusWatcher(s)))
    case Holding => moved(Idle).(holder := None)
    case Gone => w
  }

  function WorkerStep(w: World): World
    requires WorkerCan(w)
  {
    match w.worker
    case Top => w.(worker := if w.running then Want else Ended)
    case Want => w.(worker := Held, holder := Some(Worker))
    case Held => w.(worker := if w.running then Asleep else Ended, holder := None)
    case Asleep => w.(worker := Rewant)
    case Rewant => w.(worker := Settling, holder := Some(Worker))
    case Settling => w.(worker := if w.running then Deleting else Ended, holder := None)
    case Deleting => w.(worker := Top)
    case Ended => w
  }

  /** A step that cannot be taken changes nothing, so every list of steps is a run. */
  function Next(w: World, step: Step): World {
    match step
    case Spawn(t, choice) =>
      if (t in w.clients ==> w.clients[t] == Done) && Entrance(choice.op) then Goto(w, t, choice.op) else w
    case Move(a, choice) =>
      if !Can(w, a, choice) then w
      else match a
        case Client(t) => ClientStep(w, t, choice)
        case BusWatcher(s) => WatcherStep(w, s, choice)
        case Worker => WorkerStep(w)
  }

  function Run(steps: seq<Step>): World {
    if steps == [] then Init else Next(Run(steps[..|steps| - 1]), steps[|steps| - 1])
  }

  // ---------------------------------------------------------------- who holds what

  ghost predicate ClientLocks(w: World, t: nat)
    requires t in w.clients
  {
    && (InMutex(w.clients[t]) <==> w.holder == Some(Client(t)))
    && (InApply(w.clients[t]) <==> w.applyHolder == Some(t))
  }

  ghost predicate WatcherLock(w: World, s: nat)
    requires s in w.sessions
  {
    w.sessions[s].watcher == Holding <==> w.holder == Some(BusWatcher(s))
  }

  /** Each lock is held by the one thread whose position says so. */
  ghost predicate LocksOk(w: World) {
    && (forall t :: t in w.clients ==> ClientLocks(w, t))
    && (forall s :: s in w.sessions ==> WatcherLock(w, s))
    && (WorkerHolds(w.worker) <==> w.holder == Some(Worker))
    && (w.applyHolder.Some? ==> w.applyHolder.value in w.clients)
    && (w.holder.Some? && w.holder.value.Client? ==> w.holder.value.t in w.clients)
    && (w.holder.Some? && w.holder.value.BusWatcher? ==> w.holder.value.s in w.sessions)
  }

  /** A watcher that is not in the part of the callback that takes the lock. */
  predicate Quiet(watcher: Watcher) {
    watcher == Idle || watcher == Reporting(false) || watcher == Gone
  }

  ghost predicate SessionOk(w: World, s: nat)
    requires s in w.sessions
  {
    && s < w.nextSession
    && (!w.sessions[s].started ==> Quiet(w.sessions[s].watcher))
    && (w.sessions[s].watcher == Gone ==> w.sessions[s].stopping)
  }

  ghost predicate EntryOk(w: World, c: string)
    requires c in w.entries
  {
    w.entries[c].session.Some? ==>
      var s := w.entries[c].session.value;
      s in w.sessions && w.sessions[s].camera == c && w.sessions[s].started && !w.sessions[s].stopping
  }

  /** A session no entry holds, of a start() that returned. */
  ghost predicate TakenOut(w: World, s: nat) {
    s in w.sessions && w.sessions[s].started && SessionOf(w, w.sessions[s].camera) != Some(s)
  }

  /** What is to build a session was asked to record. */
  predicate BuildOk(pc: Pc) {
    (pc.ApplyJoin? && pc.build) || pc.ApplyWant2? || pc.ApplyIn2? || pc.ApplyStart? ==> ShouldRecord(pc.camera)
  }

  /** What an operation has in hand. */
  ghost predicate HandOk(w: World, t: nat)
    requires t in w.clients
  {
    var pc := w.clients[t];
    && BuildOk(pc)
    && (Joining(pc).Some? ==> Joining(pc).value in w.sessions && w.sessions[Joining(pc).value].stopping)
    && (pc.ApplyJoin? ==> w.sessions[pc.retired].camera == pc.camera.id)
    && (pc.ApplyAbort? ==> !w.sessions[pc.made].started && w.sessions[pc.made].camera == pc.camera.id)
    && (pc.ApplyStart? ==>
          pc.made in w.sessions && w.sessions[pc.made] .camera == pc.camera.id
          && !w.sessions[pc.made].started && !w.sessions[pc.made].stopping)
    && (pc.StopNext? || pc.StopJoin? ==> forall s :: s in pc.todo ==> TakenOut(w, s))
  }

  ghost predicate StateOk(w: World) {
    && (forall s :: s in w.sessions ==> SessionOk(w, s))
    && (forall c :: c in w.entries ==> EntryOk(w, c))
    && (forall t :: t in w.clients ==> HandOk(w, t))
  }

  ghost predicate Sound(w: World) { LocksOk(w) && StateOk(w) }

  predicate HoldersMoved(w: World, v: World, t: nat) {
    && (v.holder == w.holder || (v.holder.None? && w.holder == Some(Client(t))) || (w.holder.None? && v.holder == Some(Client(t))))
    && (v.applyHolder == w.applyHolder || (v.applyHolder.None? && w.applyHolder == Some(t))
        || (w.applyHolder.None? && v.applyHolder == Some(t)))
  }

  /** Client `t` moves and may take or drop a lock; everyone else stands where they did. */
  ghost predicate LocksMoved(w: World, v: World, t: nat) {
    && t in v.clients && v.clients == w.clients[t := v.clients[t]]
    && (t in w.clients ==> ClientLocks(w, t)) && (t !in w.clients ==> w.holder != Some(Client(t)) && w.applyHolder != Some(t))
    && ClientLocks(v, t)
    && HoldersMoved(w, v, t)
    && v.worker == w.worker
    && w.sessions.Keys <= v.sessions.Keys
    && (forall s :: s in v.sessions ==>
          if s in w.sessions then v.sessions[s].watcher == w.sessions[s].watcher else v.sessions[s].watcher == Idle)
    && (forall s :: s in v.sessions && s !in w.sessions ==> w.holder != Some(BusWatcher(s)))
  }

  lemma LocksAfterMove(w: World, v: World, t: nat)
    requires LocksOk(w) && LocksMoved(w, v, t)
    ensures LocksOk(v)
  {
    forall u | u in v.clients ensures ClientLocks(v, u) { if u != t { assert ClientLocks(w, u); } }
    forall s | s in v.sessions ensures WatcherLock(v, s) { if s in w.sessions { assert WatcherLock(w, s); } }
  }

  /** Nothing but clients and locks changed. */
  lemma StateAfterMove(w: World, v: World, t: nat)
    requires StateOk(w) && t in v.clients && v.clients == w.clients[t := v.clients[t]]
    requires v.entries == w.entries && v.sessions == w.sessions && v.nextSession == w.nextSession
    requires HandOk(v, t)
    ensures StateOk(v)
  {
    forall s | s in v.sessions ensures SessionOk(v, s) { assert SessionOk(w, s); }
    forall c | c in v.entries ensures EntryOk(v, c) { assert EntryOk(w, c); }
    forall u | u in v.clients ensures HandOk(v, u) {
      if u != t {
        assert HandOk(w, u);
        forall s | TakenOut(w, s) ensures TakenOut(v, s) {}
      }
    }
  }

  lemma SpawnSound(w: World, t: nat, pc: Pc)
    requires Sound(w) && (t in w.clients ==> w.clients[t] == Done) && Entrance(pc)
    ensures Sound(Goto(w, t, pc))
  {
    if t in w.clients { assert ClientLocks(w, t); }
    LocksAfterMove(w, Goto(w, t, pc), t);
    StateAfterMove(w, Goto(w, t, pc), t);
  }

  lemma WorkerSound(w: World)
    requires Sound(w) && WorkerCan(w)
    ensures Sound(WorkerStep(w))
  {
    LocksAfterWorker(w, WorkerStep(w));
    StateSame(w, WorkerStep(w));
  }

  lemma LocksAfterWorker(w: World, v: World)
    requires LocksOk(w) && v == w.(worker := v.worker, holder := v.holder)
    requires WorkerHolds(v.worker) <==> v.holder == Some(Worker)
    requires v.holder == w.holder || (v.holder.None? && w.holder == Some(Worker)) || (w.holder.None? && v.holder == Some(Worker))
    ensures LocksOk(v)
  {
    forall u | u in v.clients ensures ClientLocks(v, u) { assert ClientLocks(w, u); }
    forall s | s in v.sessions ensures WatcherLock(v, s) { assert WatcherLock(w, s); }
  }

  lemma StateSame(w: World, v: World)
    requires StateOk(w)
    requires v.entries == w.entries && v.sessions == w.sessions && v.nextSession == w.nextSession && v.clients == w.clients
    ensures StateOk(v)
  {
    forall s | s in v.sessions ensures SessionOk(v, s) { assert SessionOk(w, s); }
    forall c | c in v.entries ensures EntryOk(v, c) { assert EntryOk(w, c); }
    forall u | u in v.clients ensures HandOk(v, u) {
      assert HandOk(w, u);
      forall s | TakenOut(w, s) ensures TakenOut(v, s) {}
    }
  }

  lemma WatcherSound(w: World, s: nat, choice: Choice)
    requires Sound(w) && WatcherCan(w, s, choice)
    ensures Sound(WatcherStep(w, s, choice))
  {
    var v := WatcherStep(w, s, choice);
    assert SessionOk(w, s) && WatcherLock(w, s);
    var watcher := v.sessions[s].watcher;
    assert v.sessions == w.sessions[s := w.sessions[s].(watcher := watcher)];
    LocksAfterWatcher(w, v, s);
    StateAfterWatcher(w, v, s, watcher);
  }

  lemma LocksAfterWatcher(w: World, v: World, s: nat)
    requires LocksOk(w) && s in w.sessions && v == w.(sessions := v.sessions, holder := v.holder)
    requires v.sessions.Keys == w.sessions.Keys && (forall r :: r in w.sessions && r != s ==> v.sessions[r] == w.sessions[r])
    requires WatcherLock(v, s)
    requires v.holder == w.holder || (v.holder.None? && w.holder == Some(BusWatcher(s)))
             || (w.holder.None? && v.holder == Some(BusWatcher(s)))
    ensures LocksOk(v)
  {
    forall u | u in v.clients ensures ClientLocks(v, u) { assert ClientLocks(w, u); }
    forall r | r in v.sessions ensures WatcherLock(v, r) { assert WatcherLock(w, r); }
  }

  lemma StateAfterWatcher(w: World, v: World, s: nat, watcher: Watcher)
    requires StateOk(w) && s in w.sessions && v == w.(sessions := v.sessions, holder := v.holder)
    requires v.sessions == w.sessions[s := w.sessions[s].(watcher := watcher)] && SessionOk(v, s)
    ensures StateOk(v)
  {
    forall r | r in v.sessions ensures SessionOk(v, r) { if r != s { assert SessionOk(w, r); } }
    forall c | c in v.entries ensures EntryOk(v, c) { assert EntryOk(w, c); }
    forall u | u in v.clients ensures HandOk(v, u) {
      assert HandOk(w, u);
      forall r | TakenOut(w, r) ensures TakenOut(v, r) {}
    }
  }

  // The steps of a client that change more than its own position.

  /** An entry loses its session, which is told to stop; the camera's other state may change. */
  lemma StateAfterRetire(w: World, v: World, t: nat, c: string, s: nat)
    requires StateOk(w) && SessionOf(w, c) == Some(s) && t in v.clients && v.clients == w.clients[t := v.clients[t]]
    requires s in w.sessions && v.sessions == w.sessions[s := w.sessions[s].(stopping := true)]
    requires v.nextSession == w.nextSession && SessionOf(v, c).None?
    requires forall d :: d != c ==> (d in v.entries <==> d in w.entries) && (d in w.entries ==> v.entries[d] == w.entries[d])
    requires HandOk(v, t)
    ensures StateOk(v)
  {
    assert EntryOk(w, c);
    forall r | r in v.sessions ensures SessionOk(v, r) { assert SessionOk(w, r); }
    forall d | d in v.entries ensures EntryOk(v, d) { if d != c { assert EntryOk(w, d); } }
    forall u | u in v.clients ensures HandOk(v, u) {
      if u != t {
        assert HandOk(w, u);
        forall r | TakenOut(w, r) ensures TakenOut(v, r) {}
      }
    }
  }

  /** An entry is made or rewritten without touching its session. */
  lemma StateAfterKeep(w: World, v: World, t: nat, c: string)
    requires StateOk(w) && t in v.clients && v.clients == w.clients[t := v.clients[t]]
    requires v.sessions == w.sessions && v.nextSession == w.nextSession
    requires v.entries.Keys == w.entries.Keys + {c} && SessionOf(v, c) == SessionOf(w, c)
    requires forall d :: d in w.entries && d != c ==> v.entries[d] == w.entries[d]
    requires HandOk(v, t)
    ensures StateOk(v)
  {
    forall r | r in v.sessions ensures SessionOk(v, r) { assert SessionOk(w, r); }
    forall d | d in v.entries ensures EntryOk(v, d) { if d in w.entries { assert EntryOk(w, d); } }
    forall u | u in v.clients ensures HandOk(v, u) {
      if u != t {
        assert HandOk(w, u);
        forall r | TakenOut(w, r) ensures TakenOut(v, r) {}
      }
    }
  }

  /** A session no entry has, and which is not being started by another thread, is told to stop. */
  lemma StateAfterFlag(w: World, v: World, t: nat, s: nat)
    requires StateOk(w) && t in v.clients && v.clients == w.clients[t := v.clients[t]]
    requires s in w.sessions && v.sessions == w.sessions[s := w.sessions[s].(stopping := true)]
    requires v.entries == w.entries && v.nextSession == w.nextSession
    requires SessionOf(w, w.sessions[s].camera) != Some(s)
    requires forall u :: u in w.clients && u != t && w.clients[u].ApplyStart? ==> w.clients[u].made != s
    requires HandOk(v, t)
    ensures StateOk(v)
  {
    forall r | r in v.sessions ensures SessionOk(v, r) { assert SessionOk(w, r); }
    forall d | d in v.entries ensures EntryOk(v, d) { assert EntryOk(w, d); }
    forall u | u in v.clients ensures HandOk(v, u) {
      if u != t {
        assert HandOk(w, u);
        forall r | TakenOut(w, r) ensures TakenOut(v, r) {}
      }
    }
  }

  lemma StateAfterStarted(w: World, v: World, t: nat, c: string, s: nat)
    requires StateOk(w) && t in v.clients && v.clients == w.clients[t := v.clients[t]] && v.clients[t] == Done
    requires s in w.sessions && !w.sessions[s].started && !w.sessions[s].stopping && w.sessions[s].camera == c
    requires v.sessions == w.sessions[s := w.sessions[s].(started := true)] && v.nextSession == w.nextSession
    requires v.entries.Keys == w.entries.Keys + {c} && v.entries[c].session == Some(s)
    requires forall d :: d in w.entries && d != c ==> v.entries[d] == w.entries[d]
    requires forall u :: u in w.clients && u != t && w.clients[u].ApplyStart? ==> w.clients[u].made != s
    requires forall u :: u in w.clients && u != t && w.clients[u].ApplyAbort? ==> w.clients[u].made != s
    ensures StateOk(v)
  {
    forall r | r in v.sessions ensures SessionOk(v, r) { assert SessionOk(w, r); }
    forall d | d in v.entries ensures EntryOk(v, d) { if d != c { assert EntryOk(w, d); } }
    forall u | u in v.clients ensures HandOk(v, u) {
      if u != t {
        assert HandOk(w, u);
        forall r | TakenOut(w, r) ensures TakenOut(v, r) {}
      }
    }
  }

  lemma StateAfterMade(w: World, v: World, t: nat, c: string)
    requires StateOk(w) && t in v.clients && v.clients == w.clients[t := v.clients[t]]
    requires w.nextSession !in w.sessions && v.nextSession == w.nextSession + 1 && v.entries == w.entries
    requires v.sessions == w.sessions[w.nextSession := Session(c, Idle, false, false)]
    requires HandOk(v, t)
    ensures StateOk(v)
  {
    forall r | r in v.sessions ensures SessionOk(v, r) { if r in w.sessions { assert SessionOk(w, r); } }
    forall d | d in v.entries ensures EntryOk(v, d) { assert EntryOk(w, d); }
    forall u | u in v.clients ensures HandOk(v, u) {
      if u != t {
        assert HandOk(w, u);
        forall r | TakenOut(w, r) ensures TakenOut(v, r) {}
      }
    }
  }

  lemma StateAfterClear(w: World, v: World, t: nat)
    requires StateOk(w) && t in v.clients && v.clients == w.clients[t := v.clients[t]]
    requires v.sessions == w.sessions && v.nextSession == w.nextSession && v.entries == map[]
    requires v.clients[t].StopNext?
    requires forall s :: s in v.clients[t].todo ==> exists c :: c in w.entries && w.entries[c].session == Some(s)
    ensures StateOk(v)
  {
    forall r | r in v.sessions ensures SessionOk(v, r) { assert SessionOk(w, r); }
    forall s | s in v.clients[t].todo ensures TakenOut(v, s) {
      var c :| c in w.entries && w.entries[c].session == Some(s);
      assert EntryOk(w, c);
    }
    forall u | u in v.clients ensures HandOk(v, u) {
      if u != t {
        assert HandOk(w, u);
        forall r | TakenOut(w, r) ensures TakenOut(v, r) {}
      }
    }
  }

  /** Only the thread holding the apply lock starts or aborts a session. */
  lemma OneStarter(w: World, t: nat)
    requires LocksOk(w) && t in w.clients && InApply(w.clients[t])
    ensures forall u :: u in w.clients && u != t ==> !InApply(w.clients[u])
  {
    assert ClientLocks(w, t);
    forall u | u in w.clients && u != t ensures !InApply(w.clients[u]) { assert ClientLocks(w, u); }
  }

  lemma Phase1Sound(w: World, t: nat, camera: Camera, codecKnown: bool)
    requires Sound(w) && t in w.clients && w.clients[t] == ApplyIn1(camera, codecKnown)
    ensures Sound(Phase1(w, t, camera, codecKnown))
  {
    hide ShouldRecord;
    hide NeedsRestart;
    hide LeaveEntry;
    hide Retire;
    hide LocksOk;
    hide StateOk;
    LeaveLocks(w, t, camera);
    LeaveState(w, t, camera);
    RetireLocks(w, t, camera, false);
    RetireLocks(w, t, camera, true);
    RetireState(w, t, camera, false);
    if ShouldRecord(camera) { RetireState(w, t, camera, true); }
  }

  lemma LeaveLocks(w: World, t: nat, camera: Camera)
    requires LocksOk(w) && t in w.clients && w.clients[t].ApplyIn1?
    ensures LocksOk(LeaveEntry(w, t, camera))
  {
    assert ClientLocks(w, t);
    LocksAfterMove(w, LeaveEntry(w, t, camera), t);
  }

  lemma LeaveState(w: World, t: nat, camera: Camera)
    requires StateOk(w) && t in w.clients
    ensures StateOk(LeaveEntry(w, t, camera))
  {
    StateAfterKeep(w, LeaveEntry(w, t, camera), t, camera.id);
  }

  lemma RetireLocks(w: World, t: nat, camera: Camera, build: bool)
    requires LocksOk(w) && t in w.clients && w.clients[t].ApplyIn1?
    ensures LocksOk(Retire(w, t, camera, build))
  {
    assert ClientLocks(w, t);
    LocksAfterMove(w, Retire(w, t, camera, build), t);
  }

  lemma RetireState(w: World, t: nat, camera: Camera, build: bool)
    requires StateOk(w) && t in w.clients && w.clients[t].ApplyIn1? && (build ==> ShouldRecord(camera))
    ensures StateOk(Retire(w, t, camera, build))
  {
    var v := Retire(w, t, camera, build);
    EntrySession(w, camera.id);
    hide StateOk;
    if v.clients[t].ApplyJoin? {
      StateAfterRetire(w, v, t, camera.id, SessionOf(w, camera.id).value);
    } else {
      StateAfterKeep(w, v, t, camera.id);
    }
  }

  lemma EntrySession(w: World, c: string)
    requires StateOk(w)
    ensures c in w.entries ==> EntryOk(w, c)
  {
  }

  lemma HandOf(w: World, t: nat)
    requires StateOk(w) && t in w.clients
    ensures HandOk(w, t)
  {
  }

  lemma NewSessionId(w: World)
    requires StateOk(w)
    ensures w.nextSession !in w.sessions
  {
    assert forall r :: r in w.sessions ==> SessionOk(w, r) && r < w.nextSession;
  }

  lemma StartSound(w: World, t: nat, choice: Choice)
    requires Sound(w) && ClientCan(w, t, choice) && (w.clients[t].ApplyIn2? || w.clients[t].ApplyStart?)
    ensures Sound(ClientStep(w, t, choice))
  {
    OneStarter(w, t);
    NewSessionId(w);
    StartLocks(w, t, choice);
    if w.clients[t].ApplyIn2? { MakeState(w, t, choice); } else { StartState(w, t, choice); }
  }

  lemma StartLocks(w: World, t: nat, choice: Choice)
    requires LocksOk(w) && ClientCan(w, t, choice) && (w.clients[t].ApplyIn2? || w.clients[t].ApplyStart?)
    requires w.nextSession !in w.sessions
    ensures LocksOk(ClientStep(w, t, choice))
  {
    assert ClientLocks(w, t);
    LocksAfterMove(w, ClientStep(w, t, choice), t);
  }

  lemma MakeState(w: World, t: nat, choice: Choice)
    requires StateOk(w) && ClientCan(w, t, choice) && w.clients[t].ApplyIn2?
    ensures StateOk(ClientStep(w, t, choice))
  {
    hide StateOk;
    var v := ClientStep(w, t, choice);
    var c := w.clients[t].camera.id;
    HandOf(w, t);
    NewSessionId(w);
    var kept := if c in w.entries then w else w.(entries := w.entries[c := Entry(None, NotBuilt)]);
    StateAfterKeep(w, kept, t, c);
    if choice.ok { StateAfterMade(kept, v, t, c); } else { StateAfterKeep(w, v, t, c); }
  }

  lemma StartState(w: World, t: nat, choice: Choice)
    requires StateOk(w) && ClientCan(w, t, choice) && w.clients[t].ApplyStart?
    requires forall u :: u in w.clients && u != t ==> !InApply(w.clients[u])
    ensures StateOk(ClientStep(w, t, choice))
  {
    hide StateOk;
    var v := ClientStep(w, t, choice);
    var c, s := w.clients[t].camera.id, w.clients[t].made;
    HandOf(w, t);
    EntrySession(w, c);
    if choice.ok { StateAfterStarted(w, v, t, c, s); } else { StateAfterFlag(w, v, t, s); }
  }

  lemma RemoveSound(w: World, t: nat, choice: Choice)
    requires Sound(w) && ClientCan(w, t, choice) && w.clients[t].RemoveIn?
    ensures Sound(ClientStep(w, t, choice))
  {
    assert ClientLocks(w, t);
    LocksAfterMove(w, ClientStep(w, t, choice), t);
    RemoveState(w, t, choice);
  }

  lemma RemoveState(w: World, t: nat, choice: Choice)
    requires StateOk(w) && ClientCan(w, t, choice) && w.clients[t].RemoveIn?
    ensures StateOk(ClientStep(w, t, choice))
  {
    hide StateOk;
    var v := ClientStep(w, t, choice);
    var c := w.clients[t].cameraId;
    EntrySession(w, c);
    if SessionOf(w, c).Some? { StateAfterRetire(w, v, t, c, SessionOf(w, c).value); } else { StateAfterErase(w, v, t, c); }
  }

  lemma StateAfterErase(w: World, v: World, t: nat, c: string)
    requires StateOk(w) && t in v.clients && v.clients == w.clients[t := v.clients[t]]
    requires v.sessions == w.sessions && v.nextSession == w.nextSession && v.entries == w.entries - {c}
    requires SessionOf(w, c).None? && HandOk(v, t)
    ensures StateOk(v)
  {
    forall r | r in v.sessions ensures SessionOk(v, r) { assert SessionOk(w, r); }
    forall d | d in v.entries ensures EntryOk(v, d) { assert EntryOk(w, d); }
    forall u | u in v.clients ensures HandOk(v, u) {
      if u != t {
        assert HandOk(w, u);
        forall r | TakenOut(w, r) ensures TakenOut(v, r) {}
      }
    }
  }

  lemma StopSound(w: World, t: nat, choice: Choice)
    requires Sound(w) && ClientCan(w, t, choice) && (w.clients[t].StopIn? || w.clients[t].StopNext?)
    ensures Sound(ClientStep(w, t, choice))
  {
    assert ClientLocks(w, t);
    LocksAfterMove(w, ClientStep(w, t, choice), t);
    StopState(w, t, choice);
  }

  lemma StopState(w: World, t: nat, choice: Choice)
    requires StateOk(w) && ClientCan(w, t, choice) && (w.clients[t].StopIn? || w.clients[t].StopNext?)
    ensures StateOk(ClientStep(w, t, choice))
  {
    var v := ClientStep(w, t, choice);
    assert HandOk(w, t);
    if w.clients[t].StopIn? {
      hide StateOk;
      StateAfterClear(w, v, t);
    } else if w.clients[t].todo == {} {
      hide StateOk;
      StateAfterMove(w, v, t);
    } else {
      var s := choice.pick;
      assert TakenOut(w, s);
      forall u | u in w.clients && u != t && w.clients[u].ApplyStart? ensures w.clients[u].made != s {
        assert HandOk(w, u);
      }
      hide StateOk;
      forall r | TakenOut(w, r) ensures TakenOut(v, r) {}
      StateAfterFlag(w, v, t, s);
    }
  }

  lemma ClientSound(w: World, t: nat, choice: Choice)
    requires Sound(w) && t in w.clients && ClientCan(w, t, choice)
    ensures Sound(ClientStep(w, t, choice))
  {
    hide ClientStep;
    hide ClientCan;
    var pc := w.clients[t];
    if pc.ApplyIn1? { ClientPhase1(w, t, choice); }
    else if pc.ApplyIn2? || pc.ApplyStart? { StartSound(w, t, choice); }
    else if pc.RemoveIn? { RemoveSound(w, t, choice); }
    else if pc.StopIn? || pc.StopNext? { StopSound(w, t, choice); }
    else { PlainSound(w, t, choice); }
  }

  lemma ClientPhase1(w: World, t: nat, choice: Choice)
    requires Sound(w) && ClientCan(w, t, choice) && w.clients[t].ApplyIn1?
    ensures Sound(ClientStep(w, t, choice))
  {
    hide Phase1;
    hide Sound;
    Phase1Sound(w, t, w.clients[t].camera, w.clients[t].codecKnown);
  }

  predicate Plain(pc: Pc) {
    !pc.ApplyIn1? && !pc.ApplyIn2? && !pc.ApplyStart? && !pc.RemoveIn? && !pc.StopIn? && !pc.StopNext?
  }

  /** All a step changes is where client `t` stands and what it holds. */
  ghost predicate PlainMove(w: World, v: World, t: nat) {
    && t in v.clients
    && v == w.(clients := w.clients[t := v.clients[t]], holder := v.holder, applyHolder := v.applyHolder,
               running := v.running)
    && ClientLocks(v, t) && HandOk(v, t) && HoldersMoved(w, v, t)
  }

  lemma TakingIsPlain(w: World, t: nat, choice: Choice)
    requires ClientCan(w, t, choice) && ClientLocks(w, t) && BuildOk(w.clients[t])
    requires WantsMutex(w.clients[t]) || w.clients[t].ApplyBegin?
    ensures PlainMove(w, ClientStep(w, t, choice), t)
  {
    hide ShouldRecord;
    hide Phase1;
  }

  lemma LeavingIsPlain(w: World, t: nat, choice: Choice)
    requires ClientCan(w, t, choice) && ClientLocks(w, t) && HandOk(w, t)
    requires Plain(w.clients[t]) && !WantsMutex(w.clients[t]) && !w.clients[t].ApplyBegin?
    ensures PlainMove(w, ClientStep(w, t, choice), t)
  {
    LeavingHand(w, t, choice);
    hide HandOk;
  }

  lemma LeavingHand(w: World, t: nat, choice: Choice)
    requires ClientCan(w, t, choice) && HandOk(w, t)
    requires Plain(w.clients[t]) && !WantsMutex(w.clients[t]) && !w.clients[t].ApplyBegin?
    ensures t in ClientStep(w, t, choice).clients && HandOk(ClientStep(w, t, choice), t)
  {
    hide ShouldRecord;
    forall r | TakenOut(w, r) ensures TakenOut(ClientStep(w, t, choice), r) {}
  }

  lemma PlainSound(w: World, t: nat, choice: Choice)
    requires Sound(w) && ClientCan(w, t, choice) && Plain(w.clients[t])
    ensures Sound(ClientStep(w, t, choice))
  {
    hide ClientStep;
    assert ClientLocks(w, t) && HandOk(w, t);
    if WantsMutex(w.clients[t]) || w.clients[t].ApplyBegin? {
      TakingIsPlain(w, t, choice);
    } else {
      LeavingIsPlain(w, t, choice);
    }
    LocksAfterMove(w, ClientStep(w, t, choice), t);
    StateAfterMove(w, ClientStep(w, t, choice), t);
  }

  /** In every reachable state the locks are where the threads' positions say, a session not yet
      started has a watcher that takes no lock, and an entry's session runs. */
  lemma {:induction false} AlwaysSound(steps: seq<Step>)
    ensures Sound(Run(steps))
  {
    if steps != [] {
      AlwaysSound(steps[..|steps| - 1]);
      SoundStep(Run(steps[..|steps| - 1]), steps[|steps| - 1]);
    }
  }

  lemma SoundStep(w: World, step: Step)
    requires Sound(w)
    ensures Sound(Next(w, step))
  {
    match step
    case Spawn(t, choice) =>
      if (t in w.clients ==> w.clients[t] == Done) && Entrance(choice.op) { SpawnSound(w, t, choice.op); }
    case Move(a, choice) =>
      if Can(w, a, choice) {
        match a
        case Client(t) => ClientSound(w, t, choice);
        case BusWatcher(s) => WatcherSound(w, s, choice);
        case Worker => WorkerSound(w);
      }
  }

  // ---------------------------------------------------------------- no deadlock

  /** The thread a blocked thread waits for. */
  function WaitsFor(w: World, a: Actor): Option<Actor> {
    match a
    case Client(t) =>
      if t !in w.clients then None
      else
        var pc := w.clients[t];
        if pc.ApplyBegin? && w.applyHolder.Some? then Some(Client(w.applyHolder.value))
        else if WantsMutex(pc) then w.holder
        else if Joining(pc).Some? && !Ended?(w, Joining(pc).value) then Some(BusWatcher(Joining(pc).value))
        else if pc == StopJoinWorker && w.worker != Ended then Some(Worker)
        else None
    case BusWatcher(s) => if s in w.sessions && w.sessions[s].watcher == Wanting then w.holder else None
    case Worker => if w.worker == Want || w.worker == Rewant then w.holder else None
  }

  /** A step that moves its thread on; an idle watcher moves on only by ending. */
  predicate Progress(w: World, a: Actor, choice: Choice) {
    && Can(w, a, choice)
    && (a.BusWatcher? && w.sessions[a.s].watcher == Idle ==> w.sessions[a.s].stopping && choice.ok)
  }

  /** Each thread on the path waits for the next one, and the last can move on. */
  ghost predicate Unblocks(w: World, path: seq<Actor>, choice: Choice) {
    && path != []
    && (forall i :: 0 <= i < |path| - 1 ==> WaitsFor(w, path[i]) == Some(path[i + 1]))
    && Progress(w, path[|path| - 1], choice)
  }

  const Ok := Choice(true, 0, Done)

  /** Joining under the manager's lock happens only when a start() failed, and the watcher joined
      there takes no lock. So no thread holding it waits for one that could want it. */
  lemma JoinUnderLock(steps: seq<Step>, t: nat, s: nat)
    requires var w := Run(steps);
             t in w.clients && w.holder == Some(Client(t)) && Joining(w.clients[t]) == Some(s)
    ensures var w := Run(steps);
            w.clients[t].ApplyAbort? && s in w.sessions && !w.sessions[s].started && Quiet(w.sessions[s].watcher)
  {
    AlwaysSound(steps);
    var w := Run(steps);
    hide Run;
    assert ClientLocks(w, t) && HandOk(w, t) && SessionOk(w, s);
  }

  lemma FromHolder(w: World) returns (path: seq<Actor>, choice: Choice)
    requires Sound(w) && w.holder.Some?
    ensures Unblocks(w, path, choice) && path[0] == w.holder.value && |path| <= 2
  {
    path, choice := [w.holder.value], Ok;
    match w.holder.value
    case Client(t) =>
      assert ClientLocks(w, t) && HandOk(w, t);
      var pc := w.clients[t];
      if pc.ApplyAbort? && !Ended?(w, pc.made) {
        assert SessionOk(w, pc.made);
        path := path + [BusWatcher(pc.made)];
      }
    case BusWatcher(s) => assert WatcherLock(w, s);
    case Worker =>
  }

  lemma FromWatcher(w: World, s: nat) returns (path: seq<Actor>, choice: Choice)
    requires Sound(w) && s in w.sessions && w.sessions[s].stopping && w.sessions[s].watcher != Gone
    ensures Unblocks(w, path, choice) && path[0] == BusWatcher(s) && |path| <= 3
  {
    path, choice := [BusWatcher(s)], Ok;
    if w.sessions[s].watcher == Wanting && w.holder.Some? {
      var rest, last := FromHolder(w);
      path, choice := path + rest, last;
    }
  }

  lemma FromInside(w: World, t: nat) returns (path: seq<Actor>, choice: Choice)
    requires Sound(w) && t in w.clients && w.clients[t] != Done && !w.clients[t].ApplyBegin?
    ensures Unblocks(w, path, choice) && path[0] == Client(t) && |path| <= 4
  {
    assert HandOk(w, t);
    var pc := w.clients[t];
    path, choice := [Client(t)], Ok;
    if WantsMutex(pc) && w.holder.Some? {
      var rest, last := FromHolder(w);
      path, choice := path + rest, last;
    } else if Joining(pc).Some? && !Ended?(w, Joining(pc).value) {
      var rest, last := FromWatcher(w, Joining(pc).value);
      path, choice := path + rest, last;
    } else if pc == StopJoinWorker && w.worker != Ended {
      if (w.worker == Want || w.worker == Rewant) && w.holder.Some? {
        var rest, last := FromHolder(w);
        path, choice := path + [Worker] + rest, last;
      } else {
        path := path + [Worker];
      }
    } else if pc.StopNext? && pc.todo != {} {
      var s :| s in pc.todo;
      assert TakenOut(w, s);
      choice := Choice(true, s, Done);
    }
  }

  /** In every reachable state, every operation under way can move on itself or waits, through at
      most four other threads, for one that can: no interleaving of applies, removes, stops,
      events, settles and segment reports deadlocks. */
  lemma NoDeadlock(steps: seq<Step>, t: nat) returns (path: seq<Actor>, choice: Choice)
    requires t in Run(steps).clients && Run(steps).clients[t] != Done
    ensures Unblocks(Run(steps), path, choice) && path[0] == Client(t) && |path| <= 5
  {
    AlwaysSound(steps);
    var w := Run(steps);
    hide Run;
    if w.clients[t].ApplyBegin? {
      if w.applyHolder.None? { return [Client(t)], Ok; }
      var u := w.applyHolder.value;
      assert ClientLocks(w, u);
      var rest, last := FromInside(w, u);
      path, choice := [Client(t)] + rest, last;
    } else {
      path, choice := FromInside(w, t);
    }
  }

  // ---------------------------------------------------------------- one session per camera

  predicate Building(pc: Pc) {
    pc.ApplyJoin? || pc.ApplyWant2? || pc.ApplyIn2? || pc.ApplyStart? || pc.ApplyAbort?
  }

  predicate HasInHand(pc: Pc, s: nat) {
    Joining(pc) == Some(s) || (pc.ApplyStart? && pc.made == s) || ((pc.StopNext? || pc.StopJoin?) && s in pc.todo)
  }

  ghost predicate Owned(w: World, s: nat)
    requires s in w.sessions
  {
    SessionOf(w, w.sessions[s].camera) == Some(s) || exists t :: t in w.clients && HasInHand(w.clients[t], s)
  }

  predicate Unstopped(w: World, s: nat) { s in w.sessions && w.sessions[s].watcher != Gone }

  ghost predicate OwnersOk(w: World) {
    && (forall s :: Unstopped(w, s) ==> Owned(w, s))
    && (forall t :: t in w.clients && Building(w.clients[t]) ==> SessionOf(w, w.clients[t].camera.id).None?)
  }

  /** No session came or went, and none ended. */
  ghost predicate SameSessions(w: World, v: World) {
    v.sessions.Keys == w.sessions.Keys &&
    forall s :: s in v.sessions ==>
      v.sessions[s].camera == w.sessions[s].camera && v.sessions[s].watcher == w.sessions[s].watcher
  }

  /** Client `t` moves; sessions it lets go of are ended, in an entry, or were not its own. */
  lemma OwnersAfter(w: World, v: World, t: nat)
    requires OwnersOk(w) && t in v.clients && v.clients == w.clients[t := v.clients[t]]
    requires forall s :: Unstopped(v, s) ==>
                           (Unstopped(w, s) && v.sessions[s].camera == w.sessions[s].camera) || HasInHand(v.clients[t], s)
    requires forall s :: Unstopped(v, s) && t in w.clients && HasInHand(w.clients[t], s) ==> Owned(v, s)
    requires forall s :: Unstopped(v, s) && s in w.sessions && SessionOf(w, w.sessions[s].camera) == Some(s) ==> Owned(v, s)
    requires Building(v.clients[t]) ==> SessionOf(v, v.clients[t].camera.id).None?
    requires forall u :: u in w.clients && u != t && Building(w.clients[u]) ==> SessionOf(v, w.clients[u].camera.id).None?
    ensures OwnersOk(v)
  {
    forall s | Unstopped(v, s) ensures Owned(v, s) {
      if HasInHand(v.clients[t], s) {
      } else if SessionOf(w, w.sessions[s].camera) == Some(s) {
      } else {
        assert Owned(w, s);
        var u :| u in w.clients && HasInHand(w.clients[u], s);
        if u != t { assert v.clients[u] == w.clients[u]; }
      }
    }
  }

  lemma OwnersAfterSpawn(w: World, t: nat, pc: Pc)
    requires OwnersOk(w) && (t in w.clients ==> w.clients[t] == Done) && Entrance(pc)
    ensures OwnersOk(Goto(w, t, pc))
  {
    OwnersKept(w, Goto(w, t, pc), t);
  }

  /** A move that hands over nothing. */
  lemma OwnersKept(w: World, v: World, t: nat)
    requires OwnersOk(w) && t in v.clients && v.clients == w.clients[t := v.clients[t]]
    requires v.entries == w.entries && v.sessions == w.sessions
    requires t in w.clients ==> forall s :: Unstopped(w, s) && HasInHand(w.clients[t], s) ==> HasInHand(v.clients[t], s)
    requires Building(v.clients[t]) ==> SessionOf(v, v.clients[t].camera.id).None?
    ensures OwnersOk(v)
  {
    OwnersAfter(w, v, t);
  }

  lemma WatcherMoves(w: World, s: nat, choice: Choice)
    requires WatcherCan(w, s, choice)
    ensures var v := WatcherStep(w, s, choice);
            && v.clients == w.clients && v.entries == w.entries && v.sessions.Keys == w.sessions.Keys
            && forall r :: r in w.sessions ==>
                 v.sessions[r].camera == w.sessions[r].camera && (w.sessions[r].watcher == Gone ==> v.sessions[r].watcher == Gone)
  {
  }

  lemma OwnersAfterWatcher(w: World, s: nat, choice: Choice)
    requires OwnersOk(w) && WatcherCan(w, s, choice)
    ensures OwnersOk(WatcherStep(w, s, choice))
  {
    var v := WatcherStep(w, s, choice);
    WatcherMoves(w, s, choice);
    hide WatcherStep;
    forall r | Unstopped(v, r) ensures Owned(v, r) {
      assert Unstopped(w, r) && Owned(w, r);
    }
  }

  lemma OwnersAfterPlain(w: World, t: nat, choice: Choice)
    requires Sound(w) && OwnersOk(w) && ClientCan(w, t, choice) && Plain(w.clients[t])
    ensures OwnersOk(ClientStep(w, t, choice))
  {
    assert ClientLocks(w, t) && HandOk(w, t);
    if WantsMutex(w.clients[t]) || w.clients[t].ApplyBegin? {
      TakingIsPlain(w, t, choice);
      TakingKeeps(w, t, choice);
    } else {
      LeavingIsPlain(w, t, choice);
      LeavingKeeps(w, t, choice);
    }
    hide ClientStep;
    hide Sound;
    OwnersKept(w, ClientStep(w, t, choice), t);
  }

  lemma TakingKeeps(w: World, t: nat, choice: Choice)
    requires ClientCan(w, t, choice) && (WantsMutex(w.clients[t]) || w.clients[t].ApplyBegin?)
    ensures var pc := ClientStep(w, t, choice).clients[t];
            && (Building(pc) ==> Building(w.clients[t]) && pc.camera == w.clients[t].camera)
            && (forall s :: !HasInHand(w.clients[t], s))
  {
  }

  lemma LeavingKeeps(w: World, t: nat, choice: Choice)
    requires ClientCan(w, t, choice) && Plain(w.clients[t])
    requires !WantsMutex(w.clients[t]) && !w.clients[t].ApplyBegin?
    ensures var pc := ClientStep(w, t, choice).clients[t];
            && (Building(pc) ==> Building(w.clients[t]) && pc.camera == w.clients[t].camera)
            && (forall s :: Unstopped(w, s) && HasInHand(w.clients[t], s) ==> HasInHand(pc, s))
  {
  }

  lemma OwnersAfterPhase1(w: World, t: nat, camera: Camera, codecKnown: bool)
    requires Sound(w) && OwnersOk(w) && t in w.clients && w.clients[t] == ApplyIn1(camera, codecKnown)
    ensures OwnersOk(Phase1(w, t, camera, codecKnown))
  {
    OneStarter(w, t);
    EntrySession(w, camera.id);
    hide Decide;
    hide LocksOk;
    hide StateOk;
    OwnersAfterLeave(w, t, camera);
    OwnersAfterRetire(w, t, camera, false);
    OwnersAfterRetire(w, t, camera, true);
    hide LeaveEntry;
    hide Retire;
    hide OwnersOk;
  }

  lemma OwnersAfterLeave(w: World, t: nat, camera: Camera)
    requires OwnersOk(w) && t in w.clients && w.clients[t].ApplyIn1?
    ensures OwnersOk(LeaveEntry(w, t, camera))
  {
    var v := LeaveEntry(w, t, camera);
    assert forall c :: SessionOf(v, c) == SessionOf(w, c);
    OwnersAfter(w, v, t);
  }

  lemma OwnersAfterRetire(w: World, t: nat, camera: Camera, build: bool)
    requires OwnersOk(w) && t in w.clients && w.clients[t].ApplyIn1?
    requires camera.id in w.entries ==> EntryOk(w, camera.id)
    ensures OwnersOk(Retire(w, t, camera, build))
  {
    var v := Retire(w, t, camera, build);
    assert forall c :: SessionOf(v, c) == if c == camera.id then None else SessionOf(w, c);
    assert SameSessions(w, v);
    assert SessionOf(w, camera.id).Some? ==> HasInHand(v.clients[t], SessionOf(w, camera.id).value);
    OwnersAfter(w, v, t);
  }

  lemma OwnersAfterMake(w: World, t: nat, choice: Choice)
    requires Sound(w) && OwnersOk(w) && ClientCan(w, t, choice) && w.clients[t].ApplyIn2?
    ensures OwnersOk(ClientStep(w, t, choice))
  {
    hide ClientStep;
    hide LocksOk;
    NewSessionId(w);
    hide StateOk;
    MakeMoves(w, t, choice);
    OwnersAfter(w, ClientStep(w, t, choice), t);
  }

  lemma MakeMoves(w: World, t: nat, choice: Choice)
    requires ClientCan(w, t, choice) && w.clients[t].ApplyIn2? && w.nextSession !in w.sessions
    ensures var v := ClientStep(w, t, choice);
            && t in v.clients && v.clients == w.clients[t := v.clients[t]]
            && (Building(v.clients[t]) ==> v.clients[t].camera == w.clients[t].camera)
            && (forall c :: SessionOf(v, c) == SessionOf(w, c))
            && (forall s :: s in w.sessions ==> s in v.sessions && v.sessions[s] == w.sessions[s])
            && (forall s :: s in v.sessions && s !in w.sessions ==> HasInHand(v.clients[t], s))
  {
    hide Phase1;
    hide BuiltFor;
  }

  lemma OwnersAfterStart(w: World, t: nat, choice: Choice)
    requires Sound(w) && OwnersOk(w) && ClientCan(w, t, choice) && w.clients[t].ApplyStart?
    ensures OwnersOk(ClientStep(w, t, choice))
  {
    OneStarter(w, t);
    HandOf(w, t);
    hide LocksOk;
    hide StateOk;
    if choice.ok { OwnersAfterStarted(w, t, choice); } else { OwnersAfterFailed(w, t, choice); }
  }

  lemma OwnersAfterStarted(w: World, t: nat, choice: Choice)
    requires OwnersOk(w) && ClientCan(w, t, choice) && w.clients[t].ApplyStart? && choice.ok && HandOk(w, t)
    requires forall u :: u in w.clients && u != t ==> !InApply(w.clients[u])
    ensures OwnersOk(ClientStep(w, t, choice))
  {
    var v := ClientStep(w, t, choice);
    var c, made := w.clients[t].camera.id, w.clients[t].made;
    assert SameSessions(w, v);
    assert forall d :: SessionOf(v, d) == if d == c then Some(made) else SessionOf(w, d);
    assert forall u :: u in w.clients && u != t ==> !Building(w.clients[u]);
    OwnersAfter(w, v, t);
  }

  lemma OwnersAfterFailed(w: World, t: nat, choice: Choice)
    requires OwnersOk(w) && ClientCan(w, t, choice) && w.clients[t].ApplyStart? && !choice.ok && HandOk(w, t)
    ensures OwnersOk(ClientStep(w, t, choice))
  {
    var v := ClientStep(w, t, choice);
    assert SameSessions(w, v);
    assert forall d :: SessionOf(v, d) == SessionOf(w, d);
    OwnersAfter(w, v, t);
  }

  lemma OwnersAfterRemove(w: World, t: nat, choice: Choice)
    requires Sound(w) && OwnersOk(w) && ClientCan(w, t, choice) && w.clients[t].RemoveIn?
    ensures OwnersOk(ClientStep(w, t, choice))
  {
    var v := ClientStep(w, t, choice);
    RemoveTakes(w, t, choice);
    hide ClientStep;
    hide LocksOk;
    hide StateOk;
    OwnersAfter(w, v, t);
  }

  /** What a removal takes out of the entries it has in hand. */
  lemma RemoveTakes(w: World, t: nat, choice: Choice)
    requires Sound(w) && ClientCan(w, t, choice) && w.clients[t].RemoveIn?
    ensures var v, c := ClientStep(w, t, choice), w.clients[t].cameraId;
            && SameSessions(w, v) && t in v.clients && v.clients == w.clients[t := v.clients[t]] && !Building(v.clients[t])
            && (forall d :: SessionOf(v, d) == if d == c then None else SessionOf(w, d))
            && (SessionOf(w, c).Some? ==> HasInHand(v.clients[t], SessionOf(w, c).value))
  {
    hide Phase1;
    hide BuiltFor;
    EntrySession(w, w.clients[t].cameraId);
    hide LocksOk;
    hide StateOk;
  }

  lemma OwnersAfterTakeAll(w: World, t: nat, choice: Choice)
    requires OwnersOk(w) && ClientCan(w, t, choice) && w.clients[t].StopIn?
    ensures OwnersOk(ClientStep(w, t, choice))
  {
    hide Phase1;
    hide BuiltFor;
    var v := ClientStep(w, t, choice);
    assert SameSessions(w, v);
    assert forall d :: SessionOf(v, d).None?;
    forall s | s in w.sessions && SessionOf(w, w.sessions[s].camera) == Some(s)
      ensures HasInHand(v.clients[t], s)
    {
      assert w.sessions[s].camera in w.entries;
    }
    OwnersAfter(w, v, t);
  }

  lemma OwnersAfterStopNext(w: World, t: nat, choice: Choice)
    requires OwnersOk(w) && ClientCan(w, t, choice) && w.clients[t].StopNext?
    ensures OwnersOk(ClientStep(w, t, choice))
  {
    hide ClientStep;
    hide ClientCan;
    StopNextMoves(w, t, choice);
    OwnersAfter(w, ClientStep(w, t, choice), t);
  }

  lemma StopNextMoves(w: World, t: nat, choice: Choice)
    requires ClientCan(w, t, choice) && w.clients[t].StopNext?
    ensures var v := ClientStep(w, t, choice);
            && SameSessions(w, v) && t in v.clients && v.clients == w.clients[t := v.clients[t]] && !Building(v.clients[t])
            && v.entries == w.entries
            && forall s :: HasInHand(w.clients[t], s) ==> HasInHand(v.clients[t], s)
  {
    hide Phase1;
    hide BuiltFor;
  }

  lemma {:induction false} AlwaysOwned(steps: seq<Step>)
    ensures OwnersOk(Run(steps))
  {
    if steps != [] {
      var w := Run(steps[..|steps| - 1]);
      AlwaysSound(steps[..|steps| - 1]);
      AlwaysOwned(steps[..|steps| - 1]);
      OwnersAfterStep(w, steps[|steps| - 1]);
    }
  }

  lemma OwnersAfterStep(w: World, step: Step)
    requires Sound(w) && OwnersOk(w)
    ensures OwnersOk(Next(w, step))
  {
    hide ClientStep;
    hide WatcherStep;
    hide Sound;
    hide OwnersOk;
    match step
    case Spawn(t, choice) =>
      if (t in w.clients ==> w.clients[t] == Done) && Entrance(choice.op) { OwnersAfterSpawn(w, t, choice.op); }
    case Move(a, choice) =>
      if Can(w, a, choice) {
        match a
        case Client(t) => OwnersAfterClient(w, t, choice);
        case BusWatcher(s) => OwnersAfterWatcher(w, s, choice);
        case Worker => OwnersAfterWorker(w);
      }
  }

  lemma OwnersAfterWorker(w: World)
    requires OwnersOk(w) && WorkerCan(w)
    ensures OwnersOk(WorkerStep(w))
  {
    forall s | Unstopped(WorkerStep(w), s) ensures Owned(WorkerStep(w), s) { assert Unstopped(w, s) && Owned(w, s); }
  }

  lemma OwnersAfterClient(w: World, t: nat, choice: Choice)
    requires Sound(w) && OwnersOk(w) && t in w.clients && ClientCan(w, t, choice)
    ensures OwnersOk(ClientStep(w, t, choice))
  {
    hide ClientCan;
    var pc := w.clients[t];
    if pc.ApplyIn1? {
      OwnersAfterPhase1(w, t, pc.camera, pc.codecKnown);
      hide Phase1;
      hide Sound;
      hide OwnersOk;
    } else {
      hide ClientStep;
      if pc.ApplyIn2? { OwnersAfterMake(w, t, choice); }
      else if pc.ApplyStart? { OwnersAfterStart(w, t, choice); }
      else if pc.RemoveIn? { OwnersAfterRemove(w, t, choice); }
      else if pc.StopIn? { OwnersAfterTakeAll(w, t, choice); }
      else if pc.StopNext? { OwnersAfterStopNext(w, t, choice); }
      else { OwnersAfterPlain(w, t, choice); }
    }
  }

  /** A remove or a stop has this session in hand. */
  ghost predicate BeingTakenDown(w: World, s: nat) {
    exists t :: t in w.clients && HasInHand(w.clients[t], s) && !InApply(w.clients[t])
  }

  /** In every reachable state a camera has at most one session that is not stopped, besides
      those a remove or a stop is taking down. */
  lemma OneSessionPerCamera(steps: seq<Step>, r: nat, s: nat)
    requires Unstopped(Run(steps), r) && Unstopped(Run(steps), s)
    requires Run(steps).sessions[r].camera == Run(steps).sessions[s].camera
    requires !BeingTakenDown(Run(steps), r) && !BeingTakenDown(Run(steps), s)
    ensures r == s
  {
    AlwaysSound(steps);
    AlwaysOwned(steps);
    var w := Run(steps);
    hide Run;
    assert Owned(w, r) && Owned(w, s);
    var c := w.sessions[r].camera;
    if SessionOf(w, c) != Some(r) {
      var t := ApplyOwner(w, r);
      if SessionOf(w, c) != Some(s) {
        var u := ApplyOwner(w, s);
      }
    } else if SessionOf(w, c) != Some(s) {
      var u := ApplyOwner(w, s);
    }
  }

  /** Otherwise unowned, a session is the one the apply under way is stopping or starting, and
      its camera's entry is empty. */
  lemma ApplyOwner(w: World, s: nat) returns (t: nat)
    requires Sound(w) && OwnersOk(w) && Unstopped(w, s) && !BeingTakenDown(w, s)
    requires SessionOf(w, w.sessions[s].camera) != Some(s)
    ensures t in w.clients && w.applyHolder == Some(t) && HasInHand(w.clients[t], s)
    ensures SessionOf(w, w.sessions[s].camera).None?
  {
    assert Owned(w, s);
    t :| t in w.clients && HasInHand(w.clients[t], s);
    assert ClientLocks(w, t) && HandOk(w, t);
  }

  // ---------------------------------------------------------------- rivals

  ghost predicate Rivals(w: World, c: string) {
    exists r, s :: r != s && Unstopped(w, r) && Unstopped(w, s) && w.sessions[r].camera == c && w.sessions[s].camera == c
  }

  /** The step by which an apply makes a session. */
  predicate Makes(w: World, step: Step, c: string) {
    step.Move? && step.actor.Client? && step.choice.ok && Can(w, step.actor, step.choice)
    && w.clients[step.actor.t].ApplyIn2? && w.clients[step.actor.t].camera.id == c
  }

  /** An apply makes a session while a remove or a stop has one of the same camera still to end. */
  ghost predicate MakesRival(w: World, step: Step, c: string) {
    Makes(w, step, c) && exists r :: Unstopped(w, r) && w.sessions[r].camera == c && BeingTakenDown(w, r)
  }

  /** A session that can still report was there before the step, or the step made it. */
  lemma OldOrMade(w: World, step: Step, s: nat)
    requires Unstopped(Next(w, step), s)
    ensures var c := Next(w, step).sessions[s].camera;
            (Unstopped(w, s) && w.sessions[s].camera == c) || (s == w.nextSession && Makes(w, step, c))
  {
    if step.Move? && step.actor.Client? && Can(w, step.actor, step.choice) {
      ClientOldOrMade(w, step.actor.t, step.choice, s);
    }
    hide ClientStep;
  }

  lemma ClientOldOrMade(w: World, t: nat, choice: Choice, s: nat)
    requires ClientCan(w, t, choice) && Unstopped(ClientStep(w, t, choice), s)
    ensures var v := ClientStep(w, t, choice);
            || (Unstopped(w, s) && w.sessions[s].camera == v.sessions[s].camera)
            || (s == w.nextSession && choice.ok && w.clients[t].ApplyIn2? && w.clients[t].camera.id == v.sessions[s].camera)
  {
    if w.clients[t].ApplyIn1? { Phase1Frame(w, t, w.clients[t].camera, w.clients[t].codecKnown); }
    hide Phase1;
    hide ClientCan;
    hide BuiltFor;
  }

  /** What the first locked phase leaves as it was, and where it goes on. */
  ghost predicate Framed(w: World, v: World, t: nat, camera: Camera) {
    && SameSessions(w, v) && v.nextSession == w.nextSession
    && (forall d :: d != camera.id ==> (d in v.entries <==> d in w.entries) && (d in w.entries ==> v.entries[d] == w.entries[d]))
    && t in v.clients && v.clients == w.clients[t := v.clients[t]]
  }

  lemma Phase1Frame(w: World, t: nat, camera: Camera, codecKnown: bool)
    ensures Framed(w, Phase1(w, t, camera, codecKnown), t, camera)
  {
    RetireFrame(w, t, camera, false);
    RetireFrame(w, t, camera, true);
    LeaveFrame(w, t, camera);
    hide Framed;
    hide Retire;
    hide LeaveEntry;
    hide NeedsRestart;
    hide ShouldRecord;
  }

  lemma LeaveFrame(w: World, t: nat, camera: Camera)
    ensures Framed(w, LeaveEntry(w, t, camera), t, camera)
  {
  }

  lemma RetireFrame(w: World, t: nat, camera: Camera, build: bool)
    ensures Framed(w, Retire(w, t, camera, build), t, camera)
  {
  }

  lemma MadeIsNew(w: World, step: Step, c: string)
    requires Sound(w) && Makes(w, step, c)
    ensures var v := Next(w, step);
            && w.nextSession !in w.sessions && Unstopped(v, w.nextSession) && v.sessions[w.nextSession].camera == c
            && forall s :: s in w.sessions ==> s in v.sessions && v.sessions[s] == w.sessions[s]
  {
    NewSessionId(w);
    hide LocksOk;
    hide StateOk;
  }

  lemma RivalsBegin(w: World, step: Step, c: string)
    requires Sound(w) && OwnersOk(w) && !Rivals(w, c) && Rivals(Next(w, step), c)
    ensures MakesRival(w, step, c)
  {
    var v := Next(w, step);
    var r, s :| r != s && Unstopped(v, r) && Unstopped(v, s) && v.sessions[r].camera == c && v.sessions[s].camera == c;
    OldOrMade(w, step, r);
    OldOrMade(w, step, s);
    hide Next;
    var elder := if Unstopped(w, r) && w.sessions[r].camera == c then r else s;
    assert Unstopped(w, elder) && w.sessions[elder].camera == c && Makes(w, step, c);
    MakerHasNone(w, step, c, elder);
  }

  /** The apply that makes a session has none of the camera's in hand, and no other apply is under way. */
  lemma MakerHasNone(w: World, step: Step, c: string, s: nat)
    requires Sound(w) && OwnersOk(w) && Makes(w, step, c) && Unstopped(w, s) && w.sessions[s].camera == c
    ensures BeingTakenDown(w, s)
  {
    var t := step.actor.t;
    assert Building(w.clients[t]) && Owned(w, s) && ClientLocks(w, t);
    var u :| u in w.clients && HasInHand(w.clients[u], s);
    assert ClientLocks(w, u);
  }

  /** Over every run: there is a moment at which two sessions of a camera can both still report if
      and only if there is one at which an apply of that camera makes a session while a remove or
      a stop still has to end one. */
  lemma {:induction false} RivalsExactly(steps: seq<Step>, c: string)
    ensures (exists i :: 0 <= i <= |steps| && Rivals(Run(steps[..i]), c)) <==>
            (exists i :: 0 <= i < |steps| && MakesRival(Run(steps[..i]), steps[i], c))
  {
    if i :| 0 <= i < |steps| && MakesRival(Run(steps[..i]), steps[i], c) {
      RivalMade(steps, i, c);
    }
    if i :| 0 <= i <= |steps| && Rivals(Run(steps[..i]), c) {
      RivalsBegan(steps, i, c);
    }
  }

  lemma RivalMade(steps: seq<Step>, i: nat, c: string)
    requires i < |steps| && MakesRival(Run(steps[..i]), steps[i], c)
    ensures Rivals(Run(steps[..i + 1]), c)
  {
    AlwaysSound(steps[..i]);
    assert steps[..i + 1][..i] == steps[..i];
    var w := Run(steps[..i]);
    assert Run(steps[..i + 1]) == Next(w, steps[i]);
    hide Run;
    MadeIsNew(w, steps[i], c);
    hide Next;
    hide Sound;
    var r :| Unstopped(w, r) && w.sessions[r].camera == c && BeingTakenDown(w, r);
    var v := Run(steps[..i + 1]);
    assert r != w.nextSession && Unstopped(v, r) && v.sessions[r].camera == c;
  }

  lemma {:induction false} RivalsBegan(steps: seq<Step>, i: nat, c: string)
    requires i <= |steps| && Rivals(Run(steps[..i]), c)
    ensures exists j :: 0 <= j < |steps| && MakesRival(Run(steps[..j]), steps[j], c)
    decreases i
  {
    if i > 0 {
      AlwaysSound(steps[..i - 1]);
      AlwaysOwned(steps[..i - 1]);
      assert steps[..i][..i - 1] == steps[..i - 1];
      var w := Run(steps[..i - 1]);
      assert Run(steps[..i]) == Next(w, steps[i - 1]);
      hide Run;
      if Rivals(w, c) { RivalsBegan(steps, i - 1, c); } else { RivalsBegin(w, steps[i - 1], c); }
    }
  }

  predicate TakesDown(pc: Pc) {
    pc.RemoveWant? || pc.RemoveIn? || pc.RemoveJoin? || pc.StopBegin? || pc.StopJoinWorker? || pc.StopWant? || pc.StopIn?
    || pc.StopNext? || pc.StopJoin?
  }

  /** Without removes and stops there is no such exception. */
  lemma {:induction false} NobodyTakesDown(steps: seq<Step>)
    requires forall i :: 0 <= i < |steps| && steps[i].Spawn? ==> !TakesDown(steps[i].choice.op)
    ensures forall t :: t in Run(steps).clients ==> !TakesDown(Run(steps).clients[t])
    ensures forall s :: !BeingTakenDown(Run(steps), s)
  {
    if steps != [] {
      var w := Run(steps[..|steps| - 1]);
      NobodyTakesDown(steps[..|steps| - 1]);
      StepTakesNobodyDown(w, steps[|steps| - 1]);
    }
  }

  lemma StepTakesNobodyDown(w: World, step: Step)
    requires forall t :: t in w.clients ==> !TakesDown(w.clients[t])
    requires step.Spawn? ==> !TakesDown(step.choice.op)
    ensures forall t :: t in Next(w, step).clients ==> !TakesDown(Next(w, step).clients[t])
  {
    hide ClientStep;
    if step.Move? && step.actor.Client? && Can(w, step.actor, step.choice) {
      ClientTakesNobodyDown(w, step.actor.t, step.choice);
    }
  }

  lemma ClientTakesNobodyDown(w: World, t: nat, choice: Choice)
    requires ClientCan(w, t, choice) && !TakesDown(w.clients[t])
    ensures var v := ClientStep(w, t, choice);
            t in v.clients && v.clients == w.clients[t := v.clients[t]] && !TakesDown(v.clients[t])
  {
    if w.clients[t].ApplyIn1? {
      Phase1Pc(w, t, w.clients[t].camera, w.clients[t].codecKnown);
    }
    hide Phase1;
  }

  lemma Phase1Pc(w: World, t: nat, camera: Camera, codecKnown: bool)
    ensures var v := Phase1(w, t, camera, codecKnown);
            t in v.clients && v.clients == w.clients[t := v.clients[t]] && !TakesDown(v.clients[t])
  {
    RetirePc(w, t, camera, false);
    RetirePc(w, t, camera, true);
    hide Decide;
    hide Retire;
  }

  lemma RetirePc(w: World, t: nat, camera: Camera, build: bool)
    ensures var v := Retire(w, t, camera, build);
            t in v.clients && v.clients == w.clients[t := v.clients[t]] && !TakesDown(v.clients[t])
  {
  }

  lemma Extend(steps: seq<Step>, step: Step)
    ensures Run(steps + [step]) == Next(Run(steps), step)
  {
    assert (steps + [step])[..|steps|] == steps;
  }

  const Go := Move(Client(0), Ok)

  /** An apply run from start to end with no other thread in between. */
  function Applied(steps: seq<Step>, camera: Camera): seq<Step> {
    steps + [Spawn(0, Choice(true, 0, ApplyBegin(camera, true)))] + [Go] + [Go] + [Go] + [Go] + [Go] + [Go]
  }

  /** The world once such an apply has built a session for a camera that had none. */
  function WithSession(w: World, camera: Camera): World {
    w.(clients := w.clients[0 := Done], nextSession := w.nextSession + 1,
       sessions := w.sessions[w.nextSession := Session(camera.id, Idle, true, false)],
       entries := w.entries[camera.id := Entry(Some(w.nextSession), BuiltFor(camera))])
  }

  predicate Free(w: World, camera: Camera) {
    && w.applyHolder.None? && w.holder.None? && ShouldRecord(camera)
    && (0 in w.clients ==> w.clients[0] == Done) && SessionOf(w, camera.id).None?
  }

  function Emptied(w: World, camera: Camera): World {
    w.(applyHolder := Some(0), entries := w.entries[camera.id := Entry(None, BuiltOf(w, camera.id))],
       clients := w.clients[0 := ApplyWant2(camera)])
  }

  lemma FirstHalf(w: World, camera: Camera)
    requires Free(w, camera)
    ensures Next(Next(Next(Next(w, Spawn(0, Choice(true, 0, ApplyBegin(camera, true)))), Go), Go), Go) == Emptied(w, camera)
  {
    Enter(w, camera);
    var in1 := Goto(w.(applyHolder := Some(0), holder := Some(Client(0))), 0, ApplyIn1(camera, true));
    assert Next(in1, Go) == Retire(in1, 0, camera, true);
  }

  lemma Enter(w: World, camera: Camera)
    requires Free(w, camera)
    ensures Next(Next(Next(w, Spawn(0, Choice(true, 0, ApplyBegin(camera, true)))), Go), Go) ==
            Goto(w.(applyHolder := Some(0), holder := Some(Client(0))), 0, ApplyIn1(camera, true))
  {
    hide Phase1;
    hide ShouldRecord;
    var w0 := Next(w, Spawn(0, Choice(true, 0, ApplyBegin(camera, true))));
    assert w0 == Goto(w, 0, ApplyBegin(camera, true));
    var w1 := Next(w0, Go);
    assert w1 == Goto(w.(applyHolder := Some(0)), 0, ApplyWant1(camera, true));
  }

  lemma SecondHalf(w: World, camera: Camera)
    requires Free(w, camera)
    ensures Next(Next(Next(Emptied(w, camera), Go), Go), Go) == WithSession(w, camera)
  {
    SecondLock(w, camera);
    SecondMake(w, camera);
    SecondStart(w, camera);
    hide *;
  }

  function InSecond(w: World, camera: Camera): World {
    Goto(Emptied(w, camera).(holder := Some(Client(0))), 0, ApplyIn2(camera))
  }

  function MadeSession(w: World, camera: Camera): World {
    Goto(InSecond(w, camera).(sessions := w.sessions[w.nextSession := Session(camera.id, Idle, false, false)],
                              nextSession := w.nextSession + 1), 0, ApplyStart(camera, w.nextSession))
  }

  lemma SecondLock(w: World, camera: Camera)
    requires Free(w, camera)
    ensures Next(Emptied(w, camera), Go) == InSecond(w, camera)
  {
  }

  lemma SecondStart(w: World, camera: Camera)
    requires Free(w, camera)
    ensures Next(MadeSession(w, camera), Go) == WithSession(w, camera)
  {
  }

  lemma SecondMake(w: World, camera: Camera)
    requires Free(w, camera)
    ensures Next(InSecond(w, camera), Go) == MadeSession(w, camera)
  {
  }

  lemma AppliedRun(steps: seq<Step>, camera: Camera)
    requires Free(Run(steps), camera)
    ensures Run(Applied(steps, camera)) == WithSession(Run(steps), camera)
  {
    hide Run;
    var begin := Spawn(0, Choice(true, 0, ApplyBegin(camera, true)));
    FirstHalf(Run(steps), camera);
    SecondHalf(Run(steps), camera);
    hide Next;
    Extend(steps, begin);
    Extend(steps + [begin], Go);
    Extend(steps + [begin] + [Go], Go);
    Extend(steps + [begin] + [Go] + [Go], Go);
    Extend(steps + [begin] + [Go] + [Go] + [Go], Go);
    Extend(steps + [begin] + [Go] + [Go] + [Go] + [Go], Go);
    Extend(steps + [begin] + [Go] + [Go] + [Go] + [Go] + [Go], Go);
  }

  lemma RemovedHalfway(w: World, camera: Camera)
    requires w == WithSession(Init, camera)
    ensures var remove := Spawn(1, Choice(true, 0, RemoveWant(camera.id)));
            Next(Next(Next(w, remove), Move(Client(1), Ok)), Move(Client(1), Ok)) ==
            Goto(StopFlag(w.(entries := map[]), 0), 1, RemoveJoin(0))
  {
    var w0 := Next(w, Spawn(1, Choice(true, 0, RemoveWant(camera.id))));
    assert w0 == Goto(w, 1, RemoveWant(camera.id));
    var w1 := Next(w0, Move(Client(1), Ok));
    assert w1 == Goto(w.(holder := Some(Client(1))), 1, RemoveIn(camera.id));
  }

  /** A remove takes no part in the lock that orders applies: this run has the removed session
      still able to report while an apply has already started its rival. */
  lemma RemoveAllowsRivals() returns (steps: seq<Step>)
    ensures var w := Run(steps);
            Unstopped(w, 0) && Unstopped(w, 1) && w.sessions[0].camera == w.sessions[1].camera
  {
    var camera := Camera("cam", "rtsp://cam", Continuous, true, 60);
    var remove, move := Spawn(1, Choice(true, 0, RemoveWant(camera.id))), Move(Client(1), Ok);
    assert Run([]) == Init;
    AppliedRun([], camera);
    RemovedHalfway(WithSession(Init, camera), camera);
    hide Run;
    hide Next;
    hide Applied;
    steps := Applied([], camera);
    Extend(steps, remove);
    Extend(steps + [remove], move);
    Extend(steps + [remove] + [move], move);
    steps := steps + [remove] + [move] + [move];
    AppliedRun(steps, camera);
    steps := Applied(steps, camera);
  }

  lemma StopEnters(w: World, camera: Camera)
    requires w == WithSession(Init, camera)
    ensures var go := Move(Client(1), Ok);
            Next(Next(Next(Next(w, Spawn(1, Choice(true, 0, StopBegin))), go), Move(Worker, Ok)), go) ==
            Goto(w.(running := false, worker := Ended), 1, StopWant)
  {
    hide Phase1;
    hide BuiltFor;
    var go := Move(Client(1), Ok);
    assert Next(w, Spawn(1, Choice(true, 0, StopBegin))) == Goto(w, 1, StopBegin);
    var w1 := Goto(w.(running := false), 1, StopJoinWorker);
    assert Next(Goto(w, 1, StopBegin), go) == w1;
    assert Next(w1, Move(Worker, Ok)) == w1.(worker := Ended);
  }

  lemma StopTakesAll(w: World, camera: Camera)
    requires w == WithSession(Init, camera)
    ensures var go := Move(Client(1), Ok);
            Next(Next(Goto(w.(running := false, worker := Ended), 1, StopWant), go), go) ==
            Goto(w.(entries := map[], running := false, worker := Ended), 1, StopNext({0}))
  {
    hide Phase1;
    hide BuiltFor;
    var w3 := Goto(w.(running := false, worker := Ended), 1, StopWant);
    var w4 := Goto(w3.(holder := Some(Client(1))), 1, StopIn);
    assert Next(w3, Move(Client(1), Ok)) == w4;
    AllTaken(w4, camera);
  }

  lemma AllTaken(w: World, camera: Camera)
    requires 1 in w.clients && w.clients[1] == StopIn && w.entries == map[camera.id := Entry(Some(0), BuiltFor(camera))]
    ensures Next(w, Move(Client(1), Ok)) == Goto(Release(w.(entries := map[])), 1, StopNext({0}))
  {
    var todo := set c | c in w.entries && w.entries[c].session.Some? :: w.entries[c].session.value;
    assert camera.id in w.entries;
    assert todo == {0};
  }

  lemma StoppedRun(camera: Camera) returns (steps: seq<Step>)
    requires ShouldRecord(camera)
    ensures Run(steps) == Goto(WithSession(Init, camera).(entries := map[], running := false, worker := Ended), 1, StopNext({0}))
  {
    var begin, go := Spawn(1, Choice(true, 0, StopBegin)), Move(Client(1), Ok);
    assert Run([]) == Init;
    AppliedRun([], camera);
    StopEnters(WithSession(Init, camera), camera);
    StopTakesAll(WithSession(Init, camera), camera);
    hide Run;
    hide Next;
    hide Applied;
    hide WithSession;
    hide Goto;
    steps := Applied([], camera);
    Extend(steps, begin);
    Extend(steps + [begin], go);
    Extend(steps + [begin] + [go], Move(Worker, Ok));
    Extend(steps + [begin] + [go] + [Move(Worker, Ok)], go);
    Extend(steps + [begin] + [go] + [Move(Worker, Ok)] + [go], go);
    Extend(steps + [begin] + [go] + [Move(Worker, Ok)] + [go] + [go], go);
    steps := steps + [begin] + [go] + [Move(Worker, Ok)] + [go] + [go] + [go];
  }

  /** Nor does a stop: an apply that comes after it has emptied the entries starts a rival of a
      session it has yet to end. */
  lemma StopAllowsRivals() returns (steps: seq<Step>)
    ensures var w := Run(steps);
            Unstopped(w, 0) && Unstopped(w, 1) && w.sessions[0].camera == w.sessions[1].camera
  {
    var camera := Camera("cam", "rtsp://cam", Continuous, true, 60);
    steps := StoppedRun(camera);
    hide Run;
    hide Next;
    hide Applied;
    AppliedRun(steps, camera);
    steps := Applied(steps, camera);
  }

  // ---------------------------------------------------------------- applying twice

  /** The steps that may change a camera's entry. */
  predicate Touches(w: World, step: Step, c: string) {
    step.Move? && step.actor.Client? && Can(w, step.actor, step.choice) &&
    match w.clients[step.actor.t]
    case ApplyIn1(camera, _) => camera.id == c
    case ApplyIn2(camera) => camera.id == c
    case ApplyStart(camera, _) => camera.id == c
    case RemoveIn(cameraId) => cameraId == c
    case StopIn => true
    case _ => false
  }

  lemma EntryStays(w: World, step: Step, c: string)
    requires !Touches(w, step, c) && c in w.entries
    ensures c in Next(w, step).entries && Next(w, step).entries[c] == w.entries[c]
  {
    hide Phase1;
    hide BuiltFor;
    hide SameSessions;
    if step.Move? && step.actor.Client? && Can(w, step.actor, step.choice) {
      EntryStaysClient(w, step.actor.t, step.choice, c);
    }
    hide ClientStep;
  }

  lemma EntryStaysClient(w: World, t: nat, choice: Choice, c: string)
    requires ClientCan(w, t, choice) && !Touches(w, Move(Client(t), choice), c) && c in w.entries
    ensures c in ClientStep(w, t, choice).entries && ClientStep(w, t, choice).entries[c] == w.entries[c]
  {
    if w.clients[t].ApplyIn1? { Phase1Frame(w, t, w.clients[t].camera, w.clients[t].codecKnown); }
    hide Phase1;
    hide BuiltFor;
    hide SameSessions;
  }

  lemma {:induction false} EntryStaysOver(steps: seq<Step>, p: nat, q: nat, c: string)
    requires p <= q <= |steps| && c in Run(steps[..p]).entries
    requires forall i :: p <= i < q ==> !Touches(Run(steps[..i]), steps[i], c)
    ensures c in Run(steps[..q]).entries && Run(steps[..q]).entries[c] == Run(steps[..p]).entries[c]
    decreases q
  {
    if p < q {
      EntryStaysOver(steps, p, q - 1, c);
      OneMore(steps, q - 1);
      hide Run;
      hide Next;
      hide Touches;
      EntryStays(Run(steps[..q - 1]), steps[q - 1], c);
    }
  }

  lemma OneMore(steps: seq<Step>, i: nat)
    requires i < |steps|
    ensures Run(steps[..i + 1]) == Next(Run(steps[..i]), steps[i])
  {
    assert steps[..i + 1][..i] == steps[..i];
  }

  /** Over every run: step `p` is an apply building a camera's session, step `q` the first locked
      phase of another apply of the very same camera with its codec known, and no step between
      them is of an operation on that camera's entry. The session is then left in its entry if and
      only if the camera's mode was chosen and its segment length is positive. A camera that
      records because it is merely enabled is restarted by every apply. */
  lemma ReapplyKeepsSessionExactly(steps: seq<Step>, p: nat, t: nat, made: nat, q: nat, u: nat, camera: Camera)
    requires p < q < |steps| && Builds(Run(steps[..p]), steps[p], t, made, camera)
    requires steps[q].Move? && steps[q].actor == Client(u)
    requires u in Run(steps[..q]).clients && Run(steps[..q]).clients[u] == ApplyIn1(camera, true)
    requires forall i :: p < i < q ==> !Touches(Run(steps[..i]), steps[i], camera.id)
    ensures SessionOf(Run(steps[..q]), camera.id) == Some(made)
    ensures SessionOf(Run(steps[..q + 1]), camera.id) == Some(made) <==> camera.mode != Off && camera.segmentSeconds >= 1
  {
    SessionBuilt(steps, p, t, made, camera);
    hide Touches;
    hide Run;
    hide Next;
    hide Builds;
    EntryStaysOver(steps, p + 1, q, camera.id);
    OneMore(steps, q);
    AlwaysSound(steps[..q]);
    EntrySession(Run(steps[..q]), camera.id);
    hide Sound;
    SecondApply(Run(steps[..q]), steps[q], u, camera, made);
  }

  /** A step by which an apply has built a camera's session. */
  predicate Builds(w: World, step: Step, t: nat, made: nat, camera: Camera) {
    step.Move? && step.actor == Client(t) && step.choice.ok && t in w.clients && w.clients[t] == ApplyStart(camera, made)
  }

  lemma SessionBuilt(steps: seq<Step>, p: nat, t: nat, made: nat, camera: Camera)
    requires p < |steps| && Builds(Run(steps[..p]), steps[p], t, made, camera)
    ensures var v := Run(steps[..p + 1]);
            camera.id in v.entries && v.entries[camera.id] == Entry(Some(made), BuiltFor(camera)) && ShouldRecord(camera)
  {
    AlwaysSound(steps[..p]);
    OneMore(steps, p);
    HandOf(Run(steps[..p]), t);
    hide Run;
    hide Sound;
    hide BuiltFor;
  }

  lemma SecondApply(w: World, step: Step, u: nat, camera: Camera, made: nat)
    requires step.Move? && step.actor == Client(u) && u in w.clients && w.clients[u] == ApplyIn1(camera, true) && ShouldRecord(camera)
    requires camera.id in w.entries && w.entries[camera.id] == Entry(Some(made), BuiltFor(camera)) && EntryOk(w, camera.id)
    ensures SessionOf(Next(w, step), camera.id) == Some(made) <==> camera.mode != Off && camera.segmentSeconds >= 1
  {
  }

  // ---------------------------------------------------------------- what an apply comes to

  /** Nothing is undone to a session: it keeps its camera, and started, stopping and ended it stays. */
  predicate SessionGoesOn(w: World, v: World, s: nat)
    requires s in w.sessions
  {
    && s in v.sessions && v.sessions[s].camera == w.sessions[s].camera
    && (w.sessions[s].started ==> v.sessions[s].started) && (w.sessions[s].stopping ==> v.sessions[s].stopping)
    && (w.sessions[s].watcher == Gone ==> v.sessions[s].watcher == Gone)
  }

  lemma SessionStep(w: World, step: Step, s: nat)
    requires Sound(w) && s in w.sessions
    ensures SessionGoesOn(w, Next(w, step), s)
  {
    hide LocksOk;
    hide ClientStep;
    hide ClientCan;
    hide WatcherStep;
    NewSessionId(w);
    hide StateOk;
    if step.Move? && Can(w, step.actor, step.choice) {
      match step.actor
      case Client(t) => SessionClient(w, t, step.choice, s);
      case BusWatcher(r) => SessionWatcher(w, r, step.choice, s);
      case Worker =>
    }
  }

  lemma SessionWatcher(w: World, r: nat, choice: Choice, s: nat)
    requires WatcherCan(w, r, choice) && s in w.sessions
    ensures SessionGoesOn(w, WatcherStep(w, r, choice), s)
  {
  }

  lemma SessionClient(w: World, t: nat, choice: Choice, s: nat)
    requires ClientCan(w, t, choice) && s in w.sessions && w.nextSession !in w.sessions
    ensures SessionGoesOn(w, ClientStep(w, t, choice), s)
  {
    hide Phase1;
    hide BuiltFor;
    hide SessionOf;
    if w.clients[t].ApplyIn1? { SessionPhase1(w, t, w.clients[t].camera, w.clients[t].codecKnown, s); }
  }

  lemma SessionPhase1(w: World, t: nat, camera: Camera, codecKnown: bool, s: nat)
    requires s in w.sessions
    ensures SessionGoesOn(w, Phase1(w, t, camera, codecKnown), s)
  {
    hide Decide;
  }

  lemma {:induction false} SessionStays(steps: seq<Step>, i: nat, j: nat, s: nat)
    requires i <= j <= |steps| && s in Run(steps[..i]).sessions
    ensures var w, v := Run(steps[..i]), Run(steps[..j]);
            && s in v.sessions && v.sessions[s].camera == w.sessions[s].camera
            && (w.sessions[s].started ==> v.sessions[s].started) && (w.sessions[s].stopping ==> v.sessions[s].stopping)
            && (w.sessions[s].watcher == Gone ==> v.sessions[s].watcher == Gone)
    decreases j
  {
    if i < j {
      SessionStays(steps, i, j - 1, s);
      OneMore(steps, j - 1);
      AlwaysSound(steps[..j - 1]);
      hide Run;
      hide Next;
      hide Sound;
      SessionStep(Run(steps[..j - 1]), steps[j - 1], s);
    }
  }

  lemma EntrySessionStep(w: World, step: Step, c: string)
    requires SessionOf(Next(w, step), c).Some?
    ensures
      || (c in w.entries && Next(w, step).entries[c] == w.entries[c])
      || (step.Move? && step.actor.Client? && Can(w, step.actor, step.choice) && step.choice.ok
          && w.clients[step.actor.t].ApplyStart? && w.clients[step.actor.t].camera.id == c
          && Next(w, step).entries[c] == Entry(Some(w.clients[step.actor.t].made), BuiltFor(w.clients[step.actor.t].camera)))
  {
    hide BuiltFor;
    if step.Move? && step.actor.Client? && Can(w, step.actor, step.choice) {
      var t := step.actor.t;
      if w.clients[t].ApplyIn1? {
        EntryPhase1(w, t, w.clients[t].camera, w.clients[t].codecKnown, c);
      }
      hide Phase1;
    }
  }

  lemma EntryPhase1(w: World, t: nat, camera: Camera, codecKnown: bool, c: string)
    requires SessionOf(Phase1(w, t, camera, codecKnown), c).Some?
    ensures c in w.entries && Phase1(w, t, camera, codecKnown).entries[c] == w.entries[c]
  {
    hide Decide;
  }

  /** The step that built the session an entry holds, and what the camera was then. */
  lemma {:induction false} SessionMaker(steps: seq<Step>, n: nat, c: string) returns (p: nat, t: nat, camera: Camera)
    requires n <= |steps| && SessionOf(Run(steps[..n]), c).Some?
    ensures var entry := Run(steps[..n]).entries[c];
            && p < n && Builds(Run(steps[..p]), steps[p], t, entry.session.value, camera) && camera.id == c
            && entry.built == BuiltFor(camera)
  {
    assert n > 0;
    OneMore(steps, n - 1);
    var w, step := Run(steps[..n - 1]), steps[n - 1];
    EntrySessionStep(w, step, c);
    hide Next;
    hide BuiltFor;
    if c in w.entries && Run(steps[..n]).entries[c] == w.entries[c] {
      p, t, camera := SessionMaker(steps, n - 1, c);
    } else {
      p, t, camera := n - 1, step.actor.t, w.clients[step.actor.t].camera;
    }
  }

  /** A session is built once. */
  lemma BuiltOnce(steps: seq<Step>, p: nat, t: nat, q: nat, u: nat, made: nat, a: Camera, b: Camera)
    requires p < q < |steps| && Builds(Run(steps[..p]), steps[p], t, made, a)
    ensures !Builds(Run(steps[..q]), steps[q], u, made, b)
  {
    SessionBuilt(steps, p, t, made, a);
    AlwaysSound(steps[..p + 1]);
    EntrySession(Run(steps[..p + 1]), a.id);
    SessionStays(steps, p + 1, q, made);
    AlwaysSound(steps[..q]);
    if u in Run(steps[..q]).clients { HandOf(Run(steps[..q]), u); }
    hide Run;
    hide Sound;
    hide BuiltFor;
  }

  /** Client `t` is in the first locked phase of an apply, and step `i` is that phase. */
  ghost predicate Decides(steps: seq<Step>, i: nat, t: nat, camera: Camera, codecKnown: bool) {
    && i < |steps| && steps[i].Move? && steps[i].actor == Client(t)
    && t in Run(steps[..i]).clients && Run(steps[..i]).clients[t] == ApplyIn1(camera, codecKnown)
  }

  /** Over every run, what the first locked phase of an apply comes to, in the camera's own terms. A
      camera without a stream, or neither enabled nor given a mode, has its session taken out and
      joined, and nothing is built. Any other waits while its codec is unknown, keeps a session
      that was built (by step `p`, for the camera as it was `before`) from the same stream, mode
      and segment length, and has a new one built in every other case. A session taken out is
      told to stop at once, and one that stays is left alone. */
  lemma ApplyDecidesExactly(steps: seq<Step>, i: nat, t: nat, camera: Camera, codecKnown: bool,
                            p: nat, b: nat, before: Camera)
    requires Decides(steps, i, t, camera, codecKnown)
    requires var had := SessionOf(Run(steps[..i]), camera.id);
             had.Some? ==> p < i && Builds(Run(steps[..p]), steps[p], b, had.value, before) && before.id == camera.id
    ensures var w, v, c := Run(steps[..i]), Run(steps[..i + 1]), camera.id;
            var had := SessionOf(w, c);
            var records := camera.inputRtsp != "" && (camera.mode != Off || camera.recordingEnabled);
            var same :=
              && had.Some? && camera.inputRtsp == before.inputRtsp
              && camera.mode == (if before.mode == Off then Continuous else before.mode)
              && camera.segmentSeconds == (if before.segmentSeconds < 1 then 1 else before.segmentSeconds);
            && c in v.entries && t in v.clients && v.holder.None?
            && (records && (!codecKnown || same) ==>
                  v.entries[c].session == had && v.sessions == w.sessions && v.clients[t] == Done)
            && (!(records && (!codecKnown || same)) ==>
                  && v.entries[c].session.None?
                  && (had.Some? ==> had.value in v.sessions && v.sessions[had.value].stopping)
                  && v.clients[t] == (if had.Some? then ApplyJoin(camera, had.value, records)
                                      else if records then ApplyWant2(camera) else Done))
  {
    var w := Run(steps[..i]);
    AlwaysSound(steps[..i]);
    EntrySession(w, camera.id);
    OneMore(steps, i);
    if SessionOf(w, camera.id).Some? { BuiltLike(steps, i, camera.id, p, b, before); }
    hide Run;
    hide Sound;
    Phase1Decides(w, steps[i], t, camera, codecKnown, before);
  }

  /** What an entry says of its session is how the step that built it found the camera. */
  lemma BuiltLike(steps: seq<Step>, i: nat, c: string, p: nat, b: nat, before: Camera)
    requires i <= |steps| && SessionOf(Run(steps[..i]), c).Some? && p < i
    requires Builds(Run(steps[..p]), steps[p], b, SessionOf(Run(steps[..i]), c).value, before)
    ensures Run(steps[..i]).entries[c].built == BuiltFor(before)
  {
    var q, u, maker := SessionMaker(steps, i, c);
    var made := SessionOf(Run(steps[..i]), c).value;
    if p < q { BuiltOnce(steps, p, b, q, u, made, before, maker); }
    if q < p { BuiltOnce(steps, q, u, p, b, made, maker, before); }
    hide Run;
    hide BuiltFor;
  }

  lemma Phase1Decides(w: World, step: Step, t: nat, camera: Camera, codecKnown: bool, before: Camera)
    requires step.Move? && step.actor == Client(t) && t in w.clients && w.clients[t] == ApplyIn1(camera, codecKnown)
    requires camera.id in w.entries ==> EntryOk(w, camera.id)
    requires SessionOf(w, camera.id).Some? ==> w.entries[camera.id].built == BuiltFor(before)
    ensures var v, c := Next(w, step), camera.id;
            var had := SessionOf(w, c);
            var records := camera.inputRtsp != "" && (camera.mode != Off || camera.recordingEnabled);
            var same :=
              && had.Some? && camera.inputRtsp == before.inputRtsp
              && camera.mode == (if before.mode == Off then Continuous else before.mode)
              && camera.segmentSeconds == (if before.segmentSeconds < 1 then 1 else before.segmentSeconds);
            && c in v.entries && t in v.clients && v.holder.None?
            && (records && (!codecKnown || same) ==>
                  v.entries[c].session == had && v.sessions == w.sessions && v.clients[t] == Done)
            && (!(records && (!codecKnown || same)) ==>
                  && v.entries[c].session.None?
                  && (had.Some? ==> had.value in v.sessions && v.sessions[had.value].stopping)
                  && v.clients[t] == (if had.Some? then ApplyJoin(camera, had.value, records)
                                      else if records then ApplyWant2(camera) else Done))
  {
    hide LocksOk;
    assert Next(w, step) == Phase1(w, t, camera, codecKnown);
  }

  /** Over every run: a session an apply takes out has ended by the time that apply goes on. */
  lemma {:induction false} TakenOutHasEnded(steps: seq<Step>, i: nat, t: nat, camera: Camera, codecKnown: bool, s: nat,
                                            build: bool, k: nat)
    requires Decides(steps, i, t, camera, codecKnown) && i < k <= |steps|
    requires t in Run(steps[..i + 1]).clients && Run(steps[..i + 1]).clients[t] == ApplyJoin(camera, s, build)
    ensures var v := Run(steps[..k]);
            && t in v.clients && s in v.sessions
            && (v.clients[t] == ApplyJoin(camera, s, build) || v.sessions[s].watcher == Gone)
    decreases k
  {
    hide Next;
    hide Run;
    hide Sound;
    if k == i + 1 {
      HandOfRun(steps[..k], t);
    } else {
      TakenOutHasEnded(steps, i, t, camera, codecKnown, s, build, k - 1);
      OneMore(steps, k - 1);
      AlwaysSound(steps[..k - 1]);
      SessionStep(Run(steps[..k - 1]), steps[k - 1], s);
      JoinEnds(Run(steps[..k - 1]), steps[k - 1], t, s);
    }
  }

  lemma HandOfRun(steps: seq<Step>, t: nat)
    requires t in Run(steps).clients
    ensures HandOk(Run(steps), t)
  {
    AlwaysSound(steps);
    HandOf(Run(steps), t);
  }

  lemma JoinEnds(w: World, step: Step, t: nat, s: nat)
    requires t in w.clients && s in w.sessions
    ensures t in Next(w, step).clients
    ensures Joining(w.clients[t]) == Some(s) && Next(w, step).clients[t] != w.clients[t] ==> w.sessions[s].watcher == Gone
  {
    hide ClientStep;
    hide WatcherStep;
    if step.Move? && Can(w, step.actor, step.choice) {
      match step.actor
      case Client(u) => OthersStay(w, u, step.choice);
      case BusWatcher(r) => WatcherMoves(w, r, step.choice);
      case Worker =>
    }
  }

  lemma OthersStay(w: World, t: nat, choice: Choice)
    requires ClientCan(w, t, choice)
    ensures var v := ClientStep(w, t, choice); t in v.clients && v.clients == w.clients[t := v.clients[t]]
  {
    hide Phase1;
    hide BuiltFor;
    hide SameSessions;
    if w.clients[t].ApplyIn1? { Phase1Frame(w, t, w.clients[t].camera, w.clients[t].codecKnown); }
  }

  /** This step is the first locked phase of an apply of camera `c`. */
  predicate DecidesFor(w: World, step: Step, c: string) {
    && step.Move? && step.actor.Client? && Can(w, step.actor, step.choice)
    && w.clients[step.actor.t].ApplyIn1? && w.clients[step.actor.t].camera.id == c
  }

  predicate Rebuilding(pc: Pc, c: string) {
    ((pc.ApplyJoin? && pc.build) || pc.ApplyWant2? || pc.ApplyIn2? || pc.ApplyStart?) && pc.camera.id == c
  }

  /** No session in the entry, and nobody about to put one there. */
  ghost predicate TurnedOff(w: World, c: string) {
    SessionOf(w, c).None? && forall u :: u in w.clients ==> !Rebuilding(w.clients[u], c)
  }

  lemma StaysOff(w: World, step: Step, c: string)
    requires TurnedOff(w, c) && !DecidesFor(w, step, c)
    ensures TurnedOff(Next(w, step), c)
  {
    hide Phase1;
    hide BuiltFor;
    hide WatcherStep;
    if step.Move? && Can(w, step.actor, step.choice) {
      match step.actor
      case Client(t) => StaysOffClient(w, t, step.choice, c);
      case BusWatcher(s) => WatcherMoves(w, s, step.choice);
      case Worker =>
    }
    hide ClientStep;
  }

  lemma StaysOffClient(w: World, t: nat, choice: Choice, c: string)
    requires ClientCan(w, t, choice) && TurnedOff(w, c) && !DecidesFor(w, Move(Client(t), choice), c)
    ensures TurnedOff(ClientStep(w, t, choice), c)
  {
    hide Phase1;
    hide BuiltFor;
    if w.clients[t].ApplyIn1? {
      hide TurnedOff;
      StaysOffPhase1(w, t, w.clients[t].camera, w.clients[t].codecKnown, c);
    } else {
      hide ClientStep;
      var v := Next(w, Move(Client(t), choice));
      OthersStay(w, t, choice);
      StaysNotRebuilding(w, t, choice, c);
      if SessionOf(v, c).Some? { EntrySessionStep(w, Move(Client(t), choice), c); }
      OffAfter(w, v, t, c);
    }
  }

  lemma StaysNotRebuilding(w: World, t: nat, choice: Choice, c: string)
    requires ClientCan(w, t, choice) && !w.clients[t].ApplyIn1? && !Rebuilding(w.clients[t], c)
    ensures t in ClientStep(w, t, choice).clients && !Rebuilding(ClientStep(w, t, choice).clients[t], c)
  {
    hide Phase1;
    hide BuiltFor;
    hide SessionOf;
    if InApply(w.clients[t]) {
      ApplyKeepsCamera(w, t, choice);
    } else {
      LeavesApplyAlone(w, t, choice);
    }
    hide ClientStep;
  }

  lemma ApplyKeepsCamera(w: World, t: nat, choice: Choice)
    requires ClientCan(w, t, choice) && !w.clients[t].ApplyIn1? && InApply(w.clients[t])
    ensures t in ClientStep(w, t, choice).clients
    ensures var pc, next := w.clients[t], ClientStep(w, t, choice).clients[t];
            || next == Done || next.ApplyIn1? || next.ApplyAbort?
            || (InApply(next) && !next.ApplyJoin? && next.camera == pc.camera
                && ((pc.ApplyJoin? && pc.build) || pc.ApplyWant2? || pc.ApplyIn2?))
  {
    hide Phase1;
    hide BuiltFor;
    hide SessionOf;
  }

  lemma LeavesApplyAlone(w: World, t: nat, choice: Choice)
    requires ClientCan(w, t, choice) && !InApply(w.clients[t])
    ensures t in ClientStep(w, t, choice).clients
    ensures var next := ClientStep(w, t, choice).clients[t]; InApply(next) ==> next.ApplyWant1?
  {
    hide Phase1;
    hide BuiltFor;
    hide SessionOf;
    hide StopFlag;
    hide Release;
    hide Finish;
    hide LeaveEntry;
    hide Retire;
    match w.clients[t]
    case RemoveIn(_) =>
    case StopIn =>
    case StopNext(_) =>
    case _ =>
  }

  lemma OffAfter(w: World, v: World, t: nat, c: string)
    requires TurnedOff(w, c) && t in v.clients && v.clients == w.clients[t := v.clients[t]]
    requires SessionOf(v, c).None? && !Rebuilding(v.clients[t], c)
    ensures TurnedOff(v, c)
  {
  }

  lemma StaysOffPhase1(w: World, t: nat, camera: Camera, codecKnown: bool, c: string)
    requires TurnedOff(w, c) && camera.id != c
    ensures TurnedOff(Phase1(w, t, camera, codecKnown), c)
  {
    hide Phase1;
    hide SameSessions;
    Phase1Frame(w, t, camera, codecKnown);
    Phase1Camera(w, t, camera, codecKnown, c);
  }

  lemma Phase1Camera(w: World, t: nat, camera: Camera, codecKnown: bool, c: string)
    requires c != camera.id
    ensures t in Phase1(w, t, camera, codecKnown).clients && !Rebuilding(Phase1(w, t, camera, codecKnown).clients[t], c)
  {
    hide Decide;
  }

  /** Over every run: once a camera is turned off it has no session until it is applied again,
      whatever else is applied, removed or stopped. */
  lemma {:induction false} TurnedOffStaysOff(steps: seq<Step>, i: nat, t: nat, camera: Camera, codecKnown: bool, k: nat)
    requires Decides(steps, i, t, camera, codecKnown) && i < k <= |steps|
    requires camera.inputRtsp == "" || (camera.mode == Off && !camera.recordingEnabled)
    requires forall m :: i < m < k ==> !DecidesFor(Run(steps[..m]), steps[m], camera.id)
    ensures TurnedOff(Run(steps[..k]), camera.id)
    decreases k
  {
    if k == i + 1 {
      OneMore(steps, i);
      AlwaysSound(steps[..i]);
      OneStarter(Run(steps[..i]), t);
      TurnsOff(Run(steps[..i]), steps[i], t, camera, codecKnown);
    } else {
      TurnedOffStaysOff(steps, i, t, camera, codecKnown, k - 1);
      OneMore(steps, k - 1);
      hide Run;
      hide Next;
      StaysOff(Run(steps[..k - 1]), steps[k - 1], camera.id);
    }
  }

  lemma TurnsOff(w: World, step: Step, t: nat, camera: Camera, codecKnown: bool)
    requires step.Move? && step.actor == Client(t) && t in w.clients && w.clients[t] == ApplyIn1(camera, codecKnown)
    requires camera.inputRtsp == "" || (camera.mode == Off && !camera.recordingEnabled)
    requires forall u :: u in w.clients && u != t ==> !InApply(w.clients[u])
    ensures TurnedOff(Next(w, step), camera.id)
  {
    assert Next(w, step) == Phase1(w, t, camera, codecKnown);
    Phase1Frame(w, t, camera, codecKnown);
    hide SameSessions;
  }

  // ---------------------------------------------------------------- stopping twice

  predicate TearsDown(pc: Pc) { pc.StopJoinWorker? || pc.StopWant? || pc.StopIn? || pc.StopNext? || pc.StopJoin? }

  ghost predicate OneTearsDown(w: World) {
    && (forall t :: t in w.clients && TearsDown(w.clients[t]) ==> !w.running)
    && (forall t, u :: t in w.clients && u in w.clients && TearsDown(w.clients[t]) && TearsDown(w.clients[u]) ==> t == u)
  }

  /** Over every run, of all the clients that stop the manager only one does the work: nobody else
      joins the worker or takes the sessions down. */
  lemma {:induction false} OneStopDoesTheWork(steps: seq<Step>)
    ensures OneTearsDown(Run(steps))
  {
    if steps != [] {
      var w, step := Run(steps[..|steps| - 1]), steps[|steps| - 1];
      OneStopDoesTheWork(steps[..|steps| - 1]);
      hide ClientStep;
      hide WatcherStep;
      if step.Move? && Can(w, step.actor, step.choice) {
        match step.actor
        case Client(t) =>
          OthersStay(w, t, step.choice);
          TearingDownStep(w, t, step.choice);
        case BusWatcher(s) => WatcherMoves(w, s, step.choice);
        case Worker =>
      }
    }
  }

  lemma TearingDownStep(w: World, t: nat, choice: Choice)
    requires ClientCan(w, t, choice)
    ensures var v := ClientStep(w, t, choice);
            && t in v.clients && (v.running ==> w.running)
            && (TearsDown(v.clients[t]) ==> TearsDown(w.clients[t]) || (w.running && !v.running))
  {
    hide BuiltFor;
    hide Phase1;
    if w.clients[t].ApplyIn1? { Phase1Stops(w, t, w.clients[t].camera, w.clients[t].codecKnown); }
  }

  lemma Phase1Stops(w: World, t: nat, camera: Camera, codecKnown: bool)
    ensures var v := Phase1(w, t, camera, codecKnown);
            t in v.clients && v.running == w.running && !TearsDown(v.clients[t])
  {
    hide Decide;
    hide ShouldRecord;
    hide SessionOf;
    hide BuiltOf;
  }
}
