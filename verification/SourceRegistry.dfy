/** One shared source per camera (src/media/source/CameraSourceRegistry.cpp). */
module SourceRegistry {
  // A source is let go of a grace period after its last consumer. A step is one section under the
  // registry's lock, a sweep's reading of the clock before it has that lock, one unlocked stop of a
  // retired source, or something a consumer or a pipeline does. A list of steps is therefore one
  // interleaving of viewers, recorders and the sweeper.

  datatype Option<+T> = None | Some(value: T)

  // ---------------------------------------------------------------- the grace period

  /** Since when a source has been seen idle, in milliseconds of a clock that does not go back. */
  datatype Timer = Timer(since: Option<int>)

  const NotIdle := Timer(None)

  function Watched(timer: Timer, hasConsumers: bool, now: int): Timer {
    if hasConsumers then NotIdle else if timer.since.None? then Timer(Some(now)) else timer
  }

  /** Idle, and for as long as the grace period since it was first seen so. */
  predicate RunOut(linger: int, timer: Timer, hasConsumers: bool, now: int) {
    !hasConsumers && now - Watched(timer, hasConsumers, now).since.value >= linger
  }

  class IdleTimer {
    const linger: int
    var idleSince: Option<int>

    constructor (linger: int)
      ensures idleSince == None && this.linger == linger
    {
      this.linger, idleSince := linger, None;
    }

    method Expired(hasConsumers: bool, now: int) returns (expired: bool)
      modifies this
      ensures Timer(idleSince) == Watched(Timer(old(idleSince)), hasConsumers, now)
      ensures expired == RunOut(linger, Timer(old(idleSince)), hasConsumers, now)
    {
      if hasConsumers {
        idleSince := None;
        return false;
      }
      if idleSince == None {
        idleSince := Some(now);
        return linger <= 0;
      }
      return now - idleSince.value >= linger;
    }
  }

  // ---------------------------------------------------------------- the sources

  /** A source: the camera it was made for, what it reads when it is a transcode, whether its pipeline runs, how many sinks
      consumers have put on it, and whether a transcode has its own sink on what it reads. */
  datatype Source = Source(cameraId: string, upstream: Option<nat>, running: bool, sinks: nat, attached: bool)

  datatype Entry = Entry(source: nat, url: string, codec: nat, idle: Timer)

  datatype Held = Held(source: nat, bitrateKbps: int, idle: Timer)

  const UNKNOWN_CODEC: nat := 0

  /** `reading` is what a sweep that has yet to take the lock read off the clock. */
  datatype World = World(
    now: int,
    reading: Option<int>,
    sources: map<nat, Source>,
    entries: map<string, Entry>,
    transcodes: map<string, Held>,
    stoppingTranscodes: set<nat>,
    stoppingSources: set<nat>)

  const Init := World(0, None, map[], map[], map[], {}, {})

  predicate Alive(sources: map<nat, Source>, s: nat) {
    s in sources && sources[s].running &&
    (sources[s].upstream.Some? ==>
       sources[s].upstream.value in sources && sources[sources[s].upstream.value].running)
  }

  /** The transcodes whose sink is on this source. */
  function Attached(sources: map<nat, Source>, s: nat): set<nat> {
    set t | t in sources && sources[t].attached && sources[t].upstream == Some(s)
  }

  function SinkCount(sources: map<nat, Source>, s: nat): nat {
    (if s in sources then sources[s].sinks else 0) + |Attached(sources, s)|
  }

  /** Whether a sweep lets go of a held source. */
  predicate Retires(linger: int, sources: map<nat, Source>, s: nat, idle: Timer, now: int) {
    !Alive(sources, s) || RunOut(linger, idle, SinkCount(sources, s) != 0, now)
  }

  /** An entry, or a transcode, that a sweep keeps. */
  function EntryStill(sources: map<nat, Source>, entry: Entry, now: int): Entry {
    Entry(entry.source, entry.url, entry.codec, Watched(entry.idle, SinkCount(sources, entry.source) != 0, now))
  }

  function HeldStill(sources: map<nat, Source>, held: Held, now: int): Held {
    Held(held.source, held.bitrateKbps, Watched(held.idle, SinkCount(sources, held.source) != 0, now))
  }

  /** `Read` is a sweep reading the clock, which it does before it takes the lock, and `Sweep` its
      locked part. `Release` is the last consumer of a source the registry no longer holds letting
      go of it. */
  datatype Step =
    | Acquire(at: int, cameraId: string, url: string, codec: nat, id: nat, starts: bool)
    | Transcode(at: int, cameraId: string, raw: nat, bitrateKbps: int, id: nat, starts: bool)
    | Attach(s: nat)
    | Detach(s: nat)
    | Die(s: nat)
    | Release(s: nat)
    | Read(at: int)
    | Sweep
    | Stop(s: nat)

  function Clock(w: World, at: int): int { if at < w.now then w.now else at }

  /** The live entry an acquire of this stream reuses. */
  predicate Reusable(w: World, cameraId: string, url: string, codec: nat) {
    cameraId in w.entries &&
    w.entries[cameraId].url == url && w.entries[cameraId].codec == codec && Alive(w.sources, w.entries[cameraId].source)
  }

  /** `acquire`: reuse the camera's live source for the same stream, or start one in its place. A
      source that is replaced is dropped, not stopped. */
  function AcquireStep(w: World, at: int, cameraId: string, url: string, codec: nat, id: nat, starts: bool): World {
    if url == "" || codec == UNKNOWN_CODEC then w
    else if Reusable(w, cameraId, url, codec) then
      w.(now := Clock(w, at), entries := w.entries[cameraId := w.entries[cameraId].(idle := NotIdle)])
    else
      var dropped := w.(now := Clock(w, at), entries := w.entries - {cameraId});
      if !starts || id in w.sources then dropped
      else
        dropped.(sources := w.sources[id := Source(cameraId, None, true, 0, false)],
                 entries := w.entries[cameraId := Entry(id, url, codec, NotIdle)])
  }

  /** The live transcode that is handed out again. */
  predicate ReusableHeld(w: World, cameraId: string, bitrateKbps: int) {
    cameraId in w.transcodes && Alive(w.sources, w.transcodes[cameraId].source) && w.transcodes[cameraId].bitrateKbps == bitrateKbps
  }

  /** A source of this camera, not a transcode. */
  predicate IsRaw(w: World, cameraId: string, s: nat) {
    s in w.sources && w.sources[s].upstream.None? && w.sources[s].cameraId == cameraId
  }

  /** The second locked section of `acquireH264`, with the source the first one handed out. */
  function TranscodeStep(w: World, at: int, cameraId: string, raw: nat, bitrateKbps: int, id: nat, starts: bool): World {
    if !IsRaw(w, cameraId, raw) then w
    else if ReusableHeld(w, cameraId, bitrateKbps) then
      w.(now := Clock(w, at), transcodes := w.transcodes[cameraId := w.transcodes[cameraId].(idle := NotIdle)])
    else
      var dropped := w.(now := Clock(w, at), transcodes := w.transcodes - {cameraId});
      if !starts || id in w.sources then dropped
      else
        dropped.(sources := w.sources[id := Source(cameraId, Some(raw), true, 0, true)],
                 transcodes := w.transcodes[cameraId := Held(id, bitrateKbps, NotIdle)])
  }

  /** The locked part of a sweep: transcodes first, then sources, each against the state before
      anything was stopped, and all at the instant read before the lock was taken. */
  function SweepStep(linger: int, w: World, now: int): World {
    w.(reading := None,
       transcodes := map c | c in w.transcodes && !Retires(linger, w.sources, w.transcodes[c].source, w.transcodes[c].idle, now)
         :: HeldStill(w.sources, w.transcodes[c], now),
       entries := map c | c in w.entries && !Retires(linger, w.sources, w.entries[c].source, w.entries[c].idle, now)
         :: EntryStill(w.sources, w.entries[c], now),
       stoppingTranscodes := RetiredTranscodes(linger, w, now),
       stoppingSources := RetiredSources(linger, w, now))
  }

  function RetiredTranscodes(linger: int, w: World, now: int): set<nat> {
    set c | c in w.transcodes && Retires(linger, w.sources, w.transcodes[c].source, w.transcodes[c].idle, now)
      :: w.transcodes[c].source
  }

  function RetiredSources(linger: int, w: World, now: int): set<nat> {
    set c | c in w.entries && Retires(linger, w.sources, w.entries[c].source, w.entries[c].idle, now)
      :: w.entries[c].source
  }

  /** The sources the last sweep has decided to stop and has not stopped yet. */
  function Stopping(w: World): set<nat> { w.stoppingTranscodes + w.stoppingSources }

  /** A source that has been stopped or destroyed; a transcode takes its sink off its upstream. */
  function Ended(w: World, s: nat): World
    requires s in w.sources
  {
    w.(sources := w.sources[s := w.sources[s].(running := false, attached := false)])
  }

  /** One unlocked stop, transcodes before sources. */
  function StopStep(w: World, s: nat): World {
    if s !in w.sources || !(s in w.stoppingTranscodes || (w.stoppingTranscodes == {} && s in w.stoppingSources)) then w
    else Ended(w, s).(stoppingTranscodes := w.stoppingTranscodes - {s}, stoppingSources := w.stoppingSources - {s})
  }

  /** Whether the registry still holds a source, to hand out or to stop. */
  predicate Holds(w: World, s: nat) {
    IsEntry(w, s) || IsHeld(w, s) || s in Stopping(w)
  }

  predicate IsEntry(w: World, s: nat) {
    s in w.sources && w.sources[s].upstream.None?
    && w.sources[s].cameraId in w.entries && w.entries[w.sources[s].cameraId].source == s
  }

  predicate IsHeld(w: World, s: nat) {
    s in w.sources && w.sources[s].upstream.Some?
    && w.sources[s].cameraId in w.transcodes && w.transcodes[w.sources[s].cameraId].source == s
  }

  function Sinks(w: World, s: nat, sinks: nat): World
    requires s in w.sources
  {
    w.(sources := w.sources[s := w.sources[s].(sinks := sinks)])
  }

  function Next(linger: int, w: World, step: Step): World {
    match step
    case Acquire(at, c, url, codec, id, starts) => AcquireStep(w, at, c, url, codec, id, starts)
    case Transcode(at, c, raw, kbps, id, starts) => TranscodeStep(w, at, c, raw, kbps, id, starts)
    case Attach(s) => if s in w.sources then Sinks(w, s, w.sources[s].sinks + 1) else w
    case Detach(s) => if s in w.sources && w.sources[s].sinks > 0 then Sinks(w, s, w.sources[s].sinks - 1) else w
    case Die(s) => if s in w.sources then w.(sources := w.sources[s := w.sources[s].(running := false)]) else w
    case Release(s) => if s in w.sources && !Holds(w, s) && Attached(w.sources, s) == {} then Ended(w, s) else w
    case Read(at) =>
      if w.reading.None? && Stopping(w) == {} then w.(now := Clock(w, at), reading := Some(Clock(w, at))) else w
    case Sweep => if w.reading.Some? then SweepStep(linger, w, w.reading.value) else w
    case Stop(s) => StopStep(w, s)
  }

  function Run(linger: int, steps: seq<Step>): World {
    if steps == [] then Init else Next(linger, Run(linger, steps[..|steps| - 1]), steps[|steps| - 1])
  }

  /** The state before step `i`. */
  function Before(linger: int, steps: seq<Step>, i: nat): World
    requires i <= |steps|
  {
    Run(linger, steps[..i])
  }

  // ---------------------------------------------------------------- what every step keeps

  ghost predicate UpstreamsKnown(w: World) {
    forall t :: t in w.sources && w.sources[t].upstream.Some? ==> w.sources[t].upstream.value in w.sources
  }

  ghost predicate EntryOk(w: World, c: string)
    requires c in w.entries
  {
    var s := w.entries[c].source;
    IsEntry(w, s) && w.sources[s].cameraId == c && s !in Stopping(w)
  }

  ghost predicate HeldOk(w: World, c: string)
    requires c in w.transcodes
  {
    var s := w.transcodes[c].source;
    IsHeld(w, s) && w.sources[s].cameraId == c && s !in Stopping(w)
  }

  ghost predicate RegistryOk(w: World) {
    && UpstreamsKnown(w)
    && (forall c :: c in w.entries ==> EntryOk(w, c))
    && (forall c :: c in w.transcodes ==> HeldOk(w, c))
    && (forall s :: s in Stopping(w) ==> s in w.sources)
    && (w.reading.Some? ==> Stopping(w) == {})
  }

  /** What consumers, pipelines and stops do: sources may end or change their sinks, and what is to
      be stopped gets less. */
  ghost predicate Untouched(w: World, v: World) {
    && v.entries == w.entries && v.transcodes == w.transcodes && w.now <= v.now
    && Stopping(v) <= Stopping(w) && v.sources.Keys == w.sources.Keys
    && (forall s :: s in v.sources ==>
          && v.sources[s].upstream == w.sources[s].upstream && v.sources[s].cameraId == w.sources[s].cameraId
          && (v.sources[s].running ==> w.sources[s].running) && (v.sources[s].attached ==> w.sources[s].attached))
  }

  /** The source a step hands out. */
  function HandsOut(w: World, step: Step): Option<nat> {
    match step
    case Acquire(_, c, url, codec, id, starts) =>
      if url == "" || codec == UNKNOWN_CODEC then None
      else if Reusable(w, c, url, codec) then Some(w.entries[c].source)
      else if !starts || id in w.sources then None else Some(id)
    case Transcode(_, c, raw, kbps, id, starts) =>
      if !IsRaw(w, c, raw) then None
      else if ReusableHeld(w, c, kbps) then Some(w.transcodes[c].source)
      else if !starts || id in w.sources then None else Some(id)
    case _ => None
  }

  predicate IsHanding(step: Step) { step.Acquire? || step.Transcode? }

  /** What handing out comes to: the one source, old or new, and no other. */
  ghost predicate Handed(w: World, v: World, step: Step, got: Option<nat>)
    requires IsHanding(step)
  {
    && Stopping(v) == Stopping(w) && v.reading == w.reading
    && (forall s :: s in w.sources ==> s in v.sources && v.sources[s] == w.sources[s])
    && (forall s :: s in v.sources && s !in w.sources ==>
          && got == Some(s) && s == step.id && v.sources[s].cameraId == step.cameraId && v.sources[s].running
          && (if step.Acquire? then v.sources[s].upstream.None?
              else v.sources[s].upstream == Some(step.raw) && step.raw in w.sources))
    && (forall c :: c in v.entries ==>
          || (c in w.entries && v.entries[c] == w.entries[c] && (got.Some? && step.Acquire? ==> c != step.cameraId))
          || (step.Acquire? && c == step.cameraId && got == Some(v.entries[c].source) && v.entries[c].idle == NotIdle
              && (v.entries[c].source in w.sources ==> c in w.entries && v.entries[c].source == w.entries[c].source)))
    && (forall c :: c in v.transcodes ==>
          || (c in w.transcodes && v.transcodes[c] == w.transcodes[c] && (got.Some? && step.Transcode? ==> c != step.cameraId))
          || (step.Transcode? && c == step.cameraId && got == Some(v.transcodes[c].source) && v.transcodes[c].idle == NotIdle
              && (v.transcodes[c].source in w.sources ==> c in w.transcodes && v.transcodes[c].source == w.transcodes[c].source)))
    && (got.Some? ==> got.value in v.sources)
  }

  lemma HandingStep(linger: int, w: World, step: Step)
    requires RegistryOk(w) && IsHanding(step)
    ensures Handed(w, Next(linger, w, step), step, HandsOut(w, step))
  {
    hide Handed;
    assert step.cameraId in w.entries ==> EntryOk(w, step.cameraId);
    assert step.cameraId in w.transcodes ==> HeldOk(w, step.cameraId);
    hide RegistryOk;
    if step.Acquire? { AcquireHands(linger, w, step); } else { TranscodeHands(linger, w, step); }
  }

  lemma AcquireHands(linger: int, w: World, step: Step)
    requires step.Acquire? && (step.cameraId in w.entries ==> EntryOk(w, step.cameraId))
    ensures Handed(w, Next(linger, w, step), step, HandsOut(w, step))
  {
    hide Alive;
    hide Clock;
  }

  lemma TranscodeHands(linger: int, w: World, step: Step)
    requires step.Transcode? && (step.cameraId in w.transcodes ==> HeldOk(w, step.cameraId))
    ensures Handed(w, Next(linger, w, step), step, HandsOut(w, step))
  {
    hide Alive;
    hide Clock;
  }

  lemma OtherStep(linger: int, w: World, step: Step)
    requires !IsHanding(step) && !(step.Sweep? && w.reading.Some?)
    ensures Untouched(w, Next(linger, w, step))
  {
    hide Holds;
    hide Attached;
    hide Clock;
    ClockStep(linger, w, step);
    if step.Release? || step.Stop? { assert Untouched(w, Next(linger, w, step)); }
  }

  lemma OtherSinks(linger: int, w: World, step: Step, s: nat)
    requires !IsHanding(step) && !(step.Sweep? && w.reading.Some?) && s in w.sources && step != Attach(s)
    ensures s in Next(linger, w, step).sources && Next(linger, w, step).sources[s].sinks <= w.sources[s].sinks
  {
    hide Holds;
    hide Attached;
    hide Clock;
  }

  lemma StepOk(linger: int, w: World, step: Step)
    requires RegistryOk(w)
    ensures RegistryOk(Next(linger, w, step))
  {
    hide Retires;
    hide Alive;
    if IsHanding(step) {
      HandingOk(linger, w, step);
    } else if step.Sweep? && w.reading.Some? {
      SweepOk(linger, w, w.reading.value);
    } else {
      OtherOk(linger, w, step);
    }
  }

  lemma OtherOk(linger: int, w: World, step: Step)
    requires RegistryOk(w) && !IsHanding(step) && !(step.Sweep? && w.reading.Some?)
    ensures RegistryOk(Next(linger, w, step))
  {
    var v := Next(linger, w, step);
    assert v.reading.Some? ==> Stopping(v) == {};
    OtherStep(linger, w, step);
    hide Next;
    forall c | c in v.entries ensures EntryOk(v, c) { assert EntryOk(w, c); }
    forall c | c in v.transcodes ensures HeldOk(v, c) { assert HeldOk(w, c); }
  }

  lemma SweepOk(linger: int, w: World, now: int)
    requires RegistryOk(w)
    ensures RegistryOk(SweepStep(linger, w, now))
  {
    hide Retires;
    var v := SweepStep(linger, w, now);
    forall c | c in v.entries ensures EntryOk(v, c) {
      assert EntryOk(w, c);
      SweepSpares(linger, w, now, w.entries[c].source);
    }
    forall c | c in v.transcodes ensures HeldOk(v, c) {
      assert HeldOk(w, c);
      SweepSpares(linger, w, now, w.transcodes[c].source);
    }
    forall s | s in Stopping(v) ensures s in v.sources {
      if s in v.stoppingSources {
        var c :| c in w.entries && w.entries[c].source == s;
        assert EntryOk(w, c);
      } else {
        var c :| c in w.transcodes && w.transcodes[c].source == s;
        assert HeldOk(w, c);
      }
    }
  }

  lemma HandingOk(linger: int, w: World, step: Step)
    requires RegistryOk(w) && IsHanding(step)
    ensures RegistryOk(Next(linger, w, step))
  {
    var v := Next(linger, w, step);
    HandingStep(linger, w, step);
    hide Next;
    hide HandsOut;
    forall c | c in v.entries ensures EntryOk(v, c) { if c in w.entries { assert EntryOk(w, c); } }
    forall c | c in v.transcodes ensures HeldOk(v, c) { if c in w.transcodes { assert HeldOk(w, c); } }
  }

  /** A sweep keeps a source or decides to stop it, and not both. */
  lemma SweepSpares(linger: int, w: World, now: int, s: nat)
    requires RegistryOk(w)
    ensures IsEntry(w, s) ==>
              (s in Stopping(SweepStep(linger, w, now)) <==> w.sources[s].cameraId !in SweepStep(linger, w, now).entries)
    ensures IsHeld(w, s) ==>
              (s in Stopping(SweepStep(linger, w, now)) <==> w.sources[s].cameraId !in SweepStep(linger, w, now).transcodes)
  {
    hide Retires;
    var v := SweepStep(linger, w, now);
    if s in v.stoppingSources {
      var c :| c in w.entries && w.entries[c].source == s && Retires(linger, w.sources, s, w.entries[c].idle, now);
      assert EntryOk(w, c);
    }
    if s in v.stoppingTranscodes {
      var c :| c in w.transcodes && w.transcodes[c].source == s && Retires(linger, w.sources, s, w.transcodes[c].idle, now);
      assert HeldOk(w, c);
    }
  }

  lemma {:induction false} AlwaysOk(linger: int, steps: seq<Step>)
    ensures RegistryOk(Run(linger, steps))
  {
    if steps != [] {
      AlwaysOk(linger, steps[..|steps| - 1]);
      StepOk(linger, Run(linger, steps[..|steps| - 1]), steps[|steps| - 1]);
    }
  }

  /** A run up to step `i`, and one step on. */
  lemma OneMore(linger: int, steps: seq<Step>, i: nat)
    requires i < |steps|
    ensures RegistryOk(Before(linger, steps, i))
    ensures Before(linger, steps, i + 1) == Next(linger, Before(linger, steps, i), steps[i])
  {
    AlwaysOk(linger, steps[..i]);
    assert steps[..i + 1][..i] == steps[..i];
  }

  lemma Prefixes(linger: int, steps: seq<Step>, n: nat)
    requires n <= |steps|
    ensures forall i :: 0 <= i <= n ==> Before(linger, steps[..n], i) == Before(linger, steps, i)
    ensures Before(linger, steps, |steps|) == Run(linger, steps)
  {
    assert forall i :: 0 <= i <= n ==> steps[..n][..i] == steps[..i];
    assert steps[..|steps|] == steps;
  }

  /** A source never changes camera or upstream, and a dead one stays dead. */
  lemma SourcesStay(linger: int, w: World, step: Step, s: nat)
    requires RegistryOk(w) && s in w.sources
    ensures var v := Next(linger, w, step);
            && s in v.sources && v.sources[s].upstream == w.sources[s].upstream && v.sources[s].cameraId == w.sources[s].cameraId
            && (Alive(v.sources, s) ==> Alive(w.sources, s))
  {
    hide Retires;
    hide Reusable;
    hide ReusableHeld;
    hide StopStep;
    hide Ended;
    if !IsHanding(step) && !(step.Sweep? && w.reading.Some?) { OtherStep(linger, w, step); }
  }

  lemma {:induction false} SourcesStayFrom(linger: int, steps: seq<Step>, i: nat, j: nat, s: nat)
    requires i <= j <= |steps| && s in Before(linger, steps, i).sources
    ensures var w, v := Before(linger, steps, i), Before(linger, steps, j);
            && s in v.sources && v.sources[s].upstream == w.sources[s].upstream && v.sources[s].cameraId == w.sources[s].cameraId
            && (Alive(v.sources, s) ==> Alive(w.sources, s))
    decreases j
  {
    if i < j {
      SourcesStayFrom(linger, steps, i, j - 1, s);
      OneMore(linger, steps, j - 1);
      hide Next;
      hide Alive;
      hide Run;
      hide RegistryOk;
      SourcesStay(linger, Before(linger, steps, j - 1), steps[j - 1], s);
    }
  }

  // ---------------------------------------------------------------- handing out, and the grace period

  ghost predicate HandedOutAt(linger: int, steps: seq<Step>, j: nat, s: nat)
    requires j < |steps|
  {
    HandsOut(Before(linger, steps, j), steps[j]) == Some(s)
  }

  /** When a source was last handed out. */
  ghost function LastAcquired(linger: int, steps: seq<Step>, s: nat): Option<int> {
    if steps == [] then None
    else if HandsOut(Run(linger, steps[..|steps| - 1]), steps[|steps| - 1]) == Some(s) then Some(Run(linger, steps).now)
    else LastAcquired(linger, steps[..|steps| - 1], s)
  }

  function TimerOf(w: World, s: nat): Timer {
    if IsEntry(w, s) then w.entries[w.sources[s].cameraId].idle
    else if IsHeld(w, s) then w.transcodes[w.sources[s].cameraId].idle
    else NotIdle
  }

  /** Only a sweep starts a timer, at the instant it read; only handing the source out, or a sweep
      that finds a sink, stops it again. */
  lemma TimerStep(linger: int, w: World, step: Step, s: nat)
    requires RegistryOk(w)
    ensures var v := Next(linger, w, step);
            TimerOf(v, s).since.Some? ==>
              && HandsOut(w, step) != Some(s)
              && (TimerOf(v, s) == TimerOf(w, s) ||
                  (step.Sweep? && w.reading.Some? && TimerOf(w, s) == NotIdle && TimerOf(v, s).since == w.reading))
  {
    hide AcquireStep;
    hide TranscodeStep;
    hide SweepStep;
    hide StopStep;
    hide Ended;
    hide HandsOut;
    if IsHanding(step) {
      TimerHanding(linger, w, step, s);
    } else {
      assert HandsOut(w, step).None? by { NoneHandedOut(w, step); }
      if step.Sweep? && w.reading.Some? {
        TimerSweep(linger, w, w.reading.value, s);
      } else {
        OtherStep(linger, w, step);
      }
    }
  }

  lemma NoneHandedOut(w: World, step: Step)
    requires !IsHanding(step)
    ensures HandsOut(w, step).None?
  {
  }

  lemma TimerSweep(linger: int, w: World, now: int, s: nat)
    requires RegistryOk(w)
    ensures var v := SweepStep(linger, w, now);
            TimerOf(v, s).since.Some? ==>
              TimerOf(v, s) == TimerOf(w, s) || (TimerOf(w, s) == NotIdle && TimerOf(v, s).since == Some(now))
  {
    hide Alive;
    hide SinkCount;
    hide RunOut;
    hide Retires;
  }

  lemma TimerHanding(linger: int, w: World, step: Step, s: nat)
    requires RegistryOk(w) && IsHanding(step)
    ensures var v := Next(linger, w, step);
            TimerOf(v, s).since.Some? ==> HandsOut(w, step) != Some(s) && TimerOf(v, s) == TimerOf(w, s)
  {
    HandingStep(linger, w, step);
    hide Next;
    hide HandsOut;
    var v := Next(linger, w, step);
    if IsEntry(v, s) && v.sources[s].cameraId in w.entries { assert EntryOk(w, v.sources[s].cameraId); }
    if IsHeld(v, s) && v.sources[s].cameraId in w.transcodes { assert HeldOk(w, v.sources[s].cameraId); }
    if step.cameraId in w.entries { assert EntryOk(w, step.cameraId); }
    if step.cameraId in w.transcodes { assert HeldOk(w, step.cameraId); }
  }

  /** Step `r` is a sweep reading the clock, and step `k` that sweep with the lock, which started
      the timer of `s` that has been running ever since. */
  ghost predicate TimerStarted(linger: int, steps: seq<Step>, r: nat, k: nat, s: nat) {
    && r < k < |steps| && steps[k].Sweep? && SweepUnderWay(linger, steps, r, k)
    && TimerRuns(linger, steps, k, s, Some(ReadingAt(linger, steps, r)))
  }

  /** Step `r` reads the clock, and that reading still waits for the lock before step `k`. */
  ghost predicate SweepUnderWay(linger: int, steps: seq<Step>, r: nat, k: nat) {
    && r < k <= |steps| && steps[r].Read? && Before(linger, steps, r).reading.None?
    && forall m :: r < m <= k ==> Before(linger, steps, m).reading == Some(ReadingAt(linger, steps, r))
  }

  /** The timer has run since that instant ever since step `k`. */
  ghost predicate TimerRuns(linger: int, steps: seq<Step>, k: nat, s: nat, since: Option<int>) {
    forall m :: k < m <= |steps| ==> TimerOf(Before(linger, steps, m), s).since == since
  }

  /** What the sweep that starts with step `r` reads off the clock. */
  ghost function ReadingAt(linger: int, steps: seq<Step>, r: nat): int
    requires r < |steps|
  {
    Before(linger, steps, r + 1).now
  }

  /** Between reading the clock at step `r` and taking the lock at step `k`, the source was handed
      out, and later than that reading. */
  ghost predicate Overtaken(linger: int, steps: seq<Step>, r: nat, k: nat, s: nat)
    requires r < k < |steps|
  {
    exists j :: r < j < k && HandedOutAt(linger, steps, j, s)
             && Before(linger, steps, j + 1).now > ReadingAt(linger, steps, r)
  }

  lemma {:induction false} ReadingHasARead(linger: int, steps: seq<Step>)
    requires Run(linger, steps).reading.Some?
    ensures exists r :: SweepUnderWay(linger, steps, r, |steps|)
  {
    var n := |steps| - 1;
    Prefixes(linger, steps, |steps|);
    if steps != [] {
      OneMore(linger, steps, n);
      if Before(linger, steps, n).reading.Some? {
        Prefixes(linger, steps, n);
        ReadingHasARead(linger, steps[..n]);
        var r :| SweepUnderWay(linger, steps[..n], r, n);
        ReadingStep(linger, Before(linger, steps, n), steps[n]);
        UnderWayIn(linger, steps, n, r, n);
      } else {
        assert SweepUnderWay(linger, steps, n, n + 1);
      }
    }
  }

  lemma UnderWayIn(linger: int, steps: seq<Step>, n: nat, r: nat, k: nat)
    requires k <= n <= |steps| && SweepUnderWay(linger, steps[..n], r, k)
    ensures SweepUnderWay(linger, steps, r, k)
    ensures k < |steps| && Before(linger, steps, k + 1).reading == Before(linger, steps, k).reading ==> SweepUnderWay(linger, steps, r, k + 1)
  {
    Prefixes(linger, steps, n);
    hide Run;
    hide Next;
    assert forall m :: 0 <= m <= n ==> Before(linger, steps[..n], m) == Before(linger, steps, m);
  }

  lemma ReadingStep(linger: int, w: World, step: Step)
    ensures w.reading.Some? && Next(linger, w, step).reading.Some? ==> Next(linger, w, step).reading == w.reading
  {
    hide Alive;
    hide Retires;
  }

  lemma {:induction false} TimerHasAStart(linger: int, steps: seq<Step>, s: nat)
    requires TimerOf(Run(linger, steps), s).since.Some?
    ensures exists r, k :: TimerStarted(linger, steps, r, k, s)
  {
    if steps != [] {
      hide TimerStarted;
      hide TimerOf;
      hide Next;
      var n := |steps| - 1;
      Prefixes(linger, steps, n);
      OneMore(linger, steps, n);
      TimerStep(linger, Before(linger, steps, n), steps[n], s);
      if TimerOf(Before(linger, steps, n), s).since.Some? {
        TimerHasAStart(linger, steps[..n], s);
        var r, k :| TimerStarted(linger, steps[..n], r, k, s);
        TimerStays(linger, steps, r, k, s);
      } else {
        var r := TimerStarts(linger, steps, s);
      }
    }
  }

  /** A timer that the last step started. */
  lemma TimerStarts(linger: int, steps: seq<Step>, s: nat) returns (r: nat)
    requires steps != [] && TimerOf(Run(linger, steps), s).since.Some?
    requires TimerOf(Before(linger, steps, |steps| - 1), s).since.None?
    ensures TimerStarted(linger, steps, r, |steps| - 1, s)
  {
    hide TimerOf;
    hide SweepUnderWay;
    hide Next;
    hide Run;
    var n := |steps| - 1;
    Prefixes(linger, steps, |steps|);
    OneMore(linger, steps, n);
    TimerStep(linger, Before(linger, steps, n), steps[n], s);
    ReadingHasARead(linger, steps[..n]);
    r :| SweepUnderWay(linger, steps[..n], r, n);
    UnderWayIn(linger, steps, n, r, n);
    ReadingWaits(linger, steps, r, n);
  }

  lemma ReadingWaits(linger: int, steps: seq<Step>, r: nat, k: nat)
    requires SweepUnderWay(linger, steps, r, k)
    ensures r < k <= |steps| && Before(linger, steps, k).reading == Some(ReadingAt(linger, steps, r))
  {
  }

  lemma TimerStays(linger: int, steps: seq<Step>, r: nat, k: nat, s: nat)
    requires steps != [] && TimerStarted(linger, steps[..|steps| - 1], r, k, s)
    requires TimerOf(Run(linger, steps), s) == TimerOf(Before(linger, steps, |steps| - 1), s)
    ensures TimerStarted(linger, steps, r, k, s)
  {
    hide Run;
    hide Next;
    hide TimerOf;
    hide SweepUnderWay;
    hide TimerRuns;
    var n := |steps| - 1;
    UnderWayIn(linger, steps, n, r, k);
    SameReading(linger, steps, n, r);
    TimerRunsOn(linger, steps, k, s, Some(ReadingAt(linger, steps, r)));
  }

  lemma SameBefore(linger: int, steps: seq<Step>, n: nat, i: nat)
    requires i <= n <= |steps|
    ensures Before(linger, steps[..n], i) == Before(linger, steps, i)
  {
    assert steps[..n][..i] == steps[..i];
    hide Run;
  }

  lemma SameReading(linger: int, steps: seq<Step>, n: nat, r: nat)
    requires r < n <= |steps|
    ensures ReadingAt(linger, steps[..n], r) == ReadingAt(linger, steps, r)
  {
    SameBefore(linger, steps, n, r + 1);
    hide Before;
  }

  lemma TimerRunsOn(linger: int, steps: seq<Step>, k: nat, s: nat, since: Option<int>)
    requires steps != [] && TimerRuns(linger, steps[..|steps| - 1], k, s, since) && k < |steps| - 1
    requires TimerOf(Run(linger, steps), s) == TimerOf(Before(linger, steps, |steps| - 1), s)
    ensures TimerRuns(linger, steps, k, s, since)
  {
    hide Run;
    hide TimerOf;
    hide Before;
    var n := |steps| - 1;
    TimerThen(linger, steps, k, s, since, n);
    WholeRun(linger, steps);
    forall m | k < m <= n ensures TimerOf(Before(linger, steps, m), s).since == since {
      TimerThen(linger, steps, k, s, since, m);
    }
    hide TimerRuns;
    TimerRunsFrom(linger, steps, k, s, since);
  }

  lemma TimerRunsFrom(linger: int, steps: seq<Step>, k: nat, s: nat, since: Option<int>)
    requires forall m :: k < m < |steps| ==> TimerOf(Before(linger, steps, m), s).since == since
    requires k < |steps| ==> TimerOf(Before(linger, steps, |steps|), s).since == since
    ensures TimerRuns(linger, steps, k, s, since)
  {
    hide Before;
    hide TimerOf;
  }

  lemma TimerThen(linger: int, steps: seq<Step>, k: nat, s: nat, since: Option<int>, m: nat)
    requires steps != [] && TimerRuns(linger, steps[..|steps| - 1], k, s, since) && k < m <= |steps| - 1
    ensures TimerOf(Before(linger, steps, m), s).since == since
  {
    hide Run;
    hide TimerOf;
    SameBefore(linger, steps, |steps| - 1, m);
  }

  lemma WholeRun(linger: int, steps: seq<Step>)
    ensures Before(linger, steps, |steps|) == Run(linger, steps)
  {
    assert steps[..|steps|] == steps;
  }

  // ---------------------------------------------------------------- when a source was last handed out

  lemma {:induction false} LastIs(linger: int, steps: seq<Step>, s: nat)
    ensures LastAcquired(linger, steps, s).Some? <==> exists j :: 0 <= j < |steps| && HandedOutAt(linger, steps, j, s)
    ensures forall j :: 0 <= j < |steps| && HandedOutAt(linger, steps, j, s) ==>
                          Before(linger, steps, j + 1).now <= LastAcquired(linger, steps, s).value
    ensures LastAcquired(linger, steps, s).Some? ==>
              exists j :: 0 <= j < |steps| && HandedOutAt(linger, steps, j, s)
                       && Before(linger, steps, j + 1).now == LastAcquired(linger, steps, s).value
  {
    if steps != [] {
      var n := |steps| - 1;
      LastIs(linger, steps[..n], s);
      Prefixes(linger, steps, n);
      assert forall j :: 0 <= j < n ==> HandedOutAt(linger, steps[..n], j, s) == HandedOutAt(linger, steps, j, s);
      assert Before(linger, steps, |steps|) == Run(linger, steps);
      forall j: nat | j <= |steps| ensures Before(linger, steps, j).now <= Run(linger, steps).now {
        ClockMonotone(linger, steps, j, |steps|);
      }
      if HandedOutAt(linger, steps, n, s) {
      } else if LastAcquired(linger, steps[..n], s).Some? {
        var j :| 0 <= j < n && HandedOutAt(linger, steps[..n], j, s)
              && Before(linger, steps[..n], j + 1).now == LastAcquired(linger, steps[..n], s).value;
        assert HandedOutAt(linger, steps, j, s);
      }
    }
  }

  lemma {:induction false} ClockMonotone(linger: int, steps: seq<Step>, i: nat, j: nat)
    requires i <= j <= |steps|
    ensures Before(linger, steps, i).now <= Before(linger, steps, j).now
    decreases j
  {
    if i < j {
      ClockMonotone(linger, steps, i, j - 1);
      OneMore(linger, steps, j - 1);
      ClockStep(linger, Before(linger, steps, j - 1), steps[j - 1]);
    }
  }

  lemma ClockStep(linger: int, w: World, step: Step)
    ensures w.now <= Next(linger, w, step).now
  {
    hide Alive;
    hide Retires;
    hide Holds;
  }

  /** What the registry holds was handed out. */
  lemma {:induction false} HeldWasHandedOut(linger: int, steps: seq<Step>, s: nat)
    requires IsEntry(Run(linger, steps), s) || IsHeld(Run(linger, steps), s)
    ensures LastAcquired(linger, steps, s).Some?
  {
    if steps != [] {
      var n := |steps| - 1;
      var w := Run(linger, steps[..n]);
      if IsEntry(w, s) || IsHeld(w, s) {
        HeldWasHandedOut(linger, steps[..n], s);
      } else {
        AlwaysOk(linger, steps[..n]);
        NewlyHeld(linger, w, steps[n], s);
      }
    }
  }

  lemma NewlyHeld(linger: int, w: World, step: Step, s: nat)
    requires RegistryOk(w)
    requires IsEntry(Next(linger, w, step), s) || IsHeld(Next(linger, w, step), s)
    ensures IsEntry(w, s) || IsHeld(w, s) || (HandsOut(w, step) == Some(s) && s !in w.sources)
    ensures IsHeld(Next(linger, w, step), s) && !IsHeld(w, s) ==> step.Transcode? && s == step.id
  {
    hide AcquireStep;
    hide TranscodeStep;
    hide StopStep;
    hide Ended;
    hide Retires;
    hide HandsOut;
    hide SinkCount;
    if IsHanding(step) {
      NewlyHeldHanding(linger, w, step, s);
    } else if !(step.Sweep? && w.reading.Some?) {
      OtherStep(linger, w, step);
    }
  }

  lemma NewlyHeldHanding(linger: int, w: World, step: Step, s: nat)
    requires RegistryOk(w) && IsHanding(step)
    requires IsEntry(Next(linger, w, step), s) || IsHeld(Next(linger, w, step), s)
    ensures IsEntry(w, s) || IsHeld(w, s) || (HandsOut(w, step) == Some(s) && s !in w.sources)
    ensures IsHeld(Next(linger, w, step), s) && !IsHeld(w, s) ==> step.Transcode? && s == step.id
  {
    HandingStep(linger, w, step);
    hide Next;
    hide HandsOut;
    var c := Next(linger, w, step).sources[s].cameraId;
    if c in w.entries { assert EntryOk(w, c); }
    if c in w.transcodes { assert HeldOk(w, c); }
  }

  /** While a timer runs, its source was handed out after the reading that started it exactly when
      that happened before the sweep had the lock. */
  lemma LaterMeansOvertaken(linger: int, steps: seq<Step>, r: nat, k: nat, s: nat)
    requires TimerStarted(linger, steps, r, k, s)
    ensures LastAcquired(linger, steps, s).Some?
    ensures LastAcquired(linger, steps, s).value > ReadingAt(linger, steps, r) <==> Overtaken(linger, steps, r, k, s)
  {
    Prefixes(linger, steps, |steps|);
    assert TimerOf(Before(linger, steps, |steps|), s).since.Some?;
    HeldWasHandedOut(linger, steps, s);
    NotHandedOutSince(linger, steps, r, k, s);
    LastAgainst(linger, steps, r, k, s);
  }

  lemma LastAgainst(linger: int, steps: seq<Step>, r: nat, k: nat, s: nat)
    requires r < k < |steps| && LastAcquired(linger, steps, s).Some?
    requires !HandedOutAt(linger, steps, r, s) && forall j :: k <= j < |steps| ==> !HandedOutAt(linger, steps, j, s)
    ensures LastAcquired(linger, steps, s).value > ReadingAt(linger, steps, r) <==> Overtaken(linger, steps, r, k, s)
  {
    hide Run;
    hide HandsOut;
    hide LastAcquired;
    LastIs(linger, steps, s);
    var j :| 0 <= j < |steps| && HandedOutAt(linger, steps, j, s)
          && Before(linger, steps, j + 1).now == LastAcquired(linger, steps, s).value;
    if j < r { ClockMonotone(linger, steps, j + 1, r + 1); }
  }

  /** The grace period, over every interleaving. A timer that is running, started by the sweep of
      steps `r` and `k`, runs out for a sweep that reads `reading + linger` or later and for no
      other. So every sweep that finds it run out leaves a grace period since the source was last
      handed out if and only if the source was not handed out, later than that reading, between
      the reading and the lock. When it was, the grace period is short by exactly that delay. */
  lemma GraceIsKeptExactly(linger: int, steps: seq<Step>, r: nat, k: nat, s: nat)
    requires TimerStarted(linger, steps, r, k, s)
    ensures LastAcquired(linger, steps, s).Some?
    ensures var timer := TimerOf(Run(linger, steps), s);
            var last := LastAcquired(linger, steps, s).value;
            var delay := if Overtaken(linger, steps, r, k, s) then last - ReadingAt(linger, steps, r) else 0;
            && ((forall at :: RunOut(linger, timer, false, at) ==> last + linger <= at) <==> !Overtaken(linger, steps, r, k, s))
            && delay >= 0 && (forall at :: RunOut(linger, timer, false, at) ==> last + linger - delay <= at)
            && (delay > 0 ==> RunOut(linger, timer, false, last + linger - delay))
  {
    LaterMeansOvertaken(linger, steps, r, k, s);
    Prefixes(linger, steps, |steps|);
    assert TimerOf(Before(linger, steps, |steps|), s).since == Some(ReadingAt(linger, steps, r));
    hide Run;
    hide TimerOf;
    hide TimerStarted;
    hide Overtaken;
    hide LastAcquired;
    assert RunOut(linger, TimerOf(Run(linger, steps), s), false, ReadingAt(linger, steps, r) + linger);
  }

  lemma NotHandedOutSince(linger: int, steps: seq<Step>, r: nat, k: nat, s: nat)
    requires TimerStarted(linger, steps, r, k, s)
    ensures forall j :: k <= j < |steps| ==> !HandedOutAt(linger, steps, j, s)
    ensures !HandedOutAt(linger, steps, r, s)
  {
    forall j | k <= j < |steps| ensures !HandedOutAt(linger, steps, j, s) {
      OneMore(linger, steps, j);
      assert TimerOf(Before(linger, steps, j + 1), s).since.Some?;
      TimerStep(linger, Before(linger, steps, j), steps[j], s);
    }
  }

  // ---------------------------------------------------------------- what a sweep stops

  predicate AboutToStop(w: World, s: nat) {
    s in w.stoppingTranscodes || (w.stoppingTranscodes == {} && s in w.stoppingSources)
  }

  /** Step `d` is the locked part of the sweep that decided to stop a source it has not stopped yet. */
  ghost predicate DecidedAt(linger: int, steps: seq<Step>, d: nat, s: nat) {
    && d < |steps| && steps[d].Sweep? && Before(linger, steps, d).reading.Some?
    && forall m :: d < m <= |steps| ==> s in Stopping(Before(linger, steps, m))
  }

  lemma {:induction false} StoppingWasDecided(linger: int, steps: seq<Step>, s: nat)
    requires s in Stopping(Run(linger, steps))
    ensures exists d :: DecidedAt(linger, steps, d, s)
  {
    var n := |steps| - 1;
    Prefixes(linger, steps, |steps|);
    if steps != [] {
      OneMore(linger, steps, n);
      if s in Stopping(Before(linger, steps, n)) {
        StoppingWasDecided(linger, steps[..n], s);
        Prefixes(linger, steps, n);
        var d :| DecidedAt(linger, steps[..n], d, s);
        DecisionStays(linger, steps, d, s);
      } else {
        StoppingBegins(linger, Before(linger, steps, n), steps[n], s);
        assert DecidedAt(linger, steps, n, s);
      }
    }
  }

  lemma StoppingBegins(linger: int, w: World, step: Step, s: nat)
    requires s in Stopping(Next(linger, w, step)) && s !in Stopping(w)
    ensures step.Sweep? && w.reading.Some?
  {
    hide Alive;
    hide Retires;
  }

  lemma DecisionStays(linger: int, steps: seq<Step>, d: nat, s: nat)
    requires steps != [] && DecidedAt(linger, steps[..|steps| - 1], d, s) && s in Stopping(Run(linger, steps))
    ensures DecidedAt(linger, steps, d, s)
  {
    var n := |steps| - 1;
    Prefixes(linger, steps, n);
    hide Run;
    hide Stopping;
    assert forall m :: 0 <= m <= n ==> Before(linger, steps[..n], m) == Before(linger, steps, m);
  }

  lemma RetiredWasHeld(linger: int, w: World, s: nat)
    requires RegistryOk(w) && w.reading.Some? && s in Stopping(Next(linger, w, Sweep))
    ensures IsEntry(w, s) || IsHeld(w, s)
    ensures Retires(linger, w.sources, s, TimerOf(w, s), w.reading.value)
  {
    hide Retires;
    if s in RetiredSources(linger, w, w.reading.value) {
      var c :| c in w.entries && w.entries[c].source == s && Retires(linger, w.sources, s, w.entries[c].idle, w.reading.value);
      assert EntryOk(w, c);
    } else {
      var c :| c in w.transcodes && w.transcodes[c].source == s && Retires(linger, w.sources, s, w.transcodes[c].idle, w.reading.value);
      assert HeldOk(w, c);
    }
  }

  /** What a sweep is to stop is not handed out again. */
  lemma {:induction false} NotHandedOutAgain(linger: int, steps: seq<Step>, d: nat, s: nat)
    requires DecidedAt(linger, steps, d, s)
    ensures LastAcquired(linger, steps, s) == LastAcquired(linger, steps[..d], s)
    decreases |steps|
  {
    hide Next;
    hide HandsOut;
    hide RegistryOk;
    var n := |steps| - 1;
    if d < n {
      OneMore(linger, steps, n);
      NotHandedOut(Before(linger, steps, n), steps[n], s);
      DecidedEarlier(linger, steps, d, s);
      NotHandedOutAgain(linger, steps[..n], d, s);
      assert steps[..n][..d] == steps[..d];
    } else {
      NotHandedOutThen(linger, steps, s);
    }
  }

  lemma DecidedEarlier(linger: int, steps: seq<Step>, d: nat, s: nat)
    requires DecidedAt(linger, steps, d, s) && d < |steps| - 1
    ensures DecidedAt(linger, steps[..|steps| - 1], d, s)
    ensures s in Stopping(Before(linger, steps, |steps| - 1))
  {
    hide Run;
    hide Next;
    hide Stopping;
    var n := |steps| - 1;
    Prefixes(linger, steps, n);
    assert forall m :: 0 <= m <= n ==> Before(linger, steps[..n], m) == Before(linger, steps, m);
  }

  lemma NotHandedOutThen(linger: int, steps: seq<Step>, s: nat)
    requires steps != [] && steps[|steps| - 1].Sweep?
    ensures LastAcquired(linger, steps, s) == LastAcquired(linger, steps[..|steps| - 1], s)
  {
    hide Run;
  }

  lemma NotHandedOut(w: World, step: Step, s: nat)
    requires RegistryOk(w) && s in Stopping(w)
    ensures HandsOut(w, step) != Some(s)
  {
    hide Alive;
    if step.Acquire? && step.cameraId in w.entries { assert EntryOk(w, step.cameraId); }
    if step.Transcode? && step.cameraId in w.transcodes { assert HeldOk(w, step.cameraId); }
  }

  /** Over every interleaving with a positive grace period: a source that is stopped while it lives
      had no sink when the sweep decided, and its timer had by the sweep's reading run for the
      grace period. So the source was last handed out a grace period before that reading, unless it
      was handed out between the reading and the lock of the sweep that started the timer. */
  lemma StopsOnlyTheUnwatched(linger: int, steps: seq<Step>, d: nat, s: nat)
    requires linger > 0 && DecidedAt(linger, steps, d, s) && Alive(Run(linger, steps).sources, s)
    ensures SinkCount(Before(linger, steps, d).sources, s) == 0 && LastAcquired(linger, steps, s).Some?
    ensures exists r, k :: TimerStarted(linger, steps[..d], r, k, s)
                        && ReadingAt(linger, steps[..d], r) + linger <= Before(linger, steps, d).reading.value
                        && (LastAcquired(linger, steps, s).value + linger <= Before(linger, steps, d).reading.value
                            || Overtaken(linger, steps[..d], r, k, s))
  {
    var w := Before(linger, steps, d);
    OneMore(linger, steps, d);
    assert s in Stopping(Before(linger, steps, d + 1));
    AliveWhenDecided(linger, steps, d, s);
    NotHandedOutAgain(linger, steps, d, s);
    TimerHasAStart(linger, steps[..d], s);
    var r, k :| TimerStarted(linger, steps[..d], r, k, s);
    LaterMeansOvertaken(linger, steps[..d], r, k, s);
    Prefixes(linger, steps[..d], d);
    assert TimerOf(Before(linger, steps[..d], d), s).since == Some(ReadingAt(linger, steps[..d], r));
    assert Before(linger, steps[..d], d) == w;
  }

  /** A live source that is to be stopped was alive, unwatched and out of time when the sweep decided. */
  lemma AliveWhenDecided(linger: int, steps: seq<Step>, d: nat, s: nat)
    requires DecidedAt(linger, steps, d, s) && Alive(Run(linger, steps).sources, s)
    ensures var w := Before(linger, steps, d);
            && s in w.sources && Alive(w.sources, s) && SinkCount(w.sources, s) == 0
            && RunOut(linger, TimerOf(w, s), false, w.reading.value)
            && Before(linger, steps, d + 1).sources == w.sources
            && (linger > 0 ==> TimerOf(w, s).since.Some?)
  {
    var w := Before(linger, steps, d);
    OneMore(linger, steps, d);
    assert s in Stopping(Before(linger, steps, d + 1));
    RetiredWasHeld(linger, w, s);
    Prefixes(linger, steps, |steps|);
    SourcesStayFrom(linger, steps, d, |steps|, s);
  }

  /** The sink a step puts on a source: a consumer's, or that of a new transcode. */
  predicate PutsSink(w: World, step: Step, s: nat) {
    match step
    case Attach(t) => t == s && s in w.sources
    case Transcode(_, _, raw, _, id, _) => raw == s && HandsOut(w, step) == Some(id) && id !in w.sources
    case _ => false
  }

  lemma FirstSinkIsPut(linger: int, w: World, step: Step, s: nat)
    requires RegistryOk(w) && s in w.sources && SinkCount(w.sources, s) == 0 && SinkCount(Next(linger, w, step).sources, s) > 0
    ensures PutsSink(w, step, s) && !step.Sweep?
  {
    var v := Next(linger, w, step);
    if IsHanding(step) {
      HandingStep(linger, w, step);
    } else if !(step.Sweep? && w.reading.Some?) {
      OtherStep(linger, w, step);
      if step != Attach(s) { OtherSinks(linger, w, step, s); }
    }
    assert step.Sweep? && w.reading.Some? ==> v.sources == w.sources;
    hide Next;
    hide RegistryOk;
    if t :| t in Attached(v.sources, s) { assert t !in Attached(w.sources, s); }
  }

  /** The gap between a decision and its stops. A live source that is about to be stopped has a
      sink exactly when one was put on it after the sweep had decided and it has not been without
      since; the stop then takes the stream from under it. */
  lemma StoppedUnderASinkExactly(linger: int, steps: seq<Step>, d: nat, s: nat)
    requires DecidedAt(linger, steps, d, s) && Alive(Run(linger, steps).sources, s)
    ensures SinkCount(Run(linger, steps).sources, s) > 0 <==> exists a :: PutSince(linger, steps, d, a, s)
    ensures AboutToStop(Run(linger, steps), s) ==> !Alive(Next(linger, Run(linger, steps), Stop(s)).sources, s)
  {
    hide Next;
    hide Run;
    hide Alive;
    hide SinkCount;
    hide PutsSink;
    hide AboutToStop;
    AliveWhenDecided(linger, steps, d, s);
    Prefixes(linger, steps, |steps|);
    StopKills(linger, Run(linger, steps), s);
    assert d < |steps| && steps[d].Sweep?;
    hide DecidedAt;
    if SinkCount(Run(linger, steps).sources, s) > 0 { SinkWasPut(linger, steps, d, |steps|, s); }
    if a :| PutSince(linger, steps, d, a, s) {
      assert SinkCount(Before(linger, steps, |steps|).sources, s) > 0;
    }
  }

  lemma StopKills(linger: int, w: World, s: nat)
    ensures AboutToStop(w, s) ==> !Alive(Next(linger, w, Stop(s)).sources, s)
  {
  }

  ghost predicate PutSince(linger: int, steps: seq<Step>, d: nat, a: nat, s: nat) {
    && d < a < |steps| && PutsSink(Before(linger, steps, a), steps[a], s)
    && forall m :: a < m <= |steps| ==> SinkCount(Before(linger, steps, m).sources, s) > 0
  }

  lemma {:induction false} SinkWasPut(linger: int, steps: seq<Step>, d: nat, n: nat, s: nat)
    requires d < n <= |steps| && s in Before(linger, steps, d).sources && steps[d].Sweep?
    requires SinkCount(Before(linger, steps, d).sources, s) == 0
    requires forall m :: n <= m <= |steps| ==> SinkCount(Before(linger, steps, m).sources, s) > 0
    ensures exists a :: PutSince(linger, steps, d, a, s)
    decreases n
  {
    hide Next;
    hide Run;
    hide SinkCount;
    hide PutsSink;
    hide RegistryOk;
    OneMore(linger, steps, n - 1);
    var w := Before(linger, steps, n - 1);
    SourcesStayFrom(linger, steps, d, n - 1, s);
    assert SinkCount(Before(linger, steps, n).sources, s) > 0;
    if SinkCount(w.sources, s) == 0 {
      FirstSinkIsPut(linger, w, steps[n - 1], s);
      assert PutSince(linger, steps, d, n - 1, s);
    } else {
      SinkWasPut(linger, steps, d, n - 1, s);
    }
  }

  /** An upstream that lives is never let go of while a transcode reads it: not when the sweep
      decides, so not in the sweep that retires that transcode; and if it is to be stopped, the
      transcode was started after the decision. */
  lemma UpstreamOutlivesTranscode(linger: int, steps: seq<Step>, t: nat, upstream: nat)
    requires var w := Run(linger, steps);
             t in w.sources && w.sources[t].attached && w.sources[t].upstream == Some(upstream) && Alive(w.sources, upstream)
    ensures forall at :: upstream !in RetiredSources(linger, Run(linger, steps), at)
    ensures upstream in Stopping(Run(linger, steps)) ==>
              exists d: nat, a: nat :: DecidedAt(linger, steps, d, upstream) && d < a < |steps| && BuiltAt(linger, steps, a, t)
  {
    var w := Run(linger, steps);
    Prefixes(linger, steps, |steps|);
    assert t in Attached(w.sources, upstream) && |Attached(w.sources, upstream)| > 0;
    forall at ensures upstream !in RetiredSources(linger, w, at) { hide Run; }
    if upstream in Stopping(w) {
      StoppingWasDecided(linger, steps, upstream);
      var d :| DecidedAt(linger, steps, d, upstream);
      AliveWhenDecided(linger, steps, d, upstream);
      AttachedWasBuilt(linger, steps, d, |steps|, t, upstream);
    }
  }

  /** Step `b` starts this transcode. */
  ghost predicate BuiltAt(linger: int, steps: seq<Step>, b: nat, t: nat) {
    && b < |steps| && steps[b].Transcode? && t == steps[b].id
    && HandsOut(Before(linger, steps, b), steps[b]) == Some(t) && t !in Before(linger, steps, b).sources
  }

  lemma {:induction false} AttachedWasBuilt(linger: int, steps: seq<Step>, d: nat, n: nat, t: nat, upstream: nat)
    requires d < n <= |steps| && steps[d].Sweep?
    requires t in Attached(Before(linger, steps, n).sources, upstream)
    requires SinkCount(Before(linger, steps, d).sources, upstream) == 0
    ensures exists a :: d < a < |steps| && BuiltAt(linger, steps, a, t)
    decreases n
  {
    OneMore(linger, steps, n - 1);
    var w := Before(linger, steps, n - 1);
    if t in Attached(w.sources, upstream) {
      assert d != n - 1;
      AttachedWasBuilt(linger, steps, d, n - 1, t, upstream);
    } else {
      NewlyAttached(linger, w, steps[n - 1], t, upstream);
      assert BuiltAt(linger, steps, n - 1, t);
    }
  }

  lemma NewlyAttached(linger: int, w: World, step: Step, t: nat, upstream: nat)
    requires t in Attached(Next(linger, w, step).sources, upstream) && t !in Attached(w.sources, upstream)
    ensures step.Transcode? && t == step.id && HandsOut(w, step) == Some(t) && t !in w.sources
  {
    hide Alive;
    hide Retires;
    hide Holds;
  }

  // ---------------------------------------------------------------- which source a transcode reads

  /** The steps that take a camera's source out of the registry. */
  predicate Drops(linger: int, w: World, step: Step, c: string) {
    match step
    case Acquire(_, cameraId, url, codec, _, _) =>
      cameraId == c && url != "" && codec != UNKNOWN_CODEC && !Reusable(w, c, url, codec)
    case Sweep =>
      w.reading.Some? && c in w.entries && Retires(linger, w.sources, w.entries[c].source, w.entries[c].idle, w.reading.value)
    case _ => false
  }

  lemma DropStep(linger: int, w: World, step: Step, s: nat)
    requires RegistryOk(w) && s in w.sources
    ensures IsEntry(Next(linger, w, step), s) <==> IsEntry(w, s) && !Drops(linger, w, step, w.sources[s].cameraId)
  {
    hide Clock;
    hide Alive;
    hide Retires;
    hide Holds;
    hide SinkCount;
    var c := w.sources[s].cameraId;
    if c in w.entries { assert EntryOk(w, c); }
  }

  /** A held transcode was started at some step. */
  lemma {:induction false} HeldWasBuilt(linger: int, steps: seq<Step>, t: nat)
    requires IsHeld(Run(linger, steps), t)
    ensures exists b :: BuiltAt(linger, steps, b, t)
  {
    var n := |steps| - 1;
    if steps != [] {
      OneMore(linger, steps, n);
      Prefixes(linger, steps, n);
      Prefixes(linger, steps, |steps|);
      NewlyHeld(linger, Before(linger, steps, n), steps[n], t);
      if IsHeld(Before(linger, steps, n), t) {
        HeldWasBuilt(linger, steps[..n], t);
        var b :| BuiltAt(linger, steps[..n], b, t);
        assert BuiltAt(linger, steps, b, t);
      } else {
        assert !IsEntry(Before(linger, steps, n), t);
        assert BuiltAt(linger, steps, n, t);
      }
    }
  }

  /** A camera's source stays the registry's until a step drops it, and never comes back. */
  lemma {:induction false} EntryUntilDropped(linger: int, steps: seq<Step>, b: nat, n: nat, s: nat)
    requires b <= n <= |steps| && s in Before(linger, steps, b).sources
    ensures IsEntry(Before(linger, steps, n), s) <==>
              IsEntry(Before(linger, steps, b), s) &&
              forall m :: b <= m < n ==> !Drops(linger, Before(linger, steps, m), steps[m], Before(linger, steps, b).sources[s].cameraId)
    decreases n
  {
    hide Next;
    hide Run;
    hide Drops;
    hide IsEntry;
    hide RegistryOk;
    hide Alive;
    if b < n {
      EntryUntilDropped(linger, steps, b, n - 1, s);
      OneMore(linger, steps, n - 1);
      SourcesStayFrom(linger, steps, b, n - 1, s);
      DropStep(linger, Before(linger, steps, n - 1), steps[n - 1], s);
    }
  }

  /** A held transcode is handed out again whatever it reads, although the comment at
      src/media/source/CameraSourceRegistry.cpp:201-203 says it reads the source the camera has
      now. Over every run it does exactly when, at the step `b` that started it, its upstream was
      still the camera's source, and no step since has dropped that source. */
  lemma TranscodeReadsCurrentExactly(linger: int, steps: seq<Step>, b: nat, c: string)
    requires c in Run(linger, steps).transcodes && BuiltAt(linger, steps, b, Run(linger, steps).transcodes[c].source)
    ensures Run(linger, steps).transcodes[c].source in Run(linger, steps).sources
    ensures var w := Run(linger, steps);
            (c in w.entries && w.sources[w.transcodes[c].source].upstream == Some(w.entries[c].source)) <==>
            && IsEntry(Before(linger, steps, b), steps[b].raw)
            && forall m :: b < m < |steps| ==> !Drops(linger, Before(linger, steps, m), steps[m], c)
  {
    var w := Run(linger, steps);
    var t, raw := w.transcodes[c].source, steps[b].raw;
    Prefixes(linger, steps, |steps|);
    AlwaysOk(linger, steps);
    assert HeldOk(w, c);
    OneMore(linger, steps, b);
    BuiltReads(linger, Before(linger, steps, b), steps[b]);
    SourcesStayFrom(linger, steps, b + 1, |steps|, t);
    SourcesStayFrom(linger, steps, b, |steps|, raw);
    EntryUntilDropped(linger, steps, b, |steps|, raw);
    if c in w.entries { assert EntryOk(w, c); }
  }

  lemma BuiltReads(linger: int, w: World, step: Step)
    requires step.Transcode? && HandsOut(w, step) == Some(step.id) && step.id !in w.sources && RegistryOk(w)
    ensures var v := Next(linger, w, step);
            && IsRaw(w, step.cameraId, step.raw)
            && step.id in v.sources && v.sources[step.id].upstream == Some(step.raw) && v.sources[step.id].cameraId == step.cameraId
  {
    hide Alive;
    if step.cameraId in w.transcodes { assert HeldOk(w, step.cameraId); }
  }

  // ---------------------------------------------------------------- what is handed out

  /** Step `j` made source `s`. */
  ghost predicate MadeAt(linger: int, steps: seq<Step>, j: nat, s: nat) {
    && j < |steps| && s !in Before(linger, steps, j).sources && s in Before(linger, steps, j + 1).sources
    && IsHanding(steps[j]) && steps[j].id == s && steps[j].starts
  }

  lemma SourceIsNew(linger: int, w: World, step: Step, s: nat)
    requires RegistryOk(w) && s in Next(linger, w, step).sources && s !in w.sources
    ensures IsHanding(step) && step.id == s && step.starts
  {
    hide Alive;
    hide Retires;
    hide Clock;
    hide Holds;
    if !IsHanding(step) && !(step.Sweep? && w.reading.Some?) { OtherStep(linger, w, step); }
  }

  lemma MadeOnce(linger: int, steps: seq<Step>, i: nat, j: nat, s: nat)
    requires MadeAt(linger, steps, i, s) && MadeAt(linger, steps, j, s)
    ensures i == j
  {
    if i < j { SourcesStayFrom(linger, steps, i + 1, j, s); }
    if j < i { SourcesStayFrom(linger, steps, j + 1, i, s); }
  }

  /** What an entry says it streams is what its source was made for. */
  lemma EntryStep(linger: int, w: World, step: Step, c: string)
    requires RegistryOk(w) && c in Next(linger, w, step).entries
    ensures var v := Next(linger, w, step);
            || (c in w.entries && v.entries[c].source == w.entries[c].source
                && v.entries[c].url == w.entries[c].url && v.entries[c].codec == w.entries[c].codec)
            || (step.Acquire? && step.cameraId == c && v.entries[c].source == step.id && step.id !in w.sources
                && step.id in v.sources && v.entries[c].url == step.url && v.entries[c].codec == step.codec)
  {
    hide Alive;
    hide Retires;
    hide Clock;
    hide StopStep;
    hide Holds;
    if !IsHanding(step) && !(step.Sweep? && w.reading.Some?) { OtherStep(linger, w, step); }
  }

  lemma HeldStep(linger: int, w: World, step: Step, c: string)
    requires RegistryOk(w) && c in Next(linger, w, step).transcodes
    ensures var v := Next(linger, w, step);
            || (c in w.transcodes && v.transcodes[c].source == w.transcodes[c].source
                && v.transcodes[c].bitrateKbps == w.transcodes[c].bitrateKbps)
            || (step.Transcode? && step.cameraId == c && v.transcodes[c].source == step.id && step.id !in w.sources
                && step.id in v.sources && v.transcodes[c].bitrateKbps == step.bitrateKbps)
  {
    hide Alive;
    hide Retires;
    hide Clock;
    hide StopStep;
    hide Holds;
    if !IsHanding(step) && !(step.Sweep? && w.reading.Some?) { OtherStep(linger, w, step); }
  }

  lemma {:induction false} EntryMadeAt(linger: int, steps: seq<Step>, n: nat, c: string) returns (j: nat)
    requires n <= |steps| && c in Before(linger, steps, n).entries
    ensures var entry := Before(linger, steps, n).entries[c];
            && MadeAt(linger, steps, j, entry.source) && j < n && steps[j].Acquire? && steps[j].cameraId == c
            && steps[j].url == entry.url && steps[j].codec == entry.codec
  {
    assert n > 0;
    OneMore(linger, steps, n - 1);
    var w := Before(linger, steps, n - 1);
    EntryStep(linger, w, steps[n - 1], c);
    hide Next;
    hide RegistryOk;
    if c in w.entries && w.entries[c].source == Before(linger, steps, n).entries[c].source {
      j := EntryMadeAt(linger, steps, n - 1, c);
    } else {
      j := n - 1;
      SourceIsNew(linger, w, steps[n - 1], steps[n - 1].id);
    }
  }

  lemma {:induction false} HeldMadeAt(linger: int, steps: seq<Step>, n: nat, c: string) returns (j: nat)
    requires n <= |steps| && c in Before(linger, steps, n).transcodes
    ensures var held := Before(linger, steps, n).transcodes[c];
            && MadeAt(linger, steps, j, held.source) && j < n && steps[j].Transcode? && steps[j].cameraId == c
            && steps[j].bitrateKbps == held.bitrateKbps
  {
    assert n > 0;
    OneMore(linger, steps, n - 1);
    var w := Before(linger, steps, n - 1);
    HeldStep(linger, w, steps[n - 1], c);
    hide Next;
    hide RegistryOk;
    if c in w.transcodes && w.transcodes[c].source == Before(linger, steps, n).transcodes[c].source {
      j := HeldMadeAt(linger, steps, n - 1, c);
    } else {
      j := n - 1;
      SourceIsNew(linger, w, steps[n - 1], steps[n - 1].id);
    }
  }

  /** Over every interleaving: what a step hands out is a source of the camera asked for, running
      when the step is over, and made by an earlier step or this one for the very stream, or the
      very bitrate, asked for. A transcode that is handed out again also has its upstream running;
      a new one reads the source given, dead or alive. */
  lemma HandedOutIsRight(linger: int, steps: seq<Step>, i: nat, s: nat) returns (j: nat)
    requires i < |steps| && HandedOutAt(linger, steps, i, s)
    ensures IsHanding(steps[i]) && MadeAt(linger, steps, j, s) && j <= i && IsHanding(steps[j])
    ensures (j < i <==> s in Before(linger, steps, i).sources) && steps[j].cameraId == steps[i].cameraId
    ensures var v, asked, made := Before(linger, steps, i + 1), steps[i], steps[j];
            && s in v.sources && v.sources[s].running && v.sources[s].cameraId == asked.cameraId
            && (asked.Acquire? ==>
                  v.sources[s].upstream.None? && made.Acquire? && made.url == asked.url && made.codec == asked.codec)
            && (asked.Transcode? ==>
                  && made.Transcode? && made.bitrateKbps == asked.bitrateKbps
                  && v.sources[s].upstream.Some? && v.sources[s].upstream.value in v.sources
                  && (if j < i then v.sources[v.sources[s].upstream.value].running
                      else v.sources[s].upstream.value == asked.raw))
  {
    OneMore(linger, steps, i);
    var w, step := Before(linger, steps, i), steps[i];
    HandedIs(linger, w, step, s);
    hide Next;
    hide HandsOut;
    hide RegistryOk;
    if s !in w.sources {
      j := i;
      SourceIsNew(linger, w, step, s);
    } else if step.Acquire? {
      j := EntryMadeAt(linger, steps, i, step.cameraId);
    } else {
      j := HeldMadeAt(linger, steps, i, step.cameraId);
    }
  }

  lemma HandedIs(linger: int, w: World, step: Step, s: nat)
    requires RegistryOk(w) && HandsOut(w, step) == Some(s)
    ensures IsHanding(step)
    ensures var v := Next(linger, w, step);
            && s in v.sources && v.sources[s].running && v.sources[s].cameraId == step.cameraId
            && (s !in w.sources ==> step.id == s && step.starts)
            && (step.Acquire? ==>
                  && v.sources[s].upstream.None?
                  && (s in w.sources ==>
                        && step.cameraId in w.entries && w.entries[step.cameraId].source == s
                        && w.entries[step.cameraId].url == step.url && w.entries[step.cameraId].codec == step.codec))
            && (step.Transcode? ==>
                  && v.sources[s].upstream.Some? && v.sources[s].upstream.value in v.sources
                  && (if s in w.sources then
                        && step.cameraId in w.transcodes && w.transcodes[step.cameraId].source == s
                        && w.transcodes[step.cameraId].bitrateKbps == step.bitrateKbps
                        && v.sources[v.sources[s].upstream.value].running
                      else v.sources[s].upstream.value == step.raw))
  {
    hide Clock;
    NoneUnlessHanding(w, step);
    if step.cameraId in w.entries { assert EntryOk(w, step.cameraId); }
    if step.cameraId in w.transcodes { assert HeldOk(w, step.cameraId); }
  }

  lemma NoneUnlessHanding(w: World, step: Step)
    ensures HandsOut(w, step).Some? ==> IsHanding(step)
  {
  }

  /** Which source an acquire hands out: the camera's, exactly when it was made for the stream asked
      for and is running; else the new one, when it starts; else none, and the camera has none. */
  lemma AcquireReusesExactly(linger: int, steps: seq<Step>, i: nat, j: nat)
    requires i < |steps| && steps[i].Acquire? && steps[i].url != "" && steps[i].codec != UNKNOWN_CODEC
    requires var w := Before(linger, steps, i);
             steps[i].id !in w.sources &&
             (steps[i].cameraId in w.entries ==> MadeAt(linger, steps, j, w.entries[steps[i].cameraId].source))
    ensures var w, v, asked := Before(linger, steps, i), Before(linger, steps, i + 1), steps[i];
            var c := asked.cameraId;
            && (c in w.entries ==> w.entries[c].source in w.sources && steps[j].Acquire?)
            && var reused := c in w.entries && w.sources[w.entries[c].source].running
                             && steps[j].url == asked.url && steps[j].codec == asked.codec;
            && HandsOut(w, asked) ==
               (if reused then Some(w.entries[c].source) else if asked.starts then Some(asked.id) else None)
            && (c in v.entries <==> HandsOut(w, asked).Some?)
            && (c in v.entries ==> HandsOut(w, asked) == Some(v.entries[c].source))
  {
    OneMore(linger, steps, i);
    var w, step := Before(linger, steps, i), steps[i];
    var c := step.cameraId;
    hide Run;
    hide MadeAt;
    if c in w.entries {
      var made := EntryMadeAt(linger, steps, i, c);
      MadeOnce(linger, steps, j, made, w.entries[c].source);
      assert EntryOk(w, c);
    }
  }

  /** The same for the locked section that hands out a transcode. */
  lemma TranscodeReusesExactly(linger: int, steps: seq<Step>, i: nat, j: nat)
    requires i < |steps| && steps[i].Transcode? && IsRaw(Before(linger, steps, i), steps[i].cameraId, steps[i].raw)
    requires var w := Before(linger, steps, i);
             steps[i].id !in w.sources &&
             (steps[i].cameraId in w.transcodes ==> MadeAt(linger, steps, j, w.transcodes[steps[i].cameraId].source))
    ensures var w, v, asked := Before(linger, steps, i), Before(linger, steps, i + 1), steps[i];
            var c := asked.cameraId;
            && (c in w.transcodes ==>
                  && w.transcodes[c].source in w.sources && steps[j].Transcode?
                  && w.sources[w.transcodes[c].source].upstream.Some?
                  && w.sources[w.transcodes[c].source].upstream.value in w.sources)
            && var reused := c in w.transcodes && w.sources[w.transcodes[c].source].running
                             && w.sources[w.sources[w.transcodes[c].source].upstream.value].running
                             && steps[j].bitrateKbps == asked.bitrateKbps;
            && HandsOut(w, asked) ==
               (if reused then Some(w.transcodes[c].source) else if asked.starts then Some(asked.id) else None)
            && (c in v.transcodes <==> HandsOut(w, asked).Some?)
            && (c in v.transcodes ==> HandsOut(w, asked) == Some(v.transcodes[c].source))
  {
    OneMore(linger, steps, i);
    var w, step := Before(linger, steps, i), steps[i];
    var c := step.cameraId;
    hide Run;
    hide MadeAt;
    if c in w.transcodes {
      var made := HeldMadeAt(linger, steps, i, c);
      MadeOnce(linger, steps, j, made, w.transcodes[c].source);
      assert HeldOk(w, c);
    }
  }

  /** Whether nobody has a sink on a source. */
  predicate Unwatched(w: World, s: nat) {
    s in w.sources && w.sources[s].sinks == 0
    && forall t :: t in w.sources && w.sources[t].upstream == Some(s) ==> !w.sources[t].attached
  }

  /** What a sweep lets go of, over every interleaving: a source that has died, whatever its grace
      period says, and one that is unwatched and was first seen so a grace period ago. What it lets
      go of it stops. What it keeps lives, and has its timer stopped when it is watched, else
      started unless it runs already. */
  lemma SweepLetsGoExactly(linger: int, steps: seq<Step>, i: nat, s: nat)
    requires i < |steps| && steps[i].Sweep? && Before(linger, steps, i).reading.Some?
    requires var w := Before(linger, steps, i); IsEntry(w, s) || IsHeld(w, s)
    ensures var w, v := Before(linger, steps, i), Before(linger, steps, i + 1);
            var upstream := w.sources[s].upstream;
            var timer, at := TimerOf(w, s), w.reading.value;
            && (upstream.Some? ==> upstream.value in w.sources)
            && var dead := !w.sources[s].running || (upstream.Some? && !w.sources[upstream.value].running);
            && (!(IsEntry(v, s) || IsHeld(v, s)) <==>
                  dead || (Unwatched(w, s) && (if timer.since.Some? then at - timer.since.value >= linger else linger <= 0)))
            && (s in Stopping(v) <==> !(IsEntry(v, s) || IsHeld(v, s)))
            && (IsEntry(v, s) || IsHeld(v, s) ==>
                  TimerOf(v, s).since == (if !Unwatched(w, s) then None else if timer.since.Some? then timer.since else Some(at)))
  {
    OneMore(linger, steps, i);
    var w := Before(linger, steps, i);
    UnwatchedCount(w, s);
    SweepSpares(linger, w, w.reading.value, s);
    hide Run;
    hide SinkCount;
    hide Unwatched;
    if w.sources[s].cameraId in w.entries { assert EntryOk(w, w.sources[s].cameraId); }
    if w.sources[s].cameraId in w.transcodes { assert HeldOk(w, w.sources[s].cameraId); }
  }

  lemma UnwatchedCount(w: World, s: nat)
    requires s in w.sources
    ensures Unwatched(w, s) <==> SinkCount(w.sources, s) == 0
  {
    var attached := Attached(w.sources, s);
    assert |attached| == 0 <==> attached == {};
    assert forall t :: t in w.sources && w.sources[t].upstream == Some(s) && w.sources[t].attached ==> t in attached;
    if t :| t in attached { assert !Unwatched(w, s); }
  }

  // ---------------------------------------------------------------- how a source ends

  /** What can end a source: its pipeline dies; the stop a sweep decided on, of a camera's source
      only once no transcode waits for its own; or, when the registry neither hands it out nor is to
      stop it and no transcode reads it, its last consumer letting go. */
  predicate EndsIt(w: World, step: Step, s: nat) {
    || step == Die(s)
    || (step == Stop(s) && (s in w.stoppingTranscodes || (s in w.stoppingSources && w.stoppingTranscodes == {})))
    || (step == Release(s) && !Holds(w, s) && forall t :: t in w.sources && w.sources[t].attached ==> w.sources[t].upstream != Some(s))
  }

  /** Over every interleaving: a running source runs on until such a step ends it, so one that was
      replaced is dropped and not stopped; it loses sinks only one at a time and by their owners; and
      a source that was stopped, or let go of by its last consumer, takes its sink off its upstream. */
  lemma SourceEndsExactly(linger: int, steps: seq<Step>, i: nat, s: nat)
    requires i < |steps| && s in Before(linger, steps, i).sources
    ensures var w, v, step := Before(linger, steps, i), Before(linger, steps, i + 1), steps[i];
            && s in v.sources
            && (v.sources[s].running <==> w.sources[s].running && !EndsIt(w, step, s))
            && (v.sources[s].attached <==> w.sources[s].attached && (step == Die(s) || !EndsIt(w, step, s)))
            && v.sources[s].sinks == (if step == Attach(s) then w.sources[s].sinks + 1
                                      else if step == Detach(s) && w.sources[s].sinks > 0 then w.sources[s].sinks - 1
                                      else w.sources[s].sinks)
  {
    OneMore(linger, steps, i);
    var w, step := Before(linger, steps, i), steps[i];
    hide Run;
    hide RegistryOk;
    if IsHanding(step) {
      HandingStep(linger, w, step);
      hide Next;
    } else if step.Sweep? && w.reading.Some? {
      assert Next(linger, w, step).sources == w.sources;
    } else {
      OthersEnd(linger, w, step, s);
    }
  }

  lemma OthersEnd(linger: int, w: World, step: Step, s: nat)
    requires !IsHanding(step) && !(step.Sweep? && w.reading.Some?) && s in w.sources
    requires forall r :: r in Stopping(w) ==> r in w.sources
    ensures var v := Next(linger, w, step);
            && s in v.sources
            && (v.sources[s].running <==> w.sources[s].running && !EndsIt(w, step, s))
            && (v.sources[s].attached <==> w.sources[s].attached && (step == Die(s) || !EndsIt(w, step, s)))
            && v.sources[s].sinks == (if step == Attach(s) then w.sources[s].sinks + 1
                                      else if step == Detach(s) && w.sources[s].sinks > 0 then w.sources[s].sinks - 1
                                      else w.sources[s].sinks)
  {
    hide Holds;
    hide Clock;
    if step == Release(s) { UnreadWhen(w, s); }
    hide Attached;
  }

  lemma UnreadWhen(w: World, s: nat)
    ensures Attached(w.sources, s) == {} <==> forall t :: t in w.sources && w.sources[t].attached ==> w.sources[t].upstream != Some(s)
  {
    if t :| t in w.sources && w.sources[t].attached && w.sources[t].upstream == Some(s) { assert t in Attached(w.sources, s); }
    if t :| t in Attached(w.sources, s) { assert w.sources[t].attached; }
  }

  /** A transcode that runs has its sink on the source it reads, so that source is watched. */
  lemma {:induction false} RunningTranscodeReads(linger: int, steps: seq<Step>, n: nat, t: nat)
    requires n <= |steps| && t in Before(linger, steps, n).sources
    requires Before(linger, steps, n).sources[t].running && Before(linger, steps, n).sources[t].upstream.Some?
    ensures Before(linger, steps, n).sources[t].attached
    ensures SinkCount(Before(linger, steps, n).sources, Before(linger, steps, n).sources[t].upstream.value) > 0
  {
    assert n > 0;
    var w, v := Before(linger, steps, n - 1), Before(linger, steps, n);
    OneMore(linger, steps, n - 1);
    if t in w.sources {
      SourcesStayFrom(linger, steps, n - 1, n, t);
      SourceEndsExactly(linger, steps, n - 1, t);
      RunningTranscodeReads(linger, steps, n - 1, t);
    } else {
      SourceIsNew(linger, w, steps[n - 1], t);
      NewIsAttached(linger, w, steps[n - 1]);
    }
    hide Next;
    hide Run;
    assert t in Attached(v.sources, v.sources[t].upstream.value);
  }

  lemma NewIsAttached(linger: int, w: World, step: Step)
    requires step.Transcode? && step.id !in w.sources && step.id in Next(linger, w, step).sources
    ensures Next(linger, w, step).sources[step.id].attached
  {
    hide Alive;
    hide Clock;
  }

  // ---------------------------------------------------------------- runs that show the gaps

  lemma Extend(linger: int, steps: seq<Step>, step: Step)
    ensures Run(linger, steps + [step]) == Next(linger, Run(linger, steps), step)
  {
    assert (steps + [step])[..|steps|] == steps;
  }

  /** A sweep reads 0 and waits for the lock while an acquire finishes at `delay`; it then starts
      the timer, and a sweep that reads `linger` decides to stop the source. */
  function Overtaking(linger: int, delay: int): seq<Step> {
    [Read(0), Acquire(delay, "cam", "rtsp", 1, 7, true), Sweep, Read(linger), Sweep]
  }

  const Started := Source("cam", None, true, 0, false)

  lemma OvertakingStarts(linger: int, delay: int)
    requires 0 <= delay
    ensures var steps := [Read(0), Acquire(delay, "cam", "rtsp", 1, 7, true)];
            && Run(linger, steps)
               == World(delay, Some(0), map[7 := Started], map["cam" := Entry(7, "rtsp", 1, NotIdle)], map[], {}, {})
            && LastAcquired(linger, steps, 7) == Some(delay)
  {
    var s1 := [Read(0)];
    Extend(linger, [], Read(0));
    assert [] + [Read(0)] == s1;
    assert Run(linger, s1) == Init.(reading := Some(0));
    Extend(linger, s1, Acquire(delay, "cam", "rtsp", 1, 7, true));
    assert s1 + [Acquire(delay, "cam", "rtsp", 1, 7, true)] == [Read(0), Acquire(delay, "cam", "rtsp", 1, 7, true)];
    assert [Read(0), Acquire(delay, "cam", "rtsp", 1, 7, true)][..1] == s1;
  }

  lemma Quiet(linger: int, steps: seq<Step>, step: Step, s: nat)
    requires !step.Acquire? && !step.Transcode?
    ensures LastAcquired(linger, steps + [step], s) == LastAcquired(linger, steps, s)
  {
    hide Run;
    assert (steps + [step])[..|steps|] == steps;
  }

  lemma OvertakingEnds(linger: int, delay: int)
    requires 0 <= delay <= linger && 0 < linger
    ensures Run(linger, Overtaking(linger, delay)) == World(linger, None, map[7 := Started], map[], map[], {}, {7})
    ensures LastAcquired(linger, Overtaking(linger, delay), 7) == Some(delay)
    ensures Before(linger, Overtaking(linger, delay), 4).reading == Some(linger)
  {
    hide Run;
    hide LastAcquired;
    OvertakingStarts(linger, delay);
    var s2 := [Read(0), Acquire(delay, "cam", "rtsp", 1, 7, true)];
    var s3 := s2 + [Sweep];
    var s4 := s3 + [Read(linger)];
    assert s4 + [Sweep] == Overtaking(linger, delay);
    assert Overtaking(linger, delay)[..4] == s4;
    Extend(linger, s2, Sweep);
    SweepOfOne(linger, Run(linger, s2), 0);
    Extend(linger, s3, Read(linger));
    Extend(linger, s4, Sweep);
    SweepOfOne(linger, Run(linger, s4), linger);
    Quiet(linger, s2, Sweep, 7);
    Quiet(linger, s3, Read(linger), 7);
    Quiet(linger, s4, Sweep, 7);
  }

  lemma SweepOfOne(linger: int, w: World, now: int)
    requires w.sources == map[7 := Started] && w.transcodes == map[] && w.entries.Keys == {"cam"} && w.entries["cam"].source == 7
    ensures var v := SweepStep(linger, w, now);
            var out := RunOut(linger, w.entries["cam"].idle, false, now);
            && v == World(w.now, None, w.sources, v.entries, map[], {}, if out then {7} else {})
            && v.entries == if out then map[] else map["cam" := w.entries["cam"].(idle := Watched(w.entries["cam"].idle, false, now))]
  {
    assert Attached(w.sources, 7) == {};
  }

  /** The grace period can be cut short by any delay up to the whole of it. */
  lemma GraceCanBeShort(linger: int, delay: int)
    requires 0 < delay <= linger
    ensures var steps := Overtaking(linger, delay);
            && AboutToStop(Run(linger, steps), 7) && Alive(Run(linger, steps).sources, 7)
            && LastAcquired(linger, steps, 7) == Some(delay) && Before(linger, steps, 4).reading == Some(linger)
  {
    OvertakingEnds(linger, delay);
  }

  /** A viewer handed a source at the start puts its sink on it after the decision and before the
      stop, and has the source stopped under it. */
  lemma LateSinkIsStopped(linger: int)
    requires 0 < linger
    ensures var steps := Overtaking(linger, 0) + [Attach(7)];
            && AboutToStop(Run(linger, steps), 7) && Alive(Run(linger, steps).sources, 7)
            && SinkCount(Run(linger, steps).sources, 7) > 0
            && !Alive(Run(linger, steps + [Stop(7)]).sources, 7)
  {
    OvertakingEnds(linger, 0);
    Extend(linger, Overtaking(linger, 0), Attach(7));
    Extend(linger, Overtaking(linger, 0) + [Attach(7)], Stop(7));
  }

  /** A camera is repointed while its transcode runs: the transcode of the old stream is handed out
      for the new one. */
  lemma StaleTranscodeIsReused(linger: int, kbps: int)
    ensures var steps := [Acquire(0, "cam", "old", 1, 0, true), Transcode(0, "cam", 0, kbps, 1, true), Acquire(0, "cam", "new", 1, 2, true)];
            var w := Run(linger, steps);
            && w.entries == map["cam" := Entry(2, "new", 1, NotIdle)]
            && HandsOut(w, Transcode(0, "cam", 2, kbps, 3, true)) == Some(1) && 1 in w.sources && w.sources[1].upstream == Some(0)
  {
    var s1 := [Acquire(0, "cam", "old", 1, 0, true)];
    var s2 := s1 + [Transcode(0, "cam", 0, kbps, 1, true)];
    var s3 := s2 + [Acquire(0, "cam", "new", 1, 2, true)];
    Extend(linger, [], Acquire(0, "cam", "old", 1, 0, true));
    Extend(linger, s1, Transcode(0, "cam", 0, kbps, 1, true));
    Extend(linger, s2, Acquire(0, "cam", "new", 1, 2, true));
    assert s1 == [] + [Acquire(0, "cam", "old", 1, 0, true)];
    assert s3 == [Acquire(0, "cam", "old", 1, 0, true), Transcode(0, "cam", 0, kbps, 1, true), Acquire(0, "cam", "new", 1, 2, true)];
  }

  // ---------------------------------------------------------------- a sweep, one at a time

  /** A sweep of the transcodes that has yet to reach `todo`: what is held, and what has been let go of. */
  function SweptHeld(linger: int, sources: map<nat, Source>, held: map<string, Held>, now: int, todo: set<string>): map<string, Held> {
    map c | c in held && (c in todo || !Retires(linger, sources, held[c].source, held[c].idle, now)) ::
      if c in todo then held[c] else HeldStill(sources, held[c], now)
  }

  function LetGoHeld(linger: int, sources: map<nat, Source>, held: map<string, Held>, now: int, todo: set<string>): set<nat> {
    set c | c in held && c !in todo && Retires(linger, sources, held[c].source, held[c].idle, now) :: held[c].source
  }

  lemma {:induction false} SweepHeldStarts(linger: int, sources: map<nat, Source>, held: map<string, Held>, now: int)
    ensures SweptHeld(linger, sources, held, now, held.Keys) == held && LetGoHeld(linger, sources, held, now, held.Keys) == {}
  {
  }

  lemma {:induction false} SweepHeldEnds(linger: int, w: World, now: int)
    ensures SweptHeld(linger, w.sources, w.transcodes, now, {}) == SweepStep(linger, w, now).transcodes
    ensures LetGoHeld(linger, w.sources, w.transcodes, now, {}) == RetiredTranscodes(linger, w, now)
  {
    hide Retires;
    hide HeldStill;
  }

  lemma {:induction false} SweepHeldOne(linger: int, sources: map<nat, Source>, held: map<string, Held>, now: int, todo: set<string>, c: string)
    requires c in todo && todo <= held.Keys
    ensures var a, b := SweptHeld(linger, sources, held, now, todo), SweptHeld(linger, sources, held, now, todo - {c});
            var before, after := LetGoHeld(linger, sources, held, now, todo), LetGoHeld(linger, sources, held, now, todo - {c});
            if Retires(linger, sources, held[c].source, held[c].idle, now)
            then b == a - {c} && after == before + {held[c].source}
            else b == a[c := HeldStill(sources, held[c], now)] && after == before
  {
    hide Retires;
    hide HeldStill;
  }

  /** A sweep of the sources that has yet to reach `todo`: what is held, and what has been let go of. */
  function SweptEntries(linger: int, sources: map<nat, Source>, held: map<string, Entry>, now: int, todo: set<string>): map<string, Entry> {
    map c | c in held && (c in todo || !Retires(linger, sources, held[c].source, held[c].idle, now)) ::
      if c in todo then held[c] else EntryStill(sources, held[c], now)
  }

  function LetGoEntries(linger: int, sources: map<nat, Source>, held: map<string, Entry>, now: int, todo: set<string>): set<nat> {
    set c | c in held && c !in todo && Retires(linger, sources, held[c].source, held[c].idle, now) :: held[c].source
  }

  lemma {:induction false} SweepEntriesStarts(linger: int, sources: map<nat, Source>, held: map<string, Entry>, now: int)
    ensures SweptEntries(linger, sources, held, now, held.Keys) == held && LetGoEntries(linger, sources, held, now, held.Keys) == {}
  {
  }

  lemma {:induction false} SweepEntriesEnds(linger: int, w: World, now: int)
    ensures SweptEntries(linger, w.sources, w.entries, now, {}) == SweepStep(linger, w, now).entries
    ensures LetGoEntries(linger, w.sources, w.entries, now, {}) == RetiredSources(linger, w, now)
  {
    hide Retires;
    hide EntryStill;
  }

  lemma {:induction false} SweepEntriesOne(linger: int, sources: map<nat, Source>, held: map<string, Entry>, now: int, todo: set<string>, c: string)
    requires c in todo && todo <= held.Keys
    ensures var a, b := SweptEntries(linger, sources, held, now, todo), SweptEntries(linger, sources, held, now, todo - {c});
            var before, after := LetGoEntries(linger, sources, held, now, todo), LetGoEntries(linger, sources, held, now, todo - {c});
            if Retires(linger, sources, held[c].source, held[c].idle, now)
            then b == a - {c} && after == before + {held[c].source}
            else b == a[c := EntryStill(sources, held[c], now)] && after == before
  {
    hide Retires;
    hide EntryStill;
  }

  // ---------------------------------------------------------------- the class

  class CameraSourceRegistry {
    const linger: int
    var entries: map<string, Entry>
    var transcodes: map<string, Held>
    /** The pipelines, which consumers and GStreamer change too. */
    var sources: map<nat, Source>
    ghost var rest: World

    ghost function State(): World
      reads this
    {
      rest.(entries := entries, transcodes := transcodes, sources := sources)
    }

    constructor (linger: int)
      ensures State() == Init && this.linger == linger
    {
      this.linger := linger;
      entries, transcodes, sources, rest := map[], map[], map[], Init;
    }

    method IsAlive(s: nat) returns (alive: bool)
      ensures alive == Alive(sources, s)
    {
      if s !in sources || !sources[s].running { return false; }
      var upstream := sources[s].upstream;
      return upstream.None? || (upstream.value in sources && sources[upstream.value].running);
    }

    /** `at` is the steady clock's reading; `id` and `starts` are what making and starting a
        pipeline would come to. */
    method Acquire(at: int, cameraId: string, url: string, codec: nat, id: nat, starts: bool) returns (got: Option<nat>)
      requires id !in sources
      modifies this
      ensures State() == AcquireStep(old(State()), at, cameraId, url, codec, id, starts)
      ensures got == HandsOut(old(State()), Step.Acquire(at, cameraId, url, codec, id, starts))
    {
      if url == "" { return None; }
      if codec == UNKNOWN_CODEC { return None; }
      var before := entries;
      rest := rest.(now := Clock(rest, at));
      if cameraId in entries {
        var entry := entries[cameraId];
        var alive := IsAlive(entry.source);
        if entry.url == url && entry.codec == codec && alive {
          entries := entries[cameraId := entry.(idle := Watched(entry.idle, true, at))];
          return Some(entry.source);
        }
        entries := entries - {cameraId};
      }
      assert entries == before - {cameraId};
      if !starts { return None; }
      sources := sources[id := Source(cameraId, None, true, 0, false)];
      entries := entries[cameraId := Entry(id, url, codec, NotIdle)];
      return Some(id);
    }

    /** The second half of `acquireH264`, given the source that `Acquire` returned to its first. */
    method AcquireTranscode(at: int, cameraId: string, raw: nat, bitrateKbps: int, id: nat, starts: bool) returns (got: Option<nat>)
      requires id !in sources && raw in sources && sources[raw].upstream.None? && sources[raw].cameraId == cameraId
      modifies this
      ensures State() == TranscodeStep(old(State()), at, cameraId, raw, bitrateKbps, id, starts)
      ensures got == HandsOut(old(State()), Transcode(at, cameraId, raw, bitrateKbps, id, starts))
    {
      var before := transcodes;
      rest := rest.(now := Clock(rest, at));
      if cameraId in transcodes {
        var held := transcodes[cameraId];
        var alive := IsAlive(held.source);
        if alive && held.bitrateKbps == bitrateKbps {
          transcodes := transcodes[cameraId := held.(idle := Watched(held.idle, true, at))];
          return Some(held.source);
        }
        transcodes := transcodes - {cameraId};
      }
      assert transcodes == before - {cameraId};
      if !starts { return None; }
      sources := sources[id := Source(cameraId, Some(raw), true, 0, true)];
      transcodes := transcodes[cameraId := Held(id, bitrateKbps, NotIdle)];
      return Some(id);
    }

    /** Walks the sources of one source's world counting its sinks. */
    method CountSinks(s: nat) returns (used: bool)
      ensures used == (SinkCount(sources, s) != 0)
    {
      if s in sources && sources[s].sinks > 0 { return true; }
      var on := set t | t in sources && sources[t].attached && sources[t].upstream == Some(s);
      assert on == Attached(sources, s);
      return on != {};
    }

    method SweepTranscodes(now: int) returns (retiring: set<nat>)
      modifies this`transcodes
      ensures State().transcodes == SweepStep(linger, old(State()), now).transcodes
      ensures retiring == RetiredTranscodes(linger, old(State()), now)
    {
      hide SinkCount;
      hide Alive;
      hide RunOut;
      hide SweptHeld;
      hide LetGoHeld;
      ghost var w := State();
      var held, todo := transcodes, transcodes.Keys;
      retiring := {};
      SweepHeldStarts(linger, sources, held, now);
      while todo != {}
        invariant todo <= held.Keys && sources == w.sources
        invariant transcodes == SweptHeld(linger, sources, held, now, todo)
        invariant retiring == LetGoHeld(linger, sources, held, now, todo)
      {
        var c :| c in todo;
        SweepHeldOne(linger, sources, held, now, todo, c);
        var alive := IsAlive(held[c].source);
        var used := CountSinks(held[c].source);
        if !alive || RunOut(linger, held[c].idle, used, now) {
          retiring := retiring + {held[c].source};
          transcodes := transcodes - {c};
        } else {
          transcodes := transcodes[c := Held(held[c].source, held[c].bitrateKbps, Watched(held[c].idle, used, now))];
        }
        todo := todo - {c};
      }
      SweepHeldEnds(linger, w, now);
    }

    method SweepEntries(now: int) returns (retiring: set<nat>)
      modifies this`entries
      ensures State().entries == SweepStep(linger, old(State()), now).entries
      ensures retiring == RetiredSources(linger, old(State()), now)
    {
      hide SinkCount;
      hide Alive;
      hide RunOut;
      hide SweptEntries;
      hide LetGoEntries;
      ghost var w := State();
      var held, todo := entries, entries.Keys;
      retiring := {};
      SweepEntriesStarts(linger, sources, held, now);
      while todo != {}
        invariant todo <= held.Keys && sources == w.sources
        invariant entries == SweptEntries(linger, sources, held, now, todo)
        invariant retiring == LetGoEntries(linger, sources, held, now, todo)
      {
        var c :| c in todo;
        SweepEntriesOne(linger, sources, held, now, todo, c);
        var alive := IsAlive(held[c].source);
        var used := CountSinks(held[c].source);
        if !alive || RunOut(linger, held[c].idle, used, now) {
          retiring := retiring + {held[c].source};
          entries := entries - {c};
        } else {
          entries := entries[c := Entry(held[c].source, held[c].url, held[c].codec, Watched(held[c].idle, used, now))];
        }
        todo := todo - {c};
      }
      SweepEntriesEnds(linger, w, now);
    }

    /** The locked part of a sweep, at the instant read before; hands back what is to be stopped once the
        lock is dropped. */
    method SweepLocked(now: int) returns (retiringTranscodes: set<nat>, retiringSources: set<nat>)
      modifies this
      ensures State() == SweepStep(linger, old(State()), now)
      ensures retiringTranscodes == State().stoppingTranscodes && retiringSources == State().stoppingSources
    {
      retiringTranscodes := SweepTranscodes(now);
      retiringSources := SweepEntries(now);
      rest := rest.(reading := None, stoppingTranscodes := retiringTranscodes, stoppingSources := retiringSources);
    }
  }
}
