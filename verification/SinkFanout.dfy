/** One source's consumers and group of pictures (src/media/source/SinkFanout.cpp). */
module SinkFanout {
  // `Step` gives the atomic steps: each method body under the lock is one step, and so is each
  // sink call of `deliver`, which runs with the lock dropped. A list of events is therefore one
  // interleaving of any number of threads calling `add`, `remove` and `clear` with the single
  // delivering thread. The class below performs exactly these steps.

  import opened Frames

  datatype Limits = Limits(enabled: bool, maxFrames: nat, maxBytes: nat)

  datatype Cache = Cache(gop: seq<Frame>, bytes: nat, overflowed: bool)

  /** The state of a fan-out, with what happened so far beside it: every frame delivered, what
      each consumer ever added was handed, and where in `delivered` that run begins. `targets`
      are the sinks the delivering thread has still to call with the last delivered frame. */
  datatype World = World(
    consumers: map<nat, bool>, // id -> waitingForKeyframe
    nextId: nat,
    cache: Cache,
    primed: nat,
    waited: nat,
    targets: seq<nat>,
    delivered: seq<Frame>,
    clearedAt: nat,
    logs: map<nat, seq<Frame>>,
    starts: map<nat, int>)

  datatype Event = Add(prime: bool) | Remove(id: nat) | Deliver(frame: Frame) | CallSink | Clear

  const NoCache := Cache([], 0, false)
  const Empty := World(map[], 1, NoCache, 0, 0, [], [], 0, map[], map[])

  function Bytes(frames: seq<Frame>): nat {
    if frames == [] then 0 else Bytes(frames[..|frames| - 1]) + |frames[|frames| - 1].payload|
  }

  /** Ids below `n` whose sink a frame goes to, in the order of the id map. */
  function Awake(consumers: map<nat, bool>, keyframe: bool, n: nat): seq<nat> {
    if n == 0 then []
    else if n - 1 in consumers && (consumers[n - 1] ==> keyframe) then Awake(consumers, keyframe, n - 1) + [n - 1]
    else Awake(consumers, keyframe, n - 1)
  }

  function Wake(consumers: map<nat, bool>, keyframe: bool): map<nat, bool> {
    map id | id in consumers :: consumers[id] && !keyframe
  }

  function CanPrime(l: Limits, w: World, prime: bool): bool {
    prime && l.enabled && w.cache.gop != []
  }

  function AddStep(l: Limits, w: World, prime: bool): World {
    var primes := CanPrime(l, w, prime);
    var burst := if primes then w.cache.gop else [];
    w.(consumers := w.consumers[w.nextId := !primes],
       nextId := w.nextId + 1,
       primed := w.primed + (if primes then 1 else 0),
       waited := w.waited + (if primes then 0 else 1),
       logs := w.logs[w.nextId := burst],
       starts := w.starts[w.nextId := |w.delivered| - |burst|])
  }

  function CacheStep(l: Limits, c: Cache, frame: Frame): Cache {
    if !l.enabled then c
    else
      var c := if frame.keyframe then NoCache else c;
      if c.overflowed then c
      else if |c.gop| + 1 > l.maxFrames || c.bytes + |frame.payload| > l.maxBytes then Cache([], 0, true)
      else Cache(c.gop + [frame], c.bytes + |frame.payload|, false)
  }

  /** The locked phase of `deliver`. */
  ghost function DeliverStep(l: Limits, w: World, frame: Frame): World {
    w.(cache := CacheStep(l, w.cache, frame),
       consumers := Wake(w.consumers, frame.keyframe),
       targets := Awake(w.consumers, frame.keyframe, w.nextId),
       delivered := w.delivered + [frame],
       starts := StartsAfter(w, frame))
  }

  /** A waiting consumer woken by a keyframe starts with it. */
  ghost function StartsAfter(w: World, frame: Frame): map<nat, int> {
    map id | id in w.starts ::
      if id in w.consumers && w.consumers[id] && frame.keyframe then |w.delivered| else w.starts[id]
  }

  function CallStep(w: World): World
    requires w.targets != [] && w.delivered != []
  {
    var id := w.targets[0];
    w.(targets := w.targets[1..],
       logs := w.logs[id := (if id in w.logs then w.logs[id] else []) + [w.delivered[|w.delivered| - 1]]])
  }

  function ClearStep(w: World): World {
    w.(consumers := map[], cache := NoCache, clearedAt := |w.delivered|)
  }

  /** One atomic step. The delivering thread starts a frame only when it has finished the last
      one, and calls a sink only when it has one to call; other threads are never blocked. */
  ghost function Step(l: Limits, w: World, e: Event): World {
    match e
    case Add(prime) => AddStep(l, w, prime)
    case Remove(id) => w.(consumers := w.consumers - {id})
    case Deliver(frame) => if w.targets == [] then DeliverStep(l, w, frame) else w
    case CallSink => if w.targets != [] && w.delivered != [] then CallStep(w) else w
    case Clear => ClearStep(w)
  }

  ghost function Run(l: Limits, events: seq<Event>): World {
    if events == [] then Empty else Step(l, Run(l, events[..|events| - 1]), events[|events| - 1])
  }

  // ---------------------------------------------------------------- the cache

  /** The frames since the last keyframe, counting it; all of them when there was none. */
  function SinceKeyframe(frames: seq<Frame>): seq<Frame> {
    if frames == [] then []
    else
      var last := frames[|frames| - 1];
      if last.keyframe then [last] else SinceKeyframe(frames[..|frames| - 1]) + [last]
  }

  lemma {:induction false} SinceKeyframeIsSuffix(frames: seq<Frame>)
    ensures var since := SinceKeyframe(frames);
            |since| <= |frames| && since == frames[|frames| - |since|..]
  {
    if frames != [] {
      var before := frames[..|frames| - 1];
      SinceKeyframeIsSuffix(before);
      var from := |before| - |SinceKeyframe(before)|;
      assert before[from..] + [frames[|frames| - 1]] == frames[from..];
      assert [frames[|frames| - 1]] == frames[|frames| - 1..];
    }
  }

  predicate Fits(l: Limits, frames: seq<Frame>) {
    l.enabled && |frames| <= l.maxFrames && Bytes(frames) <= l.maxBytes
  }

  /** The frames delivered since the fan-out was made or last cleared. */
  function Lifetime(w: World): seq<Frame>
    requires w.clearedAt <= |w.delivered|
  {
    w.delivered[w.clearedAt..]
  }

  /** What a cache holds after a lifetime of frames, said without replaying them. */
  ghost predicate CacheOk(l: Limits, c: Cache, life: seq<Frame>) {
    var since := SinceKeyframe(life);
    && c.gop == (if Fits(l, since) then since else [])
    && c.bytes == Bytes(c.gop)
    && c.overflowed == (l.enabled && !Fits(l, since))
  }

  lemma CacheStepOk(l: Limits, c: Cache, life: seq<Frame>, frame: Frame)
    requires CacheOk(l, c, life)
    ensures CacheOk(l, CacheStep(l, c, frame), life + [frame])
  {
    assert (life + [frame])[..|life|] == life;
    var since := if frame.keyframe then [] else SinceKeyframe(life);
    assert SinceKeyframe(life + [frame]) == since + [frame];
    BytesAppend(since, frame);
    if frame.keyframe {
      assert CacheStep(l, c, frame) == CacheStep(l, NoCache, frame);
    }
  }

  lemma BytesAppend(frames: seq<Frame>, frame: Frame)
    ensures Bytes(frames + [frame]) == Bytes(frames) + |frame.payload|
  {
    assert (frames + [frame])[..|frames|] == frames;
  }

  /** In every reachable state the cache holds exactly the frames delivered since the last
      keyframe if they fit both limits and nothing otherwise, with their exact size. */
  lemma {:induction false} CacheIsExact(l: Limits, events: seq<Event>)
    ensures var w := Run(l, events); w.clearedAt <= |w.delivered| && CacheOk(l, w.cache, Lifetime(w))
  {
    if events != [] {
      var before := events[..|events| - 1];
      CacheIsExact(l, before);
      StepKeepsCache(l, Run(l, before), events[|events| - 1]);
    }
  }

  lemma StepKeepsCache(l: Limits, w: World, e: Event)
    requires w.clearedAt <= |w.delivered| && CacheOk(l, w.cache, Lifetime(w))
    ensures var v := Step(l, w, e); v.clearedAt <= |v.delivered| && CacheOk(l, v.cache, Lifetime(v))
  {
    if e.Deliver? {
      CacheStepOk(l, w.cache, Lifetime(w), e.frame);
      assert (w.delivered + [e.frame])[w.clearedAt..] == Lifetime(w) + [e.frame];
    }
  }

  // ---------------------------------------------------------------- the consumers

  /** What consumer `id` was handed is the stretch of the delivered frames from `starts[id]`. */
  ghost predicate Contiguous(w: World, id: nat)
    requires id in w.logs && id in w.starts
  {
    && 0 <= w.starts[id] <= w.starts[id] + |w.logs[id]| <= |w.delivered|
    && w.logs[id] == w.delivered[w.starts[id]..w.starts[id] + |w.logs[id]|]
  }

  /** How far a consumer that is not waiting has got: up to the last delivered frame, or one
      short of it while the delivering thread has still to call it. */
  ghost predicate CaughtUp(w: World, id: nat)
    requires id in w.logs && id in w.starts
  {
    w.starts[id] + |w.logs[id]| + (if id in w.targets then 1 else 0) == |w.delivered|
  }

  /** Where a consumer stands: a waiting one has nothing and is not being called, any other is
      caught up, and so is one that is still to be called although it has been removed. */
  ghost predicate ConsumerOk(w: World, id: nat)
    requires id in w.logs && id in w.starts
  {
    && Contiguous(w, id)
    && (id in w.targets ==> CaughtUp(w, id))
    && (id in w.consumers ==>
          if w.consumers[id] then w.logs[id] == [] && id !in w.targets else CaughtUp(w, id))
  }

  ghost predicate IdsOk(w: World) {
    && w.logs.Keys == w.starts.Keys
    && (forall id :: id in w.logs ==> id < w.nextId)
    && (forall id :: id in w.targets ==> id in w.logs)
    && (forall id :: id in w.consumers ==> id in w.logs)
    && (forall i, j :: 0 <= i < j < |w.targets| ==> w.targets[i] != w.targets[j])
    && (w.targets != [] ==> w.delivered != [])
  }

  ghost predicate ConsumersOk(w: World) {
    IdsOk(w) && forall id :: id in w.logs ==> ConsumerOk(w, id)
  }

  lemma {:induction false} AwakeElements(consumers: map<nat, bool>, keyframe: bool, n: nat)
    ensures var ids := Awake(consumers, keyframe, n);
            && (forall id :: id in ids <==> 0 <= id < n && id in consumers && (consumers[id] ==> keyframe))
            && (forall i, j :: 0 <= i < j < |ids| ==> ids[i] < ids[j])
  {
    if n != 0 {
      AwakeElements(consumers, keyframe, n - 1);
      var shorter := Awake(consumers, keyframe, n - 1);
      forall i | 0 <= i < |shorter| ensures shorter[i] < n - 1 { assert shorter[i] in shorter; }
    }
  }

  lemma AddOk(l: Limits, w: World, prime: bool)
    requires w.clearedAt <= |w.delivered| && CacheOk(l, w.cache, Lifetime(w)) && ConsumersOk(w)
    ensures ConsumersOk(AddStep(l, w, prime))
  {
    var v := AddStep(l, w, prime);
    forall id | id in w.logs ensures ConsumerOk(v, id) { assert ConsumerOk(w, id); }
    assert ConsumerOk(v, w.nextId) by { AddedOk(l, w, prime); }
  }

  lemma AddedOk(l: Limits, w: World, prime: bool)
    requires w.clearedAt <= |w.delivered| && CacheOk(l, w.cache, Lifetime(w))
    requires forall id :: id in w.targets ==> id != w.nextId
    ensures ConsumerOk(AddStep(l, w, prime), w.nextId)
  {
    SinceKeyframeIsSuffix(Lifetime(w));
  }

  lemma DeliverOk(l: Limits, w: World, frame: Frame)
    requires ConsumersOk(w) && w.targets == []
    ensures ConsumersOk(DeliverStep(l, w, frame))
  {
    var v := DeliverStep(l, w, frame);
    AwakeElements(w.consumers, frame.keyframe, w.nextId);
    forall i, j | 0 <= i < j < |v.targets| ensures v.targets[i] != v.targets[j] {
      assert v.targets[i] < v.targets[j];
    }
    forall id | id in v.logs ensures ConsumerOk(v, id) { assert ConsumerOk(w, id); }
  }

  lemma CallOk(w: World)
    requires ConsumersOk(w) && w.targets != []
    ensures ConsumersOk(CallStep(w))
  {
    var v := CallStep(w);
    assert w.targets[0] in w.targets;
    forall id | id in v.logs ensures ConsumerOk(v, id) { CalledOk(w, id); }
  }

  lemma CalledOk(w: World, id: nat)
    requires IdsOk(w) && w.targets != [] && id in w.logs && ConsumerOk(w, id)
    ensures id in CallStep(w).logs && id in CallStep(w).starts && ConsumerOk(CallStep(w), id)
  {
    assert w.targets[0] in w.targets;
    if id != w.targets[0] && id in w.targets { assert id in w.targets[1..]; }
  }

  /** For every interleaving, every consumer ever added has been handed a contiguous run of the
      delivered frames: no gap, no duplicate, no reordering, primed or not. */
  lemma {:induction false} RunsAreContiguous(l: Limits, events: seq<Event>)
    ensures ConsumersOk(Run(l, events))
  {
    if events != [] {
      var before := events[..|events| - 1];
      RunsAreContiguous(l, before);
      CacheIsExact(l, before);
      StepOk(l, Run(l, before), events[|events| - 1]);
    }
  }

  lemma StepOk(l: Limits, w: World, e: Event)
    requires w.clearedAt <= |w.delivered| && CacheOk(l, w.cache, Lifetime(w)) && ConsumersOk(w)
    ensures ConsumersOk(Step(l, w, e))
  {
    match e
    case Add(prime) => AddOk(l, w, prime);
    case Remove(id) => ForgetOk(w, w.(consumers := w.consumers - {id}));
    case Deliver(frame) => if w.targets == [] { DeliverOk(l, w, frame); }
    case CallSink => if w.targets != [] { CallOk(w); }
    case Clear => ForgetOk(w, ClearStep(w));
  }

  /** Consumers going away changes nothing for the ones that stay, or for calls under way. */
  lemma ForgetOk(w: World, v: World)
    requires ConsumersOk(w)
    requires v.logs == w.logs && v.starts == w.starts && v.delivered == w.delivered
    requires v.targets == w.targets && v.nextId == w.nextId
    requires forall id :: id in v.consumers ==> id in w.consumers && v.consumers[id] == w.consumers[id]
    ensures ConsumersOk(v)
  {
    forall id | id in v.logs ensures ConsumerOk(v, id) { assert ConsumerOk(w, id); }
  }

  // ---------------------------------------------------------------- starting at a keyframe

  ghost predicate HasKeyframe(frames: seq<Frame>) {
    exists i :: 0 <= i < |frames| && frames[i].keyframe
  }

  /** The cache holds something, but nothing a decoder can start from: deltas only since the
      fan-out was made or cleared. */
  ghost predicate Headless(l: Limits, w: World)
    requires w.clearedAt <= |w.delivered|
  {
    Lifetime(w) != [] && !HasKeyframe(Lifetime(w)) && Fits(l, Lifetime(w))
  }

  /** Somewhere in this run a consumer that asked to be primed joined a headless cache. */
  ghost predicate PrimesHeadless(l: Limits, events: seq<Event>) {
    events != [] &&
    var before := events[..|events| - 1];
    PrimesHeadless(l, before) ||
    (events[|events| - 1] == Add(true) &&
     Run(l, before).clearedAt <= |Run(l, before).delivered| && Headless(l, Run(l, before)))
  }

  ghost predicate StartsAtKeyframes(w: World) {
    forall id :: id in w.logs && w.logs[id] != [] ==> w.logs[id][0].keyframe
  }

  /** A consumer with nothing yet is either waiting or about to be handed a keyframe. */
  ghost predicate FirstCallsOk(w: World) {
    && (forall id :: id in w.targets && id in w.logs && w.logs[id] == [] ==>
          w.delivered != [] && w.delivered[|w.delivered| - 1].keyframe)
    && (forall id :: id in w.consumers && id in w.logs && !w.consumers[id] && w.logs[id] == [] ==> id in w.targets)
  }

  lemma {:induction false} SinceKeyframeStart(frames: seq<Frame>)
    ensures var since := SinceKeyframe(frames);
            if HasKeyframe(frames) then since != [] && since[0].keyframe else since == frames
  {
    if frames != [] {
      var before := frames[..|frames| - 1];
      SinceKeyframeStart(before);
      if HasKeyframe(frames) && !frames[|frames| - 1].keyframe {
        var i :| 0 <= i < |frames| && frames[i].keyframe;
        assert before[i].keyframe;
      }
      if !HasKeyframe(frames) {
        forall i | 0 <= i < |before| ensures !before[i].keyframe { assert !frames[i].keyframe; }
        assert !frames[|frames| - 1].keyframe;
      }
    }
  }

  /** Over every interleaving: all consumers start at a keyframe, if and only if none was primed
      from a cache of deltas alone. */
  lemma {:induction false} KeyframeStartsExactly(l: Limits, events: seq<Event>)
    ensures StartsAtKeyframes(Run(l, events)) <==> !PrimesHeadless(l, events)
    ensures FirstCallsOk(Run(l, events))
  {
    if events != [] {
      var before := events[..|events| - 1];
      KeyframeStartsExactly(l, before);
      RunsAreContiguous(l, before);
      CacheIsExact(l, before);
      StepStart(l, Run(l, before), events[|events| - 1]);
    }
  }

  lemma StepStart(l: Limits, w: World, e: Event)
    requires w.clearedAt <= |w.delivered| && CacheOk(l, w.cache, Lifetime(w)) && ConsumersOk(w) && FirstCallsOk(w)
    ensures FirstCallsOk(Step(l, w, e))
    ensures StartsAtKeyframes(Step(l, w, e)) <==> StartsAtKeyframes(w) && !(e == Add(true) && Headless(l, w))
  {
    hide CacheOk;
    hide Headless;
    hide AddStep;
    hide CallStep;
    hide CacheStep;
    match e
    case Add(prime) => AddStart(l, w, prime);
    case Deliver(frame) => AwakeElements(w.consumers, frame.keyframe, w.nextId);
    case CallSink => if w.targets != [] { CallStart(w); }
    case _ =>
  }

  ghost predicate KeyframeFirst(frames: seq<Frame>) {
    frames != [] ==> frames[0].keyframe
  }

  lemma AddStart(l: Limits, w: World, prime: bool)
    requires w.clearedAt <= |w.delivered| && CacheOk(l, w.cache, Lifetime(w)) && ConsumersOk(w) && FirstCallsOk(w)
    ensures FirstCallsOk(AddStep(l, w, prime))
    ensures StartsAtKeyframes(AddStep(l, w, prime)) <==> StartsAtKeyframes(w) && !(prime && Headless(l, w))
  {
    var burst := if CanPrime(l, w, prime) then w.cache.gop else [];
    assert KeyframeFirst(burst) <==> !(prime && Headless(l, w)) by { PrimedStart(l, w); }
    LogsExtended(w, AddStep(l, w, prime), burst);
  }

  lemma LogsExtended(w: World, v: World, burst: seq<Frame>)
    requires ConsumersOk(w) && FirstCallsOk(w)
    requires v.logs == w.logs[w.nextId := burst]
    requires v.consumers == w.consumers[w.nextId := burst == []]
    requires v.targets == w.targets && v.delivered == w.delivered
    ensures FirstCallsOk(v)
    ensures StartsAtKeyframes(v) <==> StartsAtKeyframes(w) && KeyframeFirst(burst)
  {
    assert v.logs[w.nextId] == burst;
    forall id | id in w.logs ensures v.logs[id] == w.logs[id] && id in v.logs {}
  }

  /** What a primed consumer starts with, in terms of the frames delivered. */
  lemma PrimedStart(l: Limits, w: World)
    requires w.clearedAt <= |w.delivered| && CacheOk(l, w.cache, Lifetime(w))
    ensures w.cache.gop != [] ==> l.enabled && (KeyframeFirst(w.cache.gop) <==> !Headless(l, w))
    ensures Headless(l, w) ==> l.enabled && w.cache.gop != []
  {
    var life := Lifetime(w);
    SinceKeyframeStart(life);
    if life != [] && life[0].keyframe { assert HasKeyframe(life); }
  }

  lemma CallStart(w: World)
    requires ConsumersOk(w) && FirstCallsOk(w) && w.targets != []
    ensures FirstCallsOk(CallStep(w)) && (StartsAtKeyframes(CallStep(w)) <==> StartsAtKeyframes(w))
  {
    hide ConsumerOk;
    var v := CallStep(w);
    var called := w.targets[0];
    assert called in w.targets && called in w.logs;
    assert v.logs.Keys == w.logs.Keys && v.logs[called] == w.logs[called] + [w.delivered[|w.delivered| - 1]];
    forall id | id in w.logs && id != called ensures v.logs[id] == w.logs[id] {}
    StartsSame(w, v, called);
    forall id | id in w.targets && id != called ensures id in v.targets {}
  }

  lemma StartsSame(w: World, v: World, called: nat)
    requires w.targets != [] && called == w.targets[0] && called in w.logs && w.delivered != [] && FirstCallsOk(w)
    requires v.logs.Keys == w.logs.Keys && v.logs[called] == w.logs[called] + [w.delivered[|w.delivered| - 1]]
    requires forall id :: id in w.logs && id != called ==> v.logs[id] == w.logs[id]
    ensures StartsAtKeyframes(v) <==> StartsAtKeyframes(w)
  {
    assert called in w.targets;
  }

  /** This consumer asked to be primed when it joined, and the cache was headless. */
  ghost predicate PrimedHeadless(l: Limits, events: seq<Event>, id: nat) {
    events != [] &&
    var before := events[..|events| - 1];
    PrimedHeadless(l, before, id) ||
    (events[|events| - 1] == Add(true) && Run(l, before).nextId == id &&
     Run(l, before).clearedAt <= |Run(l, before).delivered| && Headless(l, Run(l, before)))
  }

  lemma {:induction false} StartOfOneExactly(l: Limits, events: seq<Event>, id: nat)
    ensures id in Run(l, events).logs ==> (KeyframeFirst(Run(l, events).logs[id]) <==> !PrimedHeadless(l, events, id))
    ensures PrimedHeadless(l, events, id) ==> id in Run(l, events).logs && PrimesHeadless(l, events)
  {
    if events != [] {
      var before := events[..|events| - 1];
      StartOfOneExactly(l, before, id);
      RunsAreContiguous(l, before);
      CacheIsExact(l, before);
      KeyframeStartsExactly(l, before);
      StepStartOfOne(l, Run(l, before), events[|events| - 1], id);
      hide Step;
      hide ConsumersOk;
      hide Headless;
      hide KeyframeFirst;
    }
  }

  lemma StepStartOfOne(l: Limits, w: World, e: Event, id: nat)
    requires w.clearedAt <= |w.delivered| && CacheOk(l, w.cache, Lifetime(w)) && ConsumersOk(w) && FirstCallsOk(w)
    ensures w.nextId !in w.logs
    ensures id in w.logs ==> id in Step(l, w, e).logs && (KeyframeFirst(Step(l, w, e).logs[id]) <==> KeyframeFirst(w.logs[id]))
    ensures id !in w.logs && id in Step(l, w, e).logs ==>
              id == w.nextId && e.Add? && (KeyframeFirst(Step(l, w, e).logs[id]) <==> !(e == Add(true) && Headless(l, w)))
    ensures e.Add? && id == w.nextId ==> id in Step(l, w, e).logs
  {
    PrimedStart(l, w);
    hide Headless;
    hide CacheOk;
    if e.CallSink? && w.targets != [] {
      assert w.targets[0] in w.targets && w.targets[0] in w.logs;
    }
  }

  /** Over every interleaving, for one consumer: it was handed a contiguous run of the delivered
      frames, which starts with a keyframe, if it has started, exactly when this consumer was not
      primed from a cache of deltas alone. */
  lemma ConsumerRun(l: Limits, events: seq<Event>, id: nat)
    requires id in Run(l, events).logs
    ensures var w := Run(l, events);
            && id in w.starts && 0 <= w.starts[id] <= w.starts[id] + |w.logs[id]| <= |w.delivered|
            && w.logs[id] == w.delivered[w.starts[id]..w.starts[id] + |w.logs[id]|]
            && (w.logs[id] == [] || w.logs[id][0].keyframe <==> !PrimedHeadless(l, events, id))
  {
    hide Run;
    hide PrimedHeadless;
    RunsAreContiguous(l, events);
    StartOfOneExactly(l, events, id);
    assert ConsumerOk(Run(l, events), id);
  }

  /** The caller's side of that: every lifetime of the stream opens with a keyframe. */
  ghost predicate OpensWithKeyframes(l: Limits, events: seq<Event>) {
    events != [] ==>
      var before := events[..|events| - 1];
      var w := Run(l, before);
      && OpensWithKeyframes(l, before)
      && (events[|events| - 1].Deliver? && |w.delivered| == w.clearedAt ==> events[|events| - 1].frame.keyframe)
  }

  lemma {:induction false} OpeningKeyframesSuffice(l: Limits, events: seq<Event>)
    requires OpensWithKeyframes(l, events)
    ensures !PrimesHeadless(l, events) && forall id :: !PrimedHeadless(l, events, id)
    ensures var w := Run(l, events);
            w.clearedAt <= |w.delivered| && (w.clearedAt < |w.delivered| ==> w.delivered[w.clearedAt].keyframe)
  {
    forall id: nat | PrimedHeadless(l, events, id) ensures PrimesHeadless(l, events) { StartOfOneExactly(l, events, id); }
    if events != [] {
      var w := Run(l, events[..|events| - 1]);
      OpeningKeyframesSuffice(l, events[..|events| - 1]);
      if w.clearedAt < |w.delivered| { assert Lifetime(w)[0].keyframe; }
    }
  }

  /** The same stream without an opening keyframe: a delta is cached, and the next viewer is
      primed with it alone. */
  lemma HeadlessPrimeHappens(frame: Frame)
    requires !frame.keyframe
    requires |frame.payload| <= 4 * 1024 * 1024
    ensures var w := Run(Limits(true, 300, 4 * 1024 * 1024), [Deliver(frame), Add(true)]);
            1 in w.logs && w.logs[1] == [frame]
  {
    var l := Limits(true, 300, 4 * 1024 * 1024);
    var events := [Deliver(frame), Add(true)];
    assert events[..1] == [Deliver(frame)] && [Deliver(frame)][..0] == [];
    assert Run(l, [Deliver(frame)]) == Step(l, Empty, Deliver(frame));
    assert Awake(map[], frame.keyframe, 1) == [];
  }

  lemma AddIs(l: Limits, w: World, prime: bool)
    ensures var v, primes := Step(l, w, Event.Add(prime)), prime && l.enabled && w.cache.gop != [];
            && v.consumers == w.consumers[w.nextId := !primes] && v.nextId == w.nextId + 1 && v.cache == w.cache
            && v.logs == w.logs[w.nextId := if primes then w.cache.gop else []]
            && v.primed == w.primed + (if primes then 1 else 0) && v.waited == w.waited + (if primes then 0 else 1)
  {
  }

  // What the class below needs to know of the states an interleaving reaches.

  lemma IdsKnown(l: Limits, events: seq<Event>)
    ensures var w := Run(l, events);
            && (forall id :: id in w.consumers ==> id < w.nextId)
            && w.nextId !in w.logs
            && (w.targets != [] ==> w.targets[0] in w.logs && w.delivered != [])
  {
    RunsAreContiguous(l, events);
    assert var w := Run(l, events); w.targets != [] ==> w.targets[0] in w.targets;
  }

  lemma NewId(l: Limits, events: seq<Event>)
    ensures Run(l, events).nextId !in Run(l, events).logs
  {
    IdsKnown(l, events);
  }

  lemma NobodyBehind(l: Limits, events: seq<Event>)
    requires Run(l, events).targets == []
    ensures var w := Run(l, events);
            forall id :: id in w.consumers && !w.consumers[id] ==>
                           id in w.logs && id in w.starts && 0 <= w.starts[id] <= |w.delivered|
                           && w.logs[id] == w.delivered[w.starts[id]..]
  {
    RunsAreContiguous(l, events);
    var w := Run(l, events);
    forall id | id in w.consumers && !w.consumers[id]
      ensures id in w.logs && id in w.starts && 0 <= w.starts[id] <= |w.delivered|
      ensures w.logs[id] == w.delivered[w.starts[id]..]
    {
      assert ConsumerOk(w, id);
    }
  }

  // ---------------------------------------------------------------- who is served, and from where

  function Adds(events: seq<Event>): nat {
    if events == [] then 0 else Adds(events[..|events| - 1]) + (if events[|events| - 1].Add? then 1 else 0)
  }

  /** Event `i` is the `add` that gave `id`, and nobody has removed that consumer since. */
  ghost predicate JoinedAt(events: seq<Event>, id: nat, i: nat) {
    && i < |events| && events[i].Add? && id == Adds(events[..i]) + 1
    && forall j :: i < j < |events| ==> events[j] != Remove(id) && events[j] != Clear
  }

  /** The first keyframe at or after `from`, or the length when there is none. */
  function FirstKeyframe(frames: seq<Frame>, from: nat): (k: nat)
    requires from <= |frames|
    ensures from <= k <= |frames|
    ensures k < |frames| ==> frames[k].keyframe
    ensures forall j :: from <= j < k ==> !frames[j].keyframe
    decreases |frames| - from
  {
    if from == |frames| || frames[from].keyframe then from else FirstKeyframe(frames, from + 1)
  }

  /** The consumer that event `i` adds is primed: it asks for it, and what was delivered since the
      last keyframe of this lifetime is something and within the limits. */
  ghost predicate PrimedAt(l: Limits, events: seq<Event>, i: nat)
    requires i < |events|
  {
    var w := Run(l, events[..i]);
    && events[i] == Add(true) && w.clearedAt <= |w.delivered|
    && SinceKeyframe(Lifetime(w)) != [] && Fits(l, SinceKeyframe(Lifetime(w)))
  }

  /** Where in the delivered frames the run of the consumer that event `i` adds begins: with the
      cached frames when it is primed, else with the first keyframe after it joined. */
  ghost function StartOf(l: Limits, events: seq<Event>, i: nat): int
    requires i < |events|
  {
    var w := Run(l, events[..i]);
    var all := Run(l, events).delivered;
    if PrimedAt(l, events, i) then |w.delivered| - |SinceKeyframe(Lifetime(w))|
    else if |w.delivered| <= |all| then FirstKeyframe(all, |w.delivered|)
    else |all|
  }

  lemma {:induction false} IdsCountAdds(l: Limits, events: seq<Event>)
    ensures Run(l, events).nextId == Adds(events) + 1
  {
    if events != [] { IdsCountAdds(l, events[..|events| - 1]); }
  }

  /** Where a consumer of `w` is to start, once it is known whether it was primed. */
  ghost predicate Stands(w: World, id: nat, primed: bool, joined: nat, burst: nat) {
    && id in w.consumers && id in w.starts && burst <= joined <= |w.delivered| && (primed ==> burst > 0)
    && var from := if primed then joined - burst else FirstKeyframe(w.delivered, joined);
    && (w.consumers[id] <==> from == |w.delivered|)
    && (!w.consumers[id] ==> w.starts[id] == from)
  }

  lemma StepStands(l: Limits, w: World, e: Event, id: nat, primed: bool, joined: nat, burst: nat)
    requires Stands(w, id, primed, joined, burst) && id < w.nextId
    requires e != Remove(id) && e != Clear
    ensures Stands(Step(l, w, e), id, primed, joined, burst)
  {
    hide CacheStep;
    if e.Deliver? && w.targets == [] {
      var v := Step(l, w, e);
      assert v.delivered[..|w.delivered|] == w.delivered;
      assert v.delivered[|w.delivered|] == e.frame;
    }
  }

  lemma AddStands(l: Limits, events: seq<Event>, i: nat)
    requires i < |events| && events[i].Add?
    ensures var w := Run(l, events[..i]);
            && w.clearedAt <= |w.delivered|
            && Stands(Step(l, w, events[i]), Adds(events[..i]) + 1, PrimedAt(l, events, i), |w.delivered|,
                      |SinceKeyframe(Lifetime(w))|)
  {
    hide Run;
    hide AddStep;
    hide CacheOk;
    hide Stands;
    CacheIsExact(l, events[..i]);
    IdsCountAdds(l, events[..i]);
    NewStands(l, Run(l, events[..i]), events[i].prime);
  }

  lemma NewStands(l: Limits, w: World, prime: bool)
    requires w.clearedAt <= |w.delivered| && CacheOk(l, w.cache, Lifetime(w))
    ensures var since := SinceKeyframe(Lifetime(w));
            Stands(AddStep(l, w, prime), w.nextId, prime && since != [] && Fits(l, since), |w.delivered|, |since|)
  {
    hide SinceKeyframe;
    SinceKeyframeIsSuffix(Lifetime(w));
    assert w.delivered[..|w.delivered|] == w.delivered;
  }

  lemma {:induction false} JoinedStands(l: Limits, events: seq<Event>, id: nat, i: nat)
    requires JoinedAt(events, id, i)
    ensures var w := Run(l, events[..i]);
            && w.clearedAt <= |w.delivered|
            && Stands(Run(l, events), id, PrimedAt(l, events, i), |w.delivered|, |SinceKeyframe(Lifetime(w))|)
  {
    hide Step;
    hide Stands;
    var n := |events| - 1;
    var before := events[..n];
    if i == n {
      AddStands(l, events, i);
    } else {
      assert before[..i] == events[..i] && before[i] == events[i];
      JoinedStands(l, before, id, i);
      IdsCountAdds(l, before);
      AddsGrow(before, i);
      var w := Run(l, events[..i]);
      StepStands(l, Run(l, before), events[n], id, PrimedAt(l, events, i), |w.delivered|, |SinceKeyframe(Lifetime(w))|);
    }
  }

  lemma {:induction false} AddsGrow(events: seq<Event>, i: nat)
    requires i < |events| && events[i].Add?
    ensures Adds(events[..i]) < Adds(events)
  {
    var before := events[..|events| - 1];
    if i < |before| {
      assert before[..i] == events[..i];
      AddsGrow(before, i);
    }
  }

  /** Over every interleaving, for every consumer that has been added and not removed: it is
      registered, it waits exactly while the frame it is to start with has not come, and it has
      been handed every frame from that one on, save the last while it is still to be called. */
  lemma EveryConsumerIsServed(l: Limits, events: seq<Event>, id: nat, i: nat)
    requires JoinedAt(events, id, i)
    ensures var w, from := Run(l, events), StartOf(l, events, i);
            && id in w.consumers && id in w.logs && 0 <= from <= |w.delivered|
            && (w.consumers[id] <==> from == |w.delivered|)
            && (id in w.targets ==> from < |w.delivered|)
            && w.logs[id] == w.delivered[from..|w.delivered| - (if id in w.targets then 1 else 0)]
  {
    hide Run;
    hide PrimedAt;
    JoinedStands(l, events, id, i);
    RunsAreContiguous(l, events);
    assert ConsumerOk(Run(l, events), id);
  }

  /** Over every interleaving: the consumers registered are those added and not removed since. */
  lemma {:induction false} RegisteredExactly(l: Limits, events: seq<Event>, id: nat)
    ensures id in Run(l, events).consumers <==> exists i :: JoinedAt(events, id, i)
  {
    if i :| JoinedAt(events, id, i) {
      JoinedStands(l, events, id, i);
    } else if id in Run(l, events).consumers {
      var i := WhoJoined(l, events, id);
    }
  }

  lemma StillRegistered(l: Limits, w: World, e: Event, id: nat)
    requires id in Step(l, w, e).consumers
    ensures e != Remove(id) && e != Clear && (id in w.consumers || (e.Add? && id == w.nextId))
  {
    hide CanPrime;
    hide CacheStep;
    hide Awake;
    hide StartsAfter;
  }

  lemma {:induction false} WhoJoined(l: Limits, events: seq<Event>, id: nat) returns (i: nat)
    requires id in Run(l, events).consumers
    ensures JoinedAt(events, id, i)
  {
    hide Step;
    var n := |events| - 1;
    var before, e := events[..n], events[n];
    IdsCountAdds(l, before);
    StillRegistered(l, Run(l, before), e, id);
    if e.Add? && id == Run(l, before).nextId {
      i := n;
    } else {
      i := WhoJoined(l, before, id);
      assert before[..i] == events[..i];
    }
  }

  ghost function PrimedSoFar(l: Limits, events: seq<Event>): nat {
    if events == [] then 0
    else
      PrimedSoFar(l, events[..|events| - 1]) + (if PrimedAt(l, events, |events| - 1) then 1 else 0)
  }

  /** The two statistics: every `add` is counted once, as primed or as made to wait. */
  lemma {:induction false} StatsAreExact(l: Limits, events: seq<Event>)
    ensures var w := Run(l, events); w.primed == PrimedSoFar(l, events) && w.primed + w.waited == Adds(events)
  {
    if events != [] {
      var before, e := events[..|events| - 1], events[|events| - 1];
      StatsAreExact(l, before);
      CacheIsExact(l, before);
      if e.Add? { AddIs(l, Run(l, before), e.prime); }
    }
  }

  // ---------------------------------------------------------------- the class

  class SinkFanout {
    const limits: Limits
    var consumers: map<nat, bool>
    var nextId: nat
    var gop: seq<Frame>
    var gopBytes: nat
    var overflowed: bool
    var primed: nat
    var waited: nat
    /** References to frames taken with retain and not yet released. */
    ghost var refs: multiset<Frame>
    /** What the sinks have been called with, by consumer id. */
    ghost var logs: map<nat, seq<Frame>>
    /** The atomic steps taken so far. */
    ghost var history: seq<Event>
    /** Where they lead. */
    ghost var past: World

    ghost function State(): Cache
      reads this
    {
      Cache(gop, gopBytes, overflowed)
    }

    /** The fields are what the steps so far lead to, and each cached frame is owned exactly once. */
    ghost predicate Valid()
      reads this
    {
      && past == Run(limits, history)
      && refs == multiset(gop)
      && consumers == past.consumers && nextId == past.nextId
      && State() == past.cache
      && primed == past.primed && waited == past.waited
      && logs == past.logs
    }

    constructor (limits: Limits)
      ensures Valid() && this.limits == limits && history == []
    {
      this.limits := limits;
      consumers, nextId, gop, gopBytes, overflowed := map[], 1, [], 0, false;
      primed, waited := 0, 0;
      refs, logs, history, past := multiset{}, map[], [], Empty;
    }

    method Retain(frame: Frame)
      modifies this`refs
      ensures refs == old(refs) + multiset{frame}
    {
      refs := refs + multiset{frame};
    }

    method Release(frame: Frame)
      requires frame in refs
      modifies this`refs
      ensures refs == old(refs) - multiset{frame}
    {
      refs := refs - multiset{frame};
    }

    /** Lets go of every cached frame, each exactly once. */
    method DropGop()
      requires refs == multiset(gop)
      modifies this`refs, this`gop, this`gopBytes
      ensures refs == multiset{} && gop == [] && gopBytes == 0
    {
      for i := 0 to |gop|
        invariant gop == old(gop) && refs == multiset(gop[i..])
      {
        assert gop[i..] == [gop[i]] + gop[i + 1..];
        Release(gop[i]);
      }
      gop, gopBytes := [], 0;
    }

    /** Writes down a step; the fields must then show its effect. */
    ghost method Record(e: Event)
      requires past == Run(limits, history)
      modifies this`history, this`past
      ensures history == old(history) + [e]
      ensures past == Step(limits, old(past), e) && past == Run(limits, history)
    {
      assert (history + [e])[..|history|] == history;
      history, past := history + [e], Step(limits, past, e);
    }

    /** One sink call: what the consumer was handed grows by the frame. */
    method Sink(id: nat, frame: Frame)
      requires id in logs
      modifies this`logs
      ensures logs == old(logs)[id := old(logs)[id] + [frame]]
    {
      logs := logs[id := logs[id] + [frame]];
    }

    method Add(prime: bool) returns (id: nat)
      requires Valid()
      modifies this
      ensures Valid() && history == old(history) + [Event.Add(prime)]
      ensures id == old(nextId) && id !in old(logs)
    {
      hide Run;
      hide Step;
      hide CanPrime;
      AddIs(limits, past, prime);
      NewId(limits, history);
      Record(Event.Add(prime));
      var canPrime := prime && limits.enabled && gop != [];
      id := Register(!canPrime);
      if !canPrime {
        waited := waited + 1;
        return;
      }
      Prime(id);
      primed := primed + 1;
    }

    method Register(waiting: bool) returns (id: nat)
      modifies this`nextId, this`consumers, this`logs
      ensures id == old(nextId) && nextId == id + 1
      ensures consumers == old(consumers)[id := waiting] && logs == old(logs)[id := []]
    {
      id := nextId;
      nextId := nextId + 1;
      consumers := consumers[id := waiting];
      logs := logs[id := []];
    }

    /** Hands a new consumer the cached frames. */
    method Prime(id: nat)
      requires id in logs && logs[id] == []
      modifies this`logs
      ensures logs == old(logs)[id := gop]
    {
      for i := 0 to |gop|
        invariant logs == old(logs)[id := gop[..i]]
      {
        assert gop[..i] + [gop[i]] == gop[..i + 1];
        Sink(id, gop[i]);
      }
      assert gop[..|gop|] == gop;
    }

    method Remove(id: nat)
      requires Valid()
      modifies this`consumers, this`history, this`past
      ensures Valid() && history == old(history) + [Event.Remove(id)]
    {
      hide Run;
      Record(Event.Remove(id));
      consumers := consumers - {id};
    }

    method Clear()
      requires Valid()
      modifies this
      ensures Valid() && history == old(history) + [Event.Clear]
      ensures refs == multiset{}
    {
      hide Run;
      Record(Event.Clear);
      consumers := map[];
      DropGop();
      overflowed := false;
    }

    /** The cache's share of `deliver`. */
    method Keep(frame: Frame)
      requires refs == multiset(gop)
      modifies this`refs, this`gop, this`gopBytes, this`overflowed
      ensures refs == multiset(gop) && State() == CacheStep(limits, old(State()), frame)
    {
      if !limits.enabled { return; }
      if frame.keyframe {
        DropGop();
        overflowed := false;
      }
      assert State() == if frame.keyframe then NoCache else old(State());
      if overflowed { return; }
      Append(frame);
    }

    /** Grows the cache by a frame, or gives it up until the next keyframe when that is too much. */
    method Append(frame: Frame)
      requires refs == multiset(gop) && limits.enabled && !overflowed && (frame.keyframe ==> State() == NoCache)
      modifies this`refs, this`gop, this`gopBytes, this`overflowed
      ensures refs == multiset(gop) && State() == CacheStep(limits, old(State()), frame)
    {
      var size := |frame.payload|;
      if |gop| + 1 > limits.maxFrames || gopBytes + size > limits.maxBytes {
        DropGop();
        overflowed := true;
      } else {
        Retain(frame);
        gop := gop + [frame];
        gopBytes := gopBytes + size;
      }
    }

    /** Walks the consumers in id order, waking the waiting ones when a keyframe comes. */
    method Collect(frame: Frame) returns (called: seq<nat>)
      requires forall id :: id in consumers ==> id < nextId
      modifies this`consumers
      ensures consumers == Wake(old(consumers), frame.keyframe)
      ensures consumers.Keys == old(consumers).Keys
      ensures forall id :: id in consumers ==> (consumers[id] <==> old(consumers)[id] && !frame.keyframe)
      ensures called == Awake(old(consumers), frame.keyframe, nextId)
    {
      called := [];
      for id := 0 to nextId
        invariant consumers.Keys == old(consumers).Keys
        invariant forall k :: k in consumers ==>
                                consumers[k] == (old(consumers)[k] && !(k < id && frame.keyframe))
        invariant called == Awake(old(consumers), frame.keyframe, id)
      {
        if id in consumers {
          if consumers[id] {
            if !frame.keyframe { continue; }
            consumers := consumers[id := false];
          }
          called := called + [id];
        }
      }
    }

    /** The part of `deliver` under the lock: the cache, then who is to be called. */
    method LockedPhase(frame: Frame) returns (called: seq<nat>)
      requires Valid() && past.targets == []
      modifies this
      ensures Valid() && history == old(history) + [Event.Deliver(frame)]
      ensures called == past.targets && past.delivered == old(past.delivered) + [frame]
      ensures consumers.Keys == old(consumers).Keys
      ensures forall id :: id in consumers ==> (consumers[id] <==> old(consumers)[id] && !frame.keyframe)
      ensures forall id :: id in called <==> id in old(consumers) && (old(consumers)[id] ==> frame.keyframe)
      ensures forall i, j :: 0 <= i < j < |called| ==> called[i] < called[j]
    {
      hide Run;
      hide Awake;
      hide Wake;
      hide CacheStep;
      hide StartsAfter;
      IdsKnown(limits, history);
      Record(Event.Deliver(frame));
      Keep(frame);
      AwakeElements(consumers, frame.keyframe, nextId);
      called := Collect(frame);
    }

    /** One unlocked sink call of the frame being delivered. */
    method CallSink(id: nat, frame: Frame)
      requires Valid() && past.targets != [] && id == past.targets[0]
      requires past.delivered != [] && frame == past.delivered[|past.delivered| - 1]
      modifies this`logs, this`history, this`past
      ensures Valid() && history == old(history) + [Event.CallSink]
      ensures past.targets == old(past.targets)[1..] && past.delivered == old(past.delivered)
    {
      hide Run;
      IdsKnown(limits, history);
      Record(Event.CallSink);
      Sink(id, frame);
    }

    /** The whole of `deliver` when no other thread gets in between: afterwards every consumer
        that is not waiting has all that was delivered since its run began. A null buffer does
        nothing. */
    method Deliver(buffer: Option<Frame>)
      requires Valid() && past.targets == []
      modifies this
      ensures Valid() && past.targets == []
      ensures buffer.None? ==> history == old(history)
      ensures buffer.Some? ==>
                && var w := past;
                && w.delivered == old(past.delivered) + [buffer.value]
                && consumers.Keys == old(consumers).Keys
                && (forall id :: id in consumers ==> (consumers[id] <==> old(consumers)[id] && !buffer.value.keyframe))
                && (forall id :: id in consumers && !consumers[id] ==>
                                   id in logs && id in w.starts && 0 <= w.starts[id] <= |w.delivered|
                                   && logs[id] == w.delivered[w.starts[id]..])
    {
      hide Run;
      if buffer.None? { return; }
      var called := LockedPhase(buffer.value);
      ghost var woken := consumers;
      for i := 0 to |called|
        invariant Valid() && past.targets == called[i..]
        invariant past.delivered == old(past.delivered) + [buffer.value]
        invariant consumers == woken
      {
        CallSink(called[i], buffer.value);
      }
      NobodyBehind(limits, history);
    }
  }
}
