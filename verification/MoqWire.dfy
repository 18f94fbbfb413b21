/** One viewer's socket (src/media/moq/MoqFeed.cpp:61-169). */
module MoqWire {
  import opened Frames
  import opened BackPressure
  import opened MoqFeed

  /** What the kernel answers a send with: it took some prefix, it had no room, or the
      connection is gone. */
  datatype Reply = Sent(count: nat) | WouldBlock | Broken

  /** The answer to every send of a connection's life, in order. */
  type Network = nat -> Reply

  /** What happened on the wire so far: sends made, octets the kernel took, frames pushed, the
      frames begun with their positions among the pushed, how many of those went to `pending`
      whole, and how many admitted frames died with the connection. */
  datatype Past = Past(calls: nat, accepted: seq<Byte>, pushed: nat, begun: seq<Frame>, positions: seq<nat>,
                       stashed: nat, lost: nat)

  datatype WireState = WireState(open: bool, alive: bool, frames: nat, dropped: nat, pending: seq<Byte>, gate: Gate,
                       past: Past)

  const Connected := WireState(true, true, 0, 0, [], Open, Past(0, [], 0, [], [], 0, 0))

  function Taken(r: Reply, size: nat): nat {
    if r.Sent? then (if r.count < size then r.count else size) else 0
  }

  function Took(p: Past, bytes: seq<Byte>): Past {
    p.(calls := p.calls + 1, accepted := p.accepted + bytes)
  }

  /** Sends what is left of the partial frame until it is gone, the kernel is full, or the
      connection dies. */
  function Flush(net: Network, w: WireState): WireState
    decreases |w.pending|
  {
    if w.pending == [] then w
    else
      var r := net(w.past.calls);
      var n := Taken(r, |w.pending|);
      if n > 0 then Flush(net, w.(pending := w.pending[n..], past := Took(w.past, w.pending[..n])))
      else w.(alive := r.WouldBlock?, past := Took(w.past, []))
  }

  /** The first send of an admitted frame, the one pushed after `at` others. */
  function Begin(net: Network, w: WireState, f: Frame, at: nat): WireState {
    var r := net(w.past.calls);
    var whole := Encode(f);
    var n := Taken(r, |whole|);
    var past := Took(w.past, whole[..n]).(begun := w.past.begun + [f], positions := w.past.positions + [at]);
    match r
    case Broken => w.(alive := false, past := Took(w.past, []).(lost := w.past.lost + 1))
    case WouldBlock => w.(pending := whole, past := past.(stashed := past.stashed + 1))
    case Sent(_) => w.(pending := whole[n..], frames := w.frames + 1, past := past)
  }

  /** A frame reaching the gate with the previous one flushed as far as it goes. */
  function Offer(net: Network, w: WireState, f: Frame, at: nat): WireState {
    var a := Arrival(f.keyframe, w.pending != []);
    var decided := w.(gate := Next(w.gate, a));
    if Admits(w.gate, a) then Begin(net, decided, f, at) else decided.(dropped := w.dropped + 1)
  }

  function PushStep(net: Network, w: WireState, f: Frame): WireState {
    var counted := w.(past := w.past.(pushed := w.past.pushed + 1));
    if !w.open || !w.alive then counted
    else
      var flushed := Flush(net, counted);
      if flushed.alive then Offer(net, flushed, f, w.past.pushed) else flushed
  }

  lemma {:induction false} FlushKeeps(net: Network, w: WireState)
    ensures var v := Flush(net, w);
            && v.past == w.past.(calls := v.past.calls, accepted := v.past.accepted)
            && v == w.(pending := v.pending, alive := v.alive, past := v.past)
            && v.past.accepted + v.pending == w.past.accepted + w.pending
            && |v.pending| <= |w.pending|
            && (w.alive && !v.alive ==> v.pending != [])
    decreases |w.pending|
  {
    if w.pending != [] {
      var n := Taken(net(w.past.calls), |w.pending|);
      if n > 0 {
        var next := w.(pending := w.pending[n..], past := Took(w.past, w.pending[..n]));
        FlushKeeps(net, next);
        assert next.past.accepted + next.pending == w.past.accepted + w.pending;
      }
    }
  }

  function CloseStep(w: WireState): WireState {
    w.(open := false, alive := false, pending := [])
  }

  datatype Op = Push(frame: Frame) | Close

  function Step(net: Network, w: WireState, op: Op): WireState {
    match op
    case Push(f) => PushStep(net, w, f)
    case Close => CloseStep(w)
  }

  function Run(net: Network, ops: seq<Op>): WireState {
    if ops == [] then Connected else Step(net, Run(net, ops[..|ops| - 1]), ops[|ops| - 1])
  }

  // ---------------------------------------------------------------- the octets

  /** The kernel has the encodings of the frames begun, short of at most part of the last one. */
  ghost predicate OctetsOk(p: Past) {
    && p.accepted <= EncodeAll(p.begun)
    && |EncodeAll(p.begun)| - |p.accepted| <= (if p.begun == [] then 0 else |Encode(p.begun[|p.begun| - 1])|)
  }

  /** While the connection is open, `pending` is exactly what is missing. */
  ghost predicate PendingOk(w: WireState) {
    w.open ==> w.past.accepted + w.pending == EncodeAll(w.past.begun)
  }

  ghost predicate CountsOk(w: WireState) {
    && w.frames + w.past.stashed == |w.past.begun|
    && w.dropped == w.gate.dropped
    && w.past.lost <= (if w.alive then 0 else 1)
    && (w.alive ==> w.open && |w.past.begun| + w.dropped == w.past.pushed)
    && |w.past.begun| + w.dropped + w.past.lost <= w.past.pushed
  }

  ghost predicate WireOk(w: WireState) {
    OctetsOk(w.past) && PendingOk(w) && CountsOk(w)
  }

  lemma BeginOk(net: Network, w: WireState, f: Frame, at: nat)
    requires OctetsOk(w.past) && PendingOk(w) && w.open && w.pending == []
    ensures OctetsOk(Begin(net, w, f, at).past) && PendingOk(Begin(net, w, f, at))
  {
    hide EncodeAll;
    hide Encode;
    EncodeAllAppend(w.past.begun, f);
    assert w.past.accepted + [] == w.past.accepted;
    Pieces(w.past.accepted, Encode(f), Taken(net(w.past.calls), |Encode(f)|));
  }

  lemma Pieces(before: seq<Byte>, whole: seq<Byte>, n: nat)
    requires n <= |whole|
    ensures (before + whole[..n]) + whole[n..] == before + whole
    ensures before + whole[..n] <= before + whole
  {
  }

  lemma FlushOk(net: Network, w: WireState)
    requires OctetsOk(w.past) && PendingOk(w) && w.open
    ensures OctetsOk(Flush(net, w).past) && PendingOk(Flush(net, w))
  {
    hide EncodeAll;
    hide Flush;
    FlushKeeps(net, w);
  }

  lemma OfferOk(net: Network, w: WireState, f: Frame, at: nat)
    requires OctetsOk(w.past) && PendingOk(w) && w.open
    ensures OctetsOk(Offer(net, w, f, at).past) && PendingOk(Offer(net, w, f, at))
  {
    hide EncodeAll;
    var a := Arrival(f.keyframe, w.pending != []);
    if Admits(w.gate, a) { BeginOk(net, w.(gate := Next(w.gate, a)), f, at); }
  }

  lemma StepOk(net: Network, w: WireState, op: Op)
    requires WireOk(w)
    ensures WireOk(Step(net, w, op))
  {
    hide EncodeAll;
    hide Flush;
    if op.Push? && w.open && w.alive {
      var counted := w.(past := w.past.(pushed := w.past.pushed + 1));
      FlushKeeps(net, counted);
      FlushOk(net, counted);
      assert CountsOk(Step(net, w, op));
      hide Offer;
      if Flush(net, counted).alive { OfferOk(net, Flush(net, counted), op.frame, w.past.pushed); }
    }
  }

  /** For every sequence of frames and every behaviour of the socket: what the kernel took and
      what is pending make up the encodings of the frames begun, and every frame is begun,
      counted as dropped, or died with the connection. */
  lemma {:induction false} WireIsExact(net: Network, ops: seq<Op>)
    ensures WireOk(Run(net, ops))
  {
    if ops != [] {
      WireIsExact(net, ops[..|ops| - 1]);
      StepOk(net, Run(net, ops[..|ops| - 1]), ops[|ops| - 1]);
    }
  }

  // ---------------------------------------------------------------- what is dropped

  /** The frames pushed, in order. */
  function Pushed(ops: seq<Op>): seq<Frame> {
    if ops == [] then []
    else Pushed(ops[..|ops| - 1]) + (match ops[|ops| - 1] case Push(f) => [f] case Close => [])
  }

  /** The frames begun are some of those pushed, in order, and a delta among them comes straight
      after the frame it was pushed after. */
  ghost predicate Decodable(p: Past, pushed: seq<Frame>) {
    && |p.positions| == |p.begun|
    && (forall j :: 0 <= j < |p.begun| ==> p.positions[j] < |pushed| && p.begun[j] == pushed[p.positions[j]])
    && (forall j :: 0 < j < |p.begun| ==> p.positions[j - 1] < p.positions[j])
    && (forall j :: 0 <= j < |p.begun| && !p.begun[j].keyframe && p.positions[j] != 0 ==>
          0 < j && p.positions[j - 1] == p.positions[j] - 1)
  }

  /** While frames flow, the last one pushed was begun unless the gate is waiting. */
  ghost predicate Flowing(w: WireState) {
    && |w.past.positions| == |w.past.begun|
    && (w.alive ==> w.open)
    && (w.alive && !w.gate.waiting && w.past.pushed > 0 ==>
          w.past.positions != [] && w.past.positions[|w.past.positions| - 1] == w.past.pushed - 1)
    && (w.past.pushed == 0 ==> !w.gate.waiting)
  }

  lemma DecodableSkip(p: Past, q: Past, pushed: seq<Frame>, f: Frame)
    requires Decodable(p, pushed) && q.begun == p.begun && q.positions == p.positions
    ensures Decodable(q, pushed + [f])
  {
  }

  lemma DecodableTake(p: Past, q: Past, pushed: seq<Frame>, f: Frame)
    requires Decodable(p, pushed)
    requires q.begun == p.begun + [f] && q.positions == p.positions + [|pushed|]
    requires f.keyframe || pushed == [] || (p.positions != [] && p.positions[|p.positions| - 1] == |pushed| - 1)
    ensures Decodable(q, pushed + [f])
  {
  }

  lemma OfferDecodable(net: Network, w: WireState, f: Frame, pushed: seq<Frame>)
    requires Decodable(w.past, pushed) && w.alive && w.open && w.past.pushed == |pushed| + 1
    requires !w.gate.waiting && pushed != [] ==>
               w.past.positions != [] && w.past.positions[|w.past.positions| - 1] == |pushed| - 1
    requires w.gate.waiting ==> pushed != []
    ensures var v := Offer(net, w, f, |pushed|); Decodable(v.past, pushed + [f]) && Flowing(v)
  {
    hide Encode;
    hide Decodable;
    var v := Offer(net, w, f, |pushed|);
    assert |w.past.positions| == |w.past.begun| by { Lengths(w.past, pushed); }
    if |v.past.begun| == |w.past.begun| {
      DecodableSkip(w.past, v.past, pushed, f);
    } else {
      DecodableTake(w.past, v.past, pushed, f);
    }
  }

  lemma Lengths(p: Past, pushed: seq<Frame>)
    requires Decodable(p, pushed)
    ensures |p.positions| == |p.begun|
  {
  }

  lemma StepDecodable(net: Network, w: WireState, op: Op, pushed: seq<Frame>)
    requires Decodable(w.past, pushed) && Flowing(w) && w.past.pushed == |pushed|
    ensures var v := Step(net, w, op);
            var after := pushed + (match op case Push(f) => [f] case Close => []);
            Decodable(v.past, after) && Flowing(v) && v.past.pushed == |after|
  {
    hide Flush;
    hide Decodable;
    hide Encode;
    if op.Push? {
      var counted := w.(past := w.past.(pushed := w.past.pushed + 1));
      FlushKeeps(net, counted);
      var flushed := Flush(net, counted);
      DecodableSkip(w.past, counted.past, pushed, op.frame);
      DecodableSkip(w.past, flushed.past, pushed, op.frame);
      if w.open && w.alive && flushed.alive {
        DecodableCopy(w.past, flushed.past, pushed);
        OfferDecodable(net, flushed, op.frame, pushed);
      }
    } else {
      assert pushed + [] == pushed;
      DecodableCopy(w.past, CloseStep(w).past, pushed);
    }
  }

  lemma DecodableCopy(p: Past, q: Past, pushed: seq<Frame>)
    requires Decodable(p, pushed) && q.begun == p.begun && q.positions == p.positions
    ensures Decodable(q, pushed)
  {
  }

  /** For every socket behaviour: after a drop the next frame begun is a keyframe. */
  lemma {:induction false} DropsEndAtKeyframe(net: Network, ops: seq<Op>)
    ensures var w := Run(net, ops);
            Decodable(w.past, Pushed(ops)) && Flowing(w) && w.past.pushed == |Pushed(ops)|
  {
    if ops != [] {
      var before := ops[..|ops| - 1];
      DropsEndAtKeyframe(net, before);
      StepDecodable(net, Run(net, before), ops[|ops| - 1], Pushed(before));
    }
  }

  // ---------------------------------------------------------------- what is begun

  /** When push `i` was over, octets of the frames begun before it had still not gone. */
  ghost predicate Behind(net: Network, ops: seq<Op>, i: nat)
    requires i < |ops|
  {
    |Run(net, ops[..i + 1]).past.accepted| < |EncodeAll(Run(net, ops[..i]).past.begun)|
  }

  /** The pushes of a connection that is still alive, as the gate sees them. */
  ghost function Arrivals(net: Network, ops: seq<Op>): (arrivals: seq<Arrival>)
    ensures |arrivals| == |ops|
  {
    seq(|ops|, i requires 0 <= i < |ops| => Arrival(ops[i].Push? && ops[i].frame.keyframe, Behind(net, ops, i)))
  }

  /** Every answer from call `from` up to the last one took something. */
  ghost predicate AllTook(net: Network, from: nat, to: nat) {
    forall c :: from <= c < to ==> net(c).Sent? && net(c).count > 0
  }

  /** Why a flush stopped: nothing was left, the kernel was full, or the connection died. */
  lemma {:induction false} FlushStops(net: Network, w: WireState)
    requires w.alive
    ensures var v := Flush(net, w);
            if v.pending == [] then v.alive && v.past.calls >= w.past.calls && AllTook(net, w.past.calls, v.past.calls)
            else
              && v.past.calls > w.past.calls && AllTook(net, w.past.calls, v.past.calls - 1)
              && var last := net(v.past.calls - 1);
              && !(last.Sent? && last.count > 0) && (v.alive <==> last.WouldBlock?)
    decreases |w.pending|
  {
    if w.pending != [] {
      var r := net(w.past.calls);
      var n := Taken(r, |w.pending|);
      if n > 0 {
        FlushStops(net, w.(pending := w.pending[n..], past := Took(w.past, w.pending[..n])));
      }
    }
  }

  /** What a push does that leaves the connection alive, in terms of the kernel's answers. The
      old frames' octets go first, send by send, until the kernel is full or they are all gone;
      only then is the frame offered, and if it is begun its octets are put to the kernel once
      and what the kernel did not take is kept. */
  ghost predicate PushDid(net: Network, u: WireState, v: WireState, f: Frame) {
    var earlier, whole := EncodeAll(u.past.begun), Encode(f);
    if |v.past.accepted| < |earlier| then
      && v.past.begun == u.past.begun && v.past.accepted + v.pending == earlier
      && v.past.calls > u.past.calls && AllTook(net, u.past.calls, v.past.calls - 1)
      && net(v.past.calls - 1).WouldBlock?
      && v.frames == u.frames && v.dropped == u.dropped + 1
    else if v.past.begun == u.past.begun then
      && v.past.accepted == earlier && v.pending == []
      && v.past.calls >= u.past.calls && AllTook(net, u.past.calls, v.past.calls)
      && v.frames == u.frames && v.dropped == u.dropped + 1
    else
      && v.past.begun == u.past.begun + [f]
      && v.past.calls > u.past.calls && AllTook(net, u.past.calls, v.past.calls - 1)
      && var last := net(v.past.calls - 1);
      && !last.Broken?
      && v.past.accepted == earlier + whole[..Taken(last, |whole|)] && v.pending == whole[Taken(last, |whole|)..]
      && v.frames == u.frames + (if last.Sent? then 1 else 0) && v.dropped == u.dropped
  }

  lemma PushIs(net: Network, u: WireState, f: Frame)
    requires WireOk(u) && u.alive && PushStep(net, u, f).alive
    ensures PushDid(net, u, PushStep(net, u, f), f)
    ensures var v := PushStep(net, u, f);
            var a := Arrival(f.keyframe, |v.past.accepted| < |EncodeAll(u.past.begun)|);
            && v.gate == Next(u.gate, a) && v.past.pushed == u.past.pushed + 1
            && v.past.positions == u.past.positions + (if Admits(u.gate, a) then [u.past.pushed] else [])
  {
    hide Flush;
    hide Encode;
    hide EncodeAll;
    var counted := u.(past := u.past.(pushed := u.past.pushed + 1));
    FlushKeeps(net, counted);
    FlushStops(net, counted);
    var flushed := Flush(net, counted);
    assert flushed.past.accepted + flushed.pending == EncodeAll(u.past.begun);
  }

  /** How a push ends a connection: the kernel said so, or took nothing of the old octets without
      being full. The frame pushed is not begun. */
  ghost predicate PushDied(net: Network, u: WireState, v: WireState) {
    && v.past.calls > u.past.calls && AllTook(net, u.past.calls, v.past.calls - 1)
    && var last := net(v.past.calls - 1);
    && (last.Broken? || (last == Sent(0) && |v.past.accepted| < |EncodeAll(u.past.begun)|))
    && v.past.begun == u.past.begun && v.past.accepted + v.pending == EncodeAll(u.past.begun)
    && v.frames == u.frames
  }

  lemma PushDies(net: Network, u: WireState, f: Frame)
    requires WireOk(u) && u.alive && !PushStep(net, u, f).alive
    ensures PushDied(net, u, PushStep(net, u, f))
  {
    hide Flush;
    hide Encode;
    hide EncodeAll;
    var counted := u.(past := u.past.(pushed := u.past.pushed + 1));
    FlushKeeps(net, counted);
    FlushStops(net, counted);
    var flushed := Flush(net, counted);
    assert flushed.past.accepted + flushed.pending == EncodeAll(u.past.begun);
  }

  /** In every reachable state and for every socket: what one push sends, keeps and counts, and
      how it can end the connection; a dead or closed one is left alone. */
  lemma PushIsExact(net: Network, ops: seq<Op>, f: Frame)
    ensures var u, v := Run(net, ops), Run(net, ops + [Push(f)]);
            if !u.alive then v == u.(past := u.past.(pushed := u.past.pushed + 1))
            else if v.alive then PushDid(net, u, v, f)
            else PushDied(net, u, v)
  {
    hide PushDid;
    hide PushDied;
    hide Offer;
    WireIsExact(net, ops);
    RunNext(net, ops, Push(f));
    var u := Run(net, ops);
    if u.alive {
      if PushStep(net, u, f).alive { PushIs(net, u, f); } else { PushDies(net, u, f); }
    }
  }

  lemma RunNext(net: Network, ops: seq<Op>, op: Op)
    ensures Run(net, ops + [op]) == Step(net, Run(net, ops), op)
  {
    assert (ops + [op])[..|ops|] == ops;
  }

  lemma ArrivalsNext(net: Network, ops: seq<Op>, op: Op)
    ensures Arrivals(net, ops + [op]) == Arrivals(net, ops) + [Arrival(op.Push? && op.frame.keyframe,
                |Run(net, ops + [op]).past.accepted| < |EncodeAll(Run(net, ops).past.begun)|)]
  {
    hide Run;
    hide EncodeAll;
    var all, n := ops + [op], |ops|;
    assert all[..n] == ops && all[..n + 1] == all;
    forall i | 0 <= i < n ensures Behind(net, all, i) == Behind(net, ops, i) {
      assert all[..i] == ops[..i] && all[..i + 1] == ops[..i + 1];
    }
  }

  /** While the connection lives its gate has seen exactly the pushes so far. */
  lemma {:induction false} GateHasSeen(net: Network, ops: seq<Op>)
    requires Run(net, ops).alive
    ensures var w := Run(net, ops);
            && w.gate == After(Arrivals(net, ops)) && w.past.positions == Admitted(Arrivals(net, ops))
            && w.past.pushed == |ops| && forall op :: op in ops ==> op.Push?
  {
    hide Admitted;
    hide After;
    hide PushStep;
    hide Arrivals;
    hide PushDid;
    hide WireOk;
    hide Admits;
    hide Next;
    if ops == [] {
      assert Arrivals(net, ops) == [];
      NothingYet();
    } else {
      var before, op := ops[..|ops| - 1], ops[|ops| - 1];
      assert ops == before + [op];
      RunNext(net, before, op);
      WireIsExact(net, before);
      var u := Run(net, before);
      StillAlive(net, u, op);
      GateHasSeen(net, before);
      PushIs(net, u, op.frame);
      ArrivalsNext(net, before, op);
      NextArrival(Arrivals(net, before), Arrivals(net, ops)[|before|]);
    }
  }

  lemma NothingYet()
    ensures After([]) == Open && Admitted([]) == []
  {
  }

  lemma StillAlive(net: Network, w: WireState, op: Op)
    requires Step(net, w, op).alive
    ensures w.alive && op.Push?
  {
  }

  /** While the connection lives, for every socket: which of the frames pushed have been begun,
      in terms of what the kernel had taken by each push. */
  lemma BegunExactly(net: Network, ops: seq<Op>, i: nat)
    requires Run(net, ops).alive && i < |ops|
    ensures i in Run(net, ops).past.positions <==> Clear(Arrivals(net, ops), i)
  {
    hide *;
    GateHasSeen(net, ops);
    AdmittedExactly(Arrivals(net, ops), i);
  }

  /** A kernel that is never full, however little it takes at a time, gets every frame. */
  lemma {:induction false} WillingSocketGetsAll(net: Network, ops: seq<Op>)
    requires forall op :: op in ops ==> op.Push?
    requires forall c :: net(c).Sent? && net(c).count > 0
    ensures var w := Run(net, ops); w.alive && w.open && w.past.begun == Pushed(ops) && w.dropped == 0
    ensures !Run(net, ops).gate.waiting
  {
    if ops != [] {
      var before, op := ops[..|ops| - 1], ops[|ops| - 1];
      WillingSocketGetsAll(net, before);
      assert ops == before + [op];
      RunNext(net, before, op);
      WillingPush(net, Run(net, before), op.frame);
      assert op in ops;
    }
  }

  lemma WillingPush(net: Network, w: WireState, f: Frame)
    requires w.alive && w.open && !w.gate.waiting
    requires forall c :: net(c).Sent? && net(c).count > 0
    ensures var v := PushStep(net, w, f);
            v.alive && v.open && !v.gate.waiting && v.past.begun == w.past.begun + [f] && v.dropped == w.dropped
  {
    hide Flush;
    hide Encode;
    var counted := w.(past := w.past.(pushed := w.past.pushed + 1));
    FlushKeeps(net, counted);
    FlushStops(net, counted);
  }

  /** A closed feed keeps nothing and sends nothing more, whatever is pushed after. */
  lemma {:induction false} ClosedForGood(net: Network, ops: seq<Op>, i: nat)
    requires i < |ops| && ops[i].Close?
    ensures var u, w := Run(net, ops[..i]), Run(net, ops);
            && !w.open && !w.alive && w.pending == [] && w.frames == u.frames && w.dropped == u.dropped
            && w.past == u.past.(pushed := w.past.pushed)
  {
    var before := ops[..|ops| - 1];
    assert ops == before + [ops[|ops| - 1]];
    RunNext(net, before, ops[|ops| - 1]);
    if i < |before| {
      assert before[..i] == ops[..i];
      ClosedForGood(net, before, i);
    }
    hide Flush;
    hide Offer;
  }

  // ---------------------------------------------------------------- what is read

  /** How many whole frames the kernel has. */
  ghost function Whole(p: Past): (n: nat)
    ensures n <= |p.begun|
  {
    if p.begun != [] && |p.accepted| < |EncodeAll(p.begun)| then |p.begun| - 1 else |p.begun|
  }

  /** Whatever the socket did, and whether or not the feed was closed, a reader of the octets the
      kernel took gets exactly the frames begun, in order, save a last one still partly unsent. */
  lemma ReaderRecovers(net: Network, ops: seq<Op>)
    requires forall f :: f in Pushed(ops) ==> Encodable(f)
    ensures var p := Run(net, ops).past;
            Parse(p.accepted).0 == AllReceived(p.begun[..Whole(p)]) && Whole(p) + 1 >= |p.begun|
  {
    WireIsExact(net, ops);
    DropsEndAtKeyframe(net, ops);
    ReaderRecoversFrom(Run(net, ops).past, Pushed(ops));
  }

  lemma NothingToRead()
    ensures EncodeAll([]) == [] && Parse([]) == ([], [])
  {
  }

  lemma ReaderRecoversFrom(p: Past, pushed: seq<Frame>)
    requires OctetsOk(p) && Decodable(p, pushed)
    requires forall f :: f in pushed ==> Encodable(f)
    ensures Parse(p.accepted).0 == AllReceived(p.begun[..Whole(p)])
  {
    hide EncodeAll;
    hide Encode;
    hide Parse;
    var n := |p.begun|;
    forall f | f in p.begun ensures Encodable(f) {
      var j :| 0 <= j < n && p.begun[j] == f;
      assert pushed[p.positions[j]] == f;
    }
    if Whole(p) == n {
      NothingToRead();
      assert |p.accepted| == |EncodeAll(p.begun)|;
      assert p.accepted == EncodeAll(p.begun);
      StreamReadsBack(p.begun, []);
      assert p.accepted + [] == p.accepted && p.begun[..n] == p.begun;
    } else {
      var last := p.begun[n - 1];
      var whole := EncodeAll(p.begun[..n - 1]);
      assert p.begun[..n - 1] + [last] == p.begun;
      EncodeAllAppend(p.begun[..n - 1], last);
      var part := |p.accepted| - |whole|;
      assert p.accepted == whole + Encode(last)[..part];
      PartialIsLeft(last, part);
      StreamReadsBack(p.begun[..n - 1], Encode(last)[..part]);
    }
  }

  // ---------------------------------------------------------------- the class

  class Wire {
    const net: Network
    const gate: DropUntilKeyframe
    var open: bool // fd >= 0
    var alive: bool
    var frames: nat
    var dropped: nat
    var pending: seq<Byte>
    var calls: nat
    ghost var past: Past

    ghost predicate Valid()
      reads this
    {
      calls == past.calls
    }

    ghost function State(): WireState
      reads this, gate
    {
      WireState(open, alive, frames, dropped, pending, gate.State(), past)
    }

    constructor (net: Network)
      ensures Valid() && State() == Connected && this.net == net && fresh(gate)
    {
      this.net := net;
      gate := new DropUntilKeyframe();
      open, alive, frames, dropped, pending := true, true, 0, 0, [];
      calls, past := 0, Past(0, [], 0, [], [], 0, 0);
    }

    /** One send: the kernel takes what its answer says of the octets offered. */
    method Send(data: seq<Byte>) returns (r: Reply, n: nat)
      requires Valid()
      modifies this`calls, this`past
      ensures Valid() && r == net(old(past).calls) && n == Taken(r, |data|) && n <= |data|
      ensures past == Took(old(past), data[..n])
    {
      r := net(calls);
      n := Taken(r, |data|);
      calls, past := calls + 1, Took(past, data[..n]);
    }

    method FlushPending() returns (ok: bool)
      requires Valid() && alive
      modifies this`alive, this`pending, this`calls, this`past
      ensures Valid() && State() == Flush(net, old(State())) && ok == alive
    {
      while pending != []
        invariant Valid() && alive && Flush(net, State()) == Flush(net, old(State()))
        decreases |pending|
      {
        var r, n := Send(pending);
        if n > 0 {
          pending := pending[n..];
          continue;
        }
        if r.WouldBlock? { return true; }
        alive := false;
        return false;
      }
      return true;
    }

    method Push(buffer: Option<Frame>)
      requires Valid()
      modifies this, gate
      ensures Valid()
      ensures State() == if buffer.Some? then PushStep(net, old(State()), buffer.value) else old(State())
    {
      if buffer.None? { return; }
      var f := buffer.value;
      ghost var at := past.pushed;
      past := past.(pushed := past.pushed + 1);
      if !open || !alive { return; }
      var flushed := FlushPending();
      if !flushed { return; }
      var behind := pending != [];
      var admitted := gate.Admit(f.keyframe, behind);
      if !admitted {
        dropped := dropped + 1;
        return;
      }
      First(f, at);
    }

    /** Header and payload in one send; what did not go becomes the pending tail. */
    method First(f: Frame, ghost at: nat)
      requires Valid() && pending == []
      modifies this`alive, this`frames, this`pending, this`calls, this`past
      ensures Valid() && State() == Begin(net, old(State()), f, at)
    {
      FieldsFit(PtsMicros(f), |f.payload| % 0x1_0000_0000);
      var header := MoqFrameHeader(PtsMicros(f), |f.payload| % 0x1_0000_0000, f.keyframe);
      var whole := header + f.payload;
      var r, n := Send(whole);
      match r
      case Broken => {
        alive := false;
        past := past.(lost := past.lost + 1);
      }
      case WouldBlock => {
        pending := whole;
        past := past.(begun := past.begun + [f], positions := past.positions + [at], stashed := past.stashed + 1);
      }
      case Sent(_) => {
        pending := whole[n..];
        frames := frames + 1;
        past := past.(begun := past.begun + [f], positions := past.positions + [at]);
      }
    }

    method CloseFd()
      requires Valid()
      modifies this
      ensures Valid() && State() == CloseStep(old(State()))
    {
      alive := false;
      open := false;
      pending := [];
    }
  }
}
