/** From the camera's frames to what a viewer reads. */
module LivePath {
  import opened Frames
  import opened BackPressure
  import opened MoqFeed
  import Fanout = SinkFanout
  import Wire = MoqWire

  /** A reader at the other end: splits off the session line, then parses frames. */
  function Read(stream: seq<Byte>): (Option<Session>, seq<Received>) {
    var newline := FirstNewline(stream);
    if newline == |stream| then (None, [])
    else (ReadSession(stream[..newline + 1]), Parse(stream[newline + 1..]).0)
  }

  /** `read` is what a decoder needs: frames of the source in source order, opening with a
      keyframe, where each delta comes straight after the frame that preceded it in the source.
      `at` says where in the source each one is. */
  ghost predicate DecodableFrom(source: seq<Frame>, read: seq<Received>, at: seq<nat>) {
    && |at| == |read|
    && (forall j :: 0 <= j < |read| ==> at[j] < |source| && IsFrame(read[j], source[at[j]]))
    && (forall j :: 0 < j < |read| ==> at[j - 1] < at[j])
    && (forall j :: 0 <= j < |read| && !read[j].keyframe ==> 0 < j && at[j - 1] + 1 == at[j])
  }

  /** Where in the source each frame the viewer reads comes from. */
  ghost function SourcePositions(start: nat, p: Wire.Past): (at: seq<nat>)
    requires |p.positions| == |p.begun|
    ensures |at| == Wire.Whole(p)
  {
    seq(Wire.Whole(p), j requires 0 <= j < Wire.Whole(p) => start + p.positions[j])
  }

  /** For every interleaving at the fan-out, every behaviour of the socket, and whether or not the
      feed is closed on the way: the viewer reads its session back and then a decodable stream,
      provided this viewer was not primed from a cache of deltas and every frame's size fits the
      format. Every frame handed to the feed before it died is read, about to be read, or
      counted as dropped, save one that may have died with the connection. */
  lemma ViewerReadsDecodableStream(l: Fanout.Limits, events: seq<Fanout.Event>, id: nat,
                                   net: Wire.Network, ops: seq<Wire.Op>, s: Session)
    requires id in Fanout.Run(l, events).logs && Wire.Pushed(ops) == Fanout.Run(l, events).logs[id]
    requires !Fanout.PrimedHeadless(l, events, id)
    requires forall f :: f in Fanout.Run(l, events).delivered ==> Encodable(f)
    ensures var w := Fanout.Run(l, events);
            var p := Wire.Run(net, ops).past;
            var seen := Read(SessionHeader(s.feed, s.camera, s.session, s.codec) + p.accepted);
            && seen.0 == Some(s)
            && id in w.starts && w.starts[id] >= 0 && |p.positions| == |p.begun|
            && DecodableFrom(w.delivered, seen.1, SourcePositions(w.starts[id], p))
            && |seen.1| + 1 >= |p.begun|
            && (Wire.Run(net, ops).alive ==> |p.begun| + Wire.Run(net, ops).dropped == |w.logs[id]|)
            && |p.begun| + Wire.Run(net, ops).dropped + p.lost <= |w.logs[id]|
            && (Wire.Run(net, ops).alive ==>
                  |ops| == |w.logs[id]| && |Wire.Arrivals(net, ops)| == |ops|
                  && forall i: nat :: i < |ops| ==> (i in p.positions <==> Clear(Wire.Arrivals(net, ops), i)))
  {
    hide *;
    Fanout.ConsumerRun(l, events, id);
    WireSide(net, ops, Fanout.Run(l, events).delivered, Fanout.Run(l, events).starts[id], s);
  }

  /** The same for a feed whose consumer was handed the frames from `start` on. */
  lemma WireSide(net: Wire.Network, ops: seq<Wire.Op>, delivered: seq<Frame>, start: int, s: Session)
    requires 0 <= start <= start + |Wire.Pushed(ops)| <= |delivered|
    requires Wire.Pushed(ops) == delivered[start..start + |Wire.Pushed(ops)|]
    requires Wire.Pushed(ops) != [] ==> Wire.Pushed(ops)[0].keyframe
    requires forall f :: f in delivered ==> Encodable(f)
    ensures var p := Wire.Run(net, ops).past;
            var seen := Read(SessionHeader(s.feed, s.camera, s.session, s.codec) + p.accepted);
            && seen.0 == Some(s) && |p.positions| == |p.begun|
            && DecodableFrom(delivered, seen.1, SourcePositions(start, p))
            && |seen.1| + 1 >= |p.begun|
            && (Wire.Run(net, ops).alive ==> |p.begun| + Wire.Run(net, ops).dropped == |Wire.Pushed(ops)|)
            && |p.begun| + Wire.Run(net, ops).dropped + p.lost <= |Wire.Pushed(ops)|
            && (Wire.Run(net, ops).alive ==>
                  |ops| == |Wire.Pushed(ops)| && |Wire.Arrivals(net, ops)| == |ops|
                  && forall i: nat :: i < |ops| ==> (i in p.positions <==> Clear(Wire.Arrivals(net, ops), i)))
  {
    hide MoqFeed.SessionHeader;
    hide MoqFeed.Parse;
    hide Wire.Run;
    hide Wire.Pushed;
    hide Wire.OctetsOk;
    hide Read;
    var p := Wire.Run(net, ops).past;
    Wire.WireIsExact(net, ops);
    Wire.DropsEndAtKeyframe(net, ops);
    Wire.ReaderRecovers(net, ops);
    HeaderSplits(s, p.accepted);
    ReadIsDecodable(delivered, start, Wire.Pushed(ops), p);
    AllReceivedAt(p.begun[..Wire.Whole(p)]);
    if Wire.Run(net, ops).alive { LiveFeedBegins(net, ops); }
  }

  lemma LiveFeedBegins(net: Wire.Network, ops: seq<Wire.Op>)
    requires Wire.Run(net, ops).alive
    ensures |ops| == |Wire.Pushed(ops)|
    ensures forall i: nat :: i < |ops| ==>
              (i in Wire.Run(net, ops).past.positions <==> Clear(Wire.Arrivals(net, ops), i))
  {
    hide *;
    Wire.GateHasSeen(net, ops);
    Wire.DropsEndAtKeyframe(net, ops);
    forall i: nat | i < |ops| ensures i in Wire.Run(net, ops).past.positions <==> Clear(Wire.Arrivals(net, ops), i) {
      Wire.BegunExactly(net, ops, i);
    }
  }

  lemma HeaderSplits(s: Session, frames: seq<Byte>)
    ensures Read(SessionHeader(s.feed, s.camera, s.session, s.codec) + frames) == (Some(s), Parse(frames).0)
  {
    hide MoqFeed.SessionHeader;
    hide MoqFeed.Parse;
    var header := SessionHeader(s.feed, s.camera, s.session, s.codec);
    HeaderEndsAtNewline(s, frames);
    SessionReadsBack(s);
    assert (header + frames)[..|header|] == header && (header + frames)[|header|..] == frames;
  }

  lemma {:induction false} AllReceivedAt(fs: seq<Frame>)
    ensures |AllReceived(fs)| == |fs|
    ensures forall j :: 0 <= j < |fs| ==> AllReceived(fs)[j] == AsReceived(fs[j])
  {
    if fs != [] { AllReceivedAt(fs[1..]); }
  }

  lemma ReadIsDecodable(delivered: seq<Frame>, start: nat, log: seq<Frame>, p: Wire.Past)
    requires start + |log| <= |delivered| && log == delivered[start..start + |log|]
    requires log != [] ==> log[0].keyframe
    requires Wire.Decodable(p, log)
    ensures DecodableFrom(delivered, AllReceived(p.begun[..Wire.Whole(p)]), SourcePositions(start, p))
  {
    var n := Wire.Whole(p);
    var read, at := AllReceived(p.begun[..n]), SourcePositions(start, p);
    AllReceivedAt(p.begun[..n]);
    hide AllReceived;
    forall j | 0 <= j < n
      ensures at[j] < |delivered| && IsFrame(read[j], delivered[at[j]])
      ensures !read[j].keyframe ==> 0 < j && at[j - 1] + 1 == at[j]
    {
      assert p.begun[..n][j] == p.begun[j] == log[p.positions[j]] == delivered[at[j]];
    }
  }

  /** A viewer that has joined and not left, and whose kernel is never full, misses nothing: once
      the last frame is handed out it reads every frame the source delivered from the one its
      run starts with, in order, save a last one still partly unsent. */
  lemma WillingViewerReadsEverything(l: Fanout.Limits, events: seq<Fanout.Event>, id: nat, i: nat,
                                     net: Wire.Network, ops: seq<Wire.Op>, s: Session)
    requires Fanout.JoinedAt(events, id, i) && Fanout.Run(l, events).targets == []
    requires id in Fanout.Run(l, events).logs ==> Wire.Pushed(ops) == Fanout.Run(l, events).logs[id]
    requires forall f :: f in Fanout.Run(l, events).delivered ==> Encodable(f)
    requires forall op :: op in ops ==> op.Push?
    requires forall c :: net(c).Sent? && net(c).count > 0
    ensures var source, from := Fanout.Run(l, events).delivered, Fanout.StartOf(l, events, i);
            var seen := Read(SessionHeader(s.feed, s.camera, s.session, s.codec) + Wire.Run(net, ops).past.accepted);
            && seen.0 == Some(s)
            && 0 <= from && |source| - 1 <= from + |seen.1| <= |source|
            && forall j :: 0 <= j < |seen.1| ==> IsFrame(seen.1[j], source[from + j])
  {
    hide *;
    var p, log := Wire.Run(net, ops).past, Wire.Pushed(ops);
    Fanout.EveryConsumerIsServed(l, events, id, i);
    Wire.WillingSocketGetsAll(net, ops);
    Wire.ReaderRecovers(net, ops);
    HeaderSplits(s, p.accepted);
    AllReceivedAt(p.begun[..Wire.Whole(p)]);
    forall j | 0 <= j < Wire.Whole(p) ensures IsFrame(AsReceived(log[j]), log[j]) { ReceivedIsFrame(log[j]); }
  }
}
