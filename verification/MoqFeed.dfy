/** The bytes one viewer's socket is sent (src/media/moq/MoqFeed.cpp), and the reader at the
    other end, which follows the published format (src/media/moq/MoqFeed.hpp:5-11). */
module MoqFeed {
  import opened Frames
  import Json

  // ---------------------------------------------------------------- the format

  const HEADER_BYTES := 13
  const FLAG_KEYFRAME: Byte := 0x01

  /** `value >> (8 * n)`. */
  function Shift(value: nat, n: nat): nat {
    if n == 0 then value else Shift(value / 256, n - 1)
  }

  /** The low `n` octets of a value, most significant first. */
  function BigEndian(value: nat, n: nat): (bytes: seq<Byte>)
    ensures |bytes| == n
  {
    if n == 0 then [] else BigEndian(value / 256, n - 1) + [value % 256]
  }

  function FromBigEndian(bytes: seq<Byte>): nat {
    if bytes == [] then 0 else 256 * FromBigEndian(bytes[..|bytes| - 1]) + bytes[|bytes| - 1]
  }

  /** A value that fits `n` octets is read back from them. */
  lemma {:induction false} BigEndianReadsBack(value: nat, n: nat)
    requires Shift(value, n) == 0
    ensures FromBigEndian(BigEndian(value, n)) == value
  {
    if n != 0 {
      BigEndianReadsBack(value / 256, n - 1);
      assert BigEndian(value, n)[..n - 1] == BigEndian(value / 256, n - 1);
    }
  }

  /** Each octet in its place: the first is the value's highest. */
  lemma {:induction false} BigEndianOctet(value: nat, n: nat, k: nat)
    requires k < n
    ensures BigEndian(value, n)[k] == Shift(value, n - 1 - k) % 256
  {
    if k < n - 1 { BigEndianOctet(value / 256, n - 1, k); }
  }

  lemma {:induction false} ShiftOnce(value: nat, n: nat)
    ensures Shift(value, n + 1) == Shift(value, n) / 256
  {
    if n != 0 { ShiftOnce(value / 256, n - 1); }
  }

  /** The microseconds a frame is stamped with, zero when it has no timestamp. */
  function PtsMicros(f: Frame): nat {
    if f.pts.Some? then f.pts.value / 1000 else 0
  }

  function FrameHeader(ptsUs: nat, length: nat, keyframe: bool): (bytes: seq<Byte>)
    ensures |bytes| == HEADER_BYTES
  {
    [if keyframe then FLAG_KEYFRAME else 0] + BigEndian(ptsUs, 8) + BigEndian(length, 4)
  }

  /** A frame as it goes on the wire; the length field holds 32 bits of the payload's size. */
  function Encode(f: Frame): (bytes: seq<Byte>)
    ensures |bytes| == HEADER_BYTES + |f.payload|
  {
    FrameHeader(PtsMicros(f), |f.payload| % 0x1_0000_0000, f.keyframe) + f.payload
  }

  function EncodeAll(fs: seq<Frame>): seq<Byte> {
    if fs == [] then [] else Encode(fs[0]) + EncodeAll(fs[1..])
  }

  lemma {:induction false} EncodeAllAppend(fs: seq<Frame>, f: Frame)
    ensures EncodeAll(fs + [f]) == EncodeAll(fs) + Encode(f)
  {
    if fs == [] {
      assert [f][1..] == [];
    } else {
      assert (fs + [f])[1..] == fs[1..] + [f];
      EncodeAllAppend(fs[1..], f);
    }
  }

  method WriteBigEndian(out: seq<Byte>, value: nat, bytes: nat) returns (grown: seq<Byte>)
    requires Shift(value, bytes) == 0
    ensures grown == out + BigEndian(value, bytes)
  {
    grown := out;
    for i := 0 to bytes
      invariant grown == out + BigEndian(Shift(value, bytes - i), i)
    {
      ShiftOnce(value, bytes - 1 - i);
      grown := grown + [Shift(value, bytes - 1 - i) % 256];
    }
  }

  method MoqFrameHeader(ptsUs: nat, length: nat, keyframe: bool) returns (out: seq<Byte>)
    requires Shift(ptsUs, 8) == 0 && Shift(length, 4) == 0
    ensures out == FrameHeader(ptsUs, length, keyframe)
  {
    out := [if keyframe then FLAG_KEYFRAME else 0];
    out := WriteBigEndian(out, ptsUs, 8);
    out := WriteBigEndian(out, length, 4);
  }

  function Top(n: nat): nat {
    if n == 0 then 1 else 256 * Top(n - 1)
  }

  lemma {:induction false} FitsOctets(value: nat, n: nat)
    requires value < Top(n)
    ensures Shift(value, n) == 0
  {
    if n != 0 { FitsOctets(value / 256, n - 1); }
  }

  lemma FieldsFit(ptsUs: nat, length: nat)
    requires ptsUs < 0x1_0000_0000_0000_0000 && length < 0x1_0000_0000
    ensures Shift(ptsUs, 8) == 0 && Shift(length, 4) == 0
  {
    assert Top(2) == 0x1_0000;
    assert Top(4) == 0x1_0000_0000;
    assert Top(6) == 0x1_0000_0000_0000;
    FitsOctets(ptsUs, 8);
    FitsOctets(length, 4);
  }

  // ---------------------------------------------------------------- the reader

  /** A frame as the reader has it. */
  datatype Received = Received(keyframe: bool, ptsUs: nat, payload: seq<Byte>)

  function AsReceived(f: Frame): Received {
    Received(f.keyframe, PtsMicros(f), f.payload)
  }

  function AllReceived(fs: seq<Frame>): seq<Received> {
    if fs == [] then [] else [AsReceived(fs[0])] + AllReceived(fs[1..])
  }

  /** Splits whole frames off the front of a stream; gives them and the octets left over. */
  function Parse(bytes: seq<Byte>): (seq<Received>, seq<Byte>)
    decreases |bytes|
  {
    if |bytes| < HEADER_BYTES then ([], bytes)
    else
      var length := FromBigEndian(bytes[9..13]);
      if |bytes| < HEADER_BYTES + length then ([], bytes)
      else
        var frame := Received(bytes[0] % 2 == 1, FromBigEndian(bytes[1..9]), bytes[13..13 + length]);
        var rest := Parse(bytes[13 + length..]);
        ([frame] + rest.0, rest.1)
  }

  /** The 32-bit length field has room for this frame's size. */
  predicate Encodable(f: Frame) {
    |f.payload| < 0x1_0000_0000
  }

  lemma HeaderReadsBack(f: Frame, rest: seq<Byte>)
    ensures var bytes := Encode(f) + rest;
            && (bytes[0] % 2 == 1 <==> f.keyframe)
            && FromBigEndian(bytes[1..9]) == PtsMicros(f)
            && FromBigEndian(bytes[9..13]) == |f.payload| % 0x1_0000_0000
  {
    var bytes := Encode(f) + rest;
    var length := |f.payload| % 0x1_0000_0000;
    FieldsFit(PtsMicros(f), length);
    assert bytes[1..9] == BigEndian(PtsMicros(f), 8);
    assert bytes[9..13] == BigEndian(length, 4);
    BigEndianReadsBack(PtsMicros(f), 8);
    BigEndianReadsBack(length, 4);
  }

  /** A frame at the head of a stream is read back, if and only if its size fits the length
      field. */
  lemma FrameReadsBackExactly(f: Frame, rest: seq<Byte>)
    ensures var read := Parse(Encode(f) + rest);
            Encodable(f) <==> read.0 != [] && read.0[0] == AsReceived(f)
    ensures Encodable(f) ==> Parse(Encode(f) + rest) == ([AsReceived(f)] + Parse(rest).0, Parse(rest).1)
  {
    hide FromBigEndian;
    HeaderReadsBack(f, rest);
    var bytes := Encode(f) + rest;
    if Encodable(f) {
      assert bytes[13..13 + |f.payload|] == f.payload;
      assert bytes[13 + |f.payload|..] == rest;
    }
  }

  /** `r` is frame `f` as published: its octets, whether it is a keyframe, and its time in whole
      microseconds, zero when it has none. */
  ghost predicate IsFrame(r: Received, f: Frame) {
    && r.payload == f.payload && (r.keyframe <==> f.keyframe)
    && match f.pts
       case None => r.ptsUs == 0
       case Some(nanos) => 1000 * r.ptsUs <= nanos < 1000 * r.ptsUs + 1000
  }

  lemma ReceivedIsFrame(f: Frame)
    ensures IsFrame(AsReceived(f), f)
  {
  }

  /** What a reader gets for a frame at the head of a stream, in the frame's own terms. */
  lemma ReaderGetsTheFrame(f: Frame, rest: seq<Byte>)
    requires Encodable(f)
    ensures var read := Parse(Encode(f) + rest).0; read != [] && IsFrame(read[0], f)
  {
    FrameReadsBackExactly(f, rest);
    ReceivedIsFrame(f);
  }

  lemma PartialIsLeft(f: Frame, n: nat)
    requires Encodable(f) && n < |Encode(f)|
    ensures Parse(Encode(f)[..n]) == ([], Encode(f)[..n])
  {
    if n >= HEADER_BYTES {
      HeaderReadsBack(f, []);
      assert Encode(f) + [] == Encode(f);
      assert Encode(f)[..n][9..13] == Encode(f)[9..13];
    }
  }

  lemma Associative(a: seq<Byte>, b: seq<Byte>, c: seq<Byte>)
    ensures (a + b) + c == a + (b + c)
  {
  }

  /** A reader of whole frames followed by less than one more recovers exactly those frames. */
  lemma {:induction false} StreamReadsBack(fs: seq<Frame>, tail: seq<Byte>)
    requires (forall f :: f in fs ==> Encodable(f)) && Parse(tail).0 == []
    ensures Parse(EncodeAll(fs) + tail) == (AllReceived(fs), Parse(tail).1)
  {
    if fs == [] {
      assert EncodeAll(fs) + tail == tail;
    } else {
      hide Parse;
      hide Encode;
      assert Encodable(fs[0]);
      StreamReadsBack(fs[1..], tail);
      FrameReadsBackExactly(fs[0], EncodeAll(fs[1..]) + tail);
      Associative(Encode(fs[0]), EncodeAll(fs[1..]), tail);
    }
  }

  // ---------------------------------------------------------------- the session header

  /** The line a session opens with (src/media/moq/MoqFeed.cpp:47-59). */
  function SessionHeader(feed: seq<Byte>, camera: seq<Byte>, session: seq<Byte>, codec: seq<Byte>): seq<Byte> {
    Ascii("MOQF1 {\"feed\":") + Json.JsonString(feed) + Ascii(",\"camera\":") + Json.JsonString(camera)
    + Ascii(",\"session\":") + Json.JsonString(session) + Ascii(",\"codec\":") + Json.JsonString(codec)
    + Ascii("}\n")
  }

  method MoqSessionHeader(feed: seq<Byte>, camera: seq<Byte>, session: seq<Byte>, codec: seq<Byte>)
    returns (json: seq<Byte>)
    ensures json == SessionHeader(feed, camera, session, codec)
  {
    json := Ascii("MOQF1 {\"feed\":");
    json := Json.AppendJsonString(json, feed);
    json := json + Ascii(",\"camera\":");
    json := Json.AppendJsonString(json, camera);
    json := json + Ascii(",\"session\":");
    json := Json.AppendJsonString(json, session);
    json := json + Ascii(",\"codec\":");
    json := Json.AppendJsonString(json, codec);
    json := json + Ascii("}\n");
  }

  /** Where the first newline is, or the length when there is none. */
  function FirstNewline(bytes: seq<Byte>): (at: nat)
    ensures at <= |bytes|
    ensures at < |bytes| ==> bytes[at] == 10
    ensures forall i :: 0 <= i < at ==> bytes[i] != 10
  {
    if bytes == [] || bytes[0] == 10 then 0 else 1 + FirstNewline(bytes[1..])
  }

  /** Reads `key` and the JSON string after it. */
  function ReadField(key: seq<Byte>, bytes: seq<Byte>): Option<(seq<Byte>, seq<Byte>)> {
    if key <= bytes then Json.ReadString(bytes[|key|..]) else None
  }

  datatype Session = Session(feed: seq<Byte>, camera: seq<Byte>, session: seq<Byte>, codec: seq<Byte>)

  function ReadSession(line: seq<Byte>): Option<Session> {
    var feed := ReadField(Ascii("MOQF1 {\"feed\":"), line);
    if feed.None? then None else
    var camera := ReadField(Ascii(",\"camera\":"), feed.value.1);
    if camera.None? then None else
    var session := ReadField(Ascii(",\"session\":"), camera.value.1);
    if session.None? then None else
    var codec := ReadField(Ascii(",\"codec\":"), session.value.1);
    if codec.None? || codec.value.1 != Ascii("}\n") then None
    else Some(Session(feed.value.0, camera.value.0, session.value.0, codec.value.0))
  }

  lemma FieldReadsBack(key: seq<Byte>, text: seq<Byte>, rest: seq<Byte>)
    ensures ReadField(key, key + Json.JsonString(text) + rest) == Some((text, rest))
  {
    var bytes := key + Json.JsonString(text) + rest;
    assert bytes[..|key|] == key;
    assert bytes[|key|..] == Json.JsonString(text) + rest;
    Json.StringReadsBack(text, rest);
  }

  lemma Regroup(front: seq<Byte>, key: seq<Byte>, text: seq<Byte>, rest: seq<Byte>)
    ensures front + key + text + rest == front + (key + text + rest)
  {
  }

  /** The header is read back field by field, whatever the ids hold. */
  lemma SessionReadsBack(s: Session)
    ensures ReadSession(SessionHeader(s.feed, s.camera, s.session, s.codec)) == Some(s)
  {
    hide Json.JsonString;
    hide Json.ReadString;
    hide ReadField;
    var end := Ascii("}\n");
    var key0, feed := Ascii("MOQF1 {\"feed\":"), Json.JsonString(s.feed);
    var key1, camera := Ascii(",\"camera\":"), Json.JsonString(s.camera);
    var key2, session := Ascii(",\"session\":"), Json.JsonString(s.session);
    var key3, codec := Ascii(",\"codec\":"), Json.JsonString(s.codec);
    Regroup(key0 + feed + key1 + camera + key2 + session, key3, codec, end);
    Regroup(key0 + feed + key1 + camera, key2, session, key3 + codec + end);
    Regroup(key0 + feed, key1, camera, key2 + session + (key3 + codec + end));
    FieldReadsBack(key0, s.feed, key1 + camera + (key2 + session + (key3 + codec + end)));
    FieldReadsBack(key1, s.camera, key2 + session + (key3 + codec + end));
    FieldReadsBack(key2, s.session, key3 + codec + end);
    FieldReadsBack(key3, s.codec, end);
  }

  lemma TextHasNone(text: seq<Byte>)
    ensures 10 !in Json.JsonString(text)
  {
    Json.NoControlCharacters(text);
  }

  /** Its only newline is its last octet, so a reader finds where the frames begin. */
  lemma HeaderEndsAtNewline(s: Session, frames: seq<Byte>)
    ensures var header := SessionHeader(s.feed, s.camera, s.session, s.codec);
            FirstNewline(header + frames) == |header| - 1
  {
    hide Json.JsonString;
    TextHasNone(s.feed);
    TextHasNone(s.camera);
    TextHasNone(s.session);
    TextHasNone(s.codec);
    var fields := Ascii("MOQF1 {\"feed\":") + Json.JsonString(s.feed) + Ascii(",\"camera\":") + Json.JsonString(s.camera)
      + Ascii(",\"session\":") + Json.JsonString(s.session) + Ascii(",\"codec\":") + Json.JsonString(s.codec);
    assert 10 !in fields;
    var stream := fields + Ascii("}\n") + frames;
    assert forall i :: 0 <= i < |fields| ==> stream[i] == fields[i];
    assert stream[|fields|] == 0x7D && stream[|fields| + 1] == 10;
  }
}
