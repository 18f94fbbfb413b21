/** JSON string escaping (src/core/Json.cpp), and the reader of section 7 of RFC 8259 that
    undoes it. Text is octets: those from 0x20 up pass through undecoded, save the quote and the
    backslash, and the others are written as two characters or as four hexadecimal digits. */
module Json {
  import opened Frames

  const QUOTE: Byte := 0x22
  const BACKSLASH: Byte := 0x5C

  function HexDigit(n: int): Byte
    requires 0 <= n < 16
  {
    if n < 10 then 0x30 + n else 0x61 + n - 10
  }

  function EscapeByte(c: Byte): seq<Byte> {
    if c == QUOTE then [BACKSLASH, QUOTE]
    else if c == BACKSLASH then [BACKSLASH, BACKSLASH]
    else if c == 8 then Ascii("\\b")
    else if c == 12 then Ascii("\\f")
    else if c == 10 then Ascii("\\n")
    else if c == 13 then Ascii("\\r")
    else if c == 9 then Ascii("\\t")
    else if c < 0x20 then Ascii("\\u00") + [HexDigit(c / 16), HexDigit(c % 16)]
    else [c]
  }

  function Escape(text: seq<Byte>): seq<Byte> {
    if text == [] then [] else EscapeByte(text[0]) + Escape(text[1..])
  }

  function JsonString(text: seq<Byte>): seq<Byte> {
    [QUOTE] + Escape(text) + [QUOTE]
  }

  method AppendEscaped(out: seq<Byte>, c: Byte) returns (grown: seq<Byte>)
    ensures grown == out + EscapeByte(c)
  {
    var piece;
    if c == 0x22 { piece := Ascii("\\\""); }
    else if c == 0x5C { piece := Ascii("\\\\"); }
    else if c == 8 { piece := Ascii("\\b"); }
    else if c == 12 { piece := Ascii("\\f"); }
    else if c == 10 { piece := Ascii("\\n"); }
    else if c == 13 { piece := Ascii("\\r"); }
    else if c == 9 { piece := Ascii("\\t"); }
    else if c < 0x20 { piece := Ascii("\\u00") + [HexDigit(c / 16), HexDigit(c % 16)]; }
    else { piece := [c]; }
    assert piece == EscapeByte(c);
    grown := out + piece;
  }

  method AppendJsonString(out: seq<Byte>, text: seq<Byte>) returns (grown: seq<Byte>)
    ensures grown == out + JsonString(text)
  {
    hide EscapeByte;
    grown := out + [QUOTE];
    for i := 0 to |text|
      invariant grown + Escape(text[i..]) == out + [QUOTE] + Escape(text)
    {
      ghost var before := grown;
      grown := AppendEscaped(grown, text[i]);
      assert text[i..][1..] == text[i + 1..];
      assert before + Escape(text[i..]) == grown + Escape(text[i + 1..]);
    }
    assert grown + Escape(text[|text|..]) == grown;
    grown := grown + [QUOTE];
    assert out + [QUOTE] + Escape(text) + [QUOTE] == out + JsonString(text);
  }

  // ---------------------------------------------------------------- the reader

  function HexValue(b: Byte): Option<nat> {
    if 0x30 <= b <= 0x39 then Some(b - 0x30)
    else if 0x61 <= b <= 0x66 then Some(b - 0x61 + 10)
    else if 0x41 <= b <= 0x46 then Some(b - 0x41 + 10)
    else None
  }

  /** The octet a two-character escape stands for. */
  function Unescape(b: Byte): Option<Byte> {
    if b == QUOTE || b == BACKSLASH || b == 0x2F then Some(b)
    else if b == 0x62 then Some(8)
    else if b == 0x66 then Some(12)
    else if b == 0x6E then Some(10)
    else if b == 0x72 then Some(13)
    else if b == 0x74 then Some(9)
    else None
  }

  /** Reads up to the closing quote; gives the text and what follows it. A \u escape is read when
      it names an ASCII character, which is one octet. */
  function ReadBody(bytes: seq<Byte>): Option<(seq<Byte>, seq<Byte>)>
    decreases |bytes|
  {
    if bytes == [] || bytes[0] < 0x20 then None
    else if bytes[0] == QUOTE then Some(([], bytes[1..]))
    else if bytes[0] != BACKSLASH then Prepend(bytes[0], ReadBody(bytes[1..]))
    else if |bytes| < 2 then None
    else if Unescape(bytes[1]).Some? then Prepend(Unescape(bytes[1]).value, ReadBody(bytes[2..]))
    else if |bytes| < 6 || bytes[1] != 0x75 || bytes[2] != 0x30 || bytes[3] != 0x30 then None
    else if HexValue(bytes[4]).None? || HexValue(bytes[5]).None? || HexValue(bytes[4]).value >= 8 then None
    else Prepend(16 * HexValue(bytes[4]).value + HexValue(bytes[5]).value, ReadBody(bytes[6..]))
  }

  function Prepend(c: Byte, read: Option<(seq<Byte>, seq<Byte>)>): Option<(seq<Byte>, seq<Byte>)> {
    if read.None? then None else Some(([c] + read.value.0, read.value.1))
  }

  function ReadString(bytes: seq<Byte>): Option<(seq<Byte>, seq<Byte>)> {
    if bytes == [] || bytes[0] != QUOTE then None else ReadBody(bytes[1..])
  }

  /** One escape is read back as the octet it was written for. */
  lemma ReadsOne(c: Byte, rest: seq<Byte>)
    ensures ReadBody(EscapeByte(c) + rest) == Prepend(c, ReadBody(rest))
  {
    var escaped := EscapeByte(c);
    var bytes := escaped + rest;
    if |escaped| == 1 {
      assert bytes[1..] == rest;
    } else if |escaped| == 2 {
      ReadsPair(escaped[1], rest);
      assert escaped == [BACKSLASH, escaped[1]];
    } else {
      ReadsHex(c, rest);
      assert escaped == [BACKSLASH, 0x75, 0x30, 0x30, HexDigit(c / 16), HexDigit(c % 16)];
    }
  }

  lemma ReadsPair(b: Byte, rest: seq<Byte>)
    requires Unescape(b).Some?
    ensures ReadBody([BACKSLASH, b] + rest) == Prepend(Unescape(b).value, ReadBody(rest))
  {
    assert ([BACKSLASH, b] + rest)[2..] == rest;
  }

  lemma ReadsHex(c: Byte, rest: seq<Byte>)
    requires c < 0x20
    ensures ReadBody([BACKSLASH, 0x75, 0x30, 0x30, HexDigit(c / 16), HexDigit(c % 16)] + rest) ==
            Prepend(c, ReadBody(rest))
  {
    var bytes := [BACKSLASH, 0x75, 0x30, 0x30, HexDigit(c / 16), HexDigit(c % 16)] + rest;
    assert bytes[6..] == rest;
    assert Unescape(bytes[1]).None?;
    assert HexValue(bytes[4]) == Some(c / 16) && HexValue(bytes[5]) == Some(c % 16);
  }

  /** Whatever octets a text holds, its JSON string reads back as that text and leaves what
      follows. */
  lemma {:induction false} StringReadsBack(text: seq<Byte>, rest: seq<Byte>)
    ensures ReadString(JsonString(text) + rest) == Some((text, rest))
  {
    assert (JsonString(text) + rest)[1..] == Escape(text) + ([QUOTE] + rest);
    BodyReadsBack(text, rest);
  }

  lemma {:induction false} BodyReadsBack(text: seq<Byte>, rest: seq<Byte>)
    ensures ReadBody(Escape(text) + ([QUOTE] + rest)) == Some((text, rest))
  {
    var tail := [QUOTE] + rest;
    if text == [] {
      assert Escape(text) + tail == tail;
    } else {
      hide ReadBody;
      hide EscapeByte;
      BodyReadsBack(text[1..], rest);
      ReadsOne(text[0], Escape(text[1..]) + tail);
      assert [text[0]] + text[1..] == text;
      assert Escape(text) + tail == EscapeByte(text[0]) + (Escape(text[1..]) + tail);
    }
  }

  /** A JSON string never holds a raw control character, so in particular no newline. */
  lemma {:induction false} NoControlCharacters(text: seq<Byte>)
    ensures forall b :: b in JsonString(text) ==> b >= 0x20
  {
    if text != [] {
      NoControlCharacters(text[1..]);
      assert forall b :: b in Escape(text[1..]) ==> b in JsonString(text[1..]);
      var escaped := EscapeByte(text[0]);
      assert forall i :: 0 <= i < |escaped| ==> escaped[i] >= 0x20;
    }
  }
}
