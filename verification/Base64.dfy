/** Base64 decoding (src/api/controllers/AiController.hpp, `decodeBase64`), against the encoding of
    section 4 of RFC 4648. The accumulator is a 32-bit number that is never masked: what is shifted
    out of it wraps away, and what is still pending is right all the same. */
module Base64 {
  import opened Frames
  import opened Text

  const ALPHABET := UPPER + LOWER + DIGITS + "+/"
  const UPPER := "ABCDEFGHIJKLMNOPQRSTUVWXYZ"
  const LOWER := "abcdefghijklmnopqrstuvwxyz"
  const DIGITS := "0123456789"

  type Sextet = v: int | 0 <= v < 64

  // ---------------------------------------------------------------- the encoding

  /** The letter for six bits, and the six bits for a letter, or -1. */
  function Letter(v: Sextet): char {
    if v < 26 then ('A' as int + v) as char
    else if v < 52 then ('a' as int + v - 26) as char
    else if v < 62 then ('0' as int + v - 52) as char
    else if v == 62 then '+' else '/'
  }

  function Value(c: char): (v: int)
    ensures -1 <= v < 64
  {
    if 'A' <= c <= 'Z' then c as int - 'A' as int
    else if 'a' <= c <= 'z' then c as int - 'a' as int + 26
    else if '0' <= c <= '9' then c as int - '0' as int + 52
    else if c == '+' then 62 else if c == '/' then 63 else -1
  }

  /** Three octets as four sextets. */
  function Cut1(a: Byte): Sextet { a / 4 }

  function Cut2(a: Byte, b: Byte): Sextet { a % 4 * 16 + b / 16 }

  function Cut3(b: Byte, c: Byte): Sextet { b % 16 * 4 + c / 64 }

  function Cut4(c: Byte): Sextet { c % 64 }

  /** Eight bits at a time cut into six at a time. */
  function Cut(bytes: seq<Byte>): seq<Sextet> {
    if bytes == [] then []
    else if |bytes| == 1 then [Cut1(bytes[0]), Cut2(bytes[0], 0)]
    else if |bytes| == 2 then [Cut1(bytes[0]), Cut2(bytes[0], bytes[1]), Cut3(bytes[1], 0)]
    else
      [Cut1(bytes[0]), Cut2(bytes[0], bytes[1]), Cut3(bytes[1], bytes[2]), Cut4(bytes[2])] + Cut(bytes[3..])
  }

  function Letters(sextets: seq<Sextet>): string {
    if sextets == [] then "" else Letters(sextets[..|sextets| - 1]) + [Letter(sextets[|sextets| - 1])]
  }

  function Padding(bytes: seq<Byte>): string {
    if |bytes| % 3 == 1 then "==" else if |bytes| % 3 == 2 then "=" else ""
  }

  function Encode(bytes: seq<Byte>): string { Letters(Cut(bytes)) + Padding(bytes) }

  // ---------------------------------------------------------------- what decoding means

  function WithoutSpaces(text: string): string {
    if text == "" then ""
    else
      var last := text[|text| - 1];
      WithoutSpaces(text[..|text| - 1]) + (if IsSpace(last) then "" else [last])
  }

  predicate InAlphabet(text: string) { forall i :: 0 <= i < |text| ==> Value(text[i]) >= 0 }

  function Values(text: string): (vs: seq<Sextet>)
    requires InAlphabet(text)
    ensures |vs| == |text|
  {
    if text == "" then [] else Values(text[..|text| - 1]) + [Value(text[|text| - 1])]
  }

  /** Four sextets as three octets. */
  function Join1(a: Sextet, b: Sextet): Byte { a * 4 + b / 16 }

  function Join2(b: Sextet, c: Sextet): Byte { b % 16 * 16 + c / 4 }

  function Join3(c: Sextet, d: Sextet): Byte { c % 4 * 64 + d }

  /** Six bits at a time joined into eight at a time; what does not fill an octet is dropped. */
  function Joined(s: seq<Sextet>): seq<Byte> {
    if |s| < 2 then []
    else if |s| == 2 then [Join1(s[0], s[1])]
    else if |s| == 3 then [Join1(s[0], s[1]), Join2(s[1], s[2])]
    else [Join1(s[0], s[1]), Join2(s[1], s[2]), Join3(s[2], s[3])] + Joined(s[4..])
  }

  /** The text up to the first `=`, spaces aside; nothing comes of a text with any other letter there. */
  function Decode(text: string): seq<Byte> {
    var body := WithoutSpaces(text[..Find(text, '=', 0)]);
    if InAlphabet(body) then Joined(Values(body)) else []
  }

  // ---------------------------------------------------------------- decoding undoes encoding

  lemma BitsMeet(a: Byte, b: Byte, c: Byte)
    ensures Join1(Cut1(a), Cut2(a, b)) == a && Join2(Cut2(a, b), Cut3(b, c)) == b && Join3(Cut3(b, c), Cut4(c)) == c
  {
  }

  lemma {:induction false} JoinedOfCut(bytes: seq<Byte>)
    ensures Joined(Cut(bytes)) == bytes
  {
    hide Join1;
    hide Join2;
    hide Join3;
    hide Cut1;
    hide Cut2;
    hide Cut3;
    hide Cut4;
    if |bytes| == 1 {
      BitsMeet(bytes[0], 0, 0);
    } else if |bytes| == 2 {
      BitsMeet(bytes[0], bytes[1], 0);
    } else if |bytes| >= 3 {
      BitsMeet(bytes[0], bytes[1], bytes[2]);
      JoinedOfCut(bytes[3..]);
      assert Cut(bytes)[4..] == Cut(bytes[3..]);
    }
  }

  /** The alphabet of table 1 of RFC 4648. */
  lemma AlphabetIs(v: Sextet)
    ensures |ALPHABET| == 64 && ALPHABET[v] == Letter(v)
  {
    if v < 26 { UpperIs(v); } else if v < 52 { LowerIs(v - 26); } else if v < 62 { DigitIs(v - 52); }
    Lengths();
  }

  lemma Lengths() ensures |UPPER| == |LOWER| == 26 && |DIGITS| == 10 {}

  lemma UpperIs(i: nat)
    requires i < |UPPER|
    ensures UPPER[i] == ('A' as int + i) as char
  {
  }

  lemma LowerIs(i: nat)
    requires i < |LOWER|
    ensures LOWER[i] == ('a' as int + i) as char
  {
  }

  lemma DigitIs(i: nat)
    requires i < |DIGITS|
    ensures DIGITS[i] == ('0' as int + i) as char
  {
  }

  lemma LettersAndValues(v: Sextet, c: char)
    ensures Value(Letter(v)) == v && !IsSpace(Letter(v)) && Letter(v) != '='
    ensures Value(c) >= 0 ==> Letter(Value(c)) == c
  {
  }

  lemma {:induction false} ValuesOfLetters(s: seq<Sextet>)
    ensures |Letters(s)| == |s| && InAlphabet(Letters(s)) && Values(Letters(s)) == s && '=' !in Letters(s)
  {
    hide Letter;
    hide Value;
    if s != [] {
      var init, last := s[..|s| - 1], s[|s| - 1];
      ValuesOfLetters(init);
      LettersAndValues(last, 'A');
      assert Letters(s)[..|Letters(s)| - 1] == Letters(init);
    }
  }

  lemma FindSkipsSpaces(text: string)
    ensures WithoutSpaces(text[..Find(text, '=', 0)]) == WithoutSpaces(text)[..Find(WithoutSpaces(text), '=', 0)]
  {
    hide WithoutSpaces;
    hide IsSpace;
    var at := Find(text, '=', 0);
    var plain := WithoutSpaces(text[..at]);
    NothingNew(text[..at]);
    FindPast(plain, '=', "");
    if at < |text| {
      PaddingStays(text[..at], text[at + 1..]);
      assert text == text[..at] + ['='] + text[at + 1..];
      FindPast(plain, '=', WithoutSpaces(text[at + 1..]));
    } else {
      assert text[..at] == text;
    }
  }

  lemma PaddingStays(a: string, b: string)
    ensures WithoutSpaces(a + ['='] + b) == WithoutSpaces(a) + ['='] + WithoutSpaces(b)
  {
    SpacesApart(a + ['='], b);
    SpacesApart(a, ['=']);
    assert ['='][..0] == "";
    assert WithoutSpaces(['=']) == ['='];
  }

  lemma {:induction false} SpacesApart(a: string, b: string)
    ensures WithoutSpaces(a + b) == WithoutSpaces(a) + WithoutSpaces(b)
  {
    if b == "" {
      assert a + b == a;
    } else {
      SpacesApart(a, b[..|b| - 1]);
      assert (a + b)[..|a + b| - 1] == a + b[..|b| - 1];
    }
  }

  lemma {:induction false} NothingNew(text: string)
    ensures forall c <- WithoutSpaces(text) :: c in text && !IsSpace(c)
  {
    if text != "" { NothingNew(text[..|text| - 1]); }
  }

  /** Every byte string comes back from its encoding, padded or not, with white space put anywhere
      and anything at all after the padding. */
  lemma DecodeUndoesEncode(bytes: seq<Byte>, text: string)
    requires var letters, plain := Letters(Cut(bytes)), WithoutSpaces(text);
             plain == letters || (|plain| > |letters| && plain[..|letters|] == letters && plain[|letters|] == '=')
    ensures Decode(text) == bytes
  {
    hide Letters;
    hide Cut;
    hide WithoutSpaces;
    hide Values;
    hide Joined;
    var letters, plain := Letters(Cut(bytes)), WithoutSpaces(text);
    FindSkipsSpaces(text);
    ValuesOfLetters(Cut(bytes));
    if plain == letters {
      FindPast(letters, '=', "");
      assert letters[..|letters|] == letters;
    } else {
      assert plain == letters + ['='] + plain[|letters| + 1..];
      FindPast(letters, '=', plain[|letters| + 1..]);
    }
    JoinedOfCut(bytes);
  }

  /** The standard form, with white space put anywhere. */
  lemma DecodeUndoesSpacedEncode(bytes: seq<Byte>, text: string)
    requires WithoutSpaces(text) == Encode(bytes)
    ensures Decode(text) == bytes
  {
    DecodeUndoesEncode(bytes, text);
  }

  // ---------------------------------------------------------------- the accumulator

  /** A signed 32-bit value, which wraps. */
  function Int32(x: int): int { (x + 0x8000_0000) % 0x1_0000_0000 - 0x8000_0000 }

  /** How many bits of the last letters do not make an octet yet, and what they are. */
  function PendingBits(s: seq<Sextet>): int { if |s| % 4 == 0 then 0 else 8 - 2 * (|s| % 4) }

  function Pending(s: seq<Sextet>): Sextet {
    if s == [] then 0
    else if |s| == 1 then s[0]
    else if |s| == 2 then s[1] % 16
    else if |s| == 3 then s[2] % 4
    else Pending(s[4..])
  }

  function TwoTo(bits: int): (n: int)
    requires 0 <= bits <= 6
    ensures n > 0
  {
    if bits == 0 then 1 else 2 * TwoTo(bits - 1)
  }

  /** The octet the pending bits now complete, and the bits that stay pending. */
  function Octet(accumulator: int, bits: int): Byte
    requires 0 <= bits <= 6
  {
    accumulator / TwoTo(bits) % 256
  }

  function Low(accumulator: int, bits: int): int
    requires 0 <= bits <= 6
  {
    accumulator % TwoTo(bits)
  }

  /** Only the bits an octet has not used yet are looked at. */
  lemma OnlyLowBits(b: Sextet, c: Sextet)
    ensures Join2(b % 16, c) == Join2(b, c) && Join3(b % 4, c) == Join3(b, c)
  {
  }

  lemma {:induction false} OneMore(s: seq<Sextet>, v: Sextet)
    ensures |s| % 4 == 0 ==> Joined(s + [v]) == Joined(s) && Pending(s + [v]) == v && Pending(s) == 0
    ensures |s| % 4 == 1 ==> Joined(s + [v]) == Joined(s) + [Join1(Pending(s), v)] && Pending(s + [v]) == v % 16
    ensures |s| % 4 == 2 ==> Joined(s + [v]) == Joined(s) + [Join2(Pending(s), v)] && Pending(s + [v]) == v % 4
    ensures |s| % 4 == 3 ==> Joined(s + [v]) == Joined(s) + [Join3(Pending(s), v)] && Pending(s + [v]) == 0
  {
    hide Join1;
    hide Join2;
    hide Join3;
    if |s| == 2 || |s| == 3 { OnlyLowBits(s[|s| - 1], v); }
    if |s| >= 4 {
      OneMore(s[4..], v);
      var t := s + [v];
      assert t[4..] == s[4..] + [v] && t[0] == s[0] && t[1] == s[1] && t[2] == s[2] && t[3] == s[3];
      var octets := [Join1(s[0], s[1]), Join2(s[1], s[2]), Join3(s[2], s[3])];
      assert Joined(t) == octets + Joined(t[4..]) && Joined(s) == octets + Joined(s[4..]);
      assert Pending(t) == Pending(t[4..]) && Pending(s) == Pending(s[4..]);
    }
  }

  /** One letter's worth of the loop: the accumulator may have wrapped many times, but the bits
      still pending are the ones that count. */
  lemma AccumulatorKeepsPending(accumulator: int, s: seq<Sextet>, v: Sextet)
    requires 0 <= PendingBits(s) <= 6 && Low(accumulator, PendingBits(s)) == Pending(s)
    ensures 0 <= PendingBits(s + [v]) <= 6
    ensures var next := Int32(accumulator * 64 + v);
            var bits := PendingBits(s) + 6;
            if bits >= 8 then
              bits - 8 == PendingBits(s + [v])
              && Joined(s + [v]) == Joined(s) + [Octet(next, bits - 8)] && Low(next, bits - 8) == Pending(s + [v])
            else
              bits == PendingBits(s + [v]) && Joined(s + [v]) == Joined(s) && Low(next, bits) == Pending(s + [v])
  {
    hide Joined;
    hide Pending;
    hide Octet;
    hide Low;
    hide Int32;
    hide Join1;
    hide Join2;
    hide Join3;
    OneMore(s, v);
    if |s| % 4 == 0 {
      AfterNone(accumulator, v);
    } else if |s| % 4 == 1 {
      AfterOne(accumulator, v);
    } else if |s| % 4 == 2 {
      AfterTwo(accumulator, v);
    } else {
      AfterThree(accumulator, v);
    }
  }

  lemma Powers() ensures TwoTo(0) == 1 && TwoTo(2) == 4 && TwoTo(4) == 16 && TwoTo(6) == 64 {}

  lemma Wrapped(x: int)
    ensures Int32(x) == x - 0x1_0000_0000 * ((x + 0x8000_0000) / 0x1_0000_0000)
  {
  }

  lemma AfterNone(a: int, v: Sextet)
    ensures Low(Int32(a * 64 + v), 6) == v
  {
    Powers();
    Wrapped(a * 64 + v);
    var k := (a * 64 + v + 0x8000_0000) / 0x1_0000_0000;
    hide Int32;
    assert Int32(a * 64 + v) == 64 * (a - 0x400_0000 * k) + v;
  }

  lemma AfterOne(a: int, v: Sextet)
    ensures Octet(Int32(a * 64 + v), 4) == Join1(Low(a, 6), v) && Low(Int32(a * 64 + v), 4) == v % 16
  {
    Powers();
    var k := (a * 64 + v + 0x8000_0000) / 0x1_0000_0000;
    var q, r := a / 64, a % 64;
    assert Int32(a * 64 + v) == 16 * (256 * (q - 0x10_0000 * k) + r * 4) + v by { Wrapped(a * 64 + v); }
    hide Int32;
    Quotient16(256 * (q - 0x10_0000 * k) + r * 4, v);
    Remainder256(q - 0x10_0000 * k, Join1(r, v));
  }

  lemma AfterTwo(a: int, v: Sextet)
    ensures Octet(Int32(a * 64 + v), 2) == Join2(Low(a, 4), v) && Low(Int32(a * 64 + v), 2) == v % 4
  {
    Powers();
    var k := (a * 64 + v + 0x8000_0000) / 0x1_0000_0000;
    var q, r := a / 16, a % 16;
    assert Int32(a * 64 + v) == 4 * (256 * (q - 0x40_0000 * k) + r * 16) + v by { Wrapped(a * 64 + v); }
    hide Int32;
    Quotient4(256 * (q - 0x40_0000 * k) + r * 16, v);
    Remainder256(q - 0x40_0000 * k, Join2(r, v));
  }

  lemma AfterThree(a: int, v: Sextet)
    ensures Octet(Int32(a * 64 + v), 0) == Join3(Low(a, 2), v) && Low(Int32(a * 64 + v), 0) == 0
  {
    Powers();
    var k := (a * 64 + v + 0x8000_0000) / 0x1_0000_0000;
    var q, r := a / 4, a % 4;
    assert Int32(a * 64 + v) == 256 * (q - 0x100_0000 * k) + (r * 64 + v) by { Wrapped(a * 64 + v); }
    hide Int32;
    Remainder256(q - 0x100_0000 * k, Join3(r, v));
  }

  lemma Quotient16(q: int, v: Sextet)
    ensures (16 * q + v) / 16 == q + v / 16 && (16 * q + v) % 16 == v % 16
  {
  }

  lemma Quotient4(q: int, v: Sextet)
    ensures (4 * q + v) / 4 == q + v / 4 && (4 * q + v) % 4 == v % 4
  {
  }

  lemma Remainder256(q: int, r: int)
    requires 0 <= r < 256
    ensures (256 * q + r) % 256 == r
  {
  }

  // ---------------------------------------------------------------- the loop

  /** The table the decoder looks letters up in. */
  method ReverseTable() returns (reverse: seq<int>)
    ensures |reverse| == 256
    ensures forall c: char :: c as int < 256 ==> reverse[c as int] == Value(c)
  {
    hide Letter;
    hide Value;
    reverse := seq(256, _ => -1);
    for i := 0 to 64
      invariant |reverse| == 256
      invariant forall c: char :: c as int < 256 ==> reverse[c as int] == if Value(c) < i then Value(c) else -1
    {
      AlphabetIs(i);
      LettersAndValues(i, 'A');
      forall c: char ensures Value(c) == i <==> c == Letter(i) { LettersAndValues(i, c); }
      reverse := reverse[ALPHABET[i] as int := i];
    }
  }

  /** Text is octets. */
  method DecodeBase64(text: string) returns (out: seq<Byte>)
    requires forall i :: 0 <= i < |text| ==> text[i] as int < 256
    ensures out == Decode(text)
  {
    hide Value;
    hide Joined;
    hide Pending;
    hide PendingBits;
    hide Int32;
    hide IsSpace;
    var reverse := ReverseTable();
    out := [];
    var accumulator, bits := 0, 0;
    ghost var body := "";
    var i := 0;
    NothingYet();
    while i < |text|
      invariant i <= |text| && '=' !in text[..i]
      invariant body == WithoutSpaces(text[..i]) && InAlphabet(body)
      invariant 0 <= bits <= 6 && bits == PendingBits(Values(body))
      invariant out == Joined(Values(body)) && Low(accumulator, bits) == Pending(Values(body))
    {
      var c := text[i];
      assert text[..i + 1][..i] == text[..i] && text[..i + 1] == text[..i] + [c];
      if c == '=' { break; }
      if !IsSpace(c) {
        var value := reverse[c as int];
        if value < 0 {
          BadLetter(text, i);
          return [];
        }
        AccumulatorKeepsPending(accumulator, Values(body), value);
        assert (body + [c])[..|body|] == body && Values(body + [c]) == Values(body) + [value];
        body := body + [c];
        accumulator := Int32(accumulator * 64 + value);
        bits := bits + 6;
        if bits >= 8 {
          bits := bits - 8;
          out := out + [Octet(accumulator, bits)];
        }
      }
      i := i + 1;
    }
    UpToPadding(text, i);
  }

  lemma NothingYet()
    ensures Joined(Values("")) == [] && PendingBits(Values("")) == 0 == Pending(Values("")) && Low(0, 0) == 0
  {
  }

  lemma UpToPadding(text: string, i: nat)
    requires i <= |text| && '=' !in text[..i] && (i < |text| ==> text[i] == '=')
    ensures Find(text, '=', 0) == i
  {
    assert forall k :: 0 <= k < i ==> text[k] == text[..i][k];
    FindIs(text, '=', 0, i);
  }

  lemma BadLetter(text: string, i: nat)
    requires i < |text| && '=' !in text[..i + 1] && !IsSpace(text[i]) && Value(text[i]) < 0
    ensures Decode(text) == []
  {
    var at := Find(text, '=', 0);
    assert at > i by { assert forall k :: 0 <= k <= i ==> text[k] == text[..i + 1][k] && text[k] != '='; }
    var body := text[..at];
    assert body == body[..i] + [text[i]] + body[i + 1..];
    SpacesApart(body[..i] + [text[i]], body[i + 1..]);
    assert (body[..i] + [text[i]])[..i] == body[..i];
    assert WithoutSpaces(body[..i] + [text[i]]) == WithoutSpaces(body[..i]) + [text[i]];
    assert WithoutSpaces(body)[|WithoutSpaces(body[..i])|] == text[i];
  }
}
