/** Decimal numbers and separated lists as text, with the readers the program uses on them: `atoi`,
    which stops at the first other character, the search for a separator, and joining and splitting
    at one. Text is compared octet by octet, as `std::string` does. */
module Text {
  datatype Option<+T> = None | Some(value: T)

  predicate IsDigit(c: char) { '0' <= c <= '9' }

  predicate AllDigits(s: string) { forall i :: 0 <= i < |s| ==> IsDigit(s[i]) }

  function DigitChar(d: nat): char
    requires d < 10
  {
    ('0' as int + d) as char
  }

  function DigitValue(c: char): (d: nat)
    requires IsDigit(c)
    ensures d < 10
  {
    c as int - '0' as int
  }

  /** What `std::to_string` and `%d` print for a number that is not negative. */
  function Decimal(n: nat): string {
    if n < 10 then [DigitChar(n)] else Decimal(n / 10) + [DigitChar(n % 10)]
  }

  function ValueOf(s: string): nat
    requires AllDigits(s)
  {
    if s == "" then 0 else 10 * ValueOf(s[..|s| - 1]) + DigitValue(s[|s| - 1])
  }

  function Pow10(n: nat): (p: nat)
    ensures p > 0
  {
    if n == 0 then 1 else 10 * Pow10(n - 1)
  }

  lemma {:induction false} DecimalReadsBack(n: nat)
    ensures Decimal(n) != "" && AllDigits(Decimal(n)) && ValueOf(Decimal(n)) == n
  {
    if n >= 10 {
      DecimalReadsBack(n / 10);
      var s := Decimal(n);
      assert s[..|s| - 1] == Decimal(n / 10);
    }
  }

  lemma {:induction false} DecimalLength(n: nat, width: nat)
    requires width > 0
    ensures |Decimal(n)| <= width <==> n < Pow10(width)
  {
    if n >= 10 && width > 1 { DecimalLength(n / 10, width - 1); }
  }

  lemma {:induction false} ValueBelowPow10(s: string)
    requires AllDigits(s)
    ensures ValueOf(s) < Pow10(|s|)
  {
    if s != "" { ValueBelowPow10(s[..|s| - 1]); }
  }

  function Zeros(n: nat): (s: string)
    ensures |s| == n && AllDigits(s)
  {
    if n == 0 then "" else ['0'] + Zeros(n - 1)
  }

  lemma {:induction false} LeadingZeros(n: nat, s: string)
    requires AllDigits(s)
    ensures ValueOf(Zeros(n) + s) == ValueOf(s)
    decreases n, |s|
  {
    var t := Zeros(n) + s;
    if s != "" {
      LeadingZeros(n, s[..|s| - 1]);
      assert t[..|t| - 1] == Zeros(n) + s[..|s| - 1];
    } else if n > 0 {
      LeadingZeros(n - 1, "0");
      assert t == Zeros(n - 1) + "0" by { ZerosCommute(n - 1); }
      assert "0"[..0] == "";
    }
  }

  lemma {:induction false} ZerosCommute(n: nat)
    ensures Zeros(n) + "0" == "0" + Zeros(n)
  {
    if n > 0 {
      ZerosCommute(n - 1);
      assert Zeros(n) + "0" == "0" + (Zeros(n - 1) + "0");
    }
  }

  /** What `%0<width>d` prints. */
  function Padded(value: int, width: nat): string {
    if value >= 0 then Zeros(if width > |Decimal(value)| then width - |Decimal(value)| else 0) + Decimal(value)
    else
      var digits := Decimal(-value);
      "-" + Zeros(if width > |digits| + 1 then width - 1 - |digits| else 0) + digits
  }

  lemma PaddedReadsBack(n: nat, width: nat)
    requires 0 < width && n < Pow10(width)
    ensures |Padded(n, width)| == width && AllDigits(Padded(n, width)) && ValueOf(Padded(n, width)) == n
  {
    DecimalReadsBack(n);
    DecimalLength(n, width);
    LeadingZeros(width - |Decimal(n)|, Decimal(n));
  }

  /** Too wide a number is printed in full, so it does not start with `width` digits of its own. */
  lemma TooWide(value: int, width: nat)
    requires value >= Pow10(width) && width > 0
    ensures |Padded(value, width)| > width && AllDigits(Padded(value, width))
  {
    DecimalReadsBack(value);
    DecimalLength(value, width);
  }

  // ---------------------------------------------------------------- reading numbers out of text

  function DigitsEnd(text: string, from: nat): (end: nat)
    requires from <= |text|
    ensures from <= end <= |text| && AllDigits(text[from..end])
    ensures end < |text| ==> !IsDigit(text[end])
    decreases |text| - from
  {
    if from == |text| || !IsDigit(text[from]) then from else DigitsEnd(text, from + 1)
  }

  lemma {:induction false} DigitsEndIs(text: string, from: nat, end: nat)
    requires from <= end <= |text| && AllDigits(text[from..end]) && (end < |text| ==> !IsDigit(text[end]))
    ensures DigitsEnd(text, from) == end
    decreases end - from
  {
    if from < end {
      assert IsDigit(text[from..end][0]);
      assert text[from + 1..end] == text[from..end][1..];
      DigitsEndIs(text, from + 1, end);
    }
  }

  predicate IsSpace(c: char) { c == ' ' || '\t' <= c <= '\r' }

  function SpacesEnd(text: string, from: nat): (end: nat)
    requires from <= |text|
    ensures from <= end <= |text|
    decreases |text| - from
  {
    if from == |text| || !IsSpace(text[from]) then from else SpacesEnd(text, from + 1)
  }

  /** `std::atoi`: white space, a sign, and as many digits as there are. */
  function Atoi(text: string): int {
    var start := SpacesEnd(text, 0);
    var signed := start < |text| && text[start] in "+-";
    var digits := if signed then start + 1 else start;
    var value: int := ValueOf(text[digits..DigitsEnd(text, digits)]);
    if signed && text[start] == '-' then -value else value
  }

  lemma AtoiOfDecimal(n: nat, rest: string)
    requires rest == "" || !IsDigit(rest[0])
    ensures Atoi(Decimal(n) + rest) == n
  {
    DecimalReadsBack(n);
    var text := Decimal(n) + rest;
    assert text[0] == Decimal(n)[0];
    assert text[0..|Decimal(n)|] == Decimal(n);
    DigitsEndIs(text, 0, |Decimal(n)|);
  }

  // ---------------------------------------------------------------- finding and splitting

  /** The first place `c` stands at or after `from`, or the length of `s`. */
  function Find(s: string, c: char, from: nat): (at: nat)
    requires from <= |s|
    ensures from <= at <= |s|
    ensures at < |s| ==> s[at] == c
    ensures forall i :: from <= i < at ==> s[i] != c
    decreases |s| - from
  {
    if from == |s| || s[from] == c then from else Find(s, c, from + 1)
  }

  function Split(s: string, c: char): (fields: seq<string>)
    ensures fields != []
    decreases |s|
  {
    var at := Find(s, c, 0);
    if at == |s| then [s] else [s[..at]] + Split(s[at + 1..], c)
  }

  function Join(fields: seq<string>, c: char): string {
    if fields == [] then ""
    else if |fields| == 1 then fields[0]
    else Join(fields[..|fields| - 1], c) + [c] + fields[|fields| - 1]
  }

  lemma FindPast(a: string, c: char, b: string)
    requires c !in a
    ensures Find(a + [c] + b, c, 0) == |a|
    ensures Find(a, c, 0) == |a|
  {
    FindIs(a + [c] + b, c, 0, |a|);
    FindIs(a, c, 0, |a|);
  }

  lemma {:induction false} SplitAppends(s: string, c: char, field: string)
    requires c !in field
    ensures Split(s + [c] + field, c) == Split(s, c) + [field]
    decreases |s|
  {
    var at := Find(s, c, 0);
    var whole := s + [c] + field;
    if at == |s| {
      FindPast(s, c, field);
      FindPast(field, c, "");
      assert whole[..|s|] == s && whole[|s| + 1..] == field;
    } else {
      assert s == s[..at] + [c] + s[at + 1..];
      assert whole == s[..at] + [c] + (s[at + 1..] + [c] + field);
      FindPast(s[..at], c, s[at + 1..] + [c] + field);
      assert whole[at + 1..] == s[at + 1..] + [c] + field && whole[..at] == s[..at];
      SplitAppends(s[at + 1..], c, field);
    }
  }

  lemma {:induction false} FindIs(s: string, c: char, from: nat, at: nat)
    requires from <= at <= |s| && (at < |s| ==> s[at] == c) && forall i :: from <= i < at ==> s[i] != c
    ensures Find(s, c, from) == at
    decreases at - from
  {
    if from < at { FindIs(s, c, from + 1, at); }
  }

  lemma FirstField(s: string, c: char, at: nat, head: string, tail: string)
    requires at == Find(s, c, 0) < |s| && head == s[..at] && tail == s[at + 1..]
    ensures Split(s, c) == [head] + Split(tail, c)
  {
    hide Find;
  }

  lemma NextField(s: string, c: char, at: nat, end: nat)
    requires at <= |s| && end == Find(s, c, at) < |s|
    ensures Split(s[at..], c) == [s[at..end]] + Split(s[end + 1..], c)
  {
    hide *;
    FirstField(s[at..], c, end - at, s[at..end], s[end + 1..]);
  }

  /** A loop over fields that has done some: one field further, and the last one. */
  lemma FieldDone(s: string, c: char, done: seq<string>, at: nat, end: nat)
    requires at <= |s| && end == Find(s, c, at) < |s|
    requires Split(s, c) == done + Split(s[at..], c)
    ensures Split(s, c) == (done + [s[at..end]]) + Split(s[end + 1..], c)
  {
    hide *;
    NextField(s, c, at, end);
    Regroup(done, s[at..end], Split(s[end + 1..], c));
  }

  lemma LastFieldDone(s: string, c: char, done: seq<string>, at: nat)
    requires at <= |s| && Find(s, c, at) == |s|
    requires Split(s, c) == done + Split(s[at..], c)
    ensures Split(s, c) == done + [s[at..]]
  {
    hide Find;
  }

  lemma Regroup<T>(a: seq<T>, x: T, b: seq<T>)
    ensures a + ([x] + b) == (a + [x]) + b
  {
  }

  lemma NoFieldDone(s: string, c: char)
    ensures Split(s, c) == [] + Split(s[0..], c)
  {
    assert s[0..] == s;
  }

  /** Splitting undoes joining. */
  lemma {:induction false} SplitJoin(fields: seq<string>, c: char)
    requires fields != [] && forall f <- fields :: c !in f
    ensures Split(Join(fields, c), c) == fields
  {
    if |fields| == 1 {
      FindPast(fields[0], c, "");
    } else {
      var init := fields[..|fields| - 1];
      SplitJoin(init, c);
      SplitAppends(Join(init, c), c, fields[|fields| - 1]);
      assert fields == init + [fields[|fields| - 1]];
    }
  }

  // ---------------------------------------------------------------- the order of `std::string`

  predicate AtMost(a: string, b: string) {
    a == "" || (b != "" && (a[0] < b[0] || (a[0] == b[0] && AtMost(a[1..], b[1..]))))
  }

  lemma {:induction false} AtMostIsTotal(a: string, b: string)
    ensures AtMost(a, b) || AtMost(b, a)
    ensures AtMost(a, b) && AtMost(b, a) ==> a == b
  {
    if a != "" && b != "" {
      AtMostIsTotal(a[1..], b[1..]);
      assert a == [a[0]] + a[1..] && b == [b[0]] + b[1..];
    }
  }

  lemma {:induction false} AtMostIsTransitive(a: string, b: string, c: string)
    requires AtMost(a, b) && AtMost(b, c)
    ensures AtMost(a, c)
  {
    if a != "" && a[0] == b[0] == c[0] { AtMostIsTransitive(a[1..], b[1..], c[1..]); }
  }

  // ---------------------------------------------------------------- hexadecimal

  function HexChar(d: nat): char
    requires d < 16
  {
    if d < 10 then ('0' as int + d) as char else ('a' as int + d - 10) as char
  }

  function HexOf(c: char): nat {
    if IsDigit(c) then DigitValue(c) else if 'a' <= c <= 'f' then c as int - 'a' as int + 10 else 0
  }

  /** What `%x` prints. */
  function Hex(n: nat): string {
    if n < 16 then [HexChar(n)] else Hex(n / 16) + [HexChar(n % 16)]
  }

  function HexValue(s: string): nat {
    if s == "" then 0 else 16 * HexValue(s[..|s| - 1]) + HexOf(s[|s| - 1])
  }

  lemma {:induction false} HexReadsBack(n: nat, zeros: nat)
    ensures HexValue(Zeros(zeros) + Hex(n)) == n
  {
    var s := Zeros(zeros) + Hex(n);
    if n < 16 {
      NoValue(zeros);
      assert s[..|s| - 1] == Zeros(zeros);
    } else {
      HexReadsBack(n / 16, zeros);
      assert s[..|s| - 1] == Zeros(zeros) + Hex(n / 16);
    }
  }

  lemma {:induction false} NoValue(zeros: nat)
    ensures HexValue(Zeros(zeros)) == 0
  {
    if zeros > 0 {
      NoValue(zeros - 1);
      ZerosCommute(zeros - 1);
      assert Zeros(zeros) == Zeros(zeros - 1) + "0";
      assert Zeros(zeros)[..zeros - 1] == Zeros(zeros - 1);
    }
  }

  /** What `%0<width>x` prints. */
  function PaddedHex(n: nat, width: nat): string {
    Zeros(if width > |Hex(n)| then width - |Hex(n)| else 0) + Hex(n)
  }
}
