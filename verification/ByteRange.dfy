/** The Range header of a request for a recorded file, and the Content-Range of its answer
    (src/api/ByteRange.cpp; sections 2.1 and 4.2 of RFC 7233). A header that asks for
    several ranges, or is none of the three forms of one, is ignored; one that asks for nothing of the
    file is understood and cannot be met. */
module ByteRange {
  import opened Text

  const PREFIX := "bytes="
  const MAX_DIGITS := 18

  /** `present` is false when the header is ignored; present and not satisfiable is status 416. */
  datatype ByteRange = ByteRange(present: bool, satisfiable: bool, start: int, end: int)

  const Ignored := ByteRange(false, false, 0, 0)

  predicate IsDecimal(text: string) { 0 < |text| <= MAX_DIGITS && AllDigits(text) }

  method CheckDecimal(text: string) returns (decimal: bool)
    ensures decimal == IsDecimal(text)
  {
    if text == "" || |text| > 18 { return false; }
    for i := 0 to |text|
      invariant forall k :: 0 <= k < i ==> IsDigit(text[k])
    {
      if text[i] < '0' || text[i] > '9' { return false; }
    }
    return true;
  }

  /** Every value on the way fits a signed 64-bit integer with room to spare. */
  method ToInt64(text: string) returns (value: nat)
    requires IsDecimal(text)
    ensures value == ValueOf(text) < Pow10(MAX_DIGITS) < 0x8000_0000_0000_0000
  {
    value := 0;
    for i := 0 to |text|
      invariant AllDigits(text[..i]) && value == ValueOf(text[..i]) < Pow10(i)
    {
      assert text[..i + 1][..i] == text[..i];
      value := value * 10 + DigitValue(text[i]);
    }
    assert text[..|text|] == text;
    Pow10Grows(|text|, MAX_DIGITS);
    EighteenDigitsFit();
  }

  lemma {:induction false} Pow10Grows(m: nat, n: nat)
    requires m <= n
    ensures Pow10(m) <= Pow10(n)
    decreases n
  {
    if m < n { Pow10Grows(m, n - 1); }
  }

  lemma EighteenDigitsFit()
    ensures Pow10(MAX_DIGITS) == 1_000_000_000_000_000_000
  {
    assert Pow10(6) == 1_000_000;
    assert Pow10(12) == 1_000_000_000_000;
  }

  // ---------------------------------------------------------------- what a header asks for

  /** `bytes=-n`, `bytes=a-` and `bytes=a-b`. */
  datatype Request = Last(n: nat) | From(a: nat) | Span(first: nat, last: nat)

  /** A header is one of the three forms, with numbers of at most 18 digits. */
  ghost predicate Spells(header: string, request: Request) {
    match request
    case Last(n) => exists t :: IsDecimal(t) && ValueOf(t) == n && header == PREFIX + "-" + t
    case From(a) => exists s :: IsDecimal(s) && ValueOf(s) == a && header == PREFIX + s + "-"
    case Span(a, b) => exists s, t :: IsDecimal(s) && IsDecimal(t) && ValueOf(s) == a && ValueOf(t) == b
                                      && header == PREFIX + s + "-" + t
  }

  /** An offset in a file of this size that a request asks for. */
  predicate Wants(request: Request, size: int, at: int) {
    0 <= at < size &&
    match request
    case Last(n) => at >= size - n
    case From(a) => at >= a
    case Span(a, b) => a <= at <= b
  }

  /** What the code makes of what stands before and after the dash. */
  function ReadParts(s: string, t: string): Option<Request> {
    if s == "" then (if IsDecimal(t) then Some(Last(ValueOf(t))) else None)
    else if !IsDecimal(s) || !(t == "" || IsDecimal(t)) then None
    else if t == "" then Some(From(ValueOf(s)))
    else Some(Span(ValueOf(s), ValueOf(t)))
  }

  /** How the code reads a header. */
  function Read(header: string): Option<Request> {
    if |header| <= |PREFIX| || header[..|PREFIX|] != PREFIX then None
    else
      var spec := header[|PREFIX|..];
      var dash := Find(spec, '-', 0);
      if ',' in spec || dash == |spec| then None else ReadParts(spec[..dash], spec[dash + 1..])
  }

  function Min(a: int, b: int): int { if a < b then a else b }

  /** What the code makes of a request. */
  function Resolve(request: Request, size: int): ByteRange {
    match request
    case Last(n) =>
      if n == 0 || size <= 0 then ByteRange(true, false, 0, 0)
      else ByteRange(true, true, if n >= size then 0 else size - n, size - 1)
    case From(a) => ByteRange(true, a < size, a, size - 1)
    case Span(a, b) => ByteRange(true, a < size && a <= Min(b, size - 1), a, Min(b, size - 1))
  }

  function Parsed(header: string, size: int): ByteRange {
    var request := Read(header);
    if request.None? then Ignored else Resolve(request.value, size)
  }

  method ParseByteRange(header: string, size: int) returns (range: ByteRange)
    ensures range == Parsed(header, size)
  {
    range := Ignored;
    if |header| <= |PREFIX| || header[..|PREFIX|] != PREFIX { return; }
    var spec := header[|PREFIX|..];
    if ',' in spec { return; }
    var dash := Find(spec, '-', 0);
    if dash == |spec| { return; }
    var startText, endText := spec[..dash], spec[dash + 1..];
    var endDecimal := CheckDecimal(endText);
    if startText == "" {
      if !endDecimal { return; }
      range := range.(present := true);
      var suffix := ToInt64(endText);
      if suffix <= 0 || size <= 0 { return; }
      return ByteRange(true, true, if suffix >= size then 0 else size - suffix, size - 1);
    }
    var startDecimal := CheckDecimal(startText);
    if !startDecimal { return; }
    if endText != "" && !endDecimal { return; }
    var start := ToInt64(startText);
    var end := size - 1;
    if endText != "" { end := ToInt64(endText); }
    if end > size - 1 { end := size - 1; }
    range := ByteRange(true, size > 0 && start < size && start <= end, start, end);
  }

  // ---------------------------------------------------------------- the grammar

  lemma DigitsOnly(s: string)
    requires AllDigits(s)
    ensures '-' !in s && ',' !in s
  {
  }

  lemma PartsAreRead(s: string, t: string)
    requires AllDigits(s) && AllDigits(t)
    ensures Read(PREFIX + s + "-" + t) == ReadParts(s, t)
  {
    var header := PREFIX + s + "-" + t;
    var spec := header[|PREFIX|..];
    assert header[..|PREFIX|] == PREFIX && spec == s + ['-'] + t;
    DigitsOnly(s);
    DigitsOnly(t);
    FindPast(s, '-', t);
    assert spec[..|s|] == s && spec[|s| + 1..] == t;
    hide ReadParts;
    hide Find;
  }

  lemma SpelledIsRead(header: string, request: Request)
    requires Spells(header, request)
    ensures Read(header) == Some(request)
  {
    hide Read;
    match request {
      case Last(n) =>
        var t :| IsDecimal(t) && ValueOf(t) == n && header == PREFIX + "-" + t;
        PartsAreRead("", t);
        assert PREFIX + "" == PREFIX;
      case From(a) =>
        var s :| IsDecimal(s) && ValueOf(s) == a && header == PREFIX + s + "-";
        PartsAreRead(s, "");
        assert PREFIX + s + "-" + "" == header;
      case Span(a, b) =>
        var s, t :| IsDecimal(s) && IsDecimal(t) && ValueOf(s) == a && ValueOf(t) == b && header == PREFIX + s + "-" + t;
        PartsAreRead(s, t);
    }
  }

  lemma ReadIsSpelled(header: string)
    requires Read(header).Some?
    ensures Spells(header, Read(header).value)
  {
    var spec := header[|PREFIX|..];
    var dash := Find(spec, '-', 0);
    var s, t := spec[..dash], spec[dash + 1..];
    assert header == PREFIX + spec && spec == s + "-" + t;
    assert header == PREFIX + s + "-" + t;
  }

  /** A header counts exactly when it is one of the three forms, and then it means what that form asks for:
      it is satisfiable exactly when it asks for some byte of the file, and the interval is exactly
      those bytes. Everything else is ignored. */
  lemma ParsedExactly(header: string, size: int)
    ensures var range := Parsed(header, size);
            && (range.present <==> exists request :: Spells(header, request))
            && (!range.present ==> range == Ignored)
            && (forall request :: Spells(header, request) ==> Covers(range, request, size))
  {
    if Read(header).Some? { ReadIsSpelled(header); }
    forall request | Spells(header, request) ensures Covers(Parsed(header, size), request, size) {
      SpelledIsRead(header, request);
      ResolveCovers(request, size);
    }
  }

  ghost predicate Covers(range: ByteRange, request: Request, size: int) {
    && range.present
    && (range.satisfiable <==> exists at :: Wants(request, size, at))
    && (range.satisfiable ==>
          && 0 <= range.start <= range.end < size
          && forall at :: range.start <= at <= range.end <==> Wants(request, size, at))
  }

  lemma ResolveCovers(request: Request, size: int)
    ensures Covers(Resolve(request, size), request, size)
  {
    var range := Resolve(request, size);
    if range.satisfiable { assert Wants(request, size, range.start); }
  }

  /** The printed forms parse to the interval they name, cut off at the end of the file. */
  lemma PrintedParse(a: nat, b: nat, size: int)
    requires a < Pow10(MAX_DIGITS) && b < Pow10(MAX_DIGITS)
    ensures Parsed(PREFIX + Decimal(a) + "-" + Decimal(b), size) == Resolve(Span(a, b), size)
    ensures Parsed(PREFIX + Decimal(a) + "-", size) == Resolve(From(a), size)
    ensures Parsed(PREFIX + "-" + Decimal(a), size) == Resolve(Last(a), size)
  {
    DecimalReadsBack(a);
    DecimalReadsBack(b);
    DecimalLength(a, MAX_DIGITS);
    DecimalLength(b, MAX_DIGITS);
    assert Spells(PREFIX + Decimal(a) + "-" + Decimal(b), Span(a, b));
    SpelledIsRead(PREFIX + Decimal(a) + "-" + Decimal(b), Span(a, b));
    assert Spells(PREFIX + Decimal(a) + "-", From(a));
    SpelledIsRead(PREFIX + Decimal(a) + "-", From(a));
    assert Spells(PREFIX + "-" + Decimal(a), Last(a));
    SpelledIsRead(PREFIX + "-" + Decimal(a), Last(a));
  }

  /** A last byte before the first: section 2.1 of RFC 7233 calls the header invalid, which would
      leave it ignored; the code takes it for a request that cannot be met. */
  lemma BackwardsIsUnsatisfiable(a: nat, b: nat, size: int)
    requires b < a < Pow10(MAX_DIGITS)
    ensures var range := Parsed(PREFIX + Decimal(a) + "-" + Decimal(b), size); range.present && !range.satisfiable
  {
    PrintedParse(a, b, size);
  }

  // ---------------------------------------------------------------- the answer

  function Signed(n: int): string { if n < 0 then "-" + Decimal(-n) else Decimal(n) }

  function ContentRangeHeader(range: ByteRange, size: int): string {
    if !range.satisfiable then "bytes */" + Signed(size)
    else "bytes " + Signed(range.start) + "-" + Signed(range.end) + "/" + Signed(size)
  }

  /** What a client learns from a Content-Range: an interval or none, and the size of the file. */
  datatype Answer = Interval(first: nat, last: nat, size: nat) | Unsatisfied(size: nat)

  function ReadAnswer(text: string): Option<Answer> {
    var slash := Find(text, '/', 0);
    if slash == |text| || slash < 7 || text[..6] != "bytes " || !AllDigits(text[slash + 1..]) || slash + 1 == |text| then None
    else
      var size, range := ValueOf(text[slash + 1..]), text[6..slash];
      var dash := Find(range, '-', 0);
      if range == "*" then Some(Unsatisfied(size))
      else if dash == |range| || dash == 0 || dash + 1 == |range| then None
      else if !AllDigits(range[..dash]) || !AllDigits(range[dash + 1..]) then None
      else Some(Interval(ValueOf(range[..dash]), ValueOf(range[dash + 1..]), size))
  }

  /** Every answer the server gives about a file reads back as the interval and the size it was given for. */
  lemma AnswerReadsBack(header: string, size: nat)
    requires Parsed(header, size).present
    ensures var range := Parsed(header, size);
            ReadAnswer(ContentRangeHeader(range, size)) ==
            Some(if range.satisfiable then Interval(range.start, range.end, size) else Unsatisfied(size))
  {
    var range := Parsed(header, size);
    var request := Read(header).value;
    ResolveCovers(request, size);
    DecimalReadsBack(size);
    var sizeText := Decimal(size);
    if range.satisfiable {
      DecimalReadsBack(range.start);
      DecimalReadsBack(range.end);
      IntervalReads(Decimal(range.start), Decimal(range.end), sizeText);
    } else {
      UnsatisfiedReads(sizeText);
    }
  }

  lemma IntervalReads(first: string, last: string, size: string)
    requires AllDigits(first) && AllDigits(last) && AllDigits(size) && first != "" && last != "" && size != ""
    ensures ReadAnswer("bytes " + first + "-" + last + "/" + size) == Some(Interval(ValueOf(first), ValueOf(last), ValueOf(size)))
  {
    var head := "bytes " + first + "-" + last;
    var text := head + "/" + size;
    FindPast(head, '/', size);
    assert text[|head| + 1..] == size && text[..6] == "bytes ";
    var range := text[6..|head|];
    assert range == first + ['-'] + last;
    DigitsOnly(first);
    FindPast(first, '-', last);
    assert range[..|first|] == first && range[|first| + 1..] == last;
    assert range != "*" by { assert IsDigit(range[0]); }
  }

  lemma UnsatisfiedReads(size: string)
    requires AllDigits(size) && size != ""
    ensures ReadAnswer("bytes */" + size) == Some(Unsatisfied(ValueOf(size)))
  {
    FindPast("bytes *", '/', size);
    assert "bytes */" + size == "bytes *" + "/" + size;
    var text := "bytes */" + size;
    assert text[8..] == size && text[..6] == "bytes " && text[6..7] == "*";
  }
}
