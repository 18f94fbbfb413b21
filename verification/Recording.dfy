/** What a recording is made of, and the timeline arithmetic on it
    (src/media/recording/Recording.hpp, src/media/recording/Recording.cpp). */
module Recording {
  import opened Sorting
  import opened Text

  /** A segment of a camera's timeline; instants are epoch milliseconds. `tag` stands for the
      fields no decision here reads: codec, container, mode, session start. */
  datatype Segment = Segment(
    id: string,
    cameraId: string,
    path: string,
    startMs: int,
    endMs: int,
    hasMotion: bool,
    motionEventId: string,
    complete: bool,
    tag: int)

  /** The window a motion event protects: the event plus its pre- and post-roll. */
  datatype MotionWindow = MotionWindow(startMs: int, endMs: int, preMs: int, postMs: int) {
    function KeepFrom(): int { startMs - (if preMs < 0 then 0 else preMs) }

    function KeepTo(): int { endMs + (if postMs < 0 then 0 else postMs) }
  }

  predicate Overlaps(aStart: int, aEnd: int, bStart: int, bEnd: int) {
    aStart < bEnd && bStart < aEnd
  }

  predicate SegmentIsWorthKeeping(segment: Segment, window: MotionWindow) {
    Overlaps(segment.startMs, segment.endMs, window.KeepFrom(), window.KeepTo())
  }

  /** A window holds its own event whatever its pre- and post-roll: a negative one counts as none. */
  lemma WindowHoldsEvent(w: MotionWindow)
    ensures w.KeepFrom() <= w.startMs && w.endMs <= w.KeepTo()
    ensures w.startMs - w.KeepFrom() == (if w.preMs > 0 then w.preMs else 0)
    ensures w.KeepTo() - w.endMs == (if w.postMs > 0 then w.postMs else 0)
  {
  }

  predicate Within(t: int, from: int, to: int) {
    from <= t < to
  }

  /** For windows and segments that are not empty, overlapping is having an instant in common. */
  lemma OverlapIsSharedInstant(aStart: int, aEnd: int, bStart: int, bEnd: int)
    requires aStart < aEnd && bStart < bEnd
    ensures Overlaps(aStart, aEnd, bStart, bEnd) <==>
            exists t :: Within(t, aStart, aEnd) && Within(t, bStart, bEnd)
  {
    var t := if aStart < bStart then bStart else aStart;
    if Overlaps(aStart, aEnd, bStart, bEnd) {
      assert Within(t, aStart, aEnd) && Within(t, bStart, bEnd);
    }
  }

  // ---------------------------------------------------------------- a window of the timeline

  predicate ByStart(a: Segment, b: Segment) {
    a.startMs < b.startMs || (a.startMs == b.startMs && AtMost(a.id, b.id))
  }

  lemma ByStartIsOrder()
    ensures TotalPreorder(ByStart)
  {
    forall a, b ensures ByStart(a, b) || ByStart(b, a) { AtMostIsTotal(a.id, b.id); }
    forall a, b, c | ByStart(a, b) && ByStart(b, c) ensures ByStart(a, c) {
      if a.startMs == b.startMs == c.startMs { AtMostIsTransitive(a.id, b.id, c.id); }
    }
  }

  /** With the order of starts and ids there is only one such list. */
  lemma {:induction false} OnlyOneListing(a: seq<Segment>, b: seq<Segment>)
    requires SortedBy(a, ByStart) && SortedBy(b, ByStart) && multiset(a) == multiset(b)
    requires forall s, t :: s in a && t in a && s.id == t.id ==> s == t
    ensures a == b
  {
    SameElements(a, b);
    if a != [] {
      FirstIsLeast(a, b[0]);
      FirstIsLeast(b, a[0]);
      AtMostIsTotal(a[0].id, b[0].id);
      assert a[0] == b[0];
      RestAgrees(a, b);
      assert forall s :: s in a[1..] ==> s in a;
      OnlyOneListing(a[1..], b[1..]);
    }
  }

  lemma RestAgrees<T>(a: seq<T>, b: seq<T>)
    requires a != [] && b != [] && a[0] == b[0] && multiset(a) == multiset(b)
    ensures multiset(a[1..]) == multiset(b[1..])
  {
    assert a == [a[0]] + a[1..] && b == [b[0]] + b[1..];
    assert multiset(a[1..]) == multiset(a) - multiset{a[0]} == multiset(b[1..]);
  }

  lemma FirstIsLeast(a: seq<Segment>, s: Segment)
    requires SortedBy(a, ByStart) && s in a
    ensures ByStart(a[0], s)
  {
    AtMostIsTotal(s.id, s.id);
  }

  /** `segmentsForWindow`: the segments that meet a window, by start and then id. */
  method SegmentsForWindow(segments: seq<Segment>, fromMs: int, toMs: int) returns (out: seq<Segment>)
    ensures SortedBy(out, ByStart)
    ensures forall s: Segment :: multiset(out)[s] == if Overlaps(s.startMs, s.endMs, fromMs, toMs) then multiset(segments)[s] else 0
  {
    var met := [];
    for i := 0 to |segments|
      invariant forall s: Segment :: multiset(met)[s] == if Overlaps(s.startMs, s.endMs, fromMs, toMs) then multiset(segments[..i])[s] else 0
    {
      assert segments[..i + 1] == segments[..i] + [segments[i]];
      if Overlaps(segments[i].startMs, segments[i].endMs, fromMs, toMs) { met := met + [segments[i]]; }
    }
    assert segments[..|segments|] == segments;
    ByStartIsOrder();
    out := Sort(met, ByStart);
  }

  // ---------------------------------------------------------------- where playback resumes

  datatype SeekPoint = SeekPoint(segment: Segment, offsetMs: int)

  predicate Contains(s: Segment, atMs: int) { s.startMs <= atMs < s.endMs }

  /** A segment playback can resume in: one with the instant in it, or a later one. */
  predicate Hit(s: Segment, atMs: int) { Contains(s, atMs) || s.startMs >= atMs }

  /** The earliest segment to resume in, and how far in: nothing else, whatever the order of ties. */
  ghost predicate Found(segments: set<Segment>, atMs: int, point: Option<SeekPoint>) {
    match point
    case None => forall s <- segments :: !Hit(s, atMs)
    case Some(p) =>
      && p.segment in segments && Hit(p.segment, atMs)
      && (forall s <- segments :: Hit(s, atMs) ==> p.segment.startMs <= s.startMs)
      && p.offsetMs == if Contains(p.segment, atMs) then atMs - p.segment.startMs else 0
  }

  predicate StartsFirst(a: Segment, b: Segment) { a.startMs <= b.startMs }

  method SeekTo(segments: seq<Segment>, atMs: int) returns (point: Option<SeekPoint>)
    ensures Found((set s | s in segments), atMs, point)
  {
    var ordered := Sort(segments, StartsFirst);
    SameElements(ordered, segments);
    for i := 0 to |ordered|
      invariant forall k :: 0 <= k < i ==> !Hit(ordered[k], atMs)
    {
      var segment := ordered[i];
      assert segment in segments;
      if atMs >= segment.startMs && atMs < segment.endMs {
        return Some(SeekPoint(segment, atMs - segment.startMs));
      }
      if segment.startMs >= atMs {
        return Some(SeekPoint(segment, 0));
      }
    }
    return None;
  }

  predicate HasInstant(segments: set<Segment>, atMs: int) { exists s <- segments :: Contains(s, atMs) }

  /** An answer in the segment that has the instant if there is one, at the offset of the instant;
      else at the beginning of the earliest one from the instant on, if there is one. */
  ghost predicate Lands(segments: set<Segment>, atMs: int, point: Option<SeekPoint>) {
    if HasInstant(segments, atMs) then
      point.Some? && Contains(point.value.segment, atMs) && point.value.segment.startMs + point.value.offsetMs == atMs
    else
      && (point.None? <==> forall s <- segments :: s.startMs < atMs)
      && (point.Some? ==>
            && point.value.offsetMs == 0 && point.value.segment.startMs >= atMs
            && forall s <- segments :: s.startMs >= atMs ==> point.value.segment.startMs <= s.startMs)
  }

  predicate IsEmptyAt(s: Segment, atMs: int) { s.startMs == atMs && s.endMs <= atMs }

  /** For every set of segments: whichever way the order of ties falls, seeking lands, if and only
      if no empty segment starts at the instant, or one that starts earlier has the instant, or
      none has it. */
  lemma SeekLands(segments: set<Segment>, atMs: int)
    ensures (forall point :: Found(segments, atMs, point) ==> Lands(segments, atMs, point)) <==>
            || (forall s <- segments :: !IsEmptyAt(s, atMs))
            || (exists s <- segments :: s.startMs < atMs && Contains(s, atMs))
            || !HasInstant(segments, atMs)
  {
    forall point: Option<SeekPoint> | Found(segments, atMs, point)
      ensures Lands(segments, atMs, point) || (HasInstant(segments, atMs) && !exists s <- segments :: s.startMs < atMs && Contains(s, atMs))
      ensures Lands(segments, atMs, point) || exists s <- segments :: IsEmptyAt(s, atMs)
    {
      AnswerLands(segments, atMs, point);
    }
    if e :| e in segments && IsEmptyAt(e, atMs) {
      if HasInstant(segments, atMs) && !exists s <- segments :: s.startMs < atMs && Contains(s, atMs) {
        assert Found(segments, atMs, Some(SeekPoint(e, 0))) && !Lands(segments, atMs, Some(SeekPoint(e, 0)));
      }
    }
  }

  /** An answer that does not land is an empty segment, before one that has the instant. */
  lemma AnswerLands(segments: set<Segment>, atMs: int, point: Option<SeekPoint>)
    requires Found(segments, atMs, point)
    ensures || Lands(segments, atMs, point)
            || (point.Some? && IsEmptyAt(point.value.segment, atMs) && HasInstant(segments, atMs)
                && forall s <- segments :: !(s.startMs < atMs && Contains(s, atMs)))
  {
    if c :| c in segments && Contains(c, atMs) { assert Hit(c, atMs); }
    forall s <- segments | s.startMs >= atMs ensures Hit(s, atMs) {}
  }

  /** With an empty segment starting at the instant, either of two answers may come back, and one
      of them is not the segment that has the instant. */
  lemma EmptySegmentCanHideTheInstant(whole: Segment, empty: Segment, atMs: int)
    requires whole.startMs == empty.startMs == empty.endMs == atMs < whole.endMs
    ensures Found({whole, empty}, atMs, Some(SeekPoint(empty, 0))) && !Contains(empty, atMs) && Contains(whole, atMs)
  {
  }
}
