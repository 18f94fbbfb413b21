/** Playing back what was recorded, across files and gaps (src/media/source/PlaybackSource.cpp). */
module Playback {
  import opened Text
  import opened Recording
  import opened RecordingRepository

  const WINDOW_MS := 24 * 60 * 60 * 1000
  const SEEK_RUNBACK_MS := 4000
  const KEYFRAME_ONLY_RATE := 4.0

  /** What a seek chooses from: the finished segments of a camera within a day of the instant. */
  predicate Candidate(s: Segment, cameraId: string, wallMs: int) {
    s.cameraId == cameraId && s.complete && Overlaps(s.startMs, s.endMs, wallMs - WINDOW_MS, wallMs + WINDOW_MS)
  }

  ghost function Candidates(rows: set<Segment>, cameraId: string, wallMs: int): set<Segment> {
    set s | s in rows && Candidate(s, cameraId, wallMs)
  }

  /** Opening at an instant, over an index with these rows. */
  ghost predicate Opens(rows: set<Segment>, cameraId: string, wallMs: int, point: Option<SeekPoint>) {
    Found(Candidates(rows, cameraId, wallMs), wallMs, point)
  }

  /** Only how far ahead a seek looks matters: it finds the earliest of all the camera's finished
      segments to resume in, so long as that one starts within a day of the instant. */
  lemma OpensExactly(rows: set<Segment>, cameraId: string, wallMs: int, point: Option<SeekPoint>)
    requires forall s <- rows :: s.startMs <= s.endMs
    ensures Opens(rows, cameraId, wallMs, point) <==>
              Found((set s | s in rows && s.cameraId == cameraId && s.complete && s.startMs < wallMs + 86_400_000), wallMs, point)
  {
    var near := set s | s in rows && s.cameraId == cameraId && s.complete && s.startMs < wallMs + 86_400_000;
    forall s <- rows | Hit(s, wallMs) ensures s in near <==> s in Candidates(rows, cameraId, wallMs) {}
  }

  // ---------------------------------------------------------------- moving forward

  /** At the end of a file: the segment that comes next, if any. */
  ghost predicate Hops(rows: set<Segment>, cameraId: string, endMs: int, next: Segment) {
    exists point :: Opens(rows, cameraId, endMs + 1, Some(point)) && point.segment == next
  }

  ghost predicate PlaysOn(rows: set<Segment>, cameraId: string, endMs: int) {
    exists next :: Hops(rows, cameraId, endMs, next)
  }

  predicate Proper(s: Segment) { s.startMs < s.endMs }

  /** A hop ends strictly later than what was playing, whatever has been recorded meanwhile. */
  lemma HopMovesForward(rows: set<Segment>, cameraId: string, endMs: int, next: Segment)
    requires Hops(rows, cameraId, endMs, next) && next.startMs <= next.endMs
    ensures next in rows && next.complete && next.cameraId == cameraId
    ensures endMs < next.endMs
  {
  }

  /** Playback from file to file over one index. */
  ghost predicate Chain(rows: set<Segment>, cameraId: string, played: seq<Segment>) {
    forall i :: 0 < i < |played| ==> Hops(rows, cameraId, played[i - 1].endMs, played[i])
  }

  /** It comes to an end: no segment plays twice, so there are no more hops than segments. */
  lemma {:induction false} ChainEnds(rows: set<Segment>, cameraId: string, played: seq<Segment>)
    requires Chain(rows, cameraId, played) && forall s <- rows :: s.startMs <= s.endMs
    ensures forall i, j :: 0 <= i < j < |played| ==> played[i].endMs < played[j].endMs
    ensures |played| <= |rows| + 1
  {
    if played != [] {
      var before := played[..|played| - 1];
      assert Chain(rows, cameraId, before) by {
        forall i | 0 < i < |before| ensures Hops(rows, cameraId, before[i - 1].endMs, before[i]) {
          assert Hops(rows, cameraId, played[i - 1].endMs, played[i]);
        }
      }
      ChainEnds(rows, cameraId, before);
      if |played| > 1 {
        assert Hops(rows, cameraId, played[|played| - 2].endMs, played[|played| - 1]);
        HopMovesForward(rows, cameraId, played[|played| - 2].endMs, played[|played| - 1]);
      }
      AllDifferent(rows, cameraId, played);
    }
  }

  lemma AllDifferent(rows: set<Segment>, cameraId: string, played: seq<Segment>)
    requires played != [] && Chain(rows, cameraId, played) && forall s <- rows :: s.startMs <= s.endMs
    requires forall i, j :: 0 <= i < j < |played| ==> played[i].endMs < played[j].endMs
    ensures |played| <= |rows| + 1
  {
    var hops := played[1..];
    var ends := seq(|hops|, i requires 0 <= i < |hops| => hops[i]);
    forall s | s in hops ensures s in rows {
      var i :| 0 <= i < |hops| && hops[i] == s;
      assert hops[i] == played[i + 1];
      assert Hops(rows, cameraId, played[i].endMs, played[i + 1]);
    }
    forall i, j | 0 <= i < j < |hops| ensures hops[i] != hops[j] { assert played[i + 1].endMs < played[j + 1].endMs; }
    FitsIn(hops, rows);
  }

  lemma {:induction false} FitsIn<T>(list: seq<T>, all: set<T>)
    requires (forall x <- list :: x in all) && forall i, j :: 0 <= i < j < |list| ==> list[i] != list[j]
    ensures |list| <= |all|
  {
    if list != [] {
      var last, init := list[|list| - 1], list[..|list| - 1];
      forall x <- init ensures x in all - {last} {
        var i :| 0 <= i < |init| && init[i] == x;
        assert list[i] == x && list[i] != list[|list| - 1];
      }
      FitsIn(init, all - {last});
    }
  }

  // ---------------------------------------------------------------- skipping nothing

  /** A camera's finished segments in order, with no two of them sharing an instant. */
  ghost predicate Line(rows: set<Segment>, cameraId: string, line: seq<Segment>) {
    && (forall s :: s in line <==> s in rows && s.complete && s.cameraId == cameraId)
    && (forall i :: 0 <= i < |line| ==> Proper(line[i]))
    && (forall i, j :: 0 <= i < j < |line| ==> line[i].endMs <= line[j].startMs)
  }

  /** What the next segment must be for a hop to play it: at least 2 ms long, unless a gap comes
      before it, and starting within a day of the end of this one. */
  predicate Reachable(endMs: int, next: Segment) {
    next.endMs >= endMs + 2 && next.startMs <= endMs + WINDOW_MS
  }

  /** Playback goes from a segment to the one after it exactly when that one is reachable. */
  lemma HopPlaysNextExactly(rows: set<Segment>, cameraId: string, line: seq<Segment>, i: nat)
    requires Line(rows, cameraId, line) && i + 1 < |line|
    ensures Hops(rows, cameraId, line[i].endMs, line[i + 1]) <==> Reachable(line[i].endMs, line[i + 1])
  {
    var next, at := line[i + 1], line[i].endMs + 1;
    var point := SeekPoint(next, if Contains(next, at) then at - next.startMs else 0);
    if Reachable(line[i].endMs, next) {
      assert forall k :: 0 <= k < i ==> line[k].endMs <= line[i].startMs < line[i].endMs;
      forall s <- Candidates(rows, cameraId, at) | Hit(s, at) ensures next.startMs <= s.startMs {
        var k :| 0 <= k < |line| && line[k] == s;
      }
      assert Opens(rows, cameraId, at, Some(point));
    }
  }

  /** At the end of the last segment there is nothing more to play. */
  lemma LastIsLast(rows: set<Segment>, cameraId: string, line: seq<Segment>)
    requires Line(rows, cameraId, line) && line != []
    ensures !PlaysOn(rows, cameraId, line[|line| - 1].endMs)
  {
    var endMs := line[|line| - 1].endMs;
    forall s <- rows | s.complete && s.cameraId == cameraId ensures !Hit(s, endMs + 1) {
      var k :| 0 <= k < |line| && line[k] == s;
      assert Proper(line[k]) && (k < |line| - 1 ==> line[k].endMs <= line[|line| - 1].startMs);
      assert Proper(line[|line| - 1]);
    }
  }

  /** So a timeline whose gaps are under a day and whose segments are at least 2 ms long plays
      from any of its segments to its end, each one, in order. */
  lemma WholeLinePlays(rows: set<Segment>, cameraId: string, line: seq<Segment>, from: nat)
    requires Line(rows, cameraId, line) && from < |line|
    requires forall i :: 0 <= i < |line| ==> line[i].endMs - line[i].startMs >= 2
    requires forall i :: 0 < i < |line| ==> line[i].startMs - line[i - 1].endMs <= WINDOW_MS
    ensures Chain(rows, cameraId, line[from..])
    ensures !PlaysOn(rows, cameraId, line[|line| - 1].endMs)
  {
    var played := line[from..];
    forall i | 0 < i < |played| ensures Hops(rows, cameraId, played[i - 1].endMs, played[i]) {
      assert played[i] == line[from + i] && played[i - 1] == line[from + i - 1];
      HopPlaysNextExactly(rows, cameraId, line, from + i - 1);
    }
    LastIsLast(rows, cameraId, line);
  }

  // ---------------------------------------------------------------- which frames are handed on

  /** What the pipeline has ready: nothing yet, the end of the file, or a buffer. */
  datatype Sample = NotYet | EndOfFile | Buffer(inFileMs: int, keyframe: bool)

  /** Whether a frame of the segment that starts at `startMs` goes to the sinks: at or after the
      mark, and only a keyframe when scrubbing fast. */
  predicate HandedOn(startMs: int, markMs: int, rate: real, frame: Sample) {
    frame.Buffer? && startMs + frame.inFileMs >= markMs && (rate >= KEYFRAME_ONLY_RATE ==> frame.keyframe)
  }

  /** The frames of a file that are handed on, in order. */
  function Handed(startMs: int, markMs: int, rate: real, frames: seq<Sample>): seq<Sample> {
    if frames == [] then []
    else
      var last := frames[|frames| - 1];
      Handed(startMs, markMs, rate, frames[..|frames| - 1]) + if HandedOn(startMs, markMs, rate, last) then [last] else []
  }

  predicate FileFrames(frames: seq<Sample>) { forall f <- frames :: f.Buffer? && f.inFileMs >= 0 }

  lemma {:induction false} SameHanded(startMs: int, a: int, b: int, rate: real, frames: seq<Sample>)
    requires forall f <- frames :: HandedOn(startMs, a, rate, f) <==> HandedOn(startMs, b, rate, f)
    ensures Handed(startMs, a, rate, frames) == Handed(startMs, b, rate, frames)
  {
    if frames != [] {
      assert frames[|frames| - 1] in frames;
      SameHanded(startMs, a, b, rate, frames[..|frames| - 1]);
    }
  }

  lemma {:induction false} HandedExactly(startMs: int, markMs: int, rate: real, frames: seq<Sample>, f: Sample)
    ensures f in Handed(startMs, markMs, rate, frames) <==> f in frames && HandedOn(startMs, markMs, rate, f)
  {
    if frames != [] {
      HandedExactly(startMs, markMs, rate, frames[..|frames| - 1], f);
      assert frames == frames[..|frames| - 1] + [frames[|frames| - 1]];
      hide HandedOn;
    }
  }

  /** Over any index: what a hop hands on of the segment it opens are its frames after the end of the
      segment before that its speed lets through, and no others, so no instant is played twice. */
  lemma HopHandsOn(rows: set<Segment>, cameraId: string, endMs: int, point: SeekPoint, rate: real, frames: seq<Sample>)
    requires Opens(rows, cameraId, endMs + 1, Some(point)) && FileFrames(frames)
    ensures Handed(point.segment.startMs, point.segment.startMs + point.offsetMs, rate, frames)
            == Handed(point.segment.startMs, endMs + 1, rate, frames)
  {
    SameHanded(point.segment.startMs, point.segment.startMs + point.offsetMs, endMs + 1, rate, frames);
  }

  /** Along a timeline whose segments share no instant, a hop hands on every frame of the next file
      that its speed lets through, if and only if that segment starts later than the one before
      ends or has no such frame at its very beginning. When one starts just where the other ends,
      exactly the frames at file time 0 are dropped, among them the keyframe a file opens with. */
  lemma HopHandsOnAllExactly(rows: set<Segment>, cameraId: string, line: seq<Segment>, i: nat, point: SeekPoint, rate: real,
        frames: seq<Sample>)
    requires Line(rows, cameraId, line) && i + 1 < |line| && FileFrames(frames)
    requires Opens(rows, cameraId, line[i].endMs + 1, Some(point)) && point.segment == line[i + 1]
    ensures 0 <= point.offsetMs <= 1
    ensures var next := line[i + 1];
            Handed(next.startMs, next.startMs + point.offsetMs, rate, frames) == Handed(next.startMs, next.startMs, rate, frames)
            <==> next.startMs > line[i].endMs || forall f <- frames :: HandedOn(next.startMs, next.startMs, rate, f) ==> f.inFileMs > 0
    ensures var next := line[i + 1];
            next.startMs == line[i].endMs ==>
              Handed(next.startMs, next.startMs + point.offsetMs, rate, frames) == Handed(next.startMs, next.startMs + 1, rate, frames)
  {
    var next, mark := line[i + 1], line[i + 1].startMs + point.offsetMs;
    HopHandsOn(rows, cameraId, line[i].endMs, point, rate, frames);
    if next.startMs > line[i].endMs || forall f <- frames :: HandedOn(next.startMs, next.startMs, rate, f) ==> f.inFileMs > 0 {
      SameHanded(next.startMs, mark, next.startMs, rate, frames);
    } else {
      var f :| f in frames && HandedOn(next.startMs, next.startMs, rate, f) && f.inFileMs <= 0;
      HandedExactly(next.startMs, next.startMs, rate, frames, f);
      HandedExactly(next.startMs, mark, rate, frames, f);
    }
  }

  /** Two files recorded without a gap, the second opening with a keyframe: its first frame handed on
      is the one after, whatever it is. */
  lemma AbuttingFileLosesItsKeyframe(a: Segment, b: Segment, frames: seq<Sample>)
    requires a.cameraId == b.cameraId && a.complete && b.complete && Proper(a) && a.endMs == b.startMs && b.endMs >= b.startMs + 2
    requires |frames| > 1 && frames[0] == Buffer(0, true) && forall i :: 0 < i < |frames| ==> frames[i].Buffer? && frames[i].inFileMs > 0
    ensures var point := SeekPoint(b, 1);
            Opens({a, b}, a.cameraId, a.endMs + 1, Some(point))
            && Handed(b.startMs, b.startMs + point.offsetMs, 1.0, frames) == frames[1..]
  {
    HandedAfterFirst(b.startMs, frames);
  }

  lemma {:induction false} HandedAfterFirst(startMs: int, frames: seq<Sample>)
    requires frames != [] && frames[0] == Buffer(0, true)
    requires forall i :: 0 < i < |frames| ==> frames[i].Buffer? && frames[i].inFileMs > 0
    ensures Handed(startMs, startMs + 1, 1.0, frames) == frames[1..]
  {
    if |frames| > 1 {
      var before := frames[..|frames| - 1];
      HandedAfterFirst(startMs, before);
      assert before[1..] + [frames[|frames| - 1]] == frames[1..];
    } else {
      assert frames[..0] == [] && frames[1..] == [];
    }
  }

  // ---------------------------------------------------------------- the feeder

  /** The finished segments among these. */
  method Completed(segments: seq<Segment>) returns (complete: seq<Segment>)
    ensures forall s :: s in complete <==> s in segments && s.complete
  {
    complete := [];
    for i := 0 to |segments|
      invariant forall s :: s in complete <==> s in segments[..i] && s.complete
    {
      assert segments[..i + 1] == segments[..i] + [segments[i]];
      if segments[i].complete { complete := complete + [segments[i]]; }
    }
    assert segments[..|segments|] == segments;
  }

  class PlaybackSource {
    const cameraId: string
    const recordings: InMemoryRecordingRepository
    var isOpen: bool
    var ended: bool
    var segmentStartMs: int
    var segmentEndMs: int
    var catchUpToMs: int
    /** The instant a client asked for; -1 when it asked for none. */
    var seekTo: int
    var positionMs: int

    constructor (cameraId: string, recordings: InMemoryRecordingRepository, startMs: int)
      ensures this.cameraId == cameraId && this.recordings == recordings
      ensures !isOpen && !ended && positionMs == startMs && seekTo == startMs
    {
      this.cameraId, this.recordings := cameraId, recordings;
      isOpen, ended, segmentStartMs, segmentEndMs, catchUpToMs := false, false, 0, 0, 0;
      positionMs, seekTo := startMs, startMs;
    }

    ghost function Rows(): set<Segment>
      requires recordings.Valid()
      reads this, recordings
    {
      recordings.Abstract().rows.Values
    }

    /** What plays is what a hop from the end of a segment leads to. */
    ghost predicate HopsTo(endMs: int)
      requires recordings.Valid()
      reads this, recordings
    {
      exists next ::
        Hops(Rows(), cameraId, endMs, next) && segmentStartMs == next.startMs && segmentEndMs == next.endMs
    }

    /** What a seek to an instant leads to: the segment to play and the mark in it, or the end of playback. */
    ghost predicate SoughtTo(wallMs: int, starts: bool)
      requires recordings.Valid()
      reads this, recordings
    {
      exists point ::
        && Opens(Rows(), cameraId, wallMs, point)
        && isOpen == (point.Some? && starts) && ended == !isOpen
        && (point.Some? ==>
              && segmentStartMs == point.value.segment.startMs && segmentEndMs == point.value.segment.endMs
              && catchUpToMs == if Contains(point.value.segment, wallMs) then wallMs else point.value.segment.startMs)
    }

    /** The same when the file sought is at its end already: on to the segment after it. */
    ghost predicate SoughtAndEnded(wallMs: int, starts: bool)
      requires recordings.Valid()
      reads this, recordings
    {
      exists point ::
        && Opens(Rows(), cameraId, wallMs, point)
        && if point.Some? && starts then
             if PlaysOn(Rows(), cameraId, point.value.segment.endMs)
             then HopsTo(point.value.segment.endMs) && isOpen && !ended
             else !isOpen && ended
           else !isOpen && ended
    }

    /** Asks the index for the segment to resume in. */
    method Find(wallMs: int) returns (found: Option<SeekPoint>)
      requires recordings.Valid()
      ensures Opens(Rows(), cameraId, wallMs, found)
    {
      hide Found;
      var segments := recordings.SegmentsInRange(cameraId, wallMs - WINDOW_MS, wallMs + WINDOW_MS);
      var complete := Completed(segments);
      found := SeekTo(complete, wallMs);
      assert (set s | s in complete) == Candidates(Rows(), cameraId, wallMs) by {
        ListedRows(segments, recordings.Abstract().rows,
                   (s: Segment) => s.cameraId == cameraId && Overlaps(s.startMs, s.endMs, wallMs - WINDOW_MS, wallMs + WINDOW_MS));
      }
    }

    /** `starts` is whether a pipeline for the file could be started. */
    method OpenAt(wallMs: int, starts: bool) returns (fileOffsetMs: int, ghost point: Option<SeekPoint>)
      requires recordings.Valid()
      modifies this`isOpen, this`segmentStartMs, this`segmentEndMs, this`catchUpToMs
      ensures Opens(Rows(), cameraId, wallMs, point)
      ensures isOpen == (point.Some? && starts)
      ensures match point
              case None => segmentStartMs == old(segmentStartMs) && segmentEndMs == old(segmentEndMs) && catchUpToMs == old(catchUpToMs)
              case Some(p) =>
                && segmentStartMs == p.segment.startMs && segmentEndMs == p.segment.endMs
                && catchUpToMs == (if Contains(p.segment, wallMs) then wallMs else p.segment.startMs)
                // Reading starts 4 s before the mark, for a keyframe to come first, or with the file.
                && fileOffsetMs >= 0
                && segmentStartMs + fileOffsetMs ==
                   (if catchUpToMs - 4000 > segmentStartMs then catchUpToMs - 4000 else segmentStartMs)
    {
      isOpen, fileOffsetMs := false, 0;
      var found := Find(wallMs);
      point := found;
      if found.None? { return; }
      segmentStartMs := found.value.segment.startMs;
      segmentEndMs := found.value.segment.endMs;
      fileOffsetMs := if found.value.offsetMs > SEEK_RUNBACK_MS then found.value.offsetMs - SEEK_RUNBACK_MS else 0;
      catchUpToMs := found.value.segment.startMs + found.value.offsetMs;
      isOpen := starts;
    }

    method Seek(wallMs: int, starts: bool)
      requires recordings.Valid()
      modifies this`isOpen, this`ended, this`segmentStartMs, this`segmentEndMs, this`catchUpToMs
      ensures SoughtTo(wallMs, starts)
    {
      hide Opens;
      var _, point := OpenAt(wallMs, starts);
      ended := !isOpen;
      assert Opens(Rows(), cameraId, wallMs, point);
    }

    /** The end of a file: on to the next one. */
    method PlayOn(starts: bool)
      requires recordings.Valid()
      modifies this`isOpen, this`ended, this`segmentStartMs, this`segmentEndMs, this`catchUpToMs
      ensures if PlaysOn(Rows(), cameraId, old(segmentEndMs))
              then HopsTo(old(segmentEndMs)) && isOpen == starts && ended == (old(ended) || !starts)
              else ended && !isOpen && segmentEndMs == old(segmentEndMs)
    {
      hide Opens;
      hide Hops;
      ghost var before := segmentEndMs;
      var _, point := OpenAt(segmentEndMs + 1, starts);
      if !isOpen { ended := true; }
      HopIs(Rows(), cameraId, before, point);
    }

    /** One pass of the feeder's loop: a waiting seek first, then what the pipeline has. What it
        hands to the sinks is the wall-clock instant of a frame. */
    method Step(sample: Sample, rate: real, paused: bool, starts: bool) returns (delivered: Option<int>)
      requires recordings.Valid()
      modifies this
      ensures recordings.Valid() && Rows() == old(Rows())
      ensures seekTo == -1
      // A frame is delivered exactly when a file is open, after the seek that waited or without a
      // pause, and the frame lies at or after the mark and is a keyframe when scrubbing fast.
      ensures delivered.Some? <==>
                && (old(seekTo) >= 0 || (!paused && old(isOpen))) && isOpen && sample.Buffer?
                && segmentStartMs + sample.inFileMs >= catchUpToMs && (rate >= 4.0 ==> sample.keyframe)
      ensures old(seekTo) < 0 && !paused && old(isOpen) ==>
                (delivered.Some? <==> HandedOn(segmentStartMs, catchUpToMs, rate, sample))
      ensures delivered.Some? ==> delivered.value == positionMs == segmentStartMs + sample.inFileMs
      ensures delivered.None? ==> positionMs == old(positionMs)
      // A waiting seek comes first, even while paused.
      ensures old(seekTo) >= 0 ==>
                if sample.EndOfFile? then SoughtAndEnded(old(seekTo), starts) else SoughtTo(old(seekTo), starts)
      // The end of a file moves on to the next segment, or ends playback.
      ensures old(seekTo) < 0 && !paused && old(isOpen) && sample.EndOfFile? ==>
                if PlaysOn(Rows(), cameraId, old(segmentEndMs))
                then HopsTo(old(segmentEndMs)) && isOpen == starts && ended == (old(ended) || !starts)
                else ended && !isOpen && segmentEndMs == old(segmentEndMs)
      // Nothing else changes what is playing.
      ensures old(seekTo) < 0 && (paused || !(old(isOpen) && sample.EndOfFile?)) ==>
                isOpen == old(isOpen) && segmentStartMs == old(segmentStartMs) && segmentEndMs == old(segmentEndMs)
                && catchUpToMs == old(catchUpToMs) && ended == old(ended)
    {
      hide Opens;
      hide Hops;
      hide PlaysOn;
      delivered := None;
      var target := seekTo;
      seekTo := -1;
      if paused && target < 0 { return; }
      if target >= 0 {
        Seek(target, starts);
      }
      if !isOpen { return; }
      match sample
      case NotYet =>
      case EndOfFile =>
        PlayOn(starts);
      case Buffer(inFileMs, keyframe) =>
        var wallMs := segmentStartMs + inFileMs;
        if wallMs < catchUpToMs { return; }
        if rate >= KEYFRAME_ONLY_RATE && !keyframe { return; }
        positionMs := wallMs;
        delivered := Some(wallMs);
    }
  }

  lemma HopIs(rows: set<Segment>, cameraId: string, endMs: int, point: Option<SeekPoint>)
    requires Opens(rows, cameraId, endMs + 1, point)
    ensures point.Some? ==> Hops(rows, cameraId, endMs, point.value.segment)
    ensures point.None? ==> !PlaysOn(rows, cameraId, endMs)
  {
  }

  lemma ListedRows(out: seq<Segment>, rows: map<string, Segment>, chosen: Segment -> bool)
    requires Lists(out, rows, chosen) && forall p :: p in rows ==> rows[p].path == p
    ensures forall s :: s in out <==> s in rows.Values && chosen(s)
  {
    forall s ensures s in out <==> s in rows.Values && chosen(s) {
      assert s in out <==> multiset(out)[s] > 0;
      if s in rows.Values { var p :| p in rows && rows[p] == s; }
    }
  }
}
