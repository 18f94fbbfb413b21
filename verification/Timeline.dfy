/** A camera's timestamps turned into a clock that only moves forward (src/media/source/Timeline.hpp). */
module Timeline {
  const MAX_FORWARD_JUMP := 3_000_000_000
  const NOMINAL_STEP := 40_000_000
  const NONE := -1

  datatype Stamps = Stamps(pts: int, dts: int)

  datatype State = State(started: bool, offset: int, lastClock: int, lastGoodDelta: int, corrections: nat)

  const Fresh := State(false, 0, 0, 0, 0)

  function ClockOf(stamps: Stamps): int { if stamps.dts != NONE then stamps.dts else stamps.pts }

  predicate Stamped(stamps: Stamps) { ClockOf(stamps) != NONE }

  /** A step of the camera's clock that can be trusted. */
  predicate Trusted(delta: int) { 0 <= delta <= MAX_FORWARD_JUMP }

  function Next(s: State, stamps: Stamps): State {
    var clock := ClockOf(stamps);
    var delta := clock - s.lastClock;
    if clock == NONE then s
    else if !s.started then s.(started := true, offset := -clock, lastClock := clock)
    else if Trusted(delta) then s.(lastGoodDelta := delta, lastClock := clock)
    else
      var step := if s.lastGoodDelta > 0 then s.lastGoodDelta else NOMINAL_STEP;
      s.(offset := s.offset + (step - delta), lastClock := clock, corrections := s.corrections + 1)
  }

  function ClampToZero(value: int): int { if value < 0 then 0 else value }

  function Shift(stamp: int, offset: int): int {
    if stamp == NONE then NONE else ClampToZero(stamp + offset)
  }

  /** What one buffer's stamps become. */
  function Corrected(s: State, stamps: Stamps): Stamps {
    if !Stamped(stamps) then stamps
    else Stamps(Shift(stamps.pts, Next(s, stamps).offset), Shift(stamps.dts, Next(s, stamps).offset))
  }

  function Run(frames: seq<Stamps>): State {
    if frames == [] then Fresh else Next(Run(frames[..|frames| - 1]), frames[|frames| - 1])
  }

  /** What the i-th buffer of a stream comes out as. */
  function Output(frames: seq<Stamps>, i: nat): Stamps
    requires i < |frames|
  {
    Corrected(Run(frames[..i]), frames[i])
  }

  // ---------------------------------------------------------------- what the clock should be

  function Clocks(frames: seq<Stamps>): seq<int> {
    if frames == [] then []
    else
      var last := frames[|frames| - 1];
      Clocks(frames[..|frames| - 1]) + (if Stamped(last) then [ClockOf(last)] else [])
  }

  /** The last step the camera's clock made that could be trusted, 0 if there was none. */
  function LastTrustedStep(clocks: seq<int>): int {
    if |clocks| < 2 then 0
    else
      var delta := clocks[|clocks| - 1] - clocks[|clocks| - 2];
      if Trusted(delta) then delta else LastTrustedStep(clocks[..|clocks| - 1])
  }

  /** What a reader of the camera's raw clock should be shown: from zero, each trusted step as it
      is, and each jump as the last trusted step, or a frame at 25 a second if that was nothing. */
  function Ideal(clocks: seq<int>): int {
    if |clocks| < 2 then 0
    else
      var before := clocks[..|clocks| - 1];
      var delta := clocks[|clocks| - 1] - clocks[|clocks| - 2];
      Ideal(before) + if Trusted(delta) then delta
                      else if LastTrustedStep(before) > 0 then LastTrustedStep(before) else NOMINAL_STEP
  }

  function Jumps(clocks: seq<int>): nat {
    if |clocks| < 2 then 0
    else
      Jumps(clocks[..|clocks| - 1]) + if Trusted(clocks[|clocks| - 1] - clocks[|clocks| - 2]) then 0 else 1
  }

  lemma {:induction false} LastTrustedIsTrusted(clocks: seq<int>)
    ensures Trusted(LastTrustedStep(clocks))
  {
    if |clocks| >= 2 { LastTrustedIsTrusted(clocks[..|clocks| - 1]); }
  }

  lemma {:induction false} IdealMovesForward(clocks: seq<int>)
    ensures 0 <= Ideal(clocks) <= MAX_FORWARD_JUMP * |clocks|
    ensures |clocks| >= 2 ==>
              Ideal(clocks[..|clocks| - 1]) <= Ideal(clocks) <= Ideal(clocks[..|clocks| - 1]) + MAX_FORWARD_JUMP
  {
    if |clocks| >= 2 {
      IdealMovesForward(clocks[..|clocks| - 1]);
      LastTrustedIsTrusted(clocks[..|clocks| - 1]);
    }
  }

  // ---------------------------------------------------------------- the corrected clock

  /** The whole state, as functions of the camera's raw clock. */
  lemma {:induction false} StateIs(frames: seq<Stamps>)
    ensures var s, clocks := Run(frames), Clocks(frames);
            && s.started == (clocks != [])
            && s.corrections == Jumps(clocks)
            && s.lastGoodDelta == LastTrustedStep(clocks)
            && (s.started ==> s.lastClock == clocks[|clocks| - 1] && s.lastClock + s.offset == Ideal(clocks))
  {
    if frames != [] {
      var before := frames[..|frames| - 1];
      StateIs(before);
      if Stamped(frames[|frames| - 1]) {
        var clocks := Clocks(frames);
        assert clocks[..|clocks| - 1] == Clocks(before);
      } else {
        assert Clocks(frames) == Clocks(before);
      }
    }
  }

  lemma {:induction false} ClocksGrow(frames: seq<Stamps>, i: nat, j: nat)
    requires i <= j <= |frames|
    ensures Clocks(frames[..i]) <= Clocks(frames[..j])
    ensures |Clocks(frames[..j])| <= |Clocks(frames[..i])| + (j - i)
    decreases j
  {
    if i < j {
      ClocksGrow(frames, i, j - 1);
      assert frames[..j][..j - 1] == frames[..j - 1];
    }
  }

  lemma {:induction false} IdealOfPrefix(clocks: seq<int>, n: nat)
    requires 0 < n <= |clocks|
    ensures Ideal(clocks[..n]) <= Ideal(clocks) <= Ideal(clocks[..n]) + MAX_FORWARD_JUMP * (|clocks| - n)
  {
    if n == |clocks| {
      assert clocks[..n] == clocks;
    } else {
      var before := clocks[..|clocks| - 1];
      IdealOfPrefix(before, n);
      assert before[..n] == clocks[..n];
      IdealMovesForward(clocks);
    }
  }

  /** A stamped buffer comes out at the ideal clock: clamping never touches the clock itself. */
  lemma OutputIsIdeal(frames: seq<Stamps>, i: nat)
    requires i < |frames| && Stamped(frames[i])
    ensures ClockOf(Output(frames, i)) == Ideal(Clocks(frames[..i + 1])) >= 0
    ensures Stamped(Output(frames, i))
  {
    var upTo := frames[..i + 1];
    assert upTo[..i] == frames[..i] && upTo[i] == frames[i];
    StateIs(upTo);
    IdealMovesForward(Clocks(upTo));
  }

  /** For every stream: the first stamped buffer comes out at zero, and from any stamped buffer to
      any later one the decode clock never goes back and never gains more than three seconds a
      buffer. */
  lemma ClockOnlyMovesForward(frames: seq<Stamps>, i: nat, j: nat)
    requires i <= j < |frames| && Stamped(frames[i]) && Stamped(frames[j])
    ensures Clocks(frames[..i]) == [] ==> ClockOf(Output(frames, i)) == 0
    ensures ClockOf(Output(frames, i)) <= ClockOf(Output(frames, j))
                                      <= ClockOf(Output(frames, i)) + MAX_FORWARD_JUMP * (j - i)
  {
    OutputIsIdeal(frames, i);
    OutputIsIdeal(frames, j);
    ClocksGrow(frames, i + 1, j + 1);
    assert frames[..i + 1][..i] == frames[..i];
    var early, late := Clocks(frames[..i + 1]), Clocks(frames[..j + 1]);
    assert early == Clocks(frames[..i]) + [ClockOf(frames[i])];
    IdealOfPrefix(late, |early|);
    assert late[..|early|] == early;
  }

  // ---------------------------------------------------------------- a shift, not a rewrite

  lemma {:induction false} OffsetHoldsBetweenJumps(frames: seq<Stamps>, i: nat, j: nat)
    requires i <= j <= |frames| && Run(frames[..i]).started
    ensures Run(frames[..i]).corrections <= Run(frames[..j]).corrections
    ensures Run(frames[..i]).corrections == Run(frames[..j]).corrections ==>
              Run(frames[..i]).offset == Run(frames[..j]).offset
    ensures Run(frames[..j]).started
    decreases j
  {
    if i < j {
      OffsetHoldsBetweenJumps(frames, i, j - 1);
      assert frames[..j][..j - 1] == frames[..j - 1];
    }
  }

  /** Between two buffers with no jump in between, every stamp is moved by the same amount, unless
      that would take it before zero. */
  lemma TranslatedBetweenJumps(frames: seq<Stamps>, i: nat, j: nat)
    requires i <= j < |frames| && Stamped(frames[i]) && Stamped(frames[j])
    requires Jumps(Clocks(frames[..i + 1])) == Jumps(Clocks(frames[..j + 1]))
    ensures exists offset ::
              && Output(frames, i) == Stamps(Shift(frames[i].pts, offset), Shift(frames[i].dts, offset))
              && Output(frames, j) == Stamps(Shift(frames[j].pts, offset), Shift(frames[j].dts, offset))
  {
    StateIs(frames[..i + 1]);
    StateIs(frames[..j + 1]);
    assert frames[..i + 1][..i] == frames[..i] && frames[..j + 1][..j] == frames[..j];
    OffsetHoldsBetweenJumps(frames, i + 1, j + 1);
    var offset := Run(frames[..j + 1]).offset;
    assert Output(frames, i) == Stamps(Shift(frames[i].pts, offset), Shift(frames[i].dts, offset));
  }

  /** The gap that carries display order survives exactly when the presentation stamp does not fall
      before the origin of the timeline. */
  lemma GapIsKeptExactly(frames: seq<Stamps>, i: nat)
    requires i < |frames| && frames[i].pts != NONE && frames[i].dts != NONE
    ensures Output(frames, i).pts - Output(frames, i).dts == frames[i].pts - frames[i].dts
            <==> frames[i].pts - frames[i].dts + Ideal(Clocks(frames[..i + 1])) >= 0
  {
    OutputIsIdeal(frames, i);
    var upTo := frames[..i + 1];
    assert upTo[..i] == frames[..i] && upTo[i] == frames[i];
    StateIs(upTo);
  }

  // ---------------------------------------------------------------- 64-bit arithmetic

  predicate Int64(x: int) { -0x8000_0000_0000_0000 <= x < 0x8000_0000_0000_0000 }

  predicate Sane(stamp: int) { stamp == NONE || 0 <= stamp < 0x4000_0000_0000_0000 }

  /** A year and a half at thirty buffers a second. */
  const MANY := 1_500_000_000

  /** Every value that correcting one buffer computes. */
  predicate FitsInInt64(s: State, stamps: Stamps) {
    var clock := ClockOf(stamps);
    var delta := clock - s.lastClock;
    var step := if s.lastGoodDelta > 0 then s.lastGoodDelta else NOMINAL_STEP;
    clock == NONE
    || (&& Int64(-clock)
        && (s.started ==> Int64(delta))
        && (s.started && !Trusted(delta) ==> Int64(step - delta) && Int64(s.offset + (step - delta)))
        && (stamps.pts != NONE ==> Int64(stamps.pts + Next(s, stamps).offset))
        && (stamps.dts != NONE ==> Int64(stamps.dts + Next(s, stamps).offset)))
  }

  predicate AllSane(frames: seq<Stamps>) {
    forall f <- frames :: Sane(f.pts) && Sane(f.dts)
  }

  lemma {:induction false} ClocksSane(frames: seq<Stamps>)
    requires AllSane(frames)
    ensures var clocks := Clocks(frames); clocks != [] ==> 0 <= clocks[|clocks| - 1] < 0x4000_0000_0000_0000
    ensures |Clocks(frames)| <= |frames|
  {
    if frames != [] { ClocksSane(frames[..|frames| - 1]); }
  }

  /** No sum or difference overflows a signed 64-bit integer, for stamps below 2^62 over
      one and a half billion buffers. */
  lemma NeverOverflows(frames: seq<Stamps>, i: nat)
    requires i < |frames| <= MANY
    requires AllSane(frames)
    ensures FitsInInt64(Run(frames[..i]), frames[i])
    ensures Run(frames[..i]).corrections <= i
  {
    var upTo := frames[..i + 1];
    assert upTo[..i] == frames[..i] && upTo[i] == frames[i];
    BoundedState(frames[..i]);
    if Stamped(frames[i]) { BoundedState(upTo); }
  }

  lemma BoundedState(frames: seq<Stamps>)
    requires |frames| <= MANY && AllSane(frames)
    ensures var s := Run(frames);
            && 0 <= s.lastClock < 0x4000_0000_0000_0000 && 0 <= s.lastGoodDelta <= MAX_FORWARD_JUMP
            && -0x4000_0000_0000_0000 < s.offset <= MAX_FORWARD_JUMP * MANY
            && s.corrections <= |frames|
  {
    StateIs(frames);
    ClocksSane(frames);
    LastTrustedIsTrusted(Clocks(frames));
    IdealMovesForward(Clocks(frames));
    JumpsAtMost(Clocks(frames));
    NeverStarted(frames);
    hide Run;
    hide Clocks;
    hide Ideal;
    hide Jumps;
    hide LastTrustedStep;
    hide AllSane;
  }

  lemma {:induction false} JumpsAtMost(clocks: seq<int>)
    ensures Jumps(clocks) <= |clocks|
  {
    if |clocks| >= 2 { JumpsAtMost(clocks[..|clocks| - 1]); }
  }

  lemma {:induction false} NeverStarted(frames: seq<Stamps>)
    ensures !Run(frames).started ==> Run(frames) == Fresh
  {
    if frames != [] { NeverStarted(frames[..|frames| - 1]); }
  }

  // ---------------------------------------------------------------- the class

  class Timeline {
    var started: bool
    var offset: int
    var lastClock: int
    var lastGoodDelta: int
    var corrections: nat

    function Abstract(): State
      reads this
    {
      State(started, offset, lastClock, lastGoodDelta, corrections)
    }

    constructor ()
      ensures Abstract() == Fresh
    {
      started, offset, lastClock, lastGoodDelta, corrections := false, 0, 0, 0, 0;
    }

    method Correct(stamps: Stamps) returns (out: Stamps)
      modifies this
      ensures Abstract() == Next(old(Abstract()), stamps)
      ensures out == Corrected(old(Abstract()), stamps)
    {
      var clock := if stamps.dts != NONE then stamps.dts else stamps.pts;
      if clock == NONE { return stamps; }
      if !started {
        started, offset, lastClock := true, -clock, clock;
      } else {
        var delta := clock - lastClock;
        if delta < 0 || delta > MAX_FORWARD_JUMP {
          var step := if lastGoodDelta > 0 then lastGoodDelta else NOMINAL_STEP;
          offset := offset + (step - delta);
          corrections := corrections + 1;
        } else {
          lastGoodDelta := delta;
        }
        lastClock := clock;
      }
      var pts, dts := NONE, NONE;
      if stamps.pts != NONE { pts := ClampToZero(stamps.pts + offset); }
      if stamps.dts != NONE { dts := ClampToZero(stamps.dts + offset); }
      out := Stamps(pts, dts);
    }
  }
}
