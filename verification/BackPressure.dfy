/** Consumers that fall behind (src/media/source/BackPressure.hpp). */
module BackPressure {
  datatype Gate = Gate(waiting: bool, dropped: nat)

  /** One frame at the gate: whether it came as a keyframe and whether the consumer was behind. */
  datatype Arrival = Arrival(keyframe: bool, overflowing: bool)

  const Open := Gate(false, 0)

  predicate Admits(g: Gate, a: Arrival) {
    !a.overflowing && (g.waiting ==> a.keyframe)
  }

  function Next(g: Gate, a: Arrival): Gate {
    if Admits(g, a) then Gate(false, g.dropped) else Gate(true, g.dropped + 1)
  }

  class DropUntilKeyframe {
    var waiting: bool
    var dropped: nat

    ghost function State(): Gate
      reads this
    {
      Gate(waiting, dropped)
    }

    constructor ()
      ensures State() == Open
    {
      waiting, dropped := false, 0;
    }

    method Admit(keyframe: bool, overflowing: bool) returns (admitted: bool)
      modifies this
      ensures admitted == Admits(old(State()), Arrival(keyframe, overflowing))
      ensures State() == Next(old(State()), Arrival(keyframe, overflowing))
    {
      if overflowing {
        waiting := true;
        dropped := dropped + 1;
        return false;
      }
      if waiting {
        if !keyframe {
          dropped := dropped + 1;
          return false;
        }
        waiting := false;
      }
      return true;
    }
  }

  function After(arrivals: seq<Arrival>): Gate {
    if arrivals == [] then Open else Next(After(arrivals[..|arrivals| - 1]), arrivals[|arrivals| - 1])
  }

  /** The positions of the admitted arrivals. */
  function Admitted(arrivals: seq<Arrival>): seq<nat> {
    if arrivals == [] then []
    else
      var before := arrivals[..|arrivals| - 1];
      Admitted(before) +
      (if Admits(After(before), arrivals[|before|]) then [|before|] else [])
  }

  /** Whatever the load: every arrival is admitted or counted as dropped, and an admitted delta
      comes straight after its predecessor was admitted, unless it is the very first arrival. */
  lemma {:induction false} DropsEndAtKeyframes(arrivals: seq<Arrival>)
    ensures var kept := Admitted(arrivals);
            && |kept| + After(arrivals).dropped == |arrivals|
            && (After(arrivals).waiting <==> arrivals != [] && (kept == [] || kept[|kept| - 1] != |arrivals| - 1))
            && (forall j :: 0 <= j < |kept| ==> kept[j] < |arrivals|)
            && (forall j :: 0 <= j < |kept| && !arrivals[kept[j]].keyframe && kept[j] != 0 ==>
                  0 < j && kept[j - 1] == kept[j] - 1)
  {
    if arrivals != [] { DropsEndAtKeyframes(arrivals[..|arrivals| - 1]); }
  }

  /** The gate waits exactly when some arrival found the consumer behind and no keyframe has come
      after that one. */
  lemma {:induction false} WaitsExactly(arrivals: seq<Arrival>)
    ensures After(arrivals).waiting <==>
              exists k :: 0 <= k < |arrivals| && arrivals[k].overflowing &&
                forall j :: k < j < |arrivals| ==> !arrivals[j].keyframe
  {
    if arrivals != [] {
      var n := |arrivals| - 1;
      var before := arrivals[..n];
      WaitsExactly(before);
      if arrivals[n].overflowing {
        assert arrivals[n].overflowing;
      } else if After(arrivals).waiting {
        var k :| 0 <= k < n && before[k].overflowing && forall j :: k < j < n ==> !before[j].keyframe;
        assert arrivals[k].overflowing && forall j :: k < j < n ==> arrivals[j] == before[j];
      }
    }
  }

  /** Arrival `i` does not find the consumer behind, and after every earlier arrival that did a
      keyframe has come, `i` itself counting. */
  ghost predicate Clear(arrivals: seq<Arrival>, i: nat) {
    && i < |arrivals| && !arrivals[i].overflowing
    && forall k :: 0 <= k < i && arrivals[k].overflowing ==> exists j :: k < j <= i && arrivals[j].keyframe
  }

  lemma ClearEarlier(arrivals: seq<Arrival>, n: nat, i: nat)
    requires i < n <= |arrivals|
    ensures Clear(arrivals[..n], i) <==> Clear(arrivals, i)
  {
    var before := arrivals[..n];
    assert forall j :: 0 <= j < n ==> before[j] == arrivals[j];
  }

  lemma ClearLast(arrivals: seq<Arrival>, last: Arrival)
    ensures Clear(arrivals + [last], |arrivals|) <==>
              !last.overflowing && (After(arrivals).waiting ==> last.keyframe)
  {
    var all, n := arrivals + [last], |arrivals|;
    assert all[n] == last && forall j :: 0 <= j < n ==> all[j] == arrivals[j];
    WaitsExactly(arrivals);
    hide After;
    if last.keyframe {
      assert all[n].keyframe;
    } else if !last.overflowing && After(arrivals).waiting {
      var k :| 0 <= k < n && arrivals[k].overflowing && forall j :: k < j < n ==> !arrivals[j].keyframe;
      assert all[k].overflowing && forall j :: k < j <= n ==> !all[j].keyframe;
    } else if !last.overflowing {
      forall k | 0 <= k < n && all[k].overflowing ensures exists j :: k < j <= n && all[j].keyframe {
        assert arrivals[k].overflowing;
        var j :| k < j < n && arrivals[j].keyframe;
        assert all[j].keyframe;
      }
    }
  }

  lemma NextArrival(arrivals: seq<Arrival>, last: Arrival)
    ensures After(arrivals + [last]) == Next(After(arrivals), last)
    ensures Admitted(arrivals + [last]) ==
              Admitted(arrivals) + (if Admits(After(arrivals), last) then [|arrivals|] else [])
  {
    assert (arrivals + [last])[..|arrivals|] == arrivals;
  }

  /** Whatever the load, which arrivals are admitted, said without replaying them. */
  lemma {:induction false} AdmittedExactly(arrivals: seq<Arrival>, i: nat)
    requires i < |arrivals|
    ensures i in Admitted(arrivals) <==> Clear(arrivals, i)
  {
    hide Clear;
    hide Admitted;
    hide After;
    var n := |arrivals| - 1;
    var before := arrivals[..n];
    assert arrivals == before + [arrivals[n]];
    DropsEndAtKeyframes(before);
    NextArrival(before, arrivals[n]);
    ClearLast(before, arrivals[n]);
    if i < n {
      AdmittedExactly(before, i);
      ClearEarlier(arrivals, n, i);
    }
  }
}
