/** `std::sort` and `std::lower_bound`. The order of elements that compare equal is left open, as
    it is there: callers know only that the result is a sorted rearrangement. The sort is done by
    insertion, which is one of the ways it may go. */
module Sorting {
  ghost predicate TotalPreorder<T(!new)>(le: (T, T) -> bool) {
    && (forall a, b :: le(a, b) || le(b, a))
    && (forall a, b, c :: le(a, b) && le(b, c) ==> le(a, c))
  }

  ghost predicate SortedBy<T>(s: seq<T>, le: (T, T) -> bool) {
    forall i, j :: 0 <= i < j < |s| ==> le(s[i], s[j])
  }

  /** Where an element goes in a sorted sequence. */
  method Place<T(!new)>(s: seq<T>, x: T, le: (T, T) -> bool) returns (k: nat)
    requires TotalPreorder(le) && SortedBy(s, le)
    ensures k <= |s|
    ensures (forall i :: 0 <= i < k ==> le(s[i], x)) && (forall i :: k <= i < |s| ==> le(x, s[i]))
  {
    k := |s|;
    while k > 0 && !le(s[k - 1], x)
      invariant k <= |s| && forall i :: k <= i < |s| ==> le(x, s[i])
    {
      k := k - 1;
    }
  }

  function Inserted<T>(s: seq<T>, k: nat, x: T): seq<T>
    requires k <= |s|
  {
    s[..k] + [x] + s[k..]
  }

  lemma InsertedInOrder<T(!new)>(s: seq<T>, k: nat, x: T, le: (T, T) -> bool)
    requires k <= |s| && SortedBy(s, le)
    requires (forall i :: 0 <= i < k ==> le(s[i], x)) && (forall i :: k <= i < |s| ==> le(x, s[i]))
    ensures SortedBy(Inserted(s, k, x), le)
  {
    var t := Inserted(s, k, x);
    forall i, j | 0 <= i < j < |t| ensures le(t[i], t[j]) {
      var i', j' := if i < k then i else i - 1, if j < k then j else j - 1;
      assert i != k ==> t[i] == s[i'];
      assert j != k ==> t[j] == s[j'];
    }
  }

  lemma InsertedElements<T>(s: seq<T>, k: nat, x: T)
    requires k <= |s|
    ensures multiset(Inserted(s, k, x)) == multiset(s) + multiset{x}
  {
    assert s == s[..k] + s[k..];
  }

  lemma PrefixElements<T>(s: seq<T>, n: nat)
    requires n < |s|
    ensures multiset(s[..n + 1]) == multiset(s[..n]) + multiset{s[n]}
  {
    assert s[..n + 1] == s[..n] + [s[n]];
  }

  method Sort<T(!new)>(s: seq<T>, le: (T, T) -> bool) returns (sorted: seq<T>)
    requires TotalPreorder(le)
    ensures SortedBy(sorted, le) && multiset(sorted) == multiset(s)
  {
    hide SortedBy;
    hide Inserted;
    sorted := [];
    assert SortedBy(sorted, le) by { EmptyInOrder(le); }
    for n := 0 to |s|
      invariant SortedBy(sorted, le) && multiset(sorted) == multiset(s[..n])
    {
      var k := Place(sorted, s[n], le);
      InsertedInOrder(sorted, k, s[n], le);
      InsertedElements(sorted, k, s[n]);
      PrefixElements(s, n);
      sorted := Inserted(sorted, k, s[n]);
    }
    assert s[..|s|] == s;
  }

  lemma EmptyInOrder<T>(le: (T, T) -> bool)
    ensures SortedBy([], le)
  {
  }

  /** A sorted rearrangement has the same elements. */
  lemma SameElements<T>(s: seq<T>, t: seq<T>)
    requires multiset(s) == multiset(t)
    ensures |s| == |t| && forall x :: x in s <==> x in t
  {
    assert forall x :: x in s <==> x in multiset(s);
    assert forall x :: x in t <==> x in multiset(t);
    assert |s| == |multiset(s)| && |t| == |multiset(t)|;
  }

  /** The first position not below `x`. */
  method LowerBound(s: seq<int>, x: int) returns (k: nat)
    requires SortedBy(s, (a, b) => a <= b)
    ensures k <= |s|
    ensures (forall i :: 0 <= i < k ==> s[i] < x) && (forall i :: k <= i < |s| ==> x <= s[i])
  {
    var low, high := 0, |s|;
    while low < high
      invariant 0 <= low <= high <= |s|
      invariant (forall i :: 0 <= i < low ==> s[i] < x) && (forall i :: high <= i < |s| ==> x <= s[i])
    {
      var mid := (low + high) / 2;
      if s[mid] < x { low := mid + 1; } else { high := mid; }
    }
    return low;
  }
}
