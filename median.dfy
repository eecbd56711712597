/** The median of a window of angles, as numpy's median computes it:
    sort the values, then take the middle one (odd length) or the mean
    of the two middle ones (even length). */
module Medians {

  predicate Sorted(s: seq<real>) {
    forall i, j :: 0 <= i < j < |s| ==> s[i] <= s[j]
  }

  /** Insert x into the sorted sequence s, keeping it sorted. */
  function Insert(x: real, s: seq<real>): (r: seq<real>)
    requires Sorted(s)
    ensures Sorted(r)
    ensures multiset(r) == multiset(s) + multiset{x}
  {
    if s == [] then [x]
    else if x <= s[0] then
      ConsSorted(x, s);
      [x] + s
    else
      var tail := s[1..];
      TailSorted(s);
      var rest := Insert(x, tail);
      AllAtLeast(s[0], tail, rest, x);
      ConsSorted(s[0], rest);
      assert s == [s[0]] + tail;
      [s[0]] + rest
  }

  /** Putting a value below every element in front keeps a sequence sorted. */
  lemma ConsSorted(h: real, t: seq<real>)
    requires Sorted(t)
    requires forall k :: 0 <= k < |t| ==> h <= t[k]
    ensures Sorted([h] + t)
  {
    var r := [h] + t;
    forall i, j | 0 <= i < j < |r| ensures r[i] <= r[j] {
      assert r[j] == t[j - 1];
      if i > 0 { assert r[i] == t[i - 1]; }
    }
  }

  /** A lower bound of t and x bounds every element of a sequence holding
      the values of t and x. */
  lemma AllAtLeast(lo: real, t: seq<real>, u: seq<real>, x: real)
    requires Sorted(t) && (|t| > 0 ==> lo <= t[0])
    requires lo <= x
    requires multiset(u) == multiset(t) + multiset{x}
    ensures forall k :: 0 <= k < |u| ==> lo <= u[k]
  {
    forall k | 0 <= k < |u| ensures lo <= u[k] {
      assert u[k] in multiset(u);
      if u[k] != x {
        HeadIsLeast(t, u[k]);
      }
    }
  }

  /** A sorted permutation of s. */
  function Sort(s: seq<real>): (r: seq<real>)
    ensures Sorted(r)
    ensures multiset(r) == multiset(s)
  {
    if s == [] then []
    else
      assert s == [s[0]] + s[1..];
      Insert(s[0], Sort(s[1..]))
  }

  /** The smallest element of a non-empty sequence. */
  function Min(s: seq<real>): (m: real)
    requires |s| > 0
    ensures m in s
    ensures forall i :: 0 <= i < |s| ==> m <= s[i]
  {
    if |s| == 1 then s[0]
    else
      var rest := Min(s[1..]);
      assert forall i :: 1 <= i < |s| ==> s[i] == s[1..][i - 1];
      if s[0] <= rest then s[0] else rest
  }

  /** The largest element of a non-empty sequence. */
  function Max(s: seq<real>): (m: real)
    requires |s| > 0
    ensures m in s
    ensures forall i :: 0 <= i < |s| ==> s[i] <= m
  {
    if |s| == 1 then s[0]
    else
      var rest := Max(s[1..]);
      assert forall i :: 1 <= i < |s| ==> s[i] == s[1..][i - 1];
      if rest <= s[0] then s[0] else rest
  }

  /** The median of a sorted non-empty sequence. */
  function MiddleOf(t: seq<real>): real
    requires |t| > 0
  {
    var n := |t|;
    if n % 2 == 1 then t[n / 2] else (t[n / 2 - 1] + t[n / 2]) / 2.0
  }

  /** The median of a non-empty window; it never leaves the range of the window. */
  function Median(s: seq<real>): (m: real)
    requires |s| > 0
    ensures Min(s) <= m <= Max(s)
  {
    var t := Sort(s);
    assert |t| == |multiset(t)| == |s|;
    assert t[0] in multiset(s) && t[|t| - 1] in multiset(s);
    assert Min(s) <= t[0] && t[|t| - 1] <= Max(s);
    MiddleOf(t)
  }

  /** The head of a sorted sequence is below every value in it. */
  lemma HeadIsLeast(s: seq<real>, x: real)
    requires Sorted(s) && x in multiset(s)
    ensures |s| > 0 && s[0] <= x
  {
    var j :| 0 <= j < |s| && s[j] == x;
    assert j == 0 || s[0] <= s[j];
  }

  lemma TailSorted(s: seq<real>)
    requires Sorted(s) && |s| > 0
    ensures Sorted(s[1..])
  {
    forall i, j | 0 <= i < j < |s| - 1 ensures s[1..][i] <= s[1..][j] {
      assert s[1..][i] == s[i + 1] && s[1..][j] == s[j + 1];
    }
  }

  lemma MultisetTail(s: seq<real>)
    requires |s| > 0
    ensures multiset(s[1..]) == multiset(s) - multiset{s[0]}
  {
    assert s == [s[0]] + s[1..];
  }

  /** Two sorted sequences holding the same values are equal. */
  lemma {:induction false} SortedUnique(a: seq<real>, b: seq<real>)
    requires Sorted(a) && Sorted(b)
    requires multiset(a) == multiset(b)
    ensures a == b
  {
    if a == [] {
      assert |b| == |multiset(b)| == 0;
    } else {
      HeadIsLeast(b, a[0]);
      HeadIsLeast(a, b[0]);
      var a', b' := a[1..], b[1..];
      MultisetTail(a);
      MultisetTail(b);
      TailSorted(a);
      TailSorted(b);
      assert a[0] == b[0];
      assert multiset(a') == multiset(b');
      SortedUnique(a', b');
      assert a == [a[0]] + a' && b == [b[0]] + b';
    }
  }

  /** The median depends only on which angles are in the window, not on
      the order in which they arrived. */
  lemma MedianIgnoresOrder(s: seq<real>, t: seq<real>)
    requires |s| > 0
    requires multiset(s) == multiset(t)
    ensures |t| > 0 && Median(s) == Median(t)
  {
    assert |t| == |multiset(t)| == |s|;
    SortedUnique(Sort(s), Sort(t));
  }

  /** For a window of odd length the median is one of the angles measured. */
  lemma MedianOfOddIsElement(s: seq<real>)
    requires |s| % 2 == 1
    ensures Median(s) in s
  {
    var t := Sort(s);
    assert |t| == |multiset(t)| == |s|;
    assert t[|t| / 2] in multiset(s);
  }
}
