/**
 Order facts about runs of indices, shared by the queue and the stream protocols.
 An append that takes effect although it reported failure is repeated, so a stream lists the indices it was given as a
 stutter: in order, each at least once, repeats side by side. Dropping repeats gives the indices back, and a stutter
 stitched to an interval that overlaps its end still does, which is what a client sees when it joins the stream it
 read to the queue it was shown.
 */
module Sequences {

  // Concatenation.

  lemma Assoc<T>(a: seq<T>, b: seq<T>, c: seq<T>)
    ensures a + b + c == a + (b + c)
  {
  }

  lemma NoLeft<T>(s: seq<T>)
    ensures [] + s == s
  {
  }

  lemma NoRight<T>(s: seq<T>)
    ensures s + [] == s
  {
  }

  lemma HeadTail<T>(w: seq<T>, s: seq<T>)
    requires s != []
    ensures w + s == w + [s[0]] + s[1..]
  {
  }

  lemma Pair<T>(x: T, y: T)
    ensures [x] + [y] == [x, y]
  {
  }

  lemma SplitTail<T>(s: seq<T>, a: nat, b: nat)
    requires a <= b <= |s|
    ensures s[a..] == s[a..b] + s[b..]
  {
  }

  /** The consecutive indices lo .. hi-1. */
  function Interval(lo: nat, hi: nat): (r: seq<nat>)
    requires lo <= hi
    ensures |r| == hi - lo && forall i :: 0 <= i < |r| ==> r[i] == lo + i
    decreases hi - lo
  {
    if lo == hi then [] else Interval(lo, hi - 1) + [hi - 1]
  }

  /** s lists every index below n, in order, each one repeated consecutively at least once. */
  ghost predicate IsStutter(s: seq<nat>, n: nat) {
    && (n == 0 <==> s == [])
    && (s != [] ==> s[0] == 0 && s[|s| - 1] == n - 1)
    && forall i, j :: 0 <= i < j < |s| && j == i + 1 ==> s[i] <= s[j] <= s[i] + 1
  }

  lemma StutterStep(s: seq<nat>, n: nat, x: nat)
    requires IsStutter(s, n)
    requires x == n || (n > 0 && x == n - 1)
    ensures IsStutter(s + [x], x + 1)
  {
    var t := s + [x];
    forall i, j | 0 <= i < j < |t| && j == i + 1 ensures t[i] <= t[j] <= t[i] + 1 {
      if j < |s| {
        assert t[j] == s[j] && t[i] == s[i];
      }
    }
  }

  /** Every index below n occurs in a stutter of n, and nothing else does. */
  lemma {:induction false} StutterCovers(s: seq<nat>, n: nat)
    requires IsStutter(s, n)
    ensures forall k: nat :: k in s <==> k < n
    decreases |s|
  {
    if s != [] {
      var p := s[..|s| - 1];
      assert s == p + [s[|s| - 1]];
      StutterPrefix(s, n);
      var m := if p == [] then 0 else p[|p| - 1] + 1;
      StutterCovers(p, m);
      forall k: nat ensures k in s <==> k < n {
        assert k in s <==> k in p || k == n - 1;
        if p != [] {
          assert p[|p| - 1] == s[|s| - 2];
        }
      }
    }
  }

  lemma StutterPrefix(s: seq<nat>, n: nat)
    requires IsStutter(s, n) && s != []
    ensures var p := s[..|s| - 1]; IsStutter(p, if p == [] then 0 else p[|p| - 1] + 1)
  {
    var p := s[..|s| - 1];
    forall i, j | 0 <= i < j < |p| && j == i + 1 ensures p[i] <= p[j] <= p[i] + 1 {
      assert p[j] == s[j] && p[i] == s[i];
    }
  }

  /** s with every repeat of an earlier element removed. */
  function FirstOccurrences(s: seq<nat>): seq<nat> {
    if s == [] then []
    else
      var p, last := s[..|s| - 1], s[|s| - 1];
      if last in p then FirstOccurrences(p) else FirstOccurrences(p) + [last]
  }

  lemma {:induction false} StutterFirstOccurrences(s: seq<nat>, n: nat)
    requires IsStutter(s, n)
    ensures FirstOccurrences(s) == Interval(0, n)
    decreases |s|
  {
    if s != [] {
      var p, last := s[..|s| - 1], s[|s| - 1];
      StutterPrefix(s, n);
      var m := if p == [] then 0 else p[|p| - 1] + 1;
      StutterFirstOccurrences(p, m);
      StutterCovers(p, m);
    }
  }

  /** A stutter of n followed by lo .. hi-1 with lo <= n lists 0 .. max(n, hi)-1 once repeats are dropped. */
  lemma {:induction false} StitchedFirstOccurrences(s: seq<nat>, n: nat, lo: nat, hi: nat)
    requires IsStutter(s, n) && lo <= n && lo <= hi
    ensures FirstOccurrences(s + Interval(lo, hi)) == Interval(0, if n < hi then hi else n)
    decreases hi - lo
  {
    hide FirstOccurrences, IsStutter;
    if lo == hi {
      assert s + Interval(lo, hi) == s;
      StutterFirstOccurrences(s, n);
    } else {
      var shorter := s + Interval(lo, hi - 1);
      StitchedFirstOccurrences(s, n, lo, hi - 1);
      StutterCovers(s, n);
      IntervalMembers(lo, hi - 1);
      FirstOccurrencesStep(shorter, hi - 1);
      assert hi - 1 in shorter <==> hi - 1 < n;
      assert s + Interval(lo, hi) == shorter + [hi - 1];
      assert hi > n ==> Interval(0, hi) == Interval(0, hi - 1) + [hi - 1];
    }
  }

  lemma IntervalMembers(lo: nat, hi: nat)
    requires lo <= hi
    ensures forall k: nat :: k in Interval(lo, hi) <==> lo <= k < hi
  {
    forall k: nat | lo <= k < hi ensures k in Interval(lo, hi) {
      assert Interval(lo, hi)[k - lo] == k;
    }
  }

  lemma FirstOccurrencesStep(s: seq<nat>, x: nat)
    ensures FirstOccurrences(s + [x]) == if x in s then FirstOccurrences(s) else FirstOccurrences(s) + [x]
  {
    assert (s + [x])[..|s|] == s;
  }
}
