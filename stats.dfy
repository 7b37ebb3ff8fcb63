/** Minimum, maximum and sum of a sequence, folded from the first entry to
    the last as the source's scanning loops do. The real versions serve the
    sparkline window and the histogram input; the int versions serve the bar
    chart bounds and the histogram bucket counts. */
module Stats {
  import opened Numeric

  /** The smallest entry of a non-empty sequence of reals. */
  function SeqMin(s: seq<real>): real
    requires |s| > 0
  {
    if |s| == 1 then s[0]
    else RMin(SeqMin(s[..|s| - 1]), s[|s| - 1])
  }

  /** The largest entry of a non-empty sequence of reals. */
  function SeqMax(s: seq<real>): real
    requires |s| > 0
  {
    if |s| == 1 then s[0]
    else RMax(SeqMax(s[..|s| - 1]), s[|s| - 1])
  }

  /** The sum of a sequence of reals, added from the first entry on. */
  function Sum(s: seq<real>): real
  {
    if s == [] then 0.0 else Sum(s[..|s| - 1]) + s[|s| - 1]
  }

  /** The smallest entry of a non-empty sequence of ints. */
  function IntMin(s: seq<int>): int
    requires |s| > 0
  {
    if |s| == 1 then s[0]
    else Imin(s[|s| - 1], IntMin(s[..|s| - 1]))
  }

  /** The largest entry of a non-empty sequence of ints. */
  function IntMax(s: seq<int>): int
    requires |s| > 0
  {
    if |s| == 1 then s[0]
    else Imax(s[|s| - 1], IntMax(s[..|s| - 1]))
  }

  /** `SeqMin` is the smallest entry: it bounds every entry and is one of them. */
  lemma {:induction false} SeqMinBounds(s: seq<real>)
    requires |s| > 0
    ensures forall i :: 0 <= i < |s| ==> SeqMin(s) <= s[i]
    ensures exists i :: 0 <= i < |s| && s[i] == SeqMin(s)
  {
    if |s| > 1 {
      var p := s[..|s| - 1];
      SeqMinBounds(p);
      var j :| 0 <= j < |p| && p[j] == SeqMin(p);
      assert SeqMin(s) == RMin(SeqMin(p), s[|s| - 1]);
      var k := if SeqMin(s) == s[|s| - 1] then |s| - 1 else j;
      assert s[k] == SeqMin(s);
    } else {
      assert s[0] == SeqMin(s);
    }
  }

  /** `SeqMax` is the largest entry: it bounds every entry and is one of them. */
  lemma {:induction false} SeqMaxBounds(s: seq<real>)
    requires |s| > 0
    ensures forall i :: 0 <= i < |s| ==> s[i] <= SeqMax(s)
    ensures exists i :: 0 <= i < |s| && s[i] == SeqMax(s)
  {
    if |s| > 1 {
      var p := s[..|s| - 1];
      SeqMaxBounds(p);
      var j :| 0 <= j < |p| && p[j] == SeqMax(p);
      assert SeqMax(s) == RMax(SeqMax(p), s[|s| - 1]);
      var k := if SeqMax(s) == s[|s| - 1] then |s| - 1 else j;
      assert s[k] == SeqMax(s);
    } else {
      assert s[0] == SeqMax(s);
    }
  }

  /** `IntMin` is the smallest entry: it bounds every entry and is one of them. */
  lemma {:induction false} IntMinBounds(s: seq<int>)
    requires |s| > 0
    ensures forall i :: 0 <= i < |s| ==> IntMin(s) <= s[i]
    ensures exists i :: 0 <= i < |s| && s[i] == IntMin(s)
  {
    if |s| > 1 {
      var p := s[..|s| - 1];
      IntMinBounds(p);
      var j :| 0 <= j < |p| && p[j] == IntMin(p);
      assert IntMin(s) == Imin(s[|s| - 1], IntMin(p));
      var k := if IntMin(s) == s[|s| - 1] then |s| - 1 else j;
      assert s[k] == IntMin(s);
    } else {
      assert s[0] == IntMin(s);
    }
  }

  /** `IntMax` is the largest entry: it bounds every entry and is one of them. */
  lemma {:induction false} IntMaxBounds(s: seq<int>)
    requires |s| > 0
    ensures forall i :: 0 <= i < |s| ==> s[i] <= IntMax(s)
    ensures exists i :: 0 <= i < |s| && s[i] == IntMax(s)
  {
    if |s| > 1 {
      var p := s[..|s| - 1];
      IntMaxBounds(p);
      var j :| 0 <= j < |p| && p[j] == IntMax(p);
      assert IntMax(s) == Imax(s[|s| - 1], IntMax(p));
      var k := if IntMax(s) == s[|s| - 1] then |s| - 1 else j;
      assert s[k] == IntMax(s);
    } else {
      assert s[0] == IntMax(s);
    }
  }

  /** The sum of a sequence of ints. */
  function IntSum(s: seq<int>): int
  {
    if s == [] then 0 else IntSum(s[..|s| - 1]) + s[|s| - 1]
  }

  /** Adding `d` to one entry adds `d` to the sum. */
  lemma {:induction false} IntSumUpdate(s: seq<int>, k: int, d: int)
    requires 0 <= k < |s|
    ensures IntSum(s[k := s[k] + d]) == IntSum(s) + d
  {
    var t := s[k := s[k] + d];
    if k < |s| - 1 {
      assert t[..|t| - 1] == s[..|s| - 1][k := s[k] + d];
      IntSumUpdate(s[..|s| - 1], k, d);
    } else {
      assert t[..|t| - 1] == s[..|s| - 1];
    }
  }

  /** Raising one entry to `v` makes the maximum the larger of the old
      maximum and `v`. */
  lemma {:induction false} IntMaxRaise(s: seq<int>, k: int, v: int)
    requires 0 <= k < |s| && s[k] <= v
    ensures IntMax(s[k := v]) == Imax(IntMax(s), v)
  {
    var t := s[k := v];
    if |s| == 1 {
    } else if k < |s| - 1 {
      assert t[..|t| - 1] == s[..|s| - 1][k := v];
      IntMaxRaise(s[..|s| - 1], k, v);
    } else {
      assert t[..|t| - 1] == s[..|s| - 1];
    }
  }
}
