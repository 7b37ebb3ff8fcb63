/** Package `barchart`: a chart of integer points, and its projection onto a
    fixed number of buckets along the X axis. Each bucket sums the `Y`s, and
    the scaled `Y`s, of the points that fall into it; a bucket no point
    falls into holds no value at all (nil in the source). */
module Barchart {
  import opened Numeric
  import opened Stats
  import opened Bars

  /** `XY`: a point of the chart. */
  datatype XY = XY(x: int, y: int)

  /** `XYf`: a bucket of the projected chart; `None` stands for nil. */
  datatype XYf = XYf(x: real, y: Option<real>, scaledY: Option<real>)

  /** The X coordinates of the points, in order. */
  function Xs(pts: seq<XY>): (xs: seq<int>)
    ensures |xs| == |pts|
  {
    seq(|pts|, j requires 0 <= j < |pts| => pts[j].x)
  }

  /** The Y coordinates of the points, as floats, in order. */
  function Ys(pts: seq<XY>): (ys: seq<real>)
    ensures |ys| == |pts|
  {
    seq(|pts|, j requires 0 <= j < |pts| => pts[j].y as real)
  }

  /** Whether `s` is defined on every point's `Y` in the range `minY..maxY`. */
  ghost predicate Scalable(pts: seq<XY>, minY: int, maxY: int, s: ScaleFunc)
  {
    forall j :: 0 <= j < |pts| ==> s.requires(minY, maxY, pts[j].y)
  }

  /** The scaled Y coordinates of the points, in order. */
  function ScaledYs(pts: seq<XY>, minY: int, maxY: int, s: ScaleFunc): (zs: seq<real>)
    requires Scalable(pts, minY, maxY, s)
    ensures |zs| == |pts|
  {
    seq(|pts|, j requires 0 <= j < |pts| && s.requires(minY, maxY, pts[j].y) =>
      s(minY, maxY, pts[j].y))
  }

  /** `scaleX`: the width along X of one bucket, when `xWidth` buckets span
      `minX..maxX` with the first and the last bucket on the range's ends.
      A single bucket would divide by zero. */
  function ScaleX(minX: int, maxX: int, xWidth: int): (scaleX: real)
    requires xWidth != 1
    ensures 1 < xWidth ==> scaleX * (xWidth - 1) as real == (maxX - minX) as real
    ensures 1 < xWidth && minX <= maxX ==> 0.0 <= scaleX
  {
    assert 1 < xWidth && minX <= maxX ==> 0.0 <= (maxX - minX) as real / (xWidth - 1) as real by {
      if 1 < xWidth {
        DivNonneg((maxX - minX) as real, (xWidth - 1) as real);
      }
    }
    (maxX - minX) as real / (xWidth - 1) as real
  }

  /** `bi`: the bucket a point at `x` falls into. From `minX` on, with a
      positive bucket width, that is the bucket whose X span holds `x`. */
  function BucketIndex(x: int, minX: int, scaleX: real): (bi: int)
    requires scaleX != 0.0
    ensures 0.0 < scaleX && minX <= x ==>
      0 <= bi && BucketX(bi, minX, scaleX) <= x as real < BucketX(bi + 1, minX, scaleX)
  {
    var q := (x - minX) as real / scaleX;
    var bi := Trunc(q);
    assert 0.0 < scaleX && minX <= x ==>
      0 <= bi && BucketX(bi, minX, scaleX) <= x as real < BucketX(bi + 1, minX, scaleX) by {
      if 0.0 < scaleX && minX <= x {
        DivNonneg((x - minX) as real, scaleX);
        assert q * scaleX == (x - minX) as real;
        MulMonotone(bi as real, q, scaleX);
        var u := (bi + 1) as real;
        MulStrict(q, u, scaleX);
        assert BucketX(bi + 1, minX, scaleX) == u * scaleX + minX as real;
        assert (x - minX) as real + minX as real == x as real;
      }
    }
    bi
  }

  /** The bucket of each point, in order. */
  function Keys(pts: seq<XY>, minX: int, scaleX: real): (ks: seq<int>)
    requires pts != [] ==> scaleX != 0.0
    ensures |ks| == |pts|
  {
    seq(|pts|, j requires 0 <= j < |pts| => BucketIndex(pts[j].x, minX, scaleX))
  }

  /** The sum of the `vals` whose key is `i`, added in order. */
  function KeySum(vals: seq<real>, keys: seq<int>, i: int): real
    requires |vals| == |keys|
  {
    if vals == [] then 0.0
    else
      KeySum(vals[..|vals| - 1], keys[..|keys| - 1], i)
        + (if keys[|keys| - 1] == i then vals[|vals| - 1] else 0.0)
  }

  /** The content of bucket `i`: nil when no key is `i`, otherwise the sum
      of the values with that key. */
  function Cell(vals: seq<real>, keys: seq<int>, i: int): Option<real>
    requires |vals| == |keys|
  {
    if i in keys then Some(KeySum(vals, keys, i)) else None
  }

  /** Whether every key names one of `n` buckets. */
  predicate InBuckets(keys: seq<int>, n: int)
  {
    forall j :: 0 <= j < |keys| ==> 0 <= keys[j] < n
  }

  /** What `ScaleXYs` can be asked: a bucket count `make` accepts other than
      1, a scale defined on every point, and, when there are points, a
      non-empty X range and bucket indexes inside the slice. */
  ghost predicate ScaleDefined(pts: seq<XY>, minX: int, maxX: int, minY: int, maxY: int, xWidth: int, s: ScaleFunc)
  {
    && 0 <= xWidth && xWidth != 1
    && Scalable(pts, minY, maxY, s)
    && (pts != [] ==> minX != maxX && InBuckets(Keys(pts, minX, ScaleX(minX, maxX, xWidth)), xWidth))
  }

  /** The X of bucket `i`: `i * scaleX + minX`. */
  function BucketX(i: int, minX: int, scaleX: real): real
  {
    i as real * scaleX + minX as real
  }

  /** The buckets `ScaleXYs` is specified to return. */
  function Bucketed(pts: seq<XY>, minX: int, maxX: int, minY: int, maxY: int, xWidth: int, s: ScaleFunc): (b: seq<XYf>)
    requires ScaleDefined(pts, minX, maxX, minY, maxY, xWidth, s)
    ensures |b| == xWidth
  {
    var scaleX := ScaleX(minX, maxX, xWidth);
    var keys := Keys(pts, minX, scaleX);
    var ys := Ys(pts);
    var zs := ScaledYs(pts, minY, maxY, s);
    seq(xWidth, i => XYf(BucketX(i, minX, scaleX), Cell(ys, keys, i), Cell(zs, keys, i)))
  }

  /** A key that occurs nowhere contributes nothing. */
  lemma {:induction false} KeySumAbsent(vals: seq<real>, keys: seq<int>, i: int)
    requires |vals| == |keys| && i !in keys
    ensures KeySum(vals, keys, i) == 0.0
  {
    if vals != [] {
      assert i !in keys[..|keys| - 1];
      KeySumAbsent(vals[..|vals| - 1], keys[..|keys| - 1], i);
    }
  }

  /** With exactly one value keyed `i`, bucket `i` holds that value. */
  lemma {:induction false} KeySumSingle(vals: seq<real>, keys: seq<int>, i: int, j: int)
    requires |vals| == |keys| && 0 <= j < |keys| && keys[j] == i
    requires forall k :: 0 <= k < |keys| && k != j ==> keys[k] != i
    ensures KeySum(vals, keys, i) == vals[j]
  {
    var n := |vals| - 1;
    if j < n {
      KeySumSingle(vals[..n], keys[..n], i, j);
    } else {
      assert i !in keys[..n];
      KeySumAbsent(vals[..n], keys[..n], i);
    }
  }

  /** One more value with key `k` changes bucket `k` only: a nil bucket
      becomes the value, a present one grows by it. */
  lemma CellAppend(vals: seq<real>, keys: seq<int>, v: real, k: int, i: int)
    requires |vals| == |keys|
    ensures Cell(vals + [v], keys + [k], i) ==
      if k == i then Some(Cell(vals, keys, i).GetOr(0.0) + v) else Cell(vals, keys, i)
  {
    assert (vals + [v])[..|vals|] == vals;
    assert (keys + [k])[..|keys|] == keys;
    if i !in keys {
      KeySumAbsent(vals, keys, i);
    }
  }

  /** The sum of `KeySum` over the buckets `0..n-1`. */
  function BucketsTotal(vals: seq<real>, keys: seq<int>, n: nat): real
    requires |vals| == |keys|
  {
    if n == 0 then 0.0 else BucketsTotal(vals, keys, n - 1) + KeySum(vals, keys, n - 1)
  }

  /** One more value adds itself to exactly one bucket of the total. */
  lemma {:induction false} BucketsTotalAppend(vals: seq<real>, keys: seq<int>, v: real, k: int, n: nat)
    requires |vals| == |keys|
    ensures BucketsTotal(vals + [v], keys + [k], n)
      == BucketsTotal(vals, keys, n) + (if 0 <= k < n then v else 0.0)
  {
    assert (vals + [v])[..|vals|] == vals;
    assert (keys + [k])[..|keys|] == keys;
    if n > 0 {
      BucketsTotalAppend(vals, keys, v, k, n - 1);
    }
  }

  /** When every key names one of `n` buckets, the buckets together hold
      every value exactly once. */
  lemma {:induction false} BucketsTotalIsSum(vals: seq<real>, keys: seq<int>, n: nat)
    requires |vals| == |keys| && InBuckets(keys, n)
    ensures BucketsTotal(vals, keys, n) == Sum(vals)
  {
    if vals == [] {
      BucketsTotalEmpty(n);
    } else {
      var p, q := vals[..|vals| - 1], keys[..|keys| - 1];
      assert vals == p + [vals[|vals| - 1]];
      assert keys == q + [keys[|keys| - 1]];
      BucketsTotalIsSum(p, q, n);
      BucketsTotalAppend(p, q, vals[|vals| - 1], keys[|keys| - 1], n);
    }
  }

  /** No values, nothing in any bucket. */
  lemma {:induction false} BucketsTotalEmpty(n: nat)
    ensures BucketsTotal([], [], n) == 0.0
  {
    if n > 0 {
      BucketsTotalEmpty(n - 1);
    }
  }

  /** The sum of the present values among the cells of `b`. */
  function YTotal(b: seq<XYf>): real
  {
    if b == [] then 0.0 else YTotal(b[..|b| - 1]) + b[|b| - 1].y.GetOr(0.0)
  }

  /** The same, for the scaled values. */
  function ScaledYTotal(b: seq<XYf>): real
  {
    if b == [] then 0.0 else ScaledYTotal(b[..|b| - 1]) + b[|b| - 1].scaledY.GetOr(0.0)
  }

  /** The buckets' totals, read cell by cell, are the `BucketsTotal`s. */
  lemma {:induction false} TotalsOfBucketed(pts: seq<XY>, minX: int, maxX: int, minY: int, maxY: int, xWidth: int, s: ScaleFunc, n: nat)
    requires ScaleDefined(pts, minX, maxX, minY, maxY, xWidth, s) && n <= xWidth
    ensures var b := Bucketed(pts, minX, maxX, minY, maxY, xWidth, s);
      var keys := Keys(pts, minX, ScaleX(minX, maxX, xWidth));
      && YTotal(b[..n]) == BucketsTotal(Ys(pts), keys, n)
      && ScaledYTotal(b[..n]) == BucketsTotal(ScaledYs(pts, minY, maxY, s), keys, n)
  {
    var b := Bucketed(pts, minX, maxX, minY, maxY, xWidth, s);
    var keys := Keys(pts, minX, ScaleX(minX, maxX, xWidth));
    if n > 0 {
      TotalsOfBucketed(pts, minX, maxX, minY, maxY, xWidth, s, n - 1);
      assert b[..n][..n - 1] == b[..n - 1];
      if n - 1 !in keys {
        KeySumAbsent(Ys(pts), keys, n - 1);
        KeySumAbsent(ScaledYs(pts, minY, maxY, s), keys, n - 1);
      }
    }
  }

  /** Sum conservation: the bucket `Y`s add up to the points' `Y`s, and the
      bucket `ScaledY`s to the points' scaled `Y`s. */
  lemma ScaleConservesSums(pts: seq<XY>, minX: int, maxX: int, minY: int, maxY: int, xWidth: int, s: ScaleFunc)
    requires ScaleDefined(pts, minX, maxX, minY, maxY, xWidth, s)
    ensures var b := Bucketed(pts, minX, maxX, minY, maxY, xWidth, s);
      && YTotal(b) == Sum(Ys(pts))
      && ScaledYTotal(b) == Sum(ScaledYs(pts, minY, maxY, s))
  {
    var b := Bucketed(pts, minX, maxX, minY, maxY, xWidth, s);
    var keys := Keys(pts, minX, ScaleX(minX, maxX, xWidth));
    TotalsOfBucketed(pts, minX, maxX, minY, maxY, xWidth, s, xWidth);
    assert b[..xWidth] == b;
    if pts == [] {
      assert keys == [];
    }
    BucketsTotalIsSum(Ys(pts), keys, xWidth);
    BucketsTotalIsSum(ScaledYs(pts, minY, maxY, s), keys, xWidth);
  }

  /** A bucket holds a value exactly when some point falls into it. */
  lemma BucketHitIffPoint(pts: seq<XY>, minX: int, maxX: int, minY: int, maxY: int, xWidth: int, s: ScaleFunc, i: int)
    requires ScaleDefined(pts, minX, maxX, minY, maxY, xWidth, s) && 0 <= i < xWidth
    ensures var b := Bucketed(pts, minX, maxX, minY, maxY, xWidth, s);
      && b[i].x == i as real * ScaleX(minX, maxX, xWidth) + minX as real
      && (b[i].y.Some? <==> b[i].scaledY.Some?)
      && (b[i].y.Some? <==>
          exists j :: 0 <= j < |pts| && BucketIndex(pts[j].x, minX, ScaleX(minX, maxX, xWidth)) == i)
  {
    var keys := Keys(pts, minX, ScaleX(minX, maxX, xWidth));
    if i in keys {
      var j :| 0 <= j < |keys| && keys[j] == i;
      assert BucketIndex(pts[j].x, minX, ScaleX(minX, maxX, xWidth)) == i;
    } else {
      forall j | 0 <= j < |pts|
        ensures BucketIndex(pts[j].x, minX, ScaleX(minX, maxX, xWidth)) != i
      {
        assert keys[j] == BucketIndex(pts[j].x, minX, ScaleX(minX, maxX, xWidth));
      }
    }
  }

  /** Bucket index bounds: with at least two buckets and a non-empty X
      range, every X inside the range falls into one of the buckets; the
      range's ends go to the first and the last. */
  lemma BucketIndexInRange(x: int, minX: int, maxX: int, xWidth: int)
    requires minX <= x <= maxX && minX < maxX && 2 <= xWidth
    ensures 0 <= BucketIndex(x, minX, ScaleX(minX, maxX, xWidth)) <= xWidth - 1
    ensures BucketIndex(minX, minX, ScaleX(minX, maxX, xWidth)) == 0
    ensures BucketIndex(maxX, minX, ScaleX(minX, maxX, xWidth)) == xWidth - 1
  {
    var d := (maxX - minX) as real;
    var w := (xWidth - 1) as real;
    var scaleX := ScaleX(minX, maxX, xWidth);
    DivNonneg(d, w);
    assert scaleX * w == d;
    assert d / scaleX == w by {
      assert d / scaleX * scaleX == d;
    }
    DivNonneg((x - minX) as real, scaleX);
    DivMonotone((x - minX) as real, d, scaleX);
  }

  /** Every chart whose X bounds are the least and the greatest X of its
      points can be projected onto any number of buckets from two on. */
  lemma BoundedChartScales(pts: seq<XY>, minX: int, maxX: int, minY: int, maxY: int, xWidth: int, s: ScaleFunc)
    requires pts != [] && minX == IntMin(Xs(pts)) && maxX == IntMax(Xs(pts)) && minX < maxX
    requires 2 <= xWidth && Scalable(pts, minY, maxY, s)
    ensures ScaleDefined(pts, minX, maxX, minY, maxY, xWidth, s)
  {
    IntMinBounds(Xs(pts));
    IntMaxBounds(Xs(pts));
    var keys := Keys(pts, minX, ScaleX(minX, maxX, xWidth));
    forall j | 0 <= j < |keys|
      ensures 0 <= keys[j] < xWidth
    {
      assert Xs(pts)[j] == pts[j].x;
      BucketIndexInRange(pts[j].x, minX, maxX, xWidth);
    }
  }

  /** The points' X coordinates fit the slots `XYs` allocates: `MaxX - MinX`
      slots for the offsets `X - MinX`. */
  predicate SlotsCover(pts: seq<XY>, minX: int, maxX: int)
  {
    minX <= maxX && forall j :: 0 <= j < |pts| ==> minX <= pts[j].x < maxX
  }

  /** A chart whose `MaxX` is the greatest X of its points has a point at
      `MaxX`, one slot past the end of what `XYs` allocates. */
  lemma BoundedChartOverrunsSlots(pts: seq<XY>, minX: int)
    requires pts != []
    ensures !SlotsCover(pts, minX, IntMax(Xs(pts)))
  {
    IntMaxBounds(Xs(pts));
    var j :| 0 <= j < |pts| && Xs(pts)[j] == IntMax(Xs(pts));
    assert pts[j].x == IntMax(Xs(pts));
  }

  /** The sum of the `Y`s of the points at `x`. */
  function YsAt(pts: seq<XY>, x: int): int
  {
    if pts == [] then 0
    else YsAt(pts[..|pts| - 1], x) + (if pts[|pts| - 1].x == x then pts[|pts| - 1].y else 0)
  }

  /** No point at `x`, no `Y` at `x`. */
  lemma {:induction false} YsAtAbsent(pts: seq<XY>, x: int)
    requires x !in Xs(pts)
    ensures YsAt(pts, x) == 0
  {
    if pts != [] {
      var p := pts[..|pts| - 1];
      assert Xs(pts) == Xs(p) + [pts[|pts| - 1].x];
      YsAtAbsent(p, x);
    }
  }

  /** The slot of a dense listing for `x`: nil when no point is at `x`,
      otherwise the point at `x` with the sum of their `Y`s. */
  function DenseSlot(pts: seq<XY>, x: int): Option<XY>
  {
    if x in Xs(pts) then Some(XY(x, YsAt(pts, x))) else None
  }

  /** A bar chart: the points in the order they were added, and the bounds
      of their coordinates. */
  class BarChart {
    var minX: int
    var maxX: int
    var minY: int
    var maxY: int
    var xy: seq<XY>

    /** `BarChart{}`: no points, all bounds 0. */
    constructor ()
      ensures minX == 0 && maxX == 0 && minY == 0 && maxY == 0 && xy == []
    {
      minX, maxX, minY, maxY := 0, 0, 0, 0;
      xy := [];
    }

    /** `Add`: the point joins the end; the bounds are left as they are. */
    method Add(x: int, y: int)
      modifies this`xy
      ensures xy == old(xy) + [XY(x, y)]
    {
      xy := xy + [XY(x, y)];
    }

    /** `XYs` as written: it allocates `MaxX - MinX` slots and reads the
        slot of each point, but binds the new point only to a local, so no
        slot is ever stored and every slot stays nil. A point at `MaxX` (or
        outside the bounds) would index outside the slots. */
    method XYs() returns (slots: seq<Option<XY>>)
      requires SlotsCover(xy, minX, maxX)
      ensures |slots| == maxX - minX
      ensures forall i :: 0 <= i < |slots| ==> slots[i] == None
    {
      var a := new Option<XY>[maxX - minX](_ => None);
      for j := 0 to |xy|
        invariant forall i :: 0 <= i < a.Length ==> a[i] == None
      {
        var p := xy[j];
        var slot := a[p.x - minX];
        match slot {
          case None =>
            slot := Some(XY(p.x, p.y));
          case Some(prev) =>
            slot := Some(XY(prev.x, prev.y + p.y));
        }
      }
      slots := a[..];
    }

    /** `XYs` as its documentation describes it: one slot per X from `MinX`
        to `MaxX` inclusive, each holding the sum of the `Y`s of the points
        at that X, or nil when there is none. */
    method DenseXYs() returns (slots: seq<Option<XY>>)
      requires minX <= maxX && forall j :: 0 <= j < |xy| ==> minX <= xy[j].x <= maxX
      ensures |slots| == maxX - minX + 1
      ensures forall i :: 0 <= i < |slots| ==> slots[i] == DenseSlot(xy, minX + i)
    {
      var a := new Option<XY>[maxX - minX + 1](_ => None);
      for j := 0 to |xy|
        invariant forall i :: 0 <= i < a.Length ==> a[i] == DenseSlot(xy[..j], minX + i)
      {
        var p := xy[j];
        assert xy[..j + 1][..j] == xy[..j];
        assert Xs(xy[..j + 1]) == Xs(xy[..j]) + [p.x];
        var slot := a[p.x - minX];
        match slot {
          case None =>
            YsAtAbsent(xy[..j], p.x);
            slot := Some(XY(p.x, p.y));
          case Some(prev) =>
            slot := Some(XY(prev.x, prev.y + p.y));
        }
        a[p.x - minX] := slot;
        forall i | 0 <= i < a.Length
          ensures a[i] == DenseSlot(xy[..j + 1], minX + i)
        {
          if minX + i != p.x {
            assert (minX + i in Xs(xy[..j + 1])) == (minX + i in Xs(xy[..j]));
          }
        }
      }
      assert xy[..|xy|] == xy;
      slots := a[..];
    }

    /** `ScaleXYs`: the points projected onto `xWidth` buckets, as
        `Bucketed` specifies. */
    method ScaleXYs(xWidth: int, s: ScaleFunc) returns (buckets: seq<XYf>)
      requires ScaleDefined(xy, minX, maxX, minY, maxY, xWidth, s)
      ensures buckets == Bucketed(xy, minX, maxX, minY, maxY, xWidth, s)
    {
      var xysf := ProjectPoints(xy, minY, maxY, s);
      var scaleX := ScaleX(minX, maxX, xWidth);
      var b := EmptyBuckets(xWidth, minX, scaleX);
      ghost var keys := Keys(xy, minX, scaleX);
      forall k | 0 <= k < xysf.Length
        ensures Trunc((xysf[k].x - minX as real) / scaleX) == keys[k]
      {
        assert xysf[k].x - minX as real == (xy[k].x - minX) as real;
      }
      Accumulate(b, xysf, minX, scaleX, keys, Ys(xy), ScaledYs(xy, minY, maxY, s));
      buckets := b[..];
    }
  }

  /** The first loop of `ScaleXYs`: each point as a float record holding
      its own `Y` and scaled `Y`. */
  method ProjectPoints(pts: seq<XY>, minY: int, maxY: int, s: ScaleFunc) returns (xysf: array<XYf>)
    requires Scalable(pts, minY, maxY, s)
    ensures fresh(xysf) && xysf.Length == |pts|
    ensures forall k :: 0 <= k < |pts| ==>
      xysf[k] == XYf(pts[k].x as real, Some(Ys(pts)[k]), Some(ScaledYs(pts, minY, maxY, s)[k]))
  {
    xysf := new XYf[|pts|];
    for i := 0 to |pts|
      invariant forall k :: 0 <= k < i ==>
        xysf[k] == XYf(pts[k].x as real, Some(Ys(pts)[k]), Some(ScaledYs(pts, minY, maxY, s)[k]))
    {
      var p := pts[i];
      var y := p.y as real;
      var scaledY := s(minY, maxY, p.y);
      xysf[i] := XYf(p.x as real, Some(y), Some(scaledY));
    }
  }

  /** The second loop of `ScaleXYs`: `xWidth` nil buckets at their X. */
  method EmptyBuckets(xWidth: nat, minX: int, scaleX: real) returns (b: array<XYf>)
    ensures fresh(b) && b.Length == xWidth
    ensures forall i :: 0 <= i < xWidth ==> b[i] == XYf(BucketX(i, minX, scaleX), None, None)
  {
    b := new XYf[xWidth];
    for i := 0 to xWidth
      invariant forall k :: 0 <= k < i ==> b[k] == XYf(BucketX(k, minX, scaleX), None, None)
    {
      b[i] := XYf(BucketX(i, minX, scaleX), None, None);
    }
  }

  /** The third loop of `ScaleXYs`: each projected point is added to the
      bucket its X falls into; a nil bucket is first set to zero. Afterwards
      each bucket holds the `Cell`s of the points' values. */
  method Accumulate(b: array<XYf>, xysf: array<XYf>, minX: int, scaleX: real,
                    ghost keys: seq<int>, ghost ys: seq<real>, ghost zs: seq<real>)
    requires b != xysf && |keys| == |ys| == |zs| == xysf.Length
    requires xysf.Length > 0 ==> scaleX != 0.0
    requires forall k :: 0 <= k < xysf.Length ==>
      && xysf[k].y == Some(ys[k]) && xysf[k].scaledY == Some(zs[k])
      && Trunc((xysf[k].x - minX as real) / scaleX) == keys[k]
    requires InBuckets(keys, b.Length)
    requires forall i :: 0 <= i < b.Length ==> b[i].y == None && b[i].scaledY == None
    modifies b
    ensures forall i :: 0 <= i < b.Length ==>
      b[i] == old(b[i]).(y := Cell(ys, keys, i), scaledY := Cell(zs, keys, i))
  {
    for j := 0 to xysf.Length
      invariant forall i :: 0 <= i < b.Length ==>
        b[i] == old(b[i]).(y := Cell(ys[..j], keys[..j], i), scaledY := Cell(zs[..j], keys[..j], i))
    {
      var val := xysf[j];
      var bi := Trunc((val.x - minX as real) / scaleX);
      var slot := b[bi];
      if slot.y == None {
        slot := slot.(y := Some(0.0), scaledY := Some(0.0));
      }
      slot := slot.(y := Some(slot.y.GetOr(0.0) + val.y.GetOr(0.0)),
                    scaledY := Some(slot.scaledY.GetOr(0.0) + val.scaledY.GetOr(0.0)));
      b[bi] := slot;
      assert ys[..j + 1] == ys[..j] + [ys[j]] && zs[..j + 1] == zs[..j] + [zs[j]];
      assert keys[..j + 1] == keys[..j] + [bi];
      forall i | 0 <= i < b.Length
        ensures b[i] == old(b[i]).(y := Cell(ys[..j + 1], keys[..j + 1], i),
                                   scaledY := Cell(zs[..j + 1], keys[..j + 1], i))
      {
        CellAppend(ys[..j], keys[..j], ys[j], bi, i);
        CellAppend(zs[..j], keys[..j], zs[j], bi, i);
      }
    }
    assert ys[..xysf.Length] == ys && zs[..xysf.Length] == zs && keys[..xysf.Length] == keys;
  }

  /** `BarChartXYs`: a chart of the given pairs, in their order, bounded by
      the least and greatest of their coordinates; the zero chart for no
      pairs. */
  method BarChartXYs(xys: seq<(int, int)>) returns (plot: BarChart)
    ensures plot.xy == seq(|xys|, i requires 0 <= i < |xys| => XY(xys[i].0, xys[i].1))
    ensures xys == [] ==> plot.minX == 0 && plot.maxX == 0 && plot.minY == 0 && plot.maxY == 0
    ensures xys != [] ==>
      && plot.minX == IntMin(Xs(plot.xy)) && plot.maxX == IntMax(Xs(plot.xy))
      && plot.minY == IntMin(YInts(plot.xy)) && plot.maxY == IntMax(YInts(plot.xy))
  {
    plot := new BarChart();
    if |xys| == 0 {
      return;
    }
    var pts, minx, maxx, miny, maxy := ScanPairs(xys);
    plot.xy := pts;
    plot.minX, plot.maxX, plot.minY, plot.maxY := minx, maxx, miny, maxy;
  }

  /** The loop of `BarChartXYs`: the points of the pairs, in order, and
      the bounds of their coordinates. */
  method ScanPairs(xys: seq<(int, int)>) returns (pts: seq<XY>, minx: int, maxx: int, miny: int, maxy: int)
    requires xys != []
    ensures pts == seq(|xys|, i requires 0 <= i < |xys| => XY(xys[i].0, xys[i].1))
    ensures minx == IntMin(Xs(pts)) && maxx == IntMax(Xs(pts))
    ensures miny == IntMin(YInts(pts)) && maxy == IntMax(YInts(pts))
  {
    minx, maxx, miny, maxy := xys[0].0, xys[0].0, xys[0].1, xys[0].1;
    var a := new XY[|xys|];
    ghost var xs := seq(|xys|, k requires 0 <= k < |xys| => xys[k].0);
    ghost var ys := seq(|xys|, k requires 0 <= k < |xys| => xys[k].1);
    for i := 0 to |xys|
      invariant forall k :: 0 <= k < i ==> a[k] == XY(xys[k].0, xys[k].1)
      invariant i == 0 ==> minx == xs[0] && maxx == xs[0] && miny == ys[0] && maxy == ys[0]
      invariant i > 0 ==>
        && minx == IntMin(xs[..i]) && maxx == IntMax(xs[..i])
        && miny == IntMin(ys[..i]) && maxy == IntMax(ys[..i])
    {
      var x := xys[i].0;
      var y := xys[i].1;
      assert xs[..i + 1][..i] == xs[..i] && ys[..i + 1][..i] == ys[..i];
      minx := Imin(x, minx);
      maxx := Imax(x, maxx);
      miny := Imin(y, miny);
      maxy := Imax(y, maxy);
      a[i] := XY(x, y);
    }
    pts := a[..];
    assert xs[..|xys|] == xs == Xs(pts);
    assert ys[..|xys|] == ys == YInts(pts);
  }

  /** The Y coordinates of the points, as ints, in order. */
  function YInts(pts: seq<XY>): (ys: seq<int>)
    ensures |ys| == |pts|
  {
    seq(|pts|, j requires 0 <= j < |pts| => pts[j].y)
  }
}
