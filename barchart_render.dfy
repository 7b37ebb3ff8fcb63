/** The text rendering of package `barchart`: one row per bucket, holding
    the bucket's X label and either "nil" or a bar of full blocks ending in
    an eighth block, followed by the Y label. Column alignment by the tab
    writer and the label formatting belong to other libraries and are not
    modelled; a row is the pair of its two columns. */
module BarchartRender {
  import opened Numeric
  import opened Stats
  import opened Bars
  import opened Barchart

  /** `FormatFunc`: renders an axis value; left uninterpreted. */
  type FormatFunc = real -> string

  /** A rendered row: the X label column and the bar column. */
  datatype Row = Row(x: string, bar: string)

  /** `barstring`: `int(v)` full blocks and one eighth block. A negative
      repeat count would panic, so `v` must truncate to at least 0. */
  function Barstring(v: real): (bar: string)
    requires v > -1.0
    ensures |bar| == Trunc(v) + 1
    ensures forall i :: 0 <= i < |bar| - 1 ==> bar[i] == FullBlock
    ensures bar[|bar| - 1] in Eighths
  {
    Repeat(FullBlock, Trunc(v)) + [Eighths[PartialIdx(v)]]
  }

  /** Whether `fprintf` can render bucket `b`: a bucket with a `Y` needs a
      `ScaledY` whose bar length is not negative. */
  predicate CanRender(b: XYf)
  {
    b.y.Some? ==> b.scaledY.Some? && b.scaledY.value > -1.0
  }

  /** The bar column of a bucket: "nil" for an empty bucket, otherwise the
      bar of its scaled `Y`, a blank and its formatted `Y`. */
  function BarColumn(b: XYf, yfmt: FormatFunc): (col: string)
    requires CanRender(b)
    ensures col == "nil" <==> b.y.None?
    ensures b.y.Some? ==> |col| == Trunc(b.scaledY.value) + 2 + |yfmt(b.y.value)| && col[0] != 'n'
  {
    if b.y.None? then "nil"
    else
      var bar := Barstring(b.scaledY.value);
      assert (bar + " " + yfmt(b.y.value))[0] == bar[0];
      bar + " " + yfmt(b.y.value)
  }

  /** An empty bucket shows exactly "nil"; a bucket with a value shows a bar
      of full blocks, one eighth block, a blank and its label. */
  lemma BarColumnShape(b: XYf, yfmt: FormatFunc)
    requires CanRender(b)
    ensures b.y.None? ==> BarColumn(b, yfmt) == "nil"
    ensures b.y.Some? ==>
      var n := Trunc(b.scaledY.value);
      var col := BarColumn(b, yfmt);
      && |col| == n + 2 + |yfmt(b.y.value)|
      && (forall i :: 0 <= i < n ==> col[i] == FullBlock)
      && col[n] in Eighths && col[n + 1] == ' '
      && col[n + 2..] == yfmt(b.y.value)
  {
    if b.y.Some? {
      var bar := Barstring(b.scaledY.value);
      var col := BarColumn(b, yfmt);
      assert col == bar + " " + yfmt(b.y.value);
      assert col[|bar| + 1..] == yfmt(b.y.value);
    }
  }

  /** Every bucket of `b` can be rendered. */
  predicate AllRenderable(b: seq<XYf>)
  {
    forall i :: 0 <= i < |b| ==> CanRender(b[i])
  }

  /** The rows `fprintf` writes for buckets `b`, in bucket order. */
  function Rows(b: seq<XYf>, xfmt: FormatFunc, yfmt: FormatFunc): (rows: seq<Row>)
    requires AllRenderable(b)
    ensures |rows| == |b|
  {
    if b == [] then []
    else Rows(b[..|b| - 1], xfmt, yfmt) + [Row(xfmt(b[|b| - 1].x), BarColumn(b[|b| - 1], yfmt))]
  }

  /** Row `i` is the X label and the bar column of bucket `i`. */
  lemma {:induction false} RowsAt(b: seq<XYf>, xfmt: FormatFunc, yfmt: FormatFunc)
    requires AllRenderable(b)
    ensures forall i :: 0 <= i < |b| ==> Rows(b, xfmt, yfmt)[i] == Row(xfmt(b[i].x), BarColumn(b[i], yfmt))
  {
    if b != [] {
      RowsAt(b[..|b| - 1], xfmt, yfmt);
    }
  }

  /** `Fprintf`: one row per bucket of `p.ScaleXYs(width, s)`, in order. */
  method Fprintf(p: BarChart, width: int, s: ScaleFunc, xfmt: FormatFunc, yfmt: FormatFunc) returns (rows: seq<Row>)
    requires ScaleDefined(p.xy, p.minX, p.maxX, p.minY, p.maxY, width, s)
    requires AllRenderable(Bucketed(p.xy, p.minX, p.maxX, p.minY, p.maxY, width, s))
    ensures rows == Rows(Bucketed(p.xy, p.minX, p.maxX, p.minY, p.maxY, width, s), xfmt, yfmt)
  {
    var buckets := p.ScaleXYs(width, s);
    rows := [];
    for i := 0 to |buckets|
      invariant rows == Rows(buckets[..i], xfmt, yfmt)
    {
      var xy := buckets[i];
      var xstr := xfmt(xy.x);
      var bar: string;
      var ystr: string;
      if xy.y == None {
        ystr := "";
        bar := "nil";
      } else {
        bar := Barstring(xy.scaledY.value);
        ystr := " " + yfmt(xy.y.value);
      }
      assert buckets[..i + 1][..i] == buckets[..i];
      assert bar + ystr == BarColumn(xy, yfmt);
      rows := rows + [Row(xstr, bar + ystr)];
    }
    assert buckets[..|buckets|] == buckets;
  }

  /** `Fprint`: the rows of `Fprintf` with one bucket per X from `MinX` to
      `MaxX`, both labels rendered with `vfmt` (`%v`). */
  method Fprint(p: BarChart, s: ScaleFunc, vfmt: FormatFunc) returns (rows: seq<Row>)
    requires ScaleDefined(p.xy, p.minX, p.maxX, p.minY, p.maxY, p.maxX - p.minX + 1, s)
    requires AllRenderable(Bucketed(p.xy, p.minX, p.maxX, p.minY, p.maxY, p.maxX - p.minX + 1, s))
    ensures |rows| == p.maxX - p.minX + 1
    ensures rows == Rows(Bucketed(p.xy, p.minX, p.maxX, p.minY, p.maxY, p.maxX - p.minX + 1, s), vfmt, vfmt)
  {
    var width := p.maxX - p.minX + 1;
    rows := Fprintf(p, width, s, vfmt, vfmt);
  }

  /** A sum of values none of which is negative is not negative. */
  lemma {:induction false} KeySumNonneg(vals: seq<real>, keys: seq<int>, i: int)
    requires |vals| == |keys|
    requires forall j :: 0 <= j < |vals| ==> 0.0 <= vals[j]
    ensures 0.0 <= KeySum(vals, keys, i)
  {
    if vals != [] {
      KeySumNonneg(vals[..|vals| - 1], keys[..|keys| - 1], i);
    }
  }

  /** With a linear scale of non-negative width and every `Y` inside
      `MinY..MaxY`, every bucket can be rendered: its bar is never
      negative. */
  lemma LinearChartRenders(pts: seq<XY>, minX: int, maxX: int, minY: int, maxY: int, xWidth: int, width: nat)
    requires minY < maxY && forall j :: 0 <= j < |pts| ==> minY <= pts[j].y <= maxY
    requires ScaleDefined(pts, minX, maxX, minY, maxY, xWidth, Linear(width))
    ensures AllRenderable(Bucketed(pts, minX, maxX, minY, maxY, xWidth, Linear(width)))
  {
    var b := Bucketed(pts, minX, maxX, minY, maxY, xWidth, Linear(width));
    var keys := Keys(pts, minX, ScaleX(minX, maxX, xWidth));
    var zs := ScaledYs(pts, minY, maxY, Linear(width));
    forall j | 0 <= j < |zs|
      ensures 0.0 <= zs[j]
    {
      LinearBounds(width, minY, maxY, pts[j].y);
    }
    forall i | 0 <= i < |b|
      ensures CanRender(b[i])
    {
      KeySumNonneg(zs, keys, i);
    }
  }

  /** The points of the package's example: X from 0 to 15 with 5 and 6
      missing. */
  const ExamplePoints: seq<XY> := [
    XY(0, 1), XY(1, 3), XY(2, 4), XY(3, 6), XY(4, 8), XY(7, 15), XY(8, 10),
    XY(9, 7), XY(10, 5), XY(11, 3), XY(12, 2), XY(13, 1), XY(14, 0), XY(15, 20)]

  /** The bounds `BarChartXYs` computes for the example. */
  lemma ExampleBounds()
    ensures IntMin(Xs(ExamplePoints)) == 0 && IntMax(Xs(ExamplePoints)) == 15
    ensures IntMin(YInts(ExamplePoints)) == 0 && IntMax(YInts(ExamplePoints)) == 20
    ensures Xs(ExamplePoints) == [0, 1, 2, 3, 4, 7, 8, 9, 10, 11, 12, 13, 14, 15]
  {
    var xs := Xs(ExamplePoints);
    var ys := YInts(ExamplePoints);
    assert xs == [0, 1, 2, 3, 4, 7, 8, 9, 10, 11, 12, 13, 14, 15];
    assert ys == [1, 3, 4, 6, 8, 15, 10, 7, 5, 3, 2, 1, 0, 20];
    IntMinBounds(xs);
    IntMaxBounds(xs);
    IntMinBounds(ys);
    IntMaxBounds(ys);
    assert IntMin(xs) <= xs[0] && IntMax(xs) >= xs[13];
    assert IntMin(ys) <= ys[12] && IntMax(ys) >= ys[13];
  }

  /** The example's scale: X from 0 to 15 in sixteen buckets of width 1,
      so each point falls into the bucket of its own X, and every bucket
      renders under `Linear(19)`. */
  lemma ExampleScales()
    ensures ScaleDefined(ExamplePoints, 0, 15, 0, 20, 16, Linear(19))
    ensures AllRenderable(Bucketed(ExamplePoints, 0, 15, 0, 20, 16, Linear(19)))
    ensures ScaleX(0, 15, 16) == 1.0
    ensures Keys(ExamplePoints, 0, 1.0) == [0, 1, 2, 3, 4, 7, 8, 9, 10, 11, 12, 13, 14, 15]
  {
    ExampleBounds();
    BoundedChartScales(ExamplePoints, 0, 15, 0, 20, 16, Linear(19));
    LinearChartRenders(ExamplePoints, 0, 15, 0, 20, 16, 19);
  }

  /** The example's buckets as `Fprint` computes them. */
  ghost function ExampleBuckets(): seq<XYf>
  {
    ExampleScales();
    Bucketed(ExamplePoints, 0, 15, 0, 20, 16, Linear(19))
  }

  /** The bar column of the example's bucket `i`, holding point `j`
      alone: Y and scaled Y are those of that point. */
  lemma ExampleBucketOf(i: int, j: int)
    requires 0 <= j < |ExamplePoints| && ExamplePoints[j].x == i
    ensures 0 <= i < 16
    ensures ExampleBuckets()[i].y == Some(ExamplePoints[j].y as real)
    ensures ExampleBuckets()[i].scaledY == Some(LinearAt(19, 0, 20, ExamplePoints[j].y))
  {
    ExampleScales();
    var keys := Keys(ExamplePoints, 0, 1.0);
    KeySumSingle(Ys(ExamplePoints), keys, i, j);
    KeySumSingle(ScaledYs(ExamplePoints, 0, 20, Linear(19)), keys, i, j);
  }

  /** X = 1 (Y = 3) shows "██▉ 3". */
  lemma ExampleRowOne(vfmt: FormatFunc)
    ensures CanRender(ExampleBuckets()[1])
    ensures BarColumn(ExampleBuckets()[1], vfmt) == "██▉ " + vfmt(3.0)
  {
    ExampleScales();
    ExampleBucketOf(1, 1);
    assert LinearAt(19, 0, 20, 3) == 2.85;
    assert PartialIdx(2.85) == 6;
  }

  /** X = 5 and X = 6 have no point and show "nil". */
  lemma ExampleRowsMissing(vfmt: FormatFunc)
    ensures CanRender(ExampleBuckets()[5]) && BarColumn(ExampleBuckets()[5], vfmt) == "nil"
    ensures CanRender(ExampleBuckets()[6]) && BarColumn(ExampleBuckets()[6], vfmt) == "nil"
  {
    ExampleScales();
    var keys := Keys(ExamplePoints, 0, 1.0);
    assert 5 !in keys && 6 !in keys;
  }

  /** X = 14 (Y = 0, the minimum) shows "▏ 0". */
  lemma ExampleRowMin(vfmt: FormatFunc)
    ensures CanRender(ExampleBuckets()[14])
    ensures BarColumn(ExampleBuckets()[14], vfmt) == "▏ " + vfmt(0.0)
  {
    ExampleScales();
    ExampleBucketOf(14, 12);
    assert LinearAt(19, 0, 20, 0) == 0.0;
    assert PartialIdx(0.0) == 0;
  }

  /** X = 15 (Y = 20, the maximum) shows nineteen full blocks, "▏" and
      "20": the bar is one character longer than the scale's width. */
  lemma ExampleRowMax(vfmt: FormatFunc)
    ensures CanRender(ExampleBuckets()[15])
    ensures BarColumn(ExampleBuckets()[15], vfmt) == Repeat(FullBlock, 19) + "▏ " + vfmt(20.0)
  {
    ExampleScales();
    ExampleBucketOf(15, 13);
    assert LinearAt(19, 0, 20, 20) == 19.0;
    assert PartialIdx(19.0) == 0;
  }
}
