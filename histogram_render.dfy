/** The text rendering of package `histogram`: one row per bucket, holding
    the bucket's edges, its share of all values in percent, a bar of full
    blocks ending in an eighth block, and its count out of the total.
    Column alignment by the tab writer and the number formatting belong to
    other libraries and are not modelled; a row is the record of its
    fields. */
module HistogramRender {
  import opened Numeric
  import opened Stats
  import opened Bars
  import opened Histograms
  import BarchartRender

  /** `FormatFunc`: renders an edge of a bucket; left uninterpreted. */
  type FormatFunc = real -> string

  /** A rendered row: the two edge labels, the percentage, the bar and the
      bucket's count out of the histogram's. */
  datatype HistRow = HistRow(lo: string, hi: string, percent: real, bar: string, count: int, total: int)

  /** The table index `barchar` computes for a bar of length `v`: the
      fraction times ten, times ten again, over eight, truncated; that is
      `12.5 * frac(v)` truncated. */
  function BarcharIndex(v: real): (k: int)
    ensures 0 <= k
    ensures k < |Eighths| <==> Frac(v) < 0.64
  {
    var digit := Frac(v) * 10.0;
    Trunc(10.0 * digit / 8.0)
  }

  /** `barchar`, as written: the closing block of a bar, defined only where
      the index stays inside the eight-entry table. */
  function BarcharAsWritten(v: real): (c: char)
    requires Frac(v) < 0.64
    ensures c in Eighths
  {
    Eighths[BarcharIndex(v)]
  }

  /** The closing block the histogram's expected outputs show: the first
      decimal of the fraction scaled from tenths to eighths, as the bar
      chart's bars are drawn. Defined for every length. */
  function Barchar(v: real): (c: char)
    ensures c in Eighths
  {
    Eighths[PartialIdx(v)]
  }

  /** A histogram on which `barchar` fails: `Hist(2, [0, 0, 0, 1])` has
      buckets of width 0.5 with counts 3 and 1. */
  lemma OverrunHistogram()
    ensures var input := [0.0, 0.0, 0.0, 1.0];
      && SeqMin(input) == 0.0 && SeqMax(input) == 1.0
      && BinWidth(0.0, 1.0, 2) == 0.5
      && CountsOf(input, 0.0, 0.5, 2) == [3, 1]
  {
    var input := [0.0, 0.0, 0.0, 1.0];
    assert input[..3] == [0.0, 0.0, 0.0];
    assert [0.0, 0.0, 0.0][..2] == [0.0, 0.0];
    assert [0.0, 0.0][..1] == [0.0];
    assert SeqMin([0.0, 0.0, 0.0]) == 0.0 && SeqMax([0.0, 0.0, 0.0]) == 0.0;
    OverrunCounts();
  }

  /** The counting step of `OverrunHistogram`. */
  lemma OverrunCounts()
    ensures CountsOf([0.0, 0.0, 0.0, 1.0], 0.0, 0.5, 2) == [3, 1]
  {
    assert BinOf(0.0, 0.0, 0.5, 2) == 0;
    assert (1.0 - 0.0) / 0.5 == 2.0;
    assert BinOf(1.0, 0.0, 0.5, 2) == 1;
    assert CountsOf([], 0.0, 0.5, 2) == [0, 0];
    CountsOfSnoc([], 0.0, 0.0, 0.5, 2);
    assert [] + [0.0] == [0.0];
    CountsOfSnoc([0.0], 0.0, 0.0, 0.5, 2);
    assert [0.0] + [0.0] == [0.0, 0.0];
    CountsOfSnoc([0.0, 0.0], 0.0, 0.0, 0.5, 2);
    assert [0.0, 0.0] + [0.0] == [0.0, 0.0, 0.0];
    CountsOfSnoc([0.0, 0.0, 0.0], 1.0, 0.0, 0.5, 2);
    assert [0.0, 0.0, 0.0] + [1.0] == [0.0, 0.0, 0.0, 1.0];
  }

  /** `barchar` reads past its table: on the histogram of
      `OverrunHistogram`, whose counts are 3 and 1, `Linear(5)` scales the
      count 1 to 5/3, whose fraction 2/3 gives index 8. `Barchar` gives
      index 4 there. */
  lemma BarcharOverrun()
    ensures Linear(5)(0, 3, 1) == 5.0 / 3.0
    ensures !(Frac(5.0 / 3.0) < 0.64) && BarcharIndex(5.0 / 3.0) == 8
    ensures PartialIdx(5.0 / 3.0) == 4
  {
    assert Frac(5.0 / 3.0) == 2.0 / 3.0;
  }

  /** The corrected block agrees with the bars the package's example
      expects for `Linear(5)` over a largest count of 9: counts 1 and 5 end
      in '▋' and '▊', count 2 and the largest count in '▏'. `barchar` as
      written ends the count-1 bar in '▉' instead. */
  lemma BarcharMatchesExamples()
    ensures BarcharAsWritten(5.0 / 9.0) == '▉'
    ensures Barchar(5.0 / 9.0) == '▋'
    ensures Barchar(25.0 / 9.0) == '▊'
    ensures Barchar(10.0 / 9.0) == '▏'
    ensures Barchar(5.0) == '▏'
  {
    assert Frac(5.0 / 9.0) == 5.0 / 9.0;
    assert Frac(25.0 / 9.0) == 7.0 / 9.0;
    assert Frac(10.0 / 9.0) == 1.0 / 9.0;
    assert Frac(5.0) == 0.0;
  }

  /** The bar of a bucket scaled to `sz` as written: `int(sz)` full
      blocks and the `barchar` block. A negative repeat count would panic,
      and so would a block index past the table. */
  function BarAsWritten(sz: real): (bar: string)
    requires sz > -1.0 && Frac(sz) < 0.64
    ensures |bar| == Trunc(sz) + 1
    ensures forall i :: 0 <= i < |bar| - 1 ==> bar[i] == FullBlock
    ensures bar[|bar| - 1] in Eighths
  {
    Repeat(FullBlock, Trunc(sz)) + [BarcharAsWritten(sz)]
  }

  /** The bar of a bucket scaled to `sz` with the corrected block: the
      histogram's bar is then drawn exactly as the bar chart's `barstring`
      draws a bar of the same length. Only a negative repeat count is
      refused. */
  function Bar(sz: real): (bar: string)
    requires sz > -1.0
    ensures |bar| == Trunc(sz) + 1
    ensures forall i :: 0 <= i < |bar| - 1 ==> bar[i] == FullBlock
    ensures bar == BarchartRender.Barstring(sz)
  {
    Repeat(FullBlock, Trunc(sz)) + [Barchar(sz)]
  }

  /** A bucket's share of all values, in percent: a count out of a
      positive total lies between 0 and 100. */
  function Percent(count: int, total: int): (p: real)
    requires total != 0
    ensures 0 <= count <= total ==> 0.0 <= p <= 100.0
  {
    var t := total as real;
    assert 0 <= count <= total ==> 0.0 <= count as real * 100.0 / t <= 100.0 by {
      if 0 <= count <= total {
        DivNonneg(count as real * 100.0, t);
        DivMonotone(count as real * 100.0, t * 100.0, t);
      }
    }
    count as real * 100.0 / t
  }

  /** Whether bucket `i` of `h` can be given a bar under `s`: the scale is
      defined on it and gives a bar length whose repeat count is not
      negative. */
  ghost predicate Drawable(h: Histogram, s: ScaleFunc, i: int)
    requires 0 <= i < |h.buckets|
  {
    && s.requires(h.min, h.max, h.buckets[i].count)
    && Scale(h, s, i) > -1.0
  }

  /** Whether every row of `h` can be rendered with the corrected block:
      each bucket drawable, and a non-zero total to take percentages of. */
  ghost predicate Renderable(h: Histogram, s: ScaleFunc)
  {
    && (|h.buckets| > 0 ==> h.count != 0)
    && forall i :: 0 <= i < |h.buckets| ==> Drawable(h, s, i)
  }

  /** Whether `fprintf` as written renders `h` without a panic: besides
      the above, no bar length whose fraction takes `barchar` past the
      table. */
  ghost predicate RenderableAsWritten(h: Histogram, s: ScaleFunc)
  {
    && Renderable(h, s)
    && forall i :: 0 <= i < |h.buckets| ==> Drawable(h, s, i) && Frac(Scale(h, s, i)) < 0.64
  }

  /** The row `fprintf` writes for bucket `i`: its edges, its share in
      percent, `int(sz)` full blocks and the `barchar` block, and its count
      out of the total. */
  function RowOf(h: Histogram, s: ScaleFunc, f: FormatFunc, i: int): (r: HistRow)
    requires 0 <= i < |h.buckets| && h.count != 0 && Drawable(h, s, i)
    requires Frac(Scale(h, s, i)) < 0.64
    ensures r.count == h.buckets[i].count && r.total == h.count
    ensures 0 <= r.count <= r.total ==> 0.0 <= r.percent <= 100.0
    ensures |r.bar| == Trunc(Scale(h, s, i)) + 1
  {
    var b := h.buckets[i];
    HistRow(f(b.min), f(b.max), Percent(b.count, h.count), BarAsWritten(Scale(h, s, i)), b.count, h.count)
  }

  /** The rows `fprintf` writes for `h`, one per bucket, in bucket order. */
  function HistRows(h: Histogram, s: ScaleFunc, f: FormatFunc): (rows: seq<HistRow>)
    requires RenderableAsWritten(h, s)
    ensures |rows| == |h.buckets|
  {
    seq(|h.buckets|, i requires 0 <= i < |h.buckets| && RenderableAsWritten(h, s) => RowOf(h, s, f, i))
  }

  /** `fprintf` (and `FPrintf`, which passes `f` on), as written: one row
      per bucket, in order, each bar closed by the `barchar` block. */
  method Fprintf(h: Histogram, s: ScaleFunc, f: FormatFunc) returns (rows: seq<HistRow>)
    requires RenderableAsWritten(h, s)
    ensures rows == HistRows(h, s, f)
  {
    rows := [];
    for i := 0 to |h.buckets|
      invariant rows == HistRows(h, s, f)[..i]
    {
      var bkt := h.buckets[i];
      assert Drawable(h, s, i);
      var sz := Scale(h, s, i);
      var bar := Repeat(FullBlock, Trunc(sz)) + [BarcharAsWritten(sz)];
      rows := rows + [HistRow(f(bkt.min), f(bkt.max), bkt.count as real * 100.0 / h.count as real, bar, bkt.count, h.count)];
    }
  }

  /** Each row `fprintf` writes carries its bucket's edges, count and the
      total, and a bar one block longer than the truncated scaled count
      whose blocks are full but the last, which is `barchar`'s. */
  lemma HistRowsShape(h: Histogram, s: ScaleFunc, f: FormatFunc, i: int)
    requires RenderableAsWritten(h, s) && 0 <= i < |h.buckets|
    ensures var r := HistRows(h, s, f)[i];
      var sz := s(h.min, h.max, h.buckets[i].count);
      && r.lo == f(h.buckets[i].min) && r.hi == f(h.buckets[i].max)
      && r.count == h.buckets[i].count && r.total == h.count
      && |r.bar| == Trunc(sz) + 1
      && (forall k :: 0 <= k < |r.bar| - 1 ==> r.bar[k] == FullBlock)
      && r.bar[|r.bar| - 1] == BarcharAsWritten(sz)
  {
  }

  /** The row of bucket `i` with the corrected block. */
  function RowOfCorrected(h: Histogram, s: ScaleFunc, f: FormatFunc, i: int): (r: HistRow)
    requires 0 <= i < |h.buckets| && h.count != 0 && Drawable(h, s, i)
    ensures r.count == h.buckets[i].count && r.total == h.count
    ensures r.bar == BarchartRender.Barstring(Scale(h, s, i))
  {
    var b := h.buckets[i];
    HistRow(f(b.min), f(b.max), Percent(b.count, h.count), Bar(Scale(h, s, i)), b.count, h.count)
  }

  /** The rows with the corrected block, one per bucket, in bucket order. */
  function HistRowsCorrected(h: Histogram, s: ScaleFunc, f: FormatFunc): (rows: seq<HistRow>)
    requires Renderable(h, s)
    ensures |rows| == |h.buckets|
  {
    seq(|h.buckets|, i requires 0 <= i < |h.buckets| && Renderable(h, s) => RowOfCorrected(h, s, f, i))
  }

  /** `fprintf` with the corrected block: defined for every bar length the
      repeat accepts. */
  method FprintfCorrected(h: Histogram, s: ScaleFunc, f: FormatFunc) returns (rows: seq<HistRow>)
    requires Renderable(h, s)
    ensures rows == HistRowsCorrected(h, s, f)
  {
    rows := [];
    for i := 0 to |h.buckets|
      invariant rows == HistRowsCorrected(h, s, f)[..i]
    {
      var bkt := h.buckets[i];
      assert Drawable(h, s, i);
      var sz := Scale(h, s, i);
      var bar := Repeat(FullBlock, Trunc(sz)) + [Barchar(sz)];
      rows := rows + [HistRow(f(bkt.min), f(bkt.max), bkt.count as real * 100.0 / h.count as real, bar, bkt.count, h.count)];
    }
  }

  /** Where `fprintf` as written renders, the corrected rows differ from
      its rows in the closing block of the bar only. */
  lemma CorrectedRowsAgree(h: Histogram, s: ScaleFunc, f: FormatFunc, i: int)
    requires RenderableAsWritten(h, s) && 0 <= i < |h.buckets|
    ensures var r, c := HistRows(h, s, f)[i], HistRowsCorrected(h, s, f)[i];
      && c == r.(bar := c.bar)
      && |c.bar| == |r.bar| && c.bar[..|c.bar| - 1] == r.bar[..|r.bar| - 1]
  {
    var r, c := HistRows(h, s, f)[i], HistRowsCorrected(h, s, f)[i];
    var n := |r.bar| - 1;
    assert c.bar[..n] == Repeat(FullBlock, Trunc(Scale(h, s, i)));
    assert r.bar[..n] == Repeat(FullBlock, Trunc(Scale(h, s, i)));
  }

  /** The percentages of counts `c` out of `total`, in order. */
  function Percents(c: seq<int>, total: int): (p: seq<real>)
    requires total != 0
    ensures |p| == |c|
  {
    seq(|c|, i requires 0 <= i < |c| => Percent(c[i], total))
  }

  /** Percentages add up as their counts do. */
  lemma {:induction false} PercentsSum(c: seq<int>, total: int)
    requires total != 0
    ensures Sum(Percents(c, total)) == Percent(IntSum(c), total)
  {
    if c != [] {
      var n := |c| - 1;
      PercentsSum(c[..n], total);
      var p := Percents(c, total);
      assert p[..n] == Percents(c[..n], total);
      var t := total as real;
      var a, b := IntSum(c[..n]) as real * 100.0, c[n] as real * 100.0;
      DivAdd(a, b, t);
      assert Sum(p) == Sum(p[..n]) + p[n];
      assert IntSum(c) == IntSum(c[..n]) + c[n];
      assert Percent(IntSum(c), total) == (a + b) / t;
    }
  }

  /** The rows of a well-formed histogram show percentages between 0 and
      100 that add up to 100. */
  lemma PercentsOfHistogram(h: Histogram)
    requires WellFormed(h) && h.count > 0
    ensures Sum(Percents(Counts(h.buckets), h.count)) == 100.0
    ensures forall i :: 0 <= i < |h.buckets| ==> 0.0 <= Percent(h.buckets[i].count, h.count) <= 100.0
  {
    var c := Counts(h.buckets);
    PercentsSum(c, h.count);
    assert IntSum(c) == h.count;
    var t := h.count as real;
    MulDivCancel(t, 100.0);
    forall i | 0 <= i < |h.buckets|
      ensures 0.0 <= Percent(h.buckets[i].count, h.count) <= 100.0
    {
      assert c[i] == h.buckets[i].count;
      CountBelowSum(c, i);
    }
  }

  /** A count no lower than zero is at most the sum of such counts. */
  lemma {:induction false} CountBelowSum(c: seq<int>, i: int)
    requires 0 <= i < |c| && forall k :: 0 <= k < |c| ==> 0 <= c[k]
    ensures c[i] <= IntSum(c)
  {
    var n := |c| - 1;
    if i < n {
      CountBelowSum(c[..n], i);
      NonnegSum(c[..n]);
    } else {
      NonnegSum(c[..n]);
    }
  }

  /** A sum of counts no lower than zero is not negative. */
  lemma {:induction false} NonnegSum(c: seq<int>)
    requires forall k :: 0 <= k < |c| ==> 0 <= c[k]
    ensures 0 <= IntSum(c)
  {
    if c != [] {
      NonnegSum(c[..|c| - 1]);
    }
  }

  /** The bars of the package documentation's example, a histogram whose
      largest count is 10 drawn with `Linear(5)`, come from `barchar` as
      written: count 0 draws "▏", 1 draws "▉", 2 draws "█▏", 5 draws "██▉"
      and 10 draws "█████▏". */
  lemma DocExampleBars(h: Histogram, i: int)
    requires WellFormed(h) && h.max == 10 && 0 <= i < |h.buckets|
    ensures h.buckets[i].count == 0 ==> Scale(h, Linear(5), i) == 0.0 && BarAsWritten(0.0) == "▏"
    ensures h.buckets[i].count == 1 ==> Scale(h, Linear(5), i) == 0.5 && BarAsWritten(0.5) == "▉"
    ensures h.buckets[i].count == 2 ==> Scale(h, Linear(5), i) == 1.0 && BarAsWritten(1.0) == "█▏"
    ensures h.buckets[i].count == 5 ==> Scale(h, Linear(5), i) == 2.5 && BarAsWritten(2.5) == "██▉"
    ensures h.buckets[i].count == 10 ==> Scale(h, Linear(5), i) == 5.0 && BarAsWritten(5.0) == "█████▏"
  {
    assert Frac(0.5) == 0.5 && Frac(2.5) == 0.5;
    assert Frac(1.0) == 0.0 && Frac(5.0) == 0.0;
    assert Frac(0.0) == 0.0;
    assert Repeat(FullBlock, 2) == "██";
    assert Repeat(FullBlock, 5) == "█████";
  }
}
