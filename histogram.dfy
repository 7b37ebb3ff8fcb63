/** Package `histogram`: values partitioned over `bins` buckets of equal
    width between the smallest and the largest value. Each value is counted
    in exactly one bucket; the largest value lands in the last one. */
module Histograms {
  import opened Numeric
  import opened Stats
  import opened Bars

  /** `Bucket`: how many values fell into it, and its two edges. */
  datatype Bucket = Bucket(count: int, min: real, max: real)

  /** `Histogram`: the buckets with the smallest and the largest count
      recorded while counting, and the number of values. */
  datatype Histogram = Histogram(min: int, max: int, count: int, buckets: seq<Bucket>)

  /** The counts of the buckets, in order. */
  function Counts(b: seq<Bucket>): (c: seq<int>)
    ensures |c| == |b|
  {
    seq(|b|, i requires 0 <= i < |b| => b[i].count)
  }

  /** The edges of the buckets, in order. */
  function Edges(b: seq<Bucket>): (e: seq<(real, real)>)
    ensures |e| == |b|
  {
    seq(|b|, i requires 0 <= i < |b| => (b[i].min, b[i].max))
  }

  /** `scale`: the width of one of `bins` buckets spanning `lo..hi`. */
  function BinWidth(lo: real, hi: real, bins: int): (scale: real)
    requires bins > 0
    ensures scale * bins as real == hi - lo
    ensures lo < hi ==> 0.0 < scale
  {
    DivNonneg(hi - lo, bins as real);
    (hi - lo) / bins as real
  }

  /** `bi`: the bucket of value `v`, counted in bucket widths from `lo`
      and truncated; anything past the last bucket goes into the last. */
  function BinOf(v: real, lo: real, scale: real, bins: int): (bi: int)
    requires scale != 0.0
    ensures bi <= bins - 1
    ensures 0.0 < scale && lo <= v && 0 < bins ==> 0 <= bi
  {
    assert 0.0 < scale && lo <= v ==> 0.0 <= (v - lo) / scale by {
      if 0.0 < scale {
        DivNonneg(v - lo, scale);
      }
    }
    Imin(Trunc((v - lo) / scale), bins - 1)
  }

  /** Bucket widths are positive once the values are not all equal. */
  lemma BinWidthPositive(lo: real, hi: real, bins: int)
    requires bins > 0 && lo < hi
    ensures BinWidth(lo, hi, bins) > 0.0
  {
    DivNonneg(hi - lo, bins as real);
    assert BinWidth(lo, hi, bins) * bins as real == hi - lo;
  }

  /** A value at or above `lo` gets a bucket of the histogram. */
  lemma BinInRange(v: real, lo: real, scale: real, bins: int)
    requires bins > 0 && scale > 0.0 && lo <= v
    ensures 0 <= BinOf(v, lo, scale, bins) < bins
  {
    DivNonneg(v - lo, scale);
  }

  /** The smallest value goes into the first bucket and the largest into
      the last. */
  lemma BinOfEnds(lo: real, hi: real, bins: int)
    requires bins > 0 && lo < hi
    ensures BinWidth(lo, hi, bins) > 0.0
    ensures BinOf(lo, lo, BinWidth(lo, hi, bins), bins) == 0
    ensures BinOf(hi, lo, BinWidth(lo, hi, bins), bins) == bins - 1
  {
    var scale := BinWidth(lo, hi, bins);
    BinWidthPositive(lo, hi, bins);
    assert (lo - lo) / scale == 0.0;
    assert (hi - lo) / scale * scale == scale * bins as real;
    assert (hi - lo) / scale == bins as real;
  }

  /** Whether a bucket with edges `e` holds `v`: from its lower edge
      included to its upper edge excluded, or included when it is the last
      bucket. */
  predicate Holds(e: (real, real), v: real, last: bool)
  {
    e.0 <= v && (v < e.1 || (last && v <= e.1))
  }

  /** With edges `lo + i * scale`, the bucket `BinOf` picks for a value of
      `lo..hi` holds that value. */
  lemma BinWithinEdges(v: real, lo: real, hi: real, bins: int)
    requires bins > 0 && lo < hi && lo <= v <= hi
    ensures BinWidth(lo, hi, bins) > 0.0
    ensures var scale := BinWidth(lo, hi, bins);
      var bi := BinOf(v, lo, scale, bins);
      Holds((lo + bi as real * scale, lo + (bi + 1) as real * scale), v, bi == bins - 1)
  {
    var scale := BinWidth(lo, hi, bins);
    BinWidthPositive(lo, hi, bins);
    assert bins as real * scale == hi - lo;
    var t := (v - lo) / scale;
    assert t * scale == v - lo;
    var k := Trunc(t);
    DivNonneg(v - lo, scale);
    assert k as real <= t < k as real + 1.0;
    var bi := BinOf(v, lo, scale, bins);
    if bi == k {
      MulMonotone(k as real, t, scale);
      var u := (k + 1) as real;
      MulStrict(t, u, scale);
      assert t * scale < u * scale;
      assert v - lo < u * scale;
      assert lo + k as real * scale <= v;
    } else {
      assert bi == bins - 1 && bi < k;
      MulMonotone(bi as real, t, scale);
      assert (bi + 1) as real * scale == hi - lo;
    }
  }

  /** The number of `input` values whose bucket is `i`. */
  function CountIn(input: seq<real>, lo: real, scale: real, bins: int, i: int): nat
    requires scale != 0.0
  {
    if input == [] then 0
    else
      CountIn(input[..|input| - 1], lo, scale, bins, i)
        + (if BinOf(input[|input| - 1], lo, scale, bins) == i then 1 else 0)
  }

  /** The count of every bucket, in bucket order. */
  function CountsOf(input: seq<real>, lo: real, scale: real, bins: nat): (c: seq<int>)
    requires scale != 0.0
    ensures |c| == bins
  {
    seq(bins, i => CountIn(input, lo, scale, bins, i))
  }

  /** Counting `input` into buckets loses no value and invents none: the
      counts add up to the number of values. */
  lemma {:induction false} CountsOfTotal(input: seq<real>, lo: real, scale: real, bins: nat)
    requires bins > 0 && scale > 0.0
    requires forall j :: 0 <= j < |input| ==> lo <= input[j]
    ensures IntSum(CountsOf(input, lo, scale, bins)) == |input|
  {
    if input == [] {
      ZerosSum(CountsOf(input, lo, scale, bins));
    } else {
      var n := |input| - 1;
      var p := input[..n];
      CountsOfTotal(p, lo, scale, bins);
      var bi := BinOf(input[n], lo, scale, bins);
      BinInRange(input[n], lo, scale, bins);
      var before := CountsOf(p, lo, scale, bins);
      assert input == p + [input[n]];
      CountsOfSnoc(p, input[n], lo, scale, bins);
      IntSumUpdate(before, bi, 1);
    }
  }

  /** One more value adds one to the count of its bucket. */
  lemma CountsOfSnoc(p: seq<real>, v: real, lo: real, scale: real, bins: nat)
    requires scale != 0.0 && 0 <= BinOf(v, lo, scale, bins) < bins
    ensures var bi := BinOf(v, lo, scale, bins);
      CountsOf(p + [v], lo, scale, bins) == CountsOf(p, lo, scale, bins)[bi := CountsOf(p, lo, scale, bins)[bi] + 1]
  {
    assert (p + [v])[..|p|] == p;
  }

  /** All-zero counts add up to zero. */
  lemma {:induction false} ZerosSum(s: seq<int>)
    requires forall i :: 0 <= i < |s| ==> s[i] == 0
    ensures IntSum(s) == 0
  {
    if s != [] {
      ZerosSum(s[..|s| - 1]);
    }
  }

  /** The counting `Hist` does, for buckets of width `scale` from `lo`:
      one bucket per bin, each counting the values `BinOf` assigns to it;
      `Count` the number of values, which the bucket counts add up to; `Max`
      the largest bucket count; and `Min` zero. */
  predicate TalliedFrom(h: Histogram, input: seq<real>, lo: real, scale: real, bins: nat)
    requires scale != 0.0 && bins > 0
  {
    var c := Counts(h.buckets);
    && c == CountsOf(input, lo, scale, bins)
    && h.count == |input| && IntSum(c) == h.count
    && h.min == 0 && h.max == IntMax(c)
  }

  /** The counting of a non-empty `input` over `bins > 0` buckets spanning
      its smallest to its largest value. */
  predicate Tallied(h: Histogram, input: seq<real>, bins: int)
    requires |input| > 0 && bins > 0 && SeqMin(input) < SeqMax(input)
  {
    BinWidthPositive(SeqMin(input), SeqMax(input), bins);
    TalliedFrom(h, input, SeqMin(input), BinWidth(SeqMin(input), SeqMax(input), bins), bins)
  }

  /** Whether `h` looks like a histogram `Hist` built: at least one bucket,
      counts not negative and adding up to `Count`, `Max` the largest count
      and `Min` zero. */
  predicate WellFormed(h: Histogram)
  {
    var c := Counts(h.buckets);
    && |c| > 0
    && (forall i :: 0 <= i < |c| ==> 0 <= c[i])
    && IntSum(c) == h.count
    && h.min == 0 && h.max == IntMax(c)
  }

  /** Every tallied histogram is well formed. */
  lemma TalliedWellFormed(h: Histogram, input: seq<real>, lo: real, scale: real, bins: nat)
    requires scale != 0.0 && bins > 0 && TalliedFrom(h, input, lo, scale, bins)
    ensures WellFormed(h)
  {
    var c := Counts(h.buckets);
    forall i | 0 <= i < |c|
      ensures 0 <= c[i]
    {
      assert c[i] == CountIn(input, lo, scale, bins, i);
    }
  }

  /** The edges of `bins` buckets of width `scale` from `base`: bucket `i`
      spans `base + i * scale` to `base + (i + 1) * scale`. */
  function EdgesFrom(bins: nat, base: real, scale: real): (e: seq<(real, real)>)
    ensures |e| == bins
  {
    seq(bins, i => (base + i as real * scale, base + (i + 1) as real * scale))
  }

  /** Adjacent buckets share an edge: each ends where the next begins. */
  lemma EdgesAdjacent(bins: nat, base: real, scale: real)
    ensures forall i :: 0 <= i < bins - 1 ==> EdgesFrom(bins, base, scale)[i].1 == EdgesFrom(bins, base, scale)[i + 1].0
  {
  }

  /** The edges `Hist` writes, `(i + 1) * scale` to `(i + 2) * scale`,
      are those of buckets of width `scale` starting at `scale`. */
  lemma AsWrittenEdges(bins: nat, scale: real)
    ensures forall i :: 0 <= i < bins ==> EdgesFrom(bins, scale, scale)[i] == ((i + 1) as real * scale, (i + 2) as real * scale)
  {
    forall i | 0 <= i < bins
      ensures EdgesFrom(bins, scale, scale)[i] == ((i + 1) as real * scale, (i + 2) as real * scale)
    {
      var e := EdgesFrom(bins, scale, scale)[i];
      assert e.0 == scale + i as real * scale;
      assert e.0 == (i + 1) as real * scale;
      assert e.1 == (i + 2) as real * scale;
    }
  }

  /** With edges starting at the smallest value, each value lies in the
      bucket it is counted in. */
  lemma EdgesHoldValues(input: seq<real>, bins: int)
    requires |input| > 0 && bins > 0 && SeqMin(input) < SeqMax(input)
    ensures BinWidth(SeqMin(input), SeqMax(input), bins) > 0.0
    ensures var lo, scale := SeqMin(input), BinWidth(SeqMin(input), SeqMax(input), bins);
      forall j :: 0 <= j < |input| ==>
        var bi := BinOf(input[j], lo, scale, bins);
        0 <= bi < bins && Holds(EdgesFrom(bins, lo, scale)[bi], input[j], bi == bins - 1)
  {
    var lo, hi := SeqMin(input), SeqMax(input);
    var scale := BinWidth(lo, hi, bins);
    BinWidthPositive(lo, hi, bins);
    SeqMinBounds(input);
    SeqMaxBounds(input);
    forall j | 0 <= j < |input|
      ensures var bi := BinOf(input[j], lo, scale, bins);
        0 <= bi < bins && Holds(EdgesFrom(bins, lo, scale)[bi], input[j], bi == bins - 1)
    {
      BinHolds(input[j], lo, hi, bins);
    }
  }

  /** One value of `lo..hi` lies in the bucket it is counted in. */
  lemma BinHolds(v: real, lo: real, hi: real, bins: int)
    requires bins > 0 && lo < hi && lo <= v <= hi
    ensures BinWidth(lo, hi, bins) > 0.0
    ensures var scale := BinWidth(lo, hi, bins);
      var bi := BinOf(v, lo, scale, bins);
      0 <= bi < bins && Holds(EdgesFrom(bins, lo, scale)[bi], v, bi == bins - 1)
  {
    var scale := BinWidth(lo, hi, bins);
    BinWidthPositive(lo, hi, bins);
    BinInRange(v, lo, scale, bins);
    BinWithinEdges(v, lo, hi, bins);
    var bi := BinOf(v, lo, scale, bins);
    var e := EdgesFrom(bins, lo, scale)[bi];
    assert e.0 == lo + bi as real * scale && e.1 == lo + (bi + 1) as real * scale;
  }

  /** The edges `Hist` writes do not hold the values: with values 0 and 1
      in two buckets of width 0.5, value 0 is counted in bucket 0, whose
      edges are 0.5 and 1. */
  lemma AsWrittenEdgesMissValue()
    ensures var input := [0.0, 1.0];
      && SeqMin(input) == 0.0 && SeqMax(input) == 1.0
      && BinWidth(0.0, 1.0, 2) == 0.5
      && BinOf(input[0], 0.0, 0.5, 2) == 0
      && EdgesFrom(2, 0.5, 0.5)[0] == (0.5, 1.0)
      && !Holds(EdgesFrom(2, 0.5, 0.5)[0], input[0], false)
  {
  }

  /** Adding one to the count of bucket `bi` adds one to its count and
      leaves the edges alone. */
  lemma Increment(b: seq<Bucket>, bi: int)
    requires 0 <= bi < |b|
    ensures Counts(b[bi := b[bi].(count := b[bi].count + 1)]) == Counts(b)[bi := Counts(b)[bi] + 1]
    ensures Edges(b[bi := b[bi].(count := b[bi].count + 1)]) == Edges(b)
  {
  }

  /** The minimum and maximum loop of `Hist`. */
  method MinMax(input: seq<real>) returns (lo: real, hi: real)
    requires |input| > 0
    ensures lo == SeqMin(input) && hi == SeqMax(input)
  {
    lo, hi := input[0], input[0];
    for i := 0 to |input|
      invariant i == 0 ==> lo == input[0] && hi == input[0]
      invariant i > 0 ==> lo == SeqMin(input[..i]) && hi == SeqMax(input[..i])
    {
      assert input[..i + 1][..i] == input[..i];
      lo := RMin(lo, input[i]);
      hi := RMax(hi, input[i]);
    }
    assert input[..|input|] == input;
  }

  /** The edge loop of `Hist`: `bins` empty buckets with the edges of
      buckets of width `scale` from `base`. */
  method MakeBuckets(bins: nat, base: real, scale: real) returns (buckets: array<Bucket>)
    ensures fresh(buckets) && buckets.Length == bins
    ensures forall i :: 0 <= i < bins ==> buckets[i].count == 0
    ensures Edges(buckets[..]) == EdgesFrom(bins, base, scale)
  {
    buckets := new Bucket[bins](_ => Bucket(0, 0.0, 0.0));
    for i := 0 to bins
      invariant forall k :: 0 <= k < i ==>
        buckets[k] == Bucket(0, base + k as real * scale, base + (k + 1) as real * scale)
      invariant forall k :: i <= k < bins ==> buckets[k].count == 0
    {
      buckets[i] := Bucket(0, base + i as real * scale, base + (i + 1) as real * scale);
    }
    forall k | 0 <= k < bins
      ensures Edges(buckets[..])[k] == EdgesFrom(bins, base, scale)[k]
    {
      var e, f := Edges(buckets[..])[k], EdgesFrom(bins, base, scale)[k];
      assert e.0 == buckets[k].min == f.0;
      assert e.1 == buckets[k].max == f.1;
    }
  }

  /** The counting loop of `Hist`: each value increments the count of its
      bucket, and the smallest and largest counts seen are tracked. The
      edges are left alone. */
  method CountValues(buckets: array<Bucket>, input: seq<real>, lo: real, scale: real) returns (minC: int, maxC: int)
    requires buckets.Length > 0 && scale > 0.0
    requires forall j :: 0 <= j < |input| ==> lo <= input[j]
    requires forall i :: 0 <= i < buckets.Length ==> buckets[i].count == 0
    modifies buckets
    ensures Counts(buckets[..]) == CountsOf(input, lo, scale, buckets.Length)
    ensures Edges(buckets[..]) == old(Edges(buckets[..]))
    ensures minC == 0 && maxC == IntMax(Counts(buckets[..]))
  {
    var n := buckets.Length;
    minC, maxC := 0, 0;
    assert Counts(buckets[..]) == CountsOf(input[..0], lo, scale, n);
    IntMaxBounds(Counts(buckets[..]));
    for k := 0 to |input|
      invariant Counts(buckets[..]) == CountsOf(input[..k], lo, scale, n)
      invariant Edges(buckets[..]) == old(Edges(buckets[..]))
      invariant minC == 0 && maxC == IntMax(Counts(buckets[..]))
    {
      var xdiff := input[k] - lo;
      var bi := Imin(Trunc(xdiff / scale), n - 1);
      assert bi == BinOf(input[k], lo, scale, n);
      ghost var prev := buckets[..];
      ghost var before := Counts(prev);
      buckets[bi] := buckets[bi].(count := buckets[bi].count + 1);
      assert buckets[..] == prev[bi := prev[bi].(count := prev[bi].count + 1)];
      Increment(prev, bi);
      assert input[..k + 1] == input[..k] + [input[k]];
      CountsOfSnoc(input[..k], input[k], lo, scale, n);
      IntMaxRaise(before, bi, before[bi] + 1);
      minC := Imin(minC, buckets[bi].count);
      maxC := Imax(maxC, buckets[bi].count);
    }
    assert input[..|input|] == input;
  }

  /** The body of `Hist` once the bucket width is known: empty buckets
      with edges from `base`, then every value counted. */
  method Tally(bins: nat, input: seq<real>, lo: real, scale: real, base: real) returns (h: Histogram)
    requires bins > 0 && scale > 0.0
    requires forall j :: 0 <= j < |input| ==> lo <= input[j]
    ensures TalliedFrom(h, input, lo, scale, bins) && WellFormed(h)
    ensures Edges(h.buckets) == EdgesFrom(bins, base, scale)
  {
    var buckets := MakeBuckets(bins, base, scale);
    var minC, maxC := CountValues(buckets, input, lo, scale);
    h := Histogram(minC, maxC, |input|, buckets[..]);
    CountsOfTotal(input, lo, scale, bins);
    TalliedWellFormed(h, input, lo, scale, bins);
  }

  /** `Hist`, as written: the zero histogram for no values or no bins;
      otherwise `bins` buckets counted as `Tallied` says, with bucket `i`
      spanning `(i + 1) * scale` to `(i + 2) * scale`. Equal values would
      make the bucket width zero and the bucket of each value undefined,
      and a negative `bins` makes `make` panic. */
  method Hist(bins: int, input: seq<real>) returns (h: Histogram)
    requires |input| > 0 && bins != 0 ==> bins > 0 && SeqMin(input) < SeqMax(input)
    ensures |input| == 0 || bins == 0 ==> h == Histogram(0, 0, 0, [])
    ensures |input| > 0 && bins != 0 ==> Tallied(h, input, bins) && WellFormed(h)
    ensures |input| > 0 && bins != 0 ==>
      var scale := BinWidth(SeqMin(input), SeqMax(input), bins);
      forall i :: 0 <= i < bins ==>
        h.buckets[i].min == (i + 1) as real * scale && h.buckets[i].max == (i + 2) as real * scale
  {
    if |input| == 0 || bins == 0 {
      return Histogram(0, 0, 0, []);
    }
    var min, max := MinMax(input);
    var scale := (max - min) / bins as real;
    BinWidthPositive(min, max, bins);
    SeqMinBounds(input);
    h := Tally(bins, input, min, scale, scale);
    AsWrittenEdges(bins, scale);
    forall i | 0 <= i < bins
      ensures h.buckets[i].min == (i + 1) as real * scale && h.buckets[i].max == (i + 2) as real * scale
    {
      assert Edges(h.buckets)[i] == (h.buckets[i].min, h.buckets[i].max);
    }
  }

  /** `Hist` with the edges its documentation describes: bucket `i` spans
      `min + i * scale` to `min + (i + 1) * scale`, so that every value lies
      inside the bucket it is counted in (`EdgesHoldValues`). */
  method HistCorrected(bins: int, input: seq<real>) returns (h: Histogram)
    requires |input| > 0 && bins != 0 ==> bins > 0 && SeqMin(input) < SeqMax(input)
    ensures |input| == 0 || bins == 0 ==> h == Histogram(0, 0, 0, [])
    ensures |input| > 0 && bins != 0 ==> Tallied(h, input, bins) && WellFormed(h)
    ensures |input| > 0 && bins != 0 ==>
      Edges(h.buckets) == EdgesFrom(bins, SeqMin(input), BinWidth(SeqMin(input), SeqMax(input), bins))
  {
    if |input| == 0 || bins == 0 {
      return Histogram(0, 0, 0, []);
    }
    var min, max := MinMax(input);
    var scale := (max - min) / bins as real;
    BinWidthPositive(min, max, bins);
    SeqMinBounds(input);
    h := Tally(bins, input, min, scale, min);
  }

  /** `Scale`: the scaled count of bucket `idx`, from the histogram's
      smallest and largest counts. */
  function Scale(h: Histogram, s: ScaleFunc, idx: int): (sz: real)
    requires 0 <= idx < |h.buckets| && s.requires(h.min, h.max, h.buckets[idx].count)
  {
    s(h.min, h.max, h.buckets[idx].count)
  }

  /** A histogram with at least one value has a positive largest count. */
  lemma WellFormedMaxPositive(h: Histogram)
    requires WellFormed(h) && h.count > 0
    ensures h.max > 0
  {
    var c := Counts(h.buckets);
    IntMaxBounds(c);
    if h.max <= 0 {
      assert forall i :: 0 <= i < |c| ==> c[i] == 0;
      ZerosSum(c);
    }
  }

  /** Under `Linear(width)` a well-formed histogram with values scales
      every bucket into `0..width`: an empty bucket to 0 and the fullest
      to exactly `width`. */
  lemma ScaleLinear(h: Histogram, width: nat, idx: int)
    requires WellFormed(h) && h.count > 0 && 0 <= idx < |h.buckets|
    ensures h.min < h.max
    ensures 0.0 <= Scale(h, Linear(width), idx) <= width as real
    ensures h.buckets[idx].count == 0 ==> Scale(h, Linear(width), idx) == 0.0
    ensures h.buckets[idx].count == h.max ==> Scale(h, Linear(width), idx) == width as real
  {
    WellFormedMaxPositive(h);
    IntMaxBounds(Counts(h.buckets));
    assert Counts(h.buckets)[idx] == h.buckets[idx].count;
    LinearBounds(width, h.min, h.max, h.buckets[idx].count);
  }

  /** Under `Linear(width)` the bars of a well-formed histogram with values
      keep the order of the counts: a smaller count never gets a longer bar. */
  lemma ScaleMonotone(h: Histogram, width: nat, i: int, j: int)
    requires WellFormed(h) && h.count > 0
    requires 0 <= i < |h.buckets| && 0 <= j < |h.buckets|
    requires h.buckets[i].count <= h.buckets[j].count
    ensures h.min < h.max
    ensures Scale(h, Linear(width), i) <= Scale(h, Linear(width), j)
  {
    ScaleLinear(h, width, i);
    LinearMonotone(width, h.min, h.max, h.buckets[i].count, h.buckets[j].count);
  }
}
