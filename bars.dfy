/** What the bar chart and histogram packages share: the scale function
    type, the linear scale, and the table of eighth blocks a bar ends with.
    Each package carries its own identical copy in the source; here they are
    defined once. */
module Bars {
  import opened Numeric

  /** `ScaleFunc`: maps a value between a minimum and a maximum to a bar
      length. A scale may be undefined on some arguments (the linear one on
      an empty range), hence a partial function. */
  type ScaleFunc = (int, int, int) --> real

  /** The eighth blocks, thinnest first; the last is the full block. */
  const Eighths: seq<char> := ['▏', '▎', '▍', '▌', '▋', '▊', '▉', '█']

  /** The full block a bar is made of. */
  const FullBlock: char := '█'

  /** The index of the closing eighth block of a bar of length `v`: its
      first decimal of the fraction, `floor(10 * frac(v))`, scaled from
      tenths to eighths and truncated. Always a valid index. */
  function PartialIdx(v: real): (k: int)
    ensures 0 <= k < |Eighths|
  {
    var tenths := (10.0 * Frac(v)).Floor;
    assert 0 <= tenths <= 9;
    Trunc(tenths as real / 10.0 * 8.0)
  }

  /** The value `Linear(width)` gives for `v` in the range `lo..hi`. */
  function LinearAt(width: int, lo: int, hi: int, v: int): real
    requires hi != lo
  {
    (v - lo) as real / (hi - lo) as real * width as real
  }

  /** `Linear(width)`: the scale that maps `lo..hi` linearly onto
      `0..width`. An empty range would divide by zero. */
  function Linear(width: int): (scale: ScaleFunc)
    ensures forall lo, hi, v :: hi != lo ==> scale.requires(lo, hi, v)
    ensures forall lo, hi :: hi != lo ==> scale(lo, hi, lo) == 0.0 && scale(lo, hi, hi) == width as real
  {
    (lo: int, hi: int, v: int) requires hi != lo => LinearAt(width, lo, hi, v)
  }

  /** A value inside a non-empty range is scaled into `0..width`; the
      range's ends go to exactly 0 and `width`. */
  lemma LinearBounds(width: nat, lo: int, hi: int, v: int)
    requires lo < hi && lo <= v <= hi
    ensures 0.0 <= Linear(width)(lo, hi, v) <= width as real
    ensures Linear(width)(lo, hi, lo) == 0.0
    ensures Linear(width)(lo, hi, hi) == width as real
  {
    var d := (hi - lo) as real;
    var q := (v - lo) as real / d;
    DivNonneg((v - lo) as real, d);
    DivMonotone((v - lo) as real, d, d);
    assert 0.0 <= q <= 1.0;
    assert q * width as real <= width as real;
  }

  /** The linear scale never reverses the order of two values. */
  lemma LinearMonotone(width: nat, lo: int, hi: int, v1: int, v2: int)
    requires lo < hi && v1 <= v2
    ensures Linear(width)(lo, hi, v1) <= Linear(width)(lo, hi, v2)
  {
    var d := (hi - lo) as real;
    DivMonotone((v1 - lo) as real, (v2 - lo) as real, d);
  }
}
