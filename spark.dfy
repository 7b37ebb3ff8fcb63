/** The live sparkline stream of package `spark`.

    A `SparkStream` sums the values it is given into a pending total `cur`.
    On every refresh tick it reads the terminal width, grows the window
    capacity `maxwidth` to the widest terminal seen, pushes `cur` into the
    window queue (evicting the oldest entry when the queue is full), rescans
    the queue for its minimum, maximum and rate, and renders the newest
    entries that fit beside the rate label as one line of block glyphs. */
module Spark {
  import opened Numeric
  import opened Stats

  /** The eight glyphs of a sparkline, shortest first. */
  const Blocks: seq<char> := ['▁', '▂', '▃', '▄', '▅', '▆', '▇', '█']

  /** `math.SmallestNonzeroFloat64`. */
  const SmallestNonzero: real := 4.9406564584124654e-324

  /** The predefined unit whose rate is printed as a humanized byte count. */
  const BytesUnit: string := "bytes"

  /** The number formatters the rate label is built with; they belong to
      other libraries and stay uninterpreted here. */
  datatype Formatters = Formatters(
    humanBytes: real -> string,  // humanize.Bytes(uint64(v))
    comma: real -> string,       // humanize.Comma(int64(v))
    fixed3: real -> string)      // fmt.Sprintf("%.3f", v)

  /** The index into `Blocks` that `blockIdx` computes for `val` in a window
      ranging from `lo` to `hi`, before the table lookup. A value at or above
      the maximum is checked first and takes the tallest glyph; a window too
      narrow to divide takes the shortest; otherwise the relative position
      scaled to eight levels, truncated and capped at the last glyph. */
  function Level(val: real, lo: real, hi: real): (i: int)
    ensures i <= |Blocks| - 1
    ensures val >= hi ==> i == |Blocks| - 1
    ensures val < hi && hi - lo <= SmallestNonzero ==> i == 0
    ensures lo <= val ==> 0 <= i
  {
    if val >= hi then |Blocks| - 1
    else if hi - lo <= SmallestNonzero then 0
    else Imin(Trunc(Scaled(val, lo, hi)), |Blocks| - 1)
  }

  /** `(val - min) / width * len(blocks)`: the position of `val` in the
      window, scaled to the number of glyphs; not negative from `lo` on. */
  function Scaled(val: real, lo: real, hi: real): (p: real)
    requires hi - lo > 0.0
    ensures lo <= val ==> 0.0 <= p
  {
    DivNonneg(val - lo, hi - lo);
    (val - lo) / (hi - lo) * (|Blocks| as real)
  }

  /** `blockIdx`: the glyph for `val`. The lookup is in range exactly when
      the level is not negative, which holds for every `val >= lo`. */
  function BlockIdx(val: real, lo: real, hi: real): (c: char)
    requires 0 <= Level(val, lo, hi)
    ensures c in Blocks
    ensures val >= hi ==> c == '█'
    ensures val < hi && hi - lo <= SmallestNonzero ==> c == '▁'
  {
    Blocks[Level(val, lo, hi)]
  }

  /** Within a window, a larger value never gets a shorter glyph. */
  lemma LevelMonotone(v1: real, v2: real, lo: real, hi: real)
    requires v1 <= v2
    ensures Level(v1, lo, hi) <= Level(v2, lo, hi)
  {
    if v2 < hi && hi - lo > SmallestNonzero {
      var w := hi - lo;
      DivMonotone(v1 - lo, v2 - lo, w);
      TruncMonotone(Scaled(v1, lo, hi), Scaled(v2, lo, hi));
    }
  }

  /** In a window with `lo < hi`, its minimum takes the shortest glyph and
      its maximum the tallest. */
  lemma LevelAtBounds(lo: real, hi: real)
    requires lo < hi
    ensures BlockIdx(lo, lo, hi) == '▁'
    ensures BlockIdx(hi, lo, hi) == '█'
  {
  }

  /** The byte length of one character in UTF-8, as Go's `len` counts it. */
  function RuneLen(c: char): (n: nat)
    ensures 1 <= n <= 4
    ensures n == 1 <==> (c as int) < 0x80
  {
    if (c as int) < 0x80 then 1
    else if (c as int) < 0x800 then 2
    else if (c as int) < 0x10000 then 3
    else 4
  }

  /** Whether every character of `s` is ASCII. */
  predicate IsAscii(s: string)
  {
    forall i :: 0 <= i < |s| ==> (s[i] as int) < 0x80
  }

  /** `len(s)` of a Go string: its length in UTF-8 bytes, which is at least
      its length in characters and equal to it exactly for ASCII text. */
  function ByteLen(s: string): (n: nat)
    ensures n >= |s|
    ensures n == |s| <==> IsAscii(s)
  {
    if s == [] then 0
    else
      var n := ByteLen(s[..|s| - 1]) + RuneLen(s[|s| - 1]);
      assert IsAscii(s) <==> IsAscii(s[..|s| - 1]) && (s[|s| - 1] as int) < 0x80;
      n
  }

  /** The rate of a window: the sum of its `n` entries over the `res * n`
      seconds they cover. */
  function Rate(sum: real, res: real, n: nat): (r: real)
    requires res > 0.0 && n > 0
    ensures r * (res * n as real) == sum
    ensures 0.0 <= sum ==> 0.0 <= r
  {
    DivNonneg(sum, res * n as real);
    sum / (res * n as real)
  }

  /** Sum of a window whose entries all equal `c`. */
  lemma {:induction false} SumConstant(q: seq<real>, c: real)
    requires forall i :: 0 <= i < |q| ==> q[i] == c
    ensures Sum(q) == |q| as real * c
  {
    if q != [] {
      SumConstant(q[..|q| - 1], c);
    }
  }

  /** A window whose every tick received `c` reports a rate of `c` per
      `res` seconds, whatever its length. */
  lemma RateOfSteadyWindow(q: seq<real>, c: real, res: real)
    requires |q| > 0 && res > 0.0
    requires forall i :: 0 <= i < |q| ==> q[i] == c
    ensures Rate(Sum(q), res, |q|) == c / res
  {
    SumConstant(q, c);
    var n := |q| as real;
    assert (n * c) / (res * n) == c / res by {
      assert (n * c) / (res * n) * (res * n) == n * c;
      assert c / res * (res * n) == n * c;
    }
  }

  /** The rate label `avgStr` for `avg` in unit `units`: a leading blank,
      the number (humanized bytes for `BytesUnit`; otherwise grouped digits
      above 1000 or three decimals), the unit when it is a custom one, and
      "/s". */
  function AvgLabel(units: string, avg: real, f: Formatters): (s: string)
    ensures |s| >= 3 && s[0] == ' ' && s[|s| - 2..] == "/s"
    ensures units == BytesUnit ==> s == " " + f.humanBytes(avg) + "/s"
    ensures units != BytesUnit && units != "" ==>
      |s| >= 3 + |units| && s[|s| - 2 - |units|..|s| - 2] == units
  {
    if units == BytesUnit then " " + f.humanBytes(avg) + "/s"
    else
      var number := if avg > 1000.0 then f.comma(avg) else f.fixed3(avg);
      if units == "" then " " + number + "/s" else " " + number + units + "/s"
  }

  /** The queue after a tick has pushed `v`: a queue holding `cap` entries
      first drops its oldest one. A queue of capacity 0 would be asked to
      drop an entry it does not have. */
  function Pushed(q: seq<real>, v: real, cap: int): (r: seq<real>)
    requires |q| <= cap && 1 <= cap
    ensures |r| == Imin(|q| + 1, cap)
    ensures r[|r| - 1] == v
  {
    if |q| == cap then q[1..] + [v] else q + [v]
  }

  /** The pushed queue is the newest `min(|q| + 1, cap)` entries of `q`
      followed by `v`, in arrival order: the window slides, it never
      reorders. */
  lemma PushedIsNewestSuffix(q: seq<real>, v: real, cap: int)
    requires |q| <= cap && 1 <= cap
    ensures var r := Pushed(q, v, cap);
      r == (q + [v])[|q| + 1 - |r|..]
  {
    var r := Pushed(q, v, cap);
    if |q| == cap {
      assert (q + [v])[1..] == q[1..] + [v];
    }
  }

  /** The first queue index shown on the terminal: the window entries before
      it are kept but not printed. */
  function VisibleIdx(n: int, curwidth: int, strLen: int): (v: int)
    ensures 0 <= v
    ensures 0 <= n ==> Imax(0, n - v) == Imax(0, Imin(n, curwidth - strLen))
  {
    Imax(0, n - curwidth + strLen)
  }

  /** Whether no entry of `q` lies below `lo`; every such entry has a glyph
      in a window whose minimum is `lo`. */
  predicate AtOrAbove(q: seq<real>, lo: real)
  {
    forall i :: 0 <= i < |q| ==> lo <= q[i]
  }

  /** Every entry of a window lies at or above its minimum, so the lookup
      in `blockIdx` never goes out of range during a tick. */
  lemma WindowAtOrAboveMin(q: seq<real>)
    requires |q| > 0
    ensures AtOrAbove(q, SeqMin(q))
  {
    SeqMinBounds(q);
  }

  /** The glyphs of `s`, in order. */
  function Glyphs(s: seq<real>, lo: real, hi: real): (g: string)
    requires AtOrAbove(s, lo)
    ensures |g| == |s|
  {
    if s == [] then [] else Glyphs(s[..|s| - 1], lo, hi) + [BlockIdx(s[|s| - 1], lo, hi)]
  }

  /** The glyph at each position is the glyph of the entry at that position. */
  lemma {:induction false} GlyphsAt(s: seq<real>, lo: real, hi: real)
    requires AtOrAbove(s, lo)
    ensures forall i :: 0 <= i < |s| ==> Glyphs(s, lo, hi)[i] == BlockIdx(s[i], lo, hi)
  {
    if s != [] {
      GlyphsAt(s[..|s| - 1], lo, hi);
    }
  }

  /** The number of glyphs a line shows: the newest queue entries, as many
      as fit in the terminal width left of the label. */
  function GlyphCount(n: nat, curwidth: int, strLen: int): (k: nat)
    ensures k == Imax(0, Imin(n, curwidth - strLen))
  {
    var v := VisibleIdx(n, curwidth, strLen);
    if v < n then n - v else 0
  }

  /** A line from the glyphs it shows: a carriage return, the glyphs,
      blanks up to column `width`, and the label `avgStr`. */
  function Compose(glyphs: string, width: int, avgStr: string): string
  {
    "\r" + glyphs + Repeat(' ', Imax(0, width - |glyphs|)) + avgStr
  }

  /** Where each part of a composed line lands: glyphs and blanks together
      take `max(len(glyphs), width)` columns between the carriage return and
      the label. */
  lemma ComposeLayout(glyphs: string, width: int, avgStr: string)
    ensures var line := Compose(glyphs, width, avgStr);
      && |line| == 1 + Imax(|glyphs|, width) + |avgStr|
      && line[0] == '\r'
      && line[1..1 + |glyphs|] == glyphs
      && (forall j :: 1 + |glyphs| <= j < |line| - |avgStr| ==> line[j] == ' ')
      && line[|line| - |avgStr|..] == avgStr
  {
    var line := Compose(glyphs, width, avgStr);
    var head := "\r" + glyphs;
    var pad := Repeat(' ', Imax(0, width - |glyphs|));
    assert line == head + pad + avgStr;
    assert line[..|head|] == head;
    assert line[1..1 + |glyphs|] == head[1..];
    assert line[|head| + |pad|..] == avgStr;
    forall j | 1 + |glyphs| <= j < |line| - |avgStr|
      ensures line[j] == ' '
    {
      assert line[j] == (head + pad)[j] == pad[j - |head|];
    }
  }

  /** The line one tick writes: a carriage return, the glyphs of the visible
      suffix of the queue, blanks up to the label's column, and the label
      `avgStr`. */
  function Line(q: seq<real>, lo: real, hi: real, curwidth: int, avgStr: string): (line: string)
    requires AtOrAbove(q, lo)
    ensures |line| >= 1 + |avgStr| && line[0] == '\r'
    ensures line[|line| - |avgStr|..] == avgStr
  {
    var k := GlyphCount(|q|, curwidth, ByteLen(avgStr));
    var glyphs := Glyphs(q[|q| - k..], lo, hi);
    ComposeLayout(glyphs, curwidth - ByteLen(avgStr), avgStr);
    Compose(glyphs, curwidth - ByteLen(avgStr), avgStr)
  }

  /** The layout of a line: after the carriage return come the glyphs of the
      newest `k` queue entries in queue order, then blanks, then the label;
      glyphs and blanks together take `max(0, curwidth - len(avgStr))`
      columns. */
  lemma LineLayout(q: seq<real>, lo: real, hi: real, curwidth: int, avgStr: string)
    requires AtOrAbove(q, lo)
    ensures var line := Line(q, lo, hi, curwidth, avgStr);
      && |line| == 1 + Imax(0, curwidth - ByteLen(avgStr)) + |avgStr|
      && line[0] == '\r'
      && line[|line| - |avgStr|..] == avgStr
    ensures var line := Line(q, lo, hi, curwidth, avgStr);
      var k := GlyphCount(|q|, curwidth, ByteLen(avgStr));
      line[1..1 + k] == Glyphs(q[|q| - k..], lo, hi)
    ensures var line := Line(q, lo, hi, curwidth, avgStr);
      var k := GlyphCount(|q|, curwidth, ByteLen(avgStr));
      forall j :: 1 + k <= j < |line| - |avgStr| ==> line[j] == ' '
  {
    var k := GlyphCount(|q|, curwidth, ByteLen(avgStr));
    var glyphs := Glyphs(q[|q| - k..], lo, hi);
    var width := curwidth - ByteLen(avgStr);
    ComposeLayout(glyphs, width, avgStr);
    assert Imax(|glyphs|, width) == Imax(0, width);
  }

  /** With an ASCII label no wider than the terminal, everything after the
      carriage return fills exactly `curwidth` columns. */
  lemma LineFillsTerminal(q: seq<real>, lo: real, hi: real, curwidth: int, avgStr: string)
    requires AtOrAbove(q, lo)
    requires IsAscii(avgStr) && |avgStr| <= curwidth
    ensures |Line(q, lo, hi, curwidth, avgStr)| == 1 + curwidth
  {
    LineLayout(q, lo, hi, curwidth, avgStr);
  }

  /** A window whose entries are all equal has `lo == hi`; since a value at
      the maximum is checked first, every glyph printed is the tallest. */
  lemma ConstantWindowIsTallest(q: seq<real>, c: real, curwidth: int, avgStr: string)
    requires forall i :: 0 <= i < |q| ==> q[i] == c
    ensures AtOrAbove(q, c)
    ensures var line := Line(q, c, c, curwidth, avgStr);
      forall j :: 1 <= j <= GlyphCount(|q|, curwidth, ByteLen(avgStr)) ==> line[j] == '█'
  {
    var line := Line(q, c, c, curwidth, avgStr);
    var k := GlyphCount(|q|, curwidth, ByteLen(avgStr));
    var visible := q[|q| - k..];
    LineLayout(q, c, c, curwidth, avgStr);
    GlyphsAt(visible, c, c);
    forall j | 1 <= j <= k
      ensures line[j] == '█'
    {
      assert line[j] == line[1..1 + k][j - 1] == Glyphs(visible, c, c)[j - 1];
      assert visible[j - 1] == c;
    }
  }

  /** The queue scan of a tick: the minimum, maximum and sum of `q`. On an
      empty queue the previous minimum and maximum are kept. */
  method ScanWindow(q: seq<real>, lo0: real, hi0: real) returns (lo: real, hi: real, sum: real)
    ensures |q| == 0 ==> lo == lo0 && hi == hi0
    ensures |q| > 0 ==> lo == SeqMin(q) && hi == SeqMax(q)
    ensures sum == Sum(q)
  {
    lo, hi, sum := lo0, hi0, 0.0;
    var i := 0;
    while i < |q|
      invariant 0 <= i <= |q|
      invariant i == 0 ==> lo == lo0 && hi == hi0
      invariant i > 0 ==> lo == SeqMin(q[..i]) && hi == SeqMax(q[..i])
      invariant sum == Sum(q[..i])
    {
      var val := q[i];
      assert q[..i + 1][..i] == q[..i];
      if i == 0 {
        hi := val;
        lo := val;
      } else {
        hi := RMax(hi, val);
        lo := RMin(lo, val);
      }
      sum := sum + val;
      i := i + 1;
    }
    assert q[..i] == q;
  }

  /** The blank-padding loop of a tick: blanks are written while fewer than
      `target` runes are on the line. */
  method PadBlanks(s: string, runec: int, target: int) returns (t: string, n: int)
    requires runec >= 0
    ensures n == Imax(runec, target)
    ensures t == s + Repeat(' ', n - runec)
  {
    t, n := s, runec;
    while n < target
      invariant runec <= n <= Imax(runec, target)
      invariant t == s + Repeat(' ', n - runec)
    {
      n := n + 1;
      t := t + [' '];
    }
  }

  /** The glyph loop of a tick: one glyph per queue entry from index `from`
      on (none when `from` is past the end). */
  method DrawGlyphs(q: seq<real>, lo: real, hi: real, from: nat) returns (g: string)
    requires AtOrAbove(q, lo)
    ensures g == Glyphs(q[Imin(from, |q|)..], lo, hi)
  {
    g := [];
    if from <= |q| {
      var i := from;
      while i < |q|
        invariant from <= i <= |q|
        invariant g == Glyphs(q[from..i], lo, hi)
      {
        assert q[from..i + 1][..i - from] == q[from..i];
        g := g + [BlockIdx(q[i], lo, hi)];
        i := i + 1;
      }
      assert q[from..i] == q[from..];
    } else {
      assert q[Imin(from, |q|)..] == [];
    }
  }

  /** The rendering loops of a tick: the glyphs from the visible index on,
      then blanks while fewer than `curwidth - len(avgStr)` runes were written,
      then the label, after a leading carriage return. */
  method RenderLine(q: seq<real>, lo: real, hi: real, curwidth: int, avgStr: string) returns (line: string)
    requires AtOrAbove(q, lo)
    ensures line == Line(q, lo, hi, curwidth, avgStr)
  {
    var strLen := ByteLen(avgStr);
    var visibleIdx := VisibleIdx(|q|, curwidth, strLen);
    var glyphs := DrawGlyphs(q, lo, hi, visibleIdx);
    var padded, runec := PadBlanks("\r" + glyphs, |glyphs|, curwidth - strLen);
    line := padded + avgStr;
    LineFromParts(q, lo, hi, curwidth, avgStr, glyphs, runec);
  }

  /** The glyphs from the visible index on, padded with blanks up to the
      label's column and followed by the label, make up `Line`. */
  lemma LineFromParts(q: seq<real>, lo: real, hi: real, curwidth: int, avgStr: string, glyphs: string, runec: int)
    requires AtOrAbove(q, lo)
    requires glyphs == Glyphs(q[Imin(VisibleIdx(|q|, curwidth, ByteLen(avgStr)), |q|)..], lo, hi)
    requires runec == Imax(|glyphs|, curwidth - ByteLen(avgStr))
    ensures "\r" + glyphs + Repeat(' ', runec - |glyphs|) + avgStr == Line(q, lo, hi, curwidth, avgStr)
  {
    VisibleSuffix(|q|, curwidth, ByteLen(avgStr));
    assert runec - |glyphs| == Imax(0, curwidth - ByteLen(avgStr) - |glyphs|);
  }

  /** The entries from the visible index on are the newest `GlyphCount`
      entries, and none when the index is past the end. */
  lemma VisibleSuffix(n: nat, curwidth: int, strLen: int)
    ensures Imin(VisibleIdx(n, curwidth, strLen), n) == n - GlyphCount(n, curwidth, strLen)
  {
  }

  /** A sparkline stream. `res` is the refresh interval in seconds; the
      window queue is `queue`, oldest entry first. */
  class SparkStream {
    var units: string
    var maxwidth: int
    var curwidth: int
    var max: real
    var min: real
    var avg: real
    var cur: real
    var queue: seq<real>
    const res: real

    /** The stream's invariant: the queue never holds more entries than the
        widest terminal seen, and the current width never exceeds it. */
    ghost predicate Valid()
      reads this
    {
      0 <= curwidth <= maxwidth && |queue| <= maxwidth && res > 0.0
    }

    /** `Spark(resolution)`: an empty, unitless stream. A non-positive
        interval is refused by the ticker the source creates. */
    constructor (resolution: real)
      requires resolution > 0.0
      ensures Valid()
      ensures res == resolution && units == ""
      ensures queue == [] && cur == 0.0
      ensures maxwidth == 0 && curwidth == 0
      ensures min == 0.0 && max == 0.0 && avg == 0.0
    {
      units := "";
      maxwidth, curwidth := 0, 0;
      max, min, avg, cur := 0.0, 0.0, 0.0, 0.0;
      queue := [];
      res := resolution;
    }

    /** `Add`: `v` joins the pending total; nothing else changes. */
    method Add(v: real)
      modifies this`cur
      ensures cur == old(cur) + v
    {
      cur := cur + v;
    }

    /** The state a tick leaves behind, from the queue `q0`, pending total
        `c0` and capacity `mw0` it started with and the terminal width `w`:
        the capacity is the widest terminal seen, the pending total has been
        pushed into the window and reset, and the minimum, maximum and rate
        are those of the new window. */
    ghost predicate Advanced(q0: seq<real>, c0: real, mw0: int, w: nat)
      reads this
    {
      && res > 0.0
      && 1 <= Imax(mw0, w) && |q0| <= Imax(mw0, w)
      && curwidth == w && maxwidth == Imax(mw0, w)
      && queue == Pushed(q0, c0, maxwidth) && cur == 0.0
      && min == SeqMin(queue) && max == SeqMax(queue)
      && AtOrAbove(queue, min)
      && avg == Rate(Sum(queue), res, |queue|)
    }

    /** `printLines`, once per tick. `size` is the terminal width, or `None`
        when the size query fails; then nothing changes and nothing is
        written. Otherwise the state advances and the result is the line
        written to the output. */
    method Tick(size: Option<nat>, f: Formatters) returns (line: Option<string>)
      requires Valid()
      requires size.Some? ==> Imax(maxwidth, size.value) >= 1
      modifies this
      ensures Valid() && units == old(units)
      ensures size.None? ==> line.None? && unchanged(this)
      ensures size.Some? ==>
        && Advanced(old(queue), old(cur), old(maxwidth), size.value)
        && line == Some(Line(queue, min, max, curwidth, AvgLabel(units, avg, f)))
    {
      if size.None? {
        return None;
      }
      Advance(size.value);
      var text := Render(f);
      line := Some(text);
    }

    /** The state-changing part of a tick: resize, push, rescan. */
    method Advance(w: nat)
      requires Valid() && Imax(maxwidth, w) >= 1
      modifies this
      ensures Valid() && units == old(units)
      ensures Advanced(old(queue), old(cur), old(maxwidth), w)
    {
      Resize(w);
      Push();
      Rescan();
    }

    /** The output step of a tick: the line for the current window and rate. */
    method Render(f: Formatters) returns (text: string)
      requires AtOrAbove(queue, min)
      ensures text == Line(queue, min, max, curwidth, AvgLabel(units, avg, f))
    {
      var avgStr := AvgLabel(units, avg, f);
      text := RenderLine(queue, min, max, curwidth, avgStr);
    }

    /** The width step of a tick: the current width becomes `w`, and the
        window capacity grows to it when it is the widest seen. */
    method Resize(w: nat)
      requires Valid()
      modifies this`curwidth, this`maxwidth
      ensures curwidth == w && maxwidth == Imax(old(maxwidth), w)
      ensures Valid()
    {
      curwidth := w;
      if curwidth > maxwidth {
        maxwidth := curwidth;
      }
    }

    /** The queue step of a tick: a full queue drops its oldest entry, the
        pending total joins the queue and is reset. */
    method Push()
      requires Valid() && maxwidth >= 1
      modifies this`queue, this`cur
      ensures queue == Pushed(old(queue), old(cur), maxwidth) && cur == 0.0
      ensures Valid()
    {
      if |queue| == maxwidth {
        queue := queue[1..];
      }
      queue := queue + [cur];
      cur := 0.0;
    }

    /** The scan step of a tick: the window's minimum, maximum and rate. */
    method Rescan()
      requires |queue| > 0 && res > 0.0
      modifies this`min, this`max, this`avg
      ensures min == SeqMin(queue) && max == SeqMax(queue)
      ensures AtOrAbove(queue, min)
      ensures avg == Rate(Sum(queue), res, |queue|)
    {
      var sum;
      min, max, sum := ScanWindow(queue, min, max);
      avg := Rate(sum, res, |queue|);
      WindowAtOrAboveMin(queue);
    }
  }
}
