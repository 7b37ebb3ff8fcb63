# uniplot in Dafny

A model of the three plotting packages of `uniplot`, with proofs about it.

- **`spark`** draws a live sparkline. A `SparkStream` adds up the values it is given into a pending total. On every tick it does the following:
  - It grows its window capacity to the widest terminal seen.
  - It pushes the pending total into a bounded window, evicting the oldest entry when the window is full.
  - It rescans the window for its minimum, its maximum and its rate (units per second).
  - It writes one line: a carriage return, one block glyph for each of the newest entries that fit beside the rate label, blank padding, and the label.
- **`barchart`** draws a bar chart.
  - A `BarChart` holds integer points and the bounds of their coordinates.
  - `ScaleXYs` spreads the X range over a fixed number of buckets. It sums the Y values (raw and scaled) of the points falling into each bucket.
  - `Fprintf` writes one row per bucket. The row is either `nil` or a bar of full blocks closed by an eighth block, followed by the Y label.
- **`histogram`** builds a histogram.
  - `Hist` partitions the input values over `bins` equal-width buckets and counts each bucket.
  - `Scale` maps a bucket's count through a scale function.
  - `fprintf` writes one row per bucket: the edges, the percentage, the bar and the count out of the total.

Modules, one per file:

| module | file | contents |
|---|---|---|
| `Numeric` | `numeric.dfy` | Go's `int(f)`, the fraction `x - math.Floor(x)`, `imin`/`imax`, `strings.Repeat` |
| `Stats` | `stats.dfy` | minimum, maximum and sum of a sequence, with their bounds |
| `Bars` | `bars.dfy` | the shared `ScaleFunc`, `Linear`, the eighth-block table and the block index of `barstring` |
| `Spark` | `spark.dfy` | `spark/spark.go`; `SparkStream` is a class whose methods update its fields |
| `Barchart` | `barchart.dfy` | `barchart/barchart.go`; `BarChart` is a class; bucketing is specified by the function `Bucketed` |
| `BarchartRender` | `barchart_render.dfy` | `barchart/utils.go`, and the example in `barchart/barchart_test.go` |
| `Histograms` | `histogram.dfy` | `histogram.go`; `Hist` fills an array of buckets in place |
| `HistogramRender` | `histogram_render.dfy` | `utils.go` of package `histogram` |

Go's `float64` is modelled as `real`, so the model calculates exactly.
- Go's `int(f)` truncates toward zero; `Numeric.Trunc` does the same.
- A rendered row is a record of its columns (`Row`, `HistRow`); tab-writer alignment is not modelled.
- Number formatting (`fmt`, `humanize`) is an uninterpreted function parameter.

The terminal-size query of a tick becomes the parameter `size: Option<nat>`, where `None` means the query failed.

Where the code and its documentation disagree, the model follows the code:
- **A window of equal values.** `blockIdx` tests `val >= max` before it tests for a zero-width window. So a window of equal values draws the tallest glyph, not the shortest (`Spark.ConstantWindowIsTallest`).
- **`Histogram.Min`.** It is documented as a bucket size, but `Hist` starts it at 0 and only ever lowers it with `imin`. So it is always 0 (`Histograms.WellFormed`).
- **The histogram example.** `histogram/histogram_test.go` calls `Fprint`, which the package does not define, and its expected bars have no `Output:` marker. Those bars follow the bar chart's block formula, not `barchar` (`HistogramRender.BarcharMatchesExamples`).

## Model

| member | source | states |
|---|---|---|
| Numeric.Imin | spark/spark.go:192-197 | `imin` is a lower bound of both arguments and equals one of them (the same in barchart/barchart.go and histogram.go) |
| Numeric.Imax | spark/spark.go:185-190 | `imax` is an upper bound of both arguments and equals one of them |
| Numeric.RMin | spark/spark.go:109 | `math.Min` of two finite values: a lower bound that is one of them |
| Numeric.RMax | spark/spark.go:108 | `math.Max` of two finite values: an upper bound that is one of them |
| Numeric.Trunc | histogram.go:55 | Go's `int(f)` truncates toward zero: for `f >= 0` it is the integer n with `n <= f < n+1`, for `f <= 0` the one with `n-1 < f <= n` |
| Numeric.TruncMonotone | spark/spark.go:176 | truncation never reverses the order of two values |
| Numeric.Frac | utils.go:20 | `v - math.Floor(v)` lies in [0, 1) and differs from `v` by an integer |
| Numeric.Repeat | utils.go:60 | `strings.Repeat(c, n)` has length n and every character is c |
| Stats.SeqMinBounds | histogram.go:38-42 | the running `math.Min` over the input is at most every value and is one of them |
| Stats.SeqMaxBounds | histogram.go:38-42 | the running `math.Max` over the input is at least every value and is one of them |
| Stats.IntMinBounds | barchart/barchart.go:87-100 | the running `imin` over the coordinates is at most each of them and is one of them |
| Stats.IntMaxBounds | barchart/barchart.go:87-100 | the running `imax` over the coordinates is at least each of them and is one of them |
| Stats.IntSumUpdate | histogram.go:57 | incrementing one bucket's count raises the total of the counts by exactly that much |
| Stats.IntMaxRaise | histogram.go:59 | after one count rises to v, the largest count is `imax(old largest, v)`, as `maxC` tracks it |
| Bars.PartialIdx | barchart/utils.go:19-22 | the closing-block index of `barstring` (first decimal of the fraction, tenths to eighths) is always inside the eight-entry table |
| Bars.Linear | barchart/barchart.go:113-117 | `Linear(width)` is defined on every non-empty range and maps its minimum to 0 and its maximum to `width` (histogram.go:83-87 is the same function) |
| Bars.LinearBounds | barchart/barchart.go:113-117 | for `lo < hi`, `Linear(width)` maps `[lo, hi]` into `[0, width]`, with `lo` to 0 and `hi` to `width` (histogram.go:83-87 is the same function) |
| Bars.LinearMonotone | barchart/barchart.go:113-117 | the linear scale never reverses the order of two values |
| Spark.BlockIdx | spark/spark.go:164-183 | `blockIdx` always returns one of the eight glyphs; a value at or above the maximum gets '█', and a value below it in a window no wider than the smallest float gets '▁' |
| Spark.Level | spark/spark.go:164-183 | glyph level: a value at or above the maximum gets the tallest glyph; otherwise a window no wider than the smallest float gets the shortest; a value not below the minimum gets a level in 0..7 |
| Spark.LevelMonotone | spark/spark.go:164-183 | for a fixed window, a larger value never gets a shorter glyph |
| Spark.LevelAtBounds | spark/spark.go:164-183 | in a window whose minimum is below its maximum, the minimum draws '▁' and the maximum '█' |
| Spark.RuneLen | spark/spark.go:136 | a character takes 1 to 4 bytes in UTF-8, and 1 exactly when it is ASCII |
| Spark.ByteLen | spark/spark.go:136 | `len(avgStr)` counts bytes: at least the number of characters, with equality exactly when the label is ASCII |
| Spark.Rate | spark/spark.go:113 | the average times `res * len` seconds gives back the window's sum; a non-negative sum gives a non-negative rate |
| Spark.RateOfSteadyWindow | spark/spark.go:113 | the average is a rate: a window of n equal values c over ticks of `res` seconds gives `c / res` per second |
| Spark.AvgLabel | spark/spark.go:115-131 | the label starts with a space and ends with "/s"; for "bytes" it is the humanized byte count; any other non-empty unit sits just before "/s" |
| Spark.Pushed | spark/spark.go:94-99 | after a push the window holds `min(len+1, capacity)` entries and the newest is the pushed total |
| Spark.PushedIsNewestSuffix | spark/spark.go:94-99 | the window after a push is the newest suffix of the old window followed by the new value; only the oldest entry is evicted |
| Spark.WindowAtOrAboveMin | spark/spark.go:101-112 | every window entry is at or above the scanned minimum, so every glyph index is valid |
| Spark.VisibleIdx | spark/spark.go:136 | `visibleIdx` is never negative, and the entries from it to the end of a queue of length n number `max(0, min(n, curwidth - len(avgStr)))` |
| Spark.Glyphs | spark/spark.go:146-150 | one glyph per drawn entry |
| Spark.GlyphsAt | spark/spark.go:146-150 | the k-th glyph is `blockIdx` of the k-th drawn entry |
| Spark.GlyphCount | spark/spark.go:136-150 | the number of glyphs drawn is `max(0, min(len, curwidth - len(avgStr)))` |
| Spark.ComposeLayout | spark/spark.go:143-155 | the buffer a tick fills is '\r', the glyphs, blanks until glyphs and blanks take `max(len(glyphs), curwidth - len(avgStr))` columns, then the label |
| Spark.Line | spark/spark.go:143-155 | the line a tick writes starts with '\r' and ends with the label |
| Spark.LineLayout | spark/spark.go:136-155 | the written line is '\r', then the glyphs of the newest k entries (in order, per `GlyphsAt`), then blanks, then the label; its length is 1 + max(0, curwidth - len(avgStr)) plus the label's length |
| Spark.LineFillsTerminal | spark/spark.go:151-155 | with an ASCII label no wider than the terminal, the line after '\r' fills exactly `curwidth` columns |
| Spark.ConstantWindowIsTallest | spark/spark.go:164-167 | a window of equal values draws only '█' glyphs |
| Spark.ScanWindow | spark/spark.go:101-112 | the scan loop yields the window's minimum, maximum and sum; an empty window leaves min and max as they were |
| Spark.PadBlanks | spark/spark.go:151-154 | the padding loop brings the rune count to `max(runec, curwidth - len(avgStr))` by appending exactly that many blanks |
| Spark.DrawGlyphs | spark/spark.go:146-150 | the glyph loop from `visibleIdx` draws the glyphs of the window's suffix, and nothing when the index is past the end |
| Spark.RenderLine | spark/spark.go:133-155 | rendering a tick's line builds exactly `Line`, whose layout `LineLayout` states |
| Spark.SparkStream.constructor | spark/spark.go:28-36 | a new stream is unitless, with an empty window, zero widths, zero statistics and the given resolution |
| Spark.SparkStream.Add | spark/spark.go:76-80 | `Add(v)` adds v to the pending total and changes nothing else |
| Spark.SparkStream.Tick | spark/spark.go:82-160 | a failed size query changes nothing and writes nothing; otherwise the width, capacity, window, pending total and statistics advance as `Advanced` says, and the line written is the layout of the new window |
| Spark.SparkStream.Advance | spark/spark.go:89-113 | a tick's state change: the width becomes the terminal's, the capacity the widest seen, the total is pushed and reset, and min, max and rate are those of the new window |
| Spark.SparkStream.Render | spark/spark.go:115-155 | the line of a tick is the layout of the current window with the label for the stream's units |
| Spark.SparkStream.Resize | spark/spark.go:89-93 | the current width becomes w and the capacity `max(old capacity, w)`; the window never exceeds the capacity |
| Spark.SparkStream.Push | spark/spark.go:94-99 | the pending total is pushed into the window, evicting the oldest entry at capacity, and reset to 0 |
| Spark.SparkStream.Rescan | spark/spark.go:101-113 | min and max become the window's minimum and maximum, and avg the window's sum over `res * len` |
| Barchart.Bucketed | barchart/barchart.go:55-62 | the result of `ScaleXYs` has exactly `xWidth` buckets |
| Barchart.KeySumAbsent | barchart/barchart.go:64-78 | a bucket no point falls into accumulates nothing |
| Barchart.KeySumSingle | barchart/barchart.go:64-78 | a bucket exactly one point falls into holds that point's value |
| Barchart.CellAppend | barchart/barchart.go:64-78 | accumulating one more point adds its value to its own bucket only, creating the bucket's value when it was nil |
| Barchart.BucketsTotalIsSum | barchart/barchart.go:64-78 | when every point falls into a bucket, the bucket totals add up to the sum of the points' values |
| Barchart.ScaleConservesSums | barchart/barchart.go:40-80 | the buckets' Y values add up to the points' Y values, and the scaled Y values to the points' scaled values |
| Barchart.BucketHitIffPoint | barchart/barchart.go:55-78 | bucket i sits at X `i*scaleX + MinX`; its Y is set exactly when its scaled Y is, and exactly when some point falls into it |
| Barchart.ScaleX | barchart/barchart.go:52-53 | with at least two buckets, `xWidth - 1` steps of `scaleX` span exactly `MaxX - MinX`; with `MinX <= MaxX` the step is not negative |
| Barchart.BucketIndex | barchart/barchart.go:64-67 | with a positive step, an X not below MinX gets a non-negative index bi whose bucket starts at or below X and whose next bucket starts above it |
| Barchart.BucketIndexInRange | barchart/barchart.go:52-67 | with at least two buckets and a non-empty X range, each X in range gets a bucket index in `0..xWidth-1`; MinX goes to 0 and MaxX to the last |
| Barchart.BoundedChartScales | barchart/barchart.go:52-67 | a chart bounded by its own points' X range, with a scale defined on its Ys, can be bucketed into any width of at least 2 |
| Barchart.BoundedChartOverrunsSlots | barchart/barchart.go:24-35 | `XYs` allocates `MaxX - MinX` slots, and a chart with points has a point at MaxX, whose slot is one past the end |
| Barchart.BarChart.constructor | barchart/barchart.go:13-16 | the zero chart: zero bounds and no points |
| Barchart.BarChart.Add | barchart/barchart.go:19 | `Add` appends the point and changes nothing else |
| Barchart.BarChart.XYs | barchart/barchart.go:24-35 | as written: every slot of the `MaxX - MinX` slots is nil, because the loop only updates a local copy |
| Barchart.BarChart.DenseXYs | barchart/barchart.go:21-23 | the documented dense form: one slot per X from MinX to MaxX, nil where no point is, otherwise the X with the sum of its points' Ys |
| Barchart.BarChart.ScaleXYs | barchart/barchart.go:40-80 | `ScaleXYs` returns exactly the buckets `Bucketed` specifies |
| Barchart.ProjectPoints | barchart/barchart.go:41-50 | point k becomes (float X, Y, scaled Y) in the same order |
| Barchart.EmptyBuckets | barchart/barchart.go:55-62 | `xWidth` fresh buckets, bucket i at `i*scaleX + MinX` with nil values |
| Barchart.Accumulate | barchart/barchart.go:64-78 | after the loop each bucket holds the sums of the values of the points whose index falls into it, or nil when none does |
| Barchart.BarChartXYs | barchart/barchart.go:83-106 | the chart holds the pairs in order; its bounds are the least and greatest X and Y; no pairs give the zero chart |
| Barchart.ScanPairs | barchart/barchart.go:87-100 | the loop copies the pairs in order and tracks the least and greatest coordinates |
| BarchartRender.Barstring | barchart/utils.go:19-24 | a bar of length v is `int(v)` full blocks closed by one eighth block |
| BarchartRender.BarColumn | barchart/utils.go:76-84 | the bar column is "nil" exactly for a bucket without a Y; otherwise it has `int(scaledY) + 2` characters plus the label's, and does not start with 'n' |
| BarchartRender.BarColumnShape | barchart/utils.go:76-84 | a bucket without a Y renders "nil"; otherwise its bar, a space and its formatted Y |
| BarchartRender.Rows | barchart/utils.go:74-90 | one row per bucket |
| BarchartRender.RowsAt | barchart/utils.go:74-90 | row i is the formatted X of bucket i with its bar column |
| BarchartRender.Fprintf | barchart/utils.go:68-93 | the rows written are those of the buckets `ScaleXYs` gives for the width and scale |
| BarchartRender.Fprint | barchart/utils.go:45-49 | `Fprint` uses one bucket per X, `MaxX - MinX + 1`, and one formatter for both axes |
| BarchartRender.LinearChartRenders | barchart/barchart.go:113-117 | with `Linear` over a non-empty Y range holding every point's Y, every bucket can be rendered (no negative repeat count) |
| BarchartRender.ExampleBounds | barchart/barchart_test.go:11-30 | the example's chart spans X 0..15 and Y 0..20 |
| BarchartRender.ExampleScales | barchart/barchart_test.go:30-32 | `Fprint` with `Linear(19)` uses 16 buckets of X width 1; the points go to the buckets of their own X; every bucket renders |
| BarchartRender.ExampleBucketOf | barchart/barchart_test.go:11-32 | the bucket of each example X holds that point's Y and its `Linear(19)` scaling |
| BarchartRender.ExampleRowOne | barchart/barchart_test.go:37 | the row for X 1 (Y 3) is "██▉ 3" |
| BarchartRender.ExampleRowsMissing | barchart/barchart_test.go:41-42 | the rows for X 5 and 6, which have no points, are "nil" |
| BarchartRender.ExampleRowMin | barchart/barchart_test.go:50 | the row for X 14 (Y 0) is "▏ 0" |
| BarchartRender.ExampleRowMax | barchart/barchart_test.go:51 | the row for X 15 (Y 20) is 19 full blocks, "▏ " and 20 |
| Histograms.BinWidth | histogram.go:44 | `bins` buckets of width `scale` span exactly `max - min`; a non-empty range gives a positive width |
| Histograms.BinOf | histogram.go:53-55 | the bucket index is at most `bins - 1` (the clamp), and not negative for a value not below the minimum |
| Histograms.BinWidthPositive | histogram.go:44 | a non-empty range gives buckets of positive width |
| Histograms.BinInRange | histogram.go:55 | every value not below the minimum gets a bucket index in `0..bins-1`; the top value is clamped to the last bucket |
| Histograms.BinOfEnds | histogram.go:44-55 | the minimum goes to the first bucket and the maximum to the last |
| Histograms.BinWithinEdges | histogram.go:44-55 | a value lies between `min + bi*scale` and `min + (bi+1)*scale` of its bucket bi (inclusive above for the last) |
| Histograms.CountsOfTotal | histogram.go:52-65 | the bucket counts add up to the number of input values |
| Histograms.CountsOfSnoc | histogram.go:52-57 | one more value adds one to its own bucket's count and leaves the others unchanged |
| Histograms.TalliedWellFormed | histogram.go:51-67 | a histogram tallied from its input is well formed: non-empty, non-negative counts summing to `Count`, `Min` 0, `Max` the largest count |
| Histograms.EdgesAdjacent | histogram.go:46-49 | each bucket's upper edge is the next bucket's lower edge |
| Histograms.AsWrittenEdges | histogram.go:46-49 | the edges `Hist` writes are `(i+1)*scale` and `(i+2)*scale` |
| Histograms.EdgesHoldValues | histogram.go:44-55 | with edges from `min + i*scale`, every input value lies between the edges of the bucket it is counted in |
| Histograms.BinHolds | histogram.go:53-55 | one value lies inside the corrected edges of its bucket |
| Histograms.AsWrittenEdgesMissValue | histogram.go:46-49 | for [0, 1] over 2 bins, 0 is counted in bucket 0, whose written edges (0.5, 1.0) do not hold it |
| Histograms.Increment | histogram.go:57 | `Count++` on one bucket raises that count by one and keeps all edges |
| Histograms.MinMax | histogram.go:38-42 | the min/max loop yields the least and greatest input value |
| Histograms.MakeBuckets | histogram.go:36-49 | `bins` fresh buckets with zero counts and the given edges |
| Histograms.CountValues | histogram.go:51-60 | after the counting loop the counts are the number of values per bucket, the edges are unchanged, `minC` is 0 and `maxC` the largest count |
| Histograms.Tally | histogram.go:36-67 | buckets built, counted and packed into a well-formed histogram of the input |
| Histograms.Hist | histogram.go:32-68 | no input or zero bins give the zero histogram; otherwise the buckets are counted from the input, the result is well formed, and the edges are `(i+1)*scale`, `(i+2)*scale` as written |
| Histograms.HistCorrected | histogram.go:32-68 | as `Hist`, with edges `min + i*scale`, `min + (i+1)*scale`, which hold the values counted in them |
| Histograms.WellFormedMaxPositive | histogram.go:51-60 | a histogram with values has a largest count of at least 1 |
| Histograms.ScaleMonotone | histogram.go:72-76 | under `Linear(width)`, in a well-formed histogram with values, a bucket with a smaller count never gets a larger scaled size than one with a larger count |
| Histograms.ScaleLinear | histogram.go:72-87 | `Scale` with `Linear(width)` maps each count into `[0, width]`; an empty bucket gets 0 and the fullest gets `width` |
| HistogramRender.BarcharIndex | utils.go:19-23 | `barchar`'s index `int(10 * (frac*10) / 8)` is inside the eight-entry table exactly when the fraction is below 0.64 |
| HistogramRender.BarcharAsWritten | utils.go:19-23 | where the index is in range, `barchar` yields an eighth block |
| HistogramRender.Barchar | barchart/utils.go:19-22 | the corrected block is an eighth block for every length |
| HistogramRender.OverrunHistogram | histogram.go:32-68 | `Hist(2, [0, 0, 0, 1])` has bucket width 0.5 and counts 3 and 1 |
| HistogramRender.OverrunCounts | histogram.go:52-60 | counting [0, 0, 0, 1] over two buckets of width 0.5 gives [3, 1] |
| HistogramRender.BarcharOverrun | utils.go:19-23 | `Linear(5)` scales count 1 of that histogram to 5/3, whose fraction 2/3 makes `barchar`'s index 8, past the table; the corrected index is 4 |
| HistogramRender.BarcharMatchesExamples | histogram/histogram_test.go:27-35 | the corrected block reproduces the example's bars for a largest count of 9, where `barchar` as written does not |
| HistogramRender.BarAsWritten | utils.go:60 | as written: a bar is `int(sz)` full blocks closed by the `barchar` block |
| HistogramRender.Bar | utils.go:60 | the corrected bar is `int(sz)` full blocks and an eighth block, the same as the bar chart's `barstring` |
| HistogramRender.Percent | utils.go:59 | a count between 0 and the total is between 0 and 100 percent of it |
| HistogramRender.RowOf | utils.go:56-62 | as written: the row of a bucket carries its count and the total, a percentage in [0, 100] when the count is between 0 and the total, and a bar of `int(sz) + 1` characters (`int(sz)` full blocks and the `barchar` block) |
| HistogramRender.HistRows | utils.go:55-63 | as written: one row per bucket, defined where `barchar` stays in its table |
| HistogramRender.Fprintf | utils.go:49-67 | as written: the rows the loop writes are one per bucket, in order, each from its bucket as `RowOf` gives it, with the `barchar` block |
| HistogramRender.HistRowsShape | utils.go:55-63 | as written: row i carries bucket i's formatted edges, its count and the total, and `int(sz)` full blocks closed by `barchar(sz)` |
| HistogramRender.RowOfCorrected | utils.go:56-62 | with the corrected block, a bucket's row carries its count and the total, and its bar is the bar chart's `barstring` of the scaled size |
| HistogramRender.HistRowsCorrected | utils.go:55-63 | with the corrected block: one row per bucket, defined for every bar length above -1 |
| HistogramRender.FprintfCorrected | utils.go:49-67 | the loop with the corrected block writes exactly the corrected rows |
| HistogramRender.CorrectedRowsAgree | utils.go:19-23 | where the code as written renders, the corrected rows differ from its rows only in the last character of the bar |
| HistogramRender.Percents | utils.go:59 | one percentage per bucket |
| HistogramRender.PercentsSum | utils.go:59 | the percentages add up to the percentage of the summed counts |
| HistogramRender.PercentsOfHistogram | utils.go:59 | for a histogram with values, the percentages add up to 100 and each is in [0, 100] |
| HistogramRender.DocExampleBars | utils.go:25-41 | the documented bars for a largest count of 10 under `Linear(5)` ("▏", "▉", "█▏", "██▉", "█████▏") are what the code as written draws |

## Left out

- `SparkStream.Start`, `Stop`, the ticker goroutine and the mutex: concurrency is not modelled. `Tick` is one call of `printLines`, and `Add` is atomic.
- The output writer, the byte buffer and the `log` messages: the line a tick writes is returned as a value. A failed write changes no state and is not modelled.
- `ts.GetSize` is replaced by the `size` parameter.
- `humanize.Bytes`, `humanize.Comma` and `fmt.Sprintf` are uninterpreted functions (`Formatters`, `FormatFunc`). So the conversions `uint64(avg)` and `int64(avg)` they are given are not modelled.
- `histogram.FPrint` is `FPrintf` with the `"%.4g"` formatter. `HistogramRender.Fprintf` covers it with an uninterpreted formatter.
- `barchart.Fprintf` is `fprintf`, which `BarchartRender.Fprintf` models.
- The `text/tabwriter` column alignment: rows are records of their columns.
- Floating-point rounding, NaN and infinities: `real` is exact.
  - A division by zero (an empty value range in `Linear`, a zero total in a percentage, a zero bucket width) would give NaN or an infinity in Go. Here it is a precondition: the scale function's own `requires`, `Renderable`, `Barchart.ScaleDefined` (see `ScaleXYs` below), and the `SeqMin(input) < SeqMax(input)` of `Hist`.
  - The constant `math.SmallestNonzeroFloat64` is kept. In `blockIdx` its branch is reached only by a value below the maximum in a window with `0 < max - min <= SmallestNonzeroFloat64`; a window of equal values returns at the `val >= max` test first.
- Go's `int` is 64 bits wide; the model's `int` is unbounded. The differences `MaxX - MinX` and `xy.X - p.MinX` (barchart/barchart.go:25-27, 52), and `value - min`, `max - min` in `Linear` (barchart/barchart.go:115, histogram.go:85), are exact here, where Go wraps around on overflow.
- Numeric.Trunc: `int(f)` of a float outside the 64-bit range is implementation-defined in Go (histogram.go:55, barchart/barchart.go:67, spark/spark.go:176, barchart/utils.go:22-23); here it is the unbounded truncation.
- HistogramRender.Fprintf, HistogramRender.HistRows, HistogramRender.RowOf: require `RenderableAsWritten`, that is, every scaled size has a fraction below 0.64. At or above it `barchar` indexes past its table and the source panics; `FprintfCorrected` renders those histograms too.
- Display width: a line's length is counted in characters, and `len(avgStr)` in UTF-8 bytes (`ByteLen`), as Go does. Terminal column widths of the glyphs are not modelled.
- Barchart.BarChart.ScaleXYs: requires `ScaleDefined`, which excludes two inputs on which the code of barchart/barchart.go:52-67 does not panic. With `xWidth == 1` the step `float64(diff) / float64(0)` is +Inf, or NaN for an empty X range, and Go returns one bucket whose X is NaN. With points and `MinX == MaxX` the step is 0, `xdiff / scaleX` is NaN, and the bucket index `int(NaN)` is implementation-defined. Both divisions by zero are preconditions here, so `BarchartRender.Fprint` (which uses `MaxX - MinX + 1` buckets) does not cover a chart whose points all share one X.
- Spark.SparkStream.Tick: requires the capacity after resizing to be at least 1. With a zero-width terminal seen so far, `queue.Remove` on an empty queue panics in the source.
- Histograms.Hist: requires `bins > 0` and a non-empty value range whenever there is input and `bins != 0`. A negative `bins` panics in `make`, and a single repeated value gives a zero bucket width.
- BarchartRender.Barstring, HistogramRender.Bar: require a bar length above -1, since `strings.Repeat` panics on a negative count.
- The histogram and bar chart examples are stated for selected rows (rows 1, 5, 6, 14 and 15 of the bar chart; the bars of the histogram examples). The other rows follow the same computation.
- The duplicate `imin`/`imax`/`Linear`/`ScaleFunc`/`blocks` of each package are defined once (`Numeric`, `Bars`).
- `spark/io.go` and the examples that use wall-clock times are not part of this model.

## Findings

| source | as written | input that shows it | evidently intended | confidence | as-written member | corrected member |
|---|---|---|---|---|---|---|
| barchart/barchart.go:24-35 | `XYs` assigns the new slot to a local variable and never stores it, so every slot stays nil; it allocates `MaxX - MinX` slots and indexes `X - MinX`, so the point at MaxX is out of range | any chart with a point, e.g. `BarChartXYs([[0,1],[1,3]])`: the point (1, 3) indexes slot 1 of a 1-slot slice | the documented dense form: `MaxX - MinX + 1` slots, each nil or the X with the sum of its Ys | not executed | Barchart.BarChart.XYs, Barchart.BoundedChartOverrunsSlots | Barchart.BarChart.DenseXYs |
| utils.go:19-23 | `barchar` computes `int(10 * (frac*10) / 8)`, which reaches 8 or more once the fraction is at least 0.64, indexing past the eight blocks | `Hist(2, [0, 0, 0, 1])` drawn with `Linear(5)`: count 1 scales to 5/3, index 8 | the bar chart's `barstring` formula `int(floor(frac*10) / 10 * 8)`, which the histogram example's expected bars follow | not executed | HistogramRender.BarcharOverrun, HistogramRender.BarcharAsWritten, HistogramRender.Fprintf | HistogramRender.Barchar, HistogramRender.Bar, HistogramRender.FprintfCorrected |
| histogram.go:46-49 | bucket i gets edges `(i+1)*scale` and `(i+2)*scale`, neither offset by the minimum nor starting at it | `Hist(2, [0.0, 1.0])`: 0.0 is counted in bucket 0, whose edges are 0.5 and 1.0 | edges `min + i*scale` and `min + (i+1)*scale`, so each value lies within the edges of its bucket | not executed | Histograms.Hist, Histograms.AsWrittenEdgesMissValue | Histograms.HistCorrected, Histograms.EdgesHoldValues |
