/**
 * The simulation helpers (predator_prey/Helpers.py): the three parameter validators, the
 * colour codes of a population map, and the text of the PPM file that shows them.
 */
module Helpers {
  import opened Errors
  import opened Text
  import opened Grids
  import opened Habitat

  // ---------------------------------------------------------------- validators

  /** `validate_delta`: the timestep is returned unchanged when it lies in [0, 1]. */
  function ValidateDelta(delta: real): (r: Result<real>)
    ensures r.Ok? <==> 0.0 <= delta <= 1.0
    ensures r.Ok? ==> r.value == delta
    ensures r.Err? ==> r.error == ValueError(DeltaOutOfRange)
  {
    if 0.0 <= delta <= 1.0 then Ok(delta) else Err(ValueError(DeltaOutOfRange))
  }

  /** `validate_duration`: a duration must be positive. */
  function ValidateDuration(duration: int): (r: Outcome)
    ensures r.Pass? <==> duration > 0
    ensures r.Fail? ==> r.error == ValueError(DurationNotPositive)
  {
    if duration <= 0 then Fail(ValueError(DurationNotPositive)) else Pass
  }

  /**
   * `validate_log_interval`: the interval must lie in [0, duration]. The comparison with
   * the duration comes first, so when the duration is negative an interval of 0 is
   * reported as too large rather than as negative.
   */
  function ValidateLogInterval(interval: int, duration: int): (r: Outcome)
    ensures r.Pass? <==> 0 <= interval <= duration
    ensures interval > duration ==> r == Fail(ValueError(IntervalAboveDuration))
    ensures interval <= duration && interval < 0 ==> r == Fail(ValueError(IntervalNegative))
  {
    if interval > duration then Fail(ValueError(IntervalAboveDuration))
    else if interval < 0 then Fail(ValueError(IntervalNegative))
    else Pass
  }

  // ---------------------------------------------------------------- colour codes

  /** Python's `int()` of a float, which is also what storing a float into an int array does: truncation toward zero. */
  function Trunc(v: real): (n: int)
    ensures v >= 0.0 ==> n as real <= v < n as real + 1.0
    ensures v < 0.0 ==> n as real - 1.0 < v <= n as real
  {
    if v >= 0.0 then v.Floor else -((-v).Floor)
  }

  /** The colour value of a population `pop` against the maximum `max`: `pop / max * 255` truncated, or 0 when `max` is 0. */
  function ColorCode(pop: real, max: real): (c: int)
    ensures max == 0.0 ==> c == 0
    ensures max != 0.0 && pop / max >= 0.0 ==> c as real <= pop / max * 255.0 < c as real + 1.0
    ensures max != 0.0 && pop / max < 0.0 ==> c as real - 1.0 < pop / max * 255.0 <= c as real
  {
    if max != 0.0 then Trunc(pop / max * 255.0) else 0
  }

  /** A population between 0 and a positive maximum gets a colour in [0, 255], and the maximum itself gets 255. */
  lemma ColorCodeRange(pop: real, max: real)
    requires 0.0 <= pop <= max
    ensures 0 <= ColorCode(pop, max) <= 255
    ensures max != 0.0 ==> ColorCode(max, max) == 255
    ensures max == 0.0 ==> ColorCode(pop, max) == 0
  {
    if max != 0.0 {
      var q := pop / max;
      assert q * max == pop;
      assert 0.0 <= q <= 1.0;
      assert 0.0 <= q * 255.0 <= 255.0;
      assert max / max == 1.0;
    }
  }

  /** A larger population never gets a smaller colour. */
  lemma ColorCodeMonotone(p: real, q: real, max: real)
    requires 0.0 <= p <= q && max > 0.0
    ensures ColorCode(p, max) <= ColorCode(q, max)
  {
    var a, b := p / max, q / max;
    assert a * max == p && b * max == q;
    assert a <= b;
    assert a * 255.0 <= b * 255.0;
  }

  /** The shape `calculate_color_codes` works on: a padded landscape and a population of the same shape. */
  predicate Matching(pop: Grid, lscape: seq<seq<int>>) {
    Framed(lscape) && IsRect(pop, |lscape|, Width(lscape))
  }

  /** A padded landscape: rectangular, with at least the two border rows and columns. */
  predicate Framed(lscape: seq<seq<int>>) {
    Rect(lscape) && |lscape| >= 2 && Width(lscape) >= 2
  }

  /** An array of the landscape's shape. */
  predicate SameShape(a: array2<real>, lscape: seq<seq<int>>) {
    a.Length0 == |lscape| && a.Length1 == Width(lscape)
  }

  /**
   * One array of `calculate_color_codes`: entry (x - 1, y - 1) of the (h, w) result is the
   * colour of interior cell (x, y) when the landscape there is nonzero, and 0 otherwise.
   */
  function ColorCodes(pop: Grid, max: real, lscape: seq<seq<int>>): (c: seq<seq<int>>)
    requires Matching(pop, lscape)
    ensures IsRect(c, |lscape| - 2, Width(lscape) - 2)
    ensures forall x, y :: 0 <= x < |lscape| - 2 && 0 <= y < Width(lscape) - 2 ==>
              c[x][y] == if lscape[x + 1][y + 1] != 0 then ColorCode(pop[x + 1][y + 1], max) else 0
  {
    seq(|lscape| - 2, x requires 0 <= x < |lscape| - 2 =>
      seq(Width(lscape) - 2, y requires 0 <= y < Width(lscape) - 2 =>
        if lscape[x + 1][y + 1] != 0 then ColorCode(pop[x + 1][y + 1], max) else 0))
  }

  /**
   * Against the population's own maximum, a population with no negative cell has every
   * colour in [0, 255], and every land cell holding the maximum shows 255 (unless the
   * maximum is 0, when every colour is 0).
   */
  lemma ColorCodesAgainstMax(pop: Grid, lscape: seq<seq<int>>, max: real)
    requires Matching(pop, lscape)
    requires forall i, j :: 0 <= i < |pop| && 0 <= j < Width(lscape) ==> 0.0 <= pop[i][j] <= max
    ensures var c := ColorCodes(pop, max, lscape);
      && (forall x, y :: 0 <= x < |lscape| - 2 && 0 <= y < Width(lscape) - 2 ==> 0 <= c[x][y] <= 255)
      && (forall x, y ::
            (0 <= x < |lscape| - 2 && 0 <= y < Width(lscape) - 2 && lscape[x + 1][y + 1] != 0 &&
             pop[x + 1][y + 1] == max && max != 0.0) ==> c[x][y] == 255)
      && (max == 0.0 ==> forall x, y :: 0 <= x < |lscape| - 2 && 0 <= y < Width(lscape) - 2 ==> c[x][y] == 0)
  {
    var c := ColorCodes(pop, max, lscape);
    forall x, y | 0 <= x < |lscape| - 2 && 0 <= y < Width(lscape) - 2
      ensures 0 <= c[x][y] <= 255
      ensures lscape[x + 1][y + 1] != 0 && pop[x + 1][y + 1] == max && max != 0.0 ==> c[x][y] == 255
      ensures max == 0.0 ==> c[x][y] == 0
    {
      ColorCodeRange(pop[x + 1][y + 1], max);
    }
  }

  /**
   * `calculate_color_codes(mice, fox, mm, mf, lscape)`: two zeroed (h, w) integer arrays,
   * filled in a loop over the interior rows with the colours of the land cells.
   */
  method CalculateColorCodes(mice: array2<real>, fox: array2<real>, mm: real, mf: real, lscape: seq<seq<int>>)
    returns (mcols: array2<int>, fcols: array2<int>)
    requires Framed(lscape) && SameShape(mice, lscape) && SameShape(fox, lscape)
    ensures fresh(mcols) && fresh(fcols) && mcols != fcols
    ensures mcols.Length0 == fcols.Length0 == |lscape| - 2 && mcols.Length1 == fcols.Length1 == Width(lscape) - 2
    ensures IntCells(mcols) == ColorCodes(Cells(mice), mm, lscape)
    ensures IntCells(fcols) == ColorCodes(Cells(fox), mf, lscape)
  {
    var h, w := |lscape| - 2, Width(lscape) - 2;
    mcols := new int[h, w]((i, j) => 0);
    fcols := new int[h, w]((i, j) => 0);
    var x := 1;
    while x <= h
      invariant 1 <= x <= h + 1
      invariant forall i, j :: 0 <= i < h && 0 <= j < w ==>
                  mcols[i, j] == if i < x - 1 && lscape[i + 1][j + 1] != 0 then ColorCode(mice[i + 1, j + 1], mm) else 0
      invariant forall i, j :: 0 <= i < h && 0 <= j < w ==>
                  fcols[i, j] == if i < x - 1 && lscape[i + 1][j + 1] != 0 then ColorCode(fox[i + 1, j + 1], mf) else 0
    {
      ColorRow(mice, fox, mm, mf, lscape, mcols, fcols, x - 1);
      x := x + 1;
    }
    CellwiseEqual(IntCells(mcols), ColorCodes(Cells(mice), mm, lscape), h, w);
    CellwiseEqual(IntCells(fcols), ColorCodes(Cells(fox), mf, lscape), h, w);
  }

  /** The inner loop of `calculate_color_codes` over interior row `r + 1`, which fills row `r` of both arrays. */
  method ColorRow(mice: array2<real>, fox: array2<real>, mm: real, mf: real, lscape: seq<seq<int>>,
                  mcols: array2<int>, fcols: array2<int>, r: int)
    requires Framed(lscape) && SameShape(mice, lscape) && SameShape(fox, lscape) && mcols != fcols
    requires mcols.Length0 == fcols.Length0 == |lscape| - 2 && mcols.Length1 == fcols.Length1 == Width(lscape) - 2
    requires 0 <= r < |lscape| - 2
    requires forall j :: 0 <= j < mcols.Length1 ==> mcols[r, j] == 0 && fcols[r, j] == 0
    modifies mcols, fcols
    ensures forall j :: 0 <= j < mcols.Length1 ==>
              mcols[r, j] == if lscape[r + 1][j + 1] != 0 then ColorCode(mice[r + 1, j + 1], mm) else 0
    ensures forall j :: 0 <= j < mcols.Length1 ==>
              fcols[r, j] == if lscape[r + 1][j + 1] != 0 then ColorCode(fox[r + 1, j + 1], mf) else 0
    ensures forall i, j :: 0 <= i < mcols.Length0 && 0 <= j < mcols.Length1 && i != r ==>
              mcols[i, j] == old(mcols[i, j]) && fcols[i, j] == old(fcols[i, j])
  {
    var x := r + 1;
    var y := 1;
    while y <= mcols.Length1
      invariant 1 <= y <= mcols.Length1 + 1
      invariant forall j :: 0 <= j < mcols.Length1 ==>
                  mcols[r, j] == if j < y - 1 && lscape[x][j + 1] != 0 then ColorCode(mice[x, j + 1], mm) else 0
      invariant forall j :: 0 <= j < mcols.Length1 ==>
                  fcols[r, j] == if j < y - 1 && lscape[x][j + 1] != 0 then ColorCode(fox[x, j + 1], mf) else 0
      invariant forall i, j :: 0 <= i < mcols.Length0 && 0 <= j < mcols.Length1 && i != r ==>
                  mcols[i, j] == old(mcols[i, j]) && fcols[i, j] == old(fcols[i, j])
    {
      if lscape[x][y] != 0 {
        var mcol := if mm != 0.0 then Trunc(mice[x, y] / mm * 255.0) else 0;
        var fcol := if mf != 0.0 then Trunc(fox[x, y] / mf * 255.0) else 0;
        mcols[x - 1, y - 1] := mcol;
        fcols[x - 1, y - 1] := fcol;
      }
      y := y + 1;
    }
  }

  // ---------------------------------------------------------------- the PPM text

  /** The three lines of the PPM header: the magic number `P3`, then `w h`, then the largest colour value. */
  function HeaderLines(w: int, h: int): seq<string> {
    ["P3\n", RenderLine([w, h]), MaxLine]
  }

  /** The third header line: the largest colour value. */
  const MaxLine: string := "255\n"

  /** The line `"{} {} {}\n".format(0, 200, 255)` written for a cell where no animal can live. */
  const WaterLine: string := "0 200 255\n"

  /** The two fixed lines are single lines and read back as the numbers they spell. */
  lemma FixedLines()
    ensures IsLine(MaxLine) && ParseInts(Split(MaxLine)) == Ok([255])
    ensures IsLine(WaterLine) && ParseInts(Split(WaterLine)) == Ok([0, 200, 255])
  {
    MaxLineReads();
    WaterLineReads();
  }

  /** The largest-colour line reads back as 255. */
  lemma MaxLineReads()
    ensures IsLine(MaxLine) && ParseInts(Split(MaxLine)) == Ok([255])
  {
    assert IntToString(255) == "255";
    assert RenderLine([255]) == MaxLine;
    RenderLineSplits([255]);
    ParseTokens([255]);
  }

  /** The water line reads back as the colour 0 200 255. */
  lemma WaterLineReads()
    ensures IsLine(WaterLine) && ParseInts(Split(WaterLine)) == Ok([0, 200, 255])
  {
    assert IntToString(200) == "200" && IntToString(255) == "255" && IntToString(0) == "0";
    assert RenderLine([0, 200, 255]) == WaterLine;
    RenderLineSplits([0, 200, 255]);
    ParseTokens([0, 200, 255]);
  }

  /** The header as the one string written first. */
  function Header(w: int, h: int): string {
    Concat(HeaderLines(w, h))
  }

  /**
   * The line written for interior cell (x + 1, y + 1): the fox colour, the mouse colour and
   * 0 on land, the fixed colour `0 200 255` elsewhere.
   */
  function Pixel(mcols: seq<seq<int>>, fcols: seq<seq<int>>, lscape: seq<seq<int>>, x: int, y: int): string
    requires Framed(lscape)
    requires IsRect(mcols, |lscape| - 2, Width(lscape) - 2) && IsRect(fcols, |lscape| - 2, Width(lscape) - 2)
    requires 0 <= x < |lscape| - 2 && 0 <= y < Width(lscape) - 2
  {
    if lscape[x + 1][y + 1] != 0 then RenderLine([fcols[x][y], mcols[x][y], 0]) else WaterLine
  }

  /** The pixel lines of interior row x + 1, left to right. */
  function RowPixels(mcols: seq<seq<int>>, fcols: seq<seq<int>>, lscape: seq<seq<int>>, x: int): (row: seq<string>)
    requires Framed(lscape)
    requires IsRect(mcols, |lscape| - 2, Width(lscape) - 2) && IsRect(fcols, |lscape| - 2, Width(lscape) - 2)
    requires 0 <= x < |lscape| - 2
    ensures |row| == Width(lscape) - 2
    ensures forall y :: 0 <= y < |row| ==> row[y] == Pixel(mcols, fcols, lscape, x, y)
  {
    seq(Width(lscape) - 2, y requires 0 <= y < Width(lscape) - 2 => Pixel(mcols, fcols, lscape, x, y))
  }

  /** The pixel lines of the first `n` interior rows, row by row. */
  function PixelRows(mcols: seq<seq<int>>, fcols: seq<seq<int>>, lscape: seq<seq<int>>, n: int): seq<string>
    requires Framed(lscape)
    requires IsRect(mcols, |lscape| - 2, Width(lscape) - 2) && IsRect(fcols, |lscape| - 2, Width(lscape) - 2)
    requires 0 <= n <= |lscape| - 2
  {
    if n == 0 then [] else PixelRows(mcols, fcols, lscape, n - 1) + RowPixels(mcols, fcols, lscape, n - 1)
  }

  /** Everything `write_population_map` writes, in order: the header, then one line per interior cell. */
  function MapWrites(mcols: seq<seq<int>>, fcols: seq<seq<int>>, lscape: seq<seq<int>>): seq<string>
    requires Framed(lscape)
    requires IsRect(mcols, |lscape| - 2, Width(lscape) - 2) && IsRect(fcols, |lscape| - 2, Width(lscape) - 2)
  {
    [Header(Width(lscape) - 2, |lscape| - 2)] + PixelRows(mcols, fcols, lscape, |lscape| - 2)
  }

  /** The text of the map file for the given populations, maxima and landscape. */
  function PopulationMap(mice: Grid, fox: Grid, mm: real, mf: real, lscape: seq<seq<int>>): string
    requires Matching(mice, lscape) && Matching(fox, lscape)
  {
    Concat(MapWrites(ColorCodes(mice, mm, lscape), ColorCodes(fox, mf, lscape), lscape))
  }

  /** `write_population_map(i, ...)`: the file name, and the colour codes written as the header and one line per cell. */
  method WritePopulationMap(i: nat, mice: array2<real>, fox: array2<real>, mm: real, mf: real, lscape: seq<seq<int>>)
    returns (name: string, writes: seq<string>)
    requires Framed(lscape) && SameShape(mice, lscape) && SameShape(fox, lscape)
    ensures name == MapName(i)
    ensures writes == MapWrites(ColorCodes(Cells(mice), mm, lscape), ColorCodes(Cells(fox), mf, lscape), lscape)
  {
    var mcols, fcols := CalculateColorCodes(mice, fox, mm, mf, lscape);
    name := MapName(i);
    writes := WriteLines(mcols, fcols, lscape);
  }

  /** The writes of `write_population_map` once the colour codes are known: the header, then the rows of pixel lines. */
  method WriteLines(mcols: array2<int>, fcols: array2<int>, lscape: seq<seq<int>>) returns (writes: seq<string>)
    requires Framed(lscape)
    requires mcols.Length0 == fcols.Length0 == |lscape| - 2 && mcols.Length1 == fcols.Length1 == Width(lscape) - 2
    ensures writes == MapWrites(IntCells(mcols), IntCells(fcols), lscape)
  {
    var h, w := |lscape| - 2, Width(lscape) - 2;
    var pixels := WritePixels(mcols, fcols, lscape);
    writes := [Header(w, h)] + pixels;
  }

  /** The loop of `write_population_map` over the interior rows: their pixel lines, row by row. */
  method WritePixels(mcols: array2<int>, fcols: array2<int>, lscape: seq<seq<int>>) returns (pixels: seq<string>)
    requires Framed(lscape)
    requires mcols.Length0 == fcols.Length0 == |lscape| - 2 && mcols.Length1 == fcols.Length1 == Width(lscape) - 2
    ensures pixels == PixelRows(IntCells(mcols), IntCells(fcols), lscape, |lscape| - 2)
  {
    ghost var mc, fc := IntCells(mcols), IntCells(fcols);
    pixels := [];
    var x := 0;
    while x < mcols.Length0
      invariant 0 <= x <= mcols.Length0
      invariant pixels == PixelRows(mc, fc, lscape, x)
    {
      var row := WriteRow(mcols, fcols, lscape, x);
      PixelRowsStep(mc, fc, lscape, x);
      pixels := pixels + row;
      x := x + 1;
    }
  }

  /** The pixel lines of x + 1 rows are those of x rows followed by row x + 1's. */
  lemma PixelRowsStep(mcols: seq<seq<int>>, fcols: seq<seq<int>>, lscape: seq<seq<int>>, x: int)
    requires Framed(lscape)
    requires IsRect(mcols, |lscape| - 2, Width(lscape) - 2) && IsRect(fcols, |lscape| - 2, Width(lscape) - 2)
    requires 0 <= x < |lscape| - 2
    ensures PixelRows(mcols, fcols, lscape, x + 1) == PixelRows(mcols, fcols, lscape, x) + RowPixels(mcols, fcols, lscape, x)
  {
  }

  /** The inner loop of `write_population_map`: the lines of interior row x + 1, left to right. */
  method WriteRow(mcols: array2<int>, fcols: array2<int>, lscape: seq<seq<int>>, x: int) returns (row: seq<string>)
    requires Framed(lscape)
    requires mcols.Length0 == fcols.Length0 == |lscape| - 2 && mcols.Length1 == fcols.Length1 == Width(lscape) - 2
    requires 0 <= x < |lscape| - 2
    ensures row == RowPixels(IntCells(mcols), IntCells(fcols), lscape, x)
  {
    ghost var spec := RowPixels(IntCells(mcols), IntCells(fcols), lscape, x);
    row := [];
    var y := 0;
    while y < mcols.Length1
      invariant 0 <= y <= mcols.Length1 == |spec|
      invariant row == spec[..y]
    {
      var line;
      if lscape[x + 1][y + 1] != 0 {
        line := RenderLine([fcols[x, y], mcols[x, y], 0]);
      } else {
        line := WaterLine;
      }
      PixelOfArrays(mcols, fcols, lscape, x, y);
      PrefixStep(spec, y);
      row := row + [line];
      y := y + 1;
    }
    assert spec[..y] == spec;
  }

  /** The prefix of length y + 1 extends the prefix of length y by element y. */
  lemma PrefixStep<T>(s: seq<T>, y: int)
    requires 0 <= y < |s|
    ensures s[..y + 1] == s[..y] + [s[y]]
  {
  }

  /** The pixel line of a cell, read straight from the colour arrays. */
  lemma PixelOfArrays(mcols: array2<int>, fcols: array2<int>, lscape: seq<seq<int>>, x: int, y: int)
    requires Framed(lscape)
    requires mcols.Length0 == fcols.Length0 == |lscape| - 2 && mcols.Length1 == fcols.Length1 == Width(lscape) - 2
    requires 0 <= x < |lscape| - 2 && 0 <= y < Width(lscape) - 2
    ensures RowPixels(IntCells(mcols), IntCells(fcols), lscape, x)[y] ==
            if lscape[x + 1][y + 1] != 0 then RenderLine([fcols[x, y], mcols[x, y], 0]) else WaterLine
  {
  }

  /** There are w pixel lines per row, and line x * w + y, for x below `n`, is the line of interior cell (x + 1, y + 1). */
  lemma {:induction false} PixelAt(mcols: seq<seq<int>>, fcols: seq<seq<int>>, lscape: seq<seq<int>>, n: int, x: int, y: int)
    requires Framed(lscape)
    requires IsRect(mcols, |lscape| - 2, Width(lscape) - 2) && IsRect(fcols, |lscape| - 2, Width(lscape) - 2)
    requires 0 <= n <= |lscape| - 2 && 0 <= x < n && 0 <= y < Width(lscape) - 2
    ensures |PixelRows(mcols, fcols, lscape, n)| == n * (Width(lscape) - 2)
    ensures 0 <= x * (Width(lscape) - 2) + y < n * (Width(lscape) - 2)
    ensures PixelRows(mcols, fcols, lscape, n)[x * (Width(lscape) - 2) + y] == Pixel(mcols, fcols, lscape, x, y)
  {
    var w := Width(lscape) - 2;
    var prev, row := PixelRows(mcols, fcols, lscape, n - 1), RowPixels(mcols, fcols, lscape, n - 1);
    PixelRowsStep(mcols, fcols, lscape, n - 1);
    PixelRowsLength(mcols, fcols, lscape, n);
    PixelRowsLength(mcols, fcols, lscape, n - 1);
    RowMajor(x, y, w, n);
    var i := x * w + y;
    AppendAt(prev, row, i);
    if x < n - 1 {
      PixelAt(mcols, fcols, lscape, n - 1, x, y);
      assert i < |prev|;
      assert PixelRows(mcols, fcols, lscape, n)[i] == prev[i];
    } else {
      assert i - |prev| == y;
      assert PixelRows(mcols, fcols, lscape, n)[i] == row[y];
    }
  }

  /** Indexing a concatenation. */
  lemma AppendAt<T>(a: seq<T>, b: seq<T>, i: int)
    requires 0 <= i < |a| + |b|
    ensures (a + b)[i] == if i < |a| then a[i] else b[i - |a|]
  {
  }

  /** Row-major positions: cell (x, y) of an n-by-w grid is at x * w + y, inside row x's block. */
  lemma RowMajor(x: int, y: int, w: int, n: int)
    requires 0 <= x < n && 0 <= y < w
    ensures 0 <= x * w + y < n * w
    ensures n * w == (n - 1) * w + w
    ensures x < n - 1 ==> x * w + y < (n - 1) * w
    ensures x == n - 1 ==> x * w + y == (n - 1) * w + y
  {
    assert n * w == (n - 1) * w + w;
    if x < n - 1 {
      assert x * w <= (n - 2) * w by {
        MulLeq(x, n - 2, w);
      }
      assert (n - 2) * w + w == (n - 1) * w;
    }
  }

  lemma MulLeq(a: int, b: int, c: int)
    requires a <= b && 0 <= c
    ensures a * c <= b * c
  {
    assert b * c - a * c == (b - a) * c;
  }

  lemma {:induction false} PixelRowsLength(mcols: seq<seq<int>>, fcols: seq<seq<int>>, lscape: seq<seq<int>>, n: int)
    requires Framed(lscape)
    requires IsRect(mcols, |lscape| - 2, Width(lscape) - 2) && IsRect(fcols, |lscape| - 2, Width(lscape) - 2)
    requires 0 <= n <= |lscape| - 2
    ensures |PixelRows(mcols, fcols, lscape, n)| == n * (Width(lscape) - 2)
  {
    if n > 0 {
      PixelRowsLength(mcols, fcols, lscape, n - 1);
      assert n * (Width(lscape) - 2) == (n - 1) * (Width(lscape) - 2) + (Width(lscape) - 2);
    }
  }

  predicate AllLines(lines: seq<string>) {
    forall k :: 0 <= k < |lines| ==> IsLine(lines[k])
  }

  /** Joining two lists of single lines gives a list of single lines. */
  lemma AllLinesAppend(a: seq<string>, b: seq<string>)
    requires AllLines(a) && AllLines(b)
    ensures AllLines(a + b)
  {
    forall k | 0 <= k < |a + b|
      ensures IsLine((a + b)[k])
    {
      if k < |a| {
        assert (a + b)[k] == a[k];
      } else {
        assert (a + b)[k] == b[k - |a|];
      }
    }
  }

  lemma PixelIsLine(mcols: seq<seq<int>>, fcols: seq<seq<int>>, lscape: seq<seq<int>>, x: int, y: int)
    requires Framed(lscape)
    requires IsRect(mcols, |lscape| - 2, Width(lscape) - 2) && IsRect(fcols, |lscape| - 2, Width(lscape) - 2)
    requires 0 <= x < |lscape| - 2 && 0 <= y < Width(lscape) - 2
    ensures IsLine(Pixel(mcols, fcols, lscape, x, y))
  {
    if lscape[x + 1][y + 1] != 0 {
      RenderLineSplits([fcols[x][y], mcols[x][y], 0]);
    } else {
      FixedLines();
    }
  }

  lemma {:induction false} PixelRowsAreLines(mcols: seq<seq<int>>, fcols: seq<seq<int>>, lscape: seq<seq<int>>, n: int)
    requires Framed(lscape)
    requires IsRect(mcols, |lscape| - 2, Width(lscape) - 2) && IsRect(fcols, |lscape| - 2, Width(lscape) - 2)
    requires 0 <= n <= |lscape| - 2
    ensures AllLines(PixelRows(mcols, fcols, lscape, n))
  {
    if n > 0 {
      PixelRowsAreLines(mcols, fcols, lscape, n - 1);
      RowPixelsAreLines(mcols, fcols, lscape, n - 1);
      AllLinesAppend(PixelRows(mcols, fcols, lscape, n - 1), RowPixels(mcols, fcols, lscape, n - 1));
    }
  }

  /** Every pixel line of one row is a single line. */
  lemma RowPixelsAreLines(mcols: seq<seq<int>>, fcols: seq<seq<int>>, lscape: seq<seq<int>>, x: int)
    requires Framed(lscape)
    requires IsRect(mcols, |lscape| - 2, Width(lscape) - 2) && IsRect(fcols, |lscape| - 2, Width(lscape) - 2)
    requires 0 <= x < |lscape| - 2
    ensures AllLines(RowPixels(mcols, fcols, lscape, x))
  {
    var row := RowPixels(mcols, fcols, lscape, x);
    forall y | 0 <= y < |row|
      ensures IsLine(row[y])
    {
      PixelIsLine(mcols, fcols, lscape, x, y);
    }
  }

  /**
   * The PPM text reads back, line by line, as the header lines followed by exactly w * h
   * pixel lines; the second header line holds `w h` and the third `255`.
   */
  lemma MapReadsBack(mice: Grid, fox: Grid, mm: real, mf: real, lscape: seq<seq<int>>)
    requires Matching(mice, lscape) && Matching(fox, lscape)
    ensures var w, h := Width(lscape) - 2, |lscape| - 2;
            var mc, fc := ColorCodes(mice, mm, lscape), ColorCodes(fox, mf, lscape);
            var lines := ReadLines(PopulationMap(mice, fox, mm, mf, lscape));
      && lines == HeaderLines(w, h) + PixelRows(mc, fc, lscape, h)
      && |lines| == 3 + w * h
      && lines[0] == "P3\n"
      && ParseInts(Split(lines[1])) == Ok([w, h])
      && ParseInts(Split(lines[2])) == Ok([255])
  {
    WritesReadBack(ColorCodes(mice, mm, lscape), ColorCodes(fox, mf, lscape), lscape);
  }

  lemma WritesReadBack(mc: seq<seq<int>>, fc: seq<seq<int>>, lscape: seq<seq<int>>)
    requires Framed(lscape)
    requires IsRect(mc, |lscape| - 2, Width(lscape) - 2) && IsRect(fc, |lscape| - 2, Width(lscape) - 2)
    ensures var w, h := Width(lscape) - 2, |lscape| - 2;
            var lines := ReadLines(Concat(MapWrites(mc, fc, lscape)));
      && lines == HeaderLines(w, h) + PixelRows(mc, fc, lscape, h)
      && |lines| == 3 + w * h
      && lines[0] == "P3\n"
      && ParseInts(Split(lines[1])) == Ok([w, h])
      && ParseInts(Split(lines[2])) == Ok([255])
  {
    var w, h := Width(lscape) - 2, |lscape| - 2;
    var hl := HeaderLines(w, h);
    var px := PixelRows(mc, fc, lscape, h);
    PixelRowsAreLines(mc, fc, lscape, h);
    PixelRowsLength(mc, fc, lscape, h);
    HeaderParses(w, h);
    AllLinesAppend(hl, px);
    ConcatHeader(hl, px);
    ReadLinesConcat(hl + px);
    assert (hl + px)[1] == hl[1] && (hl + px)[2] == hl[2];
  }

  /** The header lines are single lines, and the second and third read back as `w h` and `255`. */
  lemma HeaderParses(w: int, h: int)
    ensures AllLines(HeaderLines(w, h))
    ensures HeaderLines(w, h)[0] == "P3\n"
    ensures ParseInts(Split(HeaderLines(w, h)[1])) == Ok([w, h])
    ensures ParseInts(Split(HeaderLines(w, h)[2])) == Ok([255])
  {
    SizeLineParses(w, h);
    MaxLineReads();
    MagicLine();
    ThreeLines("P3\n", RenderLine([w, h]), MaxLine);
  }

  /** Three single lines make a list of single lines. */
  lemma ThreeLines(a: string, b: string, c: string)
    requires IsLine(a) && IsLine(b) && IsLine(c)
    ensures AllLines([a, b, c])
  {
    forall k | 0 <= k < 3
      ensures IsLine([a, b, c][k])
    {
      if k == 0 {
        assert [a, b, c][k] == a;
      } else if k == 1 {
        assert [a, b, c][k] == b;
      }
    }
  }

  /** The first header line is a single line. */
  lemma MagicLine()
    ensures IsLine("P3\n")
  {
    var m := "P3\n";
    assert m[0] == 'P' && m[1] == '3';
  }

  /** The size line is a single line and reads back as `w h`. */
  lemma SizeLineParses(w: int, h: int)
    ensures IsLine(RenderLine([w, h])) && ParseInts(Split(RenderLine([w, h]))) == Ok([w, h])
  {
    RenderLineSplits([w, h]);
    ParseTokens([w, h]);
  }

  /** Writing the header in one piece gives the same text as writing its three lines. */
  lemma ConcatHeader(hl: seq<string>, px: seq<string>)
    requires |hl| == 3
    ensures Concat([Concat(hl)] + px) == Concat(hl + px)
  {
    var all := hl + px;
    var a1, a2 := all[1..], all[1..][1..];
    assert a1 == [hl[1], hl[2]] + px;
    assert a2 == [hl[2]] + px;
    assert a2[1..] == px;
    assert Concat(a2) == hl[2] + Concat(px);
    assert Concat(a1) == hl[1] + Concat(a2);
    assert Concat(all) == hl[0] + Concat(a1);
    var h1, h2 := hl[1..], hl[1..][1..];
    assert h2[1..] == [];
    assert Concat(h2) == hl[2];
    assert Concat(h1) == hl[1] + Concat(h2);
    assert Concat(hl) == hl[0] + Concat(h1);
    assert ([Concat(hl)] + px)[1..] == px;
  }

  /** A land pixel line splits and parses back to the fox colour, the mouse colour and 0; any other to 0, 200, 255. */
  lemma PixelParses(mcols: seq<seq<int>>, fcols: seq<seq<int>>, lscape: seq<seq<int>>, x: int, y: int)
    requires Framed(lscape)
    requires IsRect(mcols, |lscape| - 2, Width(lscape) - 2) && IsRect(fcols, |lscape| - 2, Width(lscape) - 2)
    requires 0 <= x < |lscape| - 2 && 0 <= y < Width(lscape) - 2
    ensures ParseInts(Split(Pixel(mcols, fcols, lscape, x, y))) ==
            if lscape[x + 1][y + 1] != 0 then Ok([fcols[x][y], mcols[x][y], 0]) else Ok([0, 200, 255])
  {
    if lscape[x + 1][y + 1] != 0 {
      RenderLineSplits([fcols[x][y], mcols[x][y], 0]);
      ParseTokens([fcols[x][y], mcols[x][y], 0]);
    } else {
      FixedLines();
    }
  }

  /** `"{:04d}".format(n)` for a natural number: its digits, left-padded with zeros to four characters. */
  function Pad4(digits: string): (s: string)
    ensures |s| == if |digits| >= 4 then |digits| else 4
    decreases 4 - |digits|
  {
    if |digits| >= 4 then digits else Pad4("0" + digits)
  }

  /** `"map_{:04d}.ppm".format(i)`: the name of the map written at iteration `i`. */
  function MapName(i: nat): string {
    "map_" + Pad4(NatToString(i)) + ".ppm"
  }

  /** Leading zeros do not change the value of a string of digits. */
  lemma {:induction false} LeadingZero(s: string)
    requires AllDigits(s)
    ensures AllDigits("0" + s) && DigitsValue("0" + s) == DigitsValue(s)
    decreases |s|
  {
    var t := "0" + s;
    if s != [] {
      assert t[..|t| - 1] == "0" + s[..|s| - 1];
      LeadingZero(s[..|s| - 1]);
    }
  }

  /** Padding keeps the digits and their value. */
  lemma {:induction false} Pad4Value(digits: string)
    requires AllDigits(digits)
    ensures AllDigits(Pad4(digits)) && DigitsValue(Pad4(digits)) == DigitsValue(digits)
    decreases 4 - |digits|
  {
    if |digits| < 4 {
      LeadingZero(digits);
      Pad4Value("0" + digits);
    }
  }

  /** For iterations below 10000 the name has twelve characters and its four digits spell the iteration. */
  lemma MapNameDigits(i: nat)
    requires i < 10000
    ensures var name := MapName(i);
      && |name| == 12 && name[..4] == "map_" && name[8..] == ".ppm"
      && AllDigits(name[4..8]) && DigitsValue(name[4..8]) == i
  {
    var d := NatToString(i);
    ShortDigits(i, 4);
    Pad4Value(d);
    var name := MapName(i);
    assert name[4..8] == Pad4(d);
  }

  function Power10(n: nat): nat {
    if n == 0 then 1 else 10 * Power10(n - 1)
  }

  /** A number below 10^k has at most k digits. */
  lemma {:induction false} ShortDigits(n: nat, k: nat)
    requires k >= 1 && n < Power10(k)
    ensures |NatToString(n)| <= k
  {
    if n >= 10 {
      ShortDigits(n / 10, k - 1);
    }
  }
}
