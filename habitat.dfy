/**
 * The landscape (predator_prey/Landscape.py): a text map of `h` rows of `w` integers,
 * padded with a ring of zeros into an (h+2) x (w+2) grid, and the per-cell sum of the
 * four orthogonal neighbours with indices wrapping around the padded grid.
 *
 * Nothing changes a landscape after it is loaded, so it is a value here.
 */
module Habitat {
  import opened Errors
  import opened Text
  import opened Grids

  /** `Landscape` object: interior size, padded grid (`landscape`) and neighbour sums. */
  datatype Landscape = Landscape(width: int, height: int, grid: seq<seq<int>>, neighbours: seq<seq<int>>)
  {
    /** Grid and neighbour arrays both have the padded shape (height+2, width+2). */
    predicate Shaped() {
      && width >= 0 && height >= 0
      && IsRect(grid, height + 2, width + 2)
      && IsRect(neighbours, height + 2, width + 2)
    }

    /** A habitable interior cell: `1 <= x <= height`, `1 <= y <= width` and a truthy grid value. */
    predicate IsLand(x: int, y: int)
      requires Shaped()
    {
      1 <= x <= height && 1 <= y <= width && grid[x][y] != 0
    }
  }

  // ---------------------------------------------------------------- parsing

  /** `list(map(int, tokens))`: the first token `int()` rejects raises. */
  function ParseInts(tokens: seq<string>): (r: Result<seq<int>>)
    ensures r.Ok? <==> forall k :: 0 <= k < |tokens| ==> ParseInt(tokens[k]).Some?
    ensures r.Ok? ==> |r.value| == |tokens|
    ensures r.Ok? ==> forall k :: 0 <= k < |tokens| ==> ParseInt(tokens[k]) == Some(r.value[k])
    ensures r.Err? ==> exists k :: 0 <= k < |tokens| && r.error == RuntimeError(BadInteger(tokens[k]))
  {
    if tokens == [] then Ok([])
    else match ParseInt(tokens[0])
      case None => Err(RuntimeError(BadInteger(tokens[0])))
      case Some(v) =>
        match ParseInts(tokens[1..])
        case Err(e) => Err(e)
        case Ok(vs) => Ok([v] + vs)
  }

  /**
   * `w, h = map(int, line.split())`. `int()` runs left to right and the unpacking pulls
   * a third value before it reports too many, so a bad token among the first three wins.
   */
  function ParseHeader(line: string): (r: Result<(int, int)>)
    ensures r.Ok? <==> |Split(line)| == 2 && ParseInt(Split(line)[0]).Some? && ParseInt(Split(line)[1]).Some?
    ensures r.Ok? ==> ParseInt(Split(line)[0]) == Some(r.value.0) && ParseInt(Split(line)[1]) == Some(r.value.1)
  {
    var tokens := Split(line);
    match ParseInts(if |tokens| <= 3 then tokens else tokens[..3])
    case Err(e) => Err(e)
    case Ok(values) =>
      if |tokens| < 2 then Err(RuntimeError(TooFewValues(|tokens|)))
      else if |tokens| > 2 then Err(RuntimeError(TooManyValues))
      else Ok((values[0], values[1]))
  }

  /** One data line: every token must be an integer, and there must be `width` of them. */
  function ParseRow(line: string, width: int, lineNo: nat): (r: Result<seq<int>>)
    ensures r.Ok? <==> ParseInts(Split(line)).Ok? && |Split(line)| == width
    ensures r.Ok? ==> |r.value| == width
    ensures r.Ok? ==> forall j :: 0 <= j < width ==> ParseInt(Split(line)[j]) == Some(r.value[j])
  {
    match ParseInts(Split(line))
    case Err(e) => Err(e)
    case Ok(values) =>
      if |values| != width then Err(RuntimeError(BadRowLength(lineNo))) else Ok(values)
  }

  /** The data lines in order, numbered from `firstLine`; the first bad line raises. */
  function ParseRows(lines: seq<string>, width: int, firstLine: nat): (r: Result<seq<seq<int>>>)
    ensures r.Ok? ==> |r.value| == |lines| && forall k :: 0 <= k < |lines| ==> |r.value[k]| == width
    decreases |lines|
  {
    if lines == [] then Ok([])
    else match ParseRow(lines[0], width, firstLine)
      case Err(e) => Err(e)
      case Ok(row) =>
        match ParseRows(lines[1..], width, firstLine + 1)
        case Err(e) => Err(e)
        case Ok(rows) => Ok([row] + rows)
  }

  /** The data lines parse exactly when each of them does, and then line k gives row k. */
  lemma {:induction false} ParseRowsOk(lines: seq<string>, width: int, firstLine: nat)
    ensures var r := ParseRows(lines, width, firstLine);
      && (r.Ok? <==> forall k :: 0 <= k < |lines| ==> ParseRow(lines[k], width, firstLine + k).Ok?)
      && (r.Ok? ==> |r.value| == |lines| &&
                    forall k :: 0 <= k < |lines| ==> Ok(r.value[k]) == ParseRow(lines[k], width, firstLine + k))
    decreases |lines|
  {
    if lines != [] {
      ParseRowsOk(lines[1..], width, firstLine + 1);
      assert forall k :: 1 <= k < |lines| ==> lines[1..][k - 1] == lines[k];
    }
  }

  /** Rows already parsed, followed by the outcome of parsing the rest. */
  function Then(rows: seq<seq<int>>, rest: Result<seq<seq<int>>>): (r: Result<seq<seq<int>>>)
    ensures rows == [] ==> r == rest
  {
    match rest
    case Ok(more) => assert [] + more == more; Ok(rows + more)
    case Err(e) => Err(e)
  }

  // ---------------------------------------------------------------- the padded grid

  function Zeros(n: nat): (z: seq<int>)
    ensures |z| == n && forall j :: 0 <= j < n ==> z[j] == 0
  {
    seq(n, _ => 0)
  }

  /** Grid row `i` of a padded map: a data row framed by zeros, or all zeros. */
  function PaddedRow(width: nat, rows: seq<seq<int>>, i: int): (row: seq<int>)
    requires forall k :: 0 <= k < |rows| ==> |rows[k]| == width
    ensures |row| == width + 2
    ensures forall j :: 0 <= j < width + 2 ==>
              row[j] == if 1 <= i <= |rows| && 1 <= j <= width then rows[i - 1][j - 1] else 0
  {
    if 1 <= i <= |rows| then [0] + rows[i - 1] + [0] else Zeros(width + 2)
  }

  /**
   * `np.zeros((height+2, width+2))` after `landscape[i+1] = [0] + rows[i] + [0]` for the
   * rows parsed so far: data row i sits in grid row i+1, and the ring around them is 0.
   */
  function Padded(width: nat, height: nat, rows: seq<seq<int>>): (g: seq<seq<int>>)
    requires |rows| <= height
    requires forall i :: 0 <= i < |rows| ==> |rows[i]| == width
    ensures IsRect(g, height + 2, width + 2)
    ensures forall i, j :: 0 <= i < height + 2 && 0 <= j < width + 2 ==>
              g[i][j] == if 1 <= i <= |rows| && 1 <= j <= width then rows[i - 1][j - 1] else 0
    ensures forall i :: 0 <= i < height + 2 ==> g[i] == PaddedRow(width, rows, i)
  {
    var g := seq(height + 2, i requires 0 <= i < height + 2 => PaddedRow(width, rows, i));
    assert forall i :: 0 <= i < height + 2 ==> g[i] == PaddedRow(width, rows, i);
    g
  }

  /** Every cell of the outer ring is 0. */
  predicate BorderZero(g: seq<seq<int>>)
    requires Rect(g)
  {
    forall r, c :: 0 <= r < |g| && 0 <= c < Width(g) && (r == 0 || r == |g| - 1 || c == 0 || c == Width(g) - 1) ==>
      g[r][c] == 0
  }

  // ---------------------------------------------------------------- neighbour sums

  /**
   * `convolve2d(landscape, [[0,1,0],[1,0,1],[0,1,0]], mode='same', boundary='wrap')`:
   * the four orthogonal cells, row and column indices taken modulo the grid's shape.
   */
  function Neighbours(g: seq<seq<int>>): (n: seq<seq<int>>)
    requires Rect(g) && |g| > 0 && Width(g) > 0
    ensures IsRect(n, |g|, Width(g))
  {
    var rows, cols := |g|, Width(g);
    seq(rows, r requires 0 <= r < rows =>
      seq(cols, c requires 0 <= c < cols =>
        g[(r - 1) % rows][c] + g[(r + 1) % rows][c] + g[r][(c - 1) % cols] + g[r][(c + 1) % cols]))
  }

  /** The value of cell (r, c), and 0 outside the grid. */
  function At(g: seq<seq<int>>, r: int, c: int): int {
    if 0 <= r < |g| && 0 <= c < |g[r]| then g[r][c] else 0
  }

  /** Reference definition: the four orthogonal cells with everything outside the grid counted as 0. */
  function ZeroPaddedSum(g: seq<seq<int>>, r: int, c: int): int {
    At(g, r - 1, c) + At(g, r + 1, c) + At(g, r, c - 1) + At(g, r, c + 1)
  }

  lemma StepMod(a: int, n: int)
    requires n >= 1 && -1 <= a <= n
    ensures a % n == if a == -1 then n - 1 else if a == n then 0 else a
  {
    if a == -1 {
      assert (n - 1) + (-1) * n == -1;
    } else if a == n {
      assert 0 + 1 * n == n;
    }
  }

  /**
   * With a zero border, the wrapped-around neighbour of a border cell is always on the
   * opposite border, so the wrapping sum equals the zero-padded one at every cell.
   */
  lemma WrapIsZeroPadded(g: seq<seq<int>>, r: int, c: int)
    requires Rect(g) && |g| > 0 && Width(g) > 0 && BorderZero(g)
    requires 0 <= r < |g| && 0 <= c < Width(g)
    ensures Neighbours(g)[r][c] == ZeroPaddedSum(g, r, c)
  {
    var rows, cols := |g|, Width(g);
    StepMod(r - 1, rows);
    StepMod(r + 1, rows);
    StepMod(c - 1, cols);
    StepMod(c + 1, cols);
  }

  /** An all-land map of the given size: every interior value is 1. */
  function AllLand(width: nat, height: nat): (rows: seq<seq<int>>)
    ensures |rows| == height && forall i :: 0 <= i < height ==> |rows[i]| == width
  {
    seq(height, _ => seq(width, _ => 1))
  }

  /** 1 when (r, c) is an interior cell of a width x height map, else 0. */
  function Inside(width: int, height: int, r: int, c: int): int {
    if 1 <= r <= height && 1 <= c <= width then 1 else 0
  }

  /** For an all-land map, the neighbour value of a cell is the number of its orthogonal cells in the interior. */
  lemma AllLandNeighbours(width: nat, height: nat, r: int, c: int)
    requires width > 0 && height > 0
    requires 0 <= r < height + 2 && 0 <= c < width + 2
    ensures Neighbours(Padded(width, height, AllLand(width, height)))[r][c] ==
            Inside(width, height, r - 1, c) + Inside(width, height, r + 1, c) +
            Inside(width, height, r, c - 1) + Inside(width, height, r, c + 1)
  {
    var g := Padded(width, height, AllLand(width, height));
    assert forall i, j :: 0 <= i < height + 2 && 0 <= j < width + 2 ==> g[i][j] == Inside(width, height, i, j);
    WrapIsZeroPadded(g, r, c);
  }

  /** Every cell of an all-land map has as many neighbours as it has orthogonal cells in the interior. */
  lemma AllLandNeighbourCounts(width: nat, height: nat)
    requires width > 0 && height > 0
    ensures var n := Neighbours(Padded(width, height, AllLand(width, height)));
      forall r, c :: 0 <= r < height + 2 && 0 <= c < width + 2 ==>
        n[r][c] == Inside(width, height, r - 1, c) + Inside(width, height, r + 1, c) +
                   Inside(width, height, r, c - 1) + Inside(width, height, r, c + 1)
  {
    forall r, c | 0 <= r < height + 2 && 0 <= c < width + 2 {
      AllLandNeighbours(width, height, r, c);
    }
  }

  /**
   * The neighbour table of an all-land map inside the border: 4 in the middle, 3 along
   * the inner ring and 2 at its corners.
   */
  lemma AllLandNeighbourTableInside(width: nat, height: nat)
    requires width >= 2 && height >= 2
    ensures var n := Neighbours(Padded(width, height, AllLand(width, height)));
      && (forall r, c :: 2 <= r <= height - 1 && 2 <= c <= width - 1 ==> n[r][c] == 4)
      && (forall c :: 2 <= c <= width - 1 ==> n[1][c] == 3 && n[height][c] == 3)
      && (forall r :: 2 <= r <= height - 1 ==> n[r][1] == 3 && n[r][width] == 3)
      && n[1][1] == 2 && n[1][width] == 2 && n[height][1] == 2 && n[height][width] == 2
  {
    AllLandNeighbourCounts(width, height);
  }

  /** The neighbour table of an all-land map on the border: 1 along its edges and 0 at its corners. */
  lemma AllLandNeighbourTableBorder(width: nat, height: nat)
    requires width >= 2 && height >= 2
    ensures var n := Neighbours(Padded(width, height, AllLand(width, height)));
      && (forall c :: 1 <= c <= width ==> n[0][c] == 1 && n[height + 1][c] == 1)
      && (forall r :: 1 <= r <= height ==> n[r][0] == 1 && n[r][width + 1] == 1)
      && n[0][0] == 0 && n[0][width + 1] == 0 && n[height + 1][0] == 0 && n[height + 1][width + 1] == 0
  {
    AllLandNeighbourCounts(width, height);
  }

  // ---------------------------------------------------------------- counting land

  /** `np.count_nonzero` of one row. */
  function NonzeroIn(row: seq<int>): (n: nat)
    ensures n <= |row|
  {
    if row == [] then 0 else NonzeroIn(row[..|row| - 1]) + (if row[|row| - 1] != 0 then 1 else 0)
  }

  /** `land_squares`: `np.count_nonzero` over the whole padded grid. */
  function LandSquares(g: seq<seq<int>>): nat {
    if g == [] then 0 else LandSquares(g[..|g| - 1]) + NonzeroIn(g[|g| - 1])
  }

  /** A row has no land exactly when all its values are 0. */
  lemma {:induction false} NonzeroInNone(row: seq<int>)
    ensures NonzeroIn(row) == 0 <==> forall j :: 0 <= j < |row| ==> row[j] == 0
  {
    if row != [] {
      NonzeroInNone(row[..|row| - 1]);
      assert forall j :: 0 <= j < |row| - 1 ==> row[..|row| - 1][j] == row[j];
    }
  }

  /** A grid has no land squares exactly when every cell is 0. */
  lemma {:induction false} LandSquaresNone(g: seq<seq<int>>)
    ensures LandSquares(g) == 0 <==> forall i, j :: 0 <= i < |g| && 0 <= j < |g[i]| ==> g[i][j] == 0
  {
    if g != [] {
      LandSquaresNone(g[..|g| - 1]);
      NonzeroInNone(g[|g| - 1]);
      assert forall i :: 0 <= i < |g| - 1 ==> g[..|g| - 1][i] == g[i];
    }
  }

  lemma {:induction false} NonzeroInZeros(n: nat)
    ensures NonzeroIn(Zeros(n)) == 0
  {
    if n > 0 {
      assert Zeros(n)[..n - 1] == Zeros(n - 1);
      NonzeroInZeros(n - 1);
    }
  }

  lemma {:induction false} NonzeroInOnes(n: nat)
    ensures NonzeroIn(seq(n, _ => 1)) == n
  {
    if n > 0 {
      assert seq(n, _ => 1)[..n - 1] == seq(n - 1, _ => 1);
      NonzeroInOnes(n - 1);
    }
  }

  lemma {:induction false} NonzeroInAppend(a: seq<int>, b: seq<int>)
    ensures NonzeroIn(a + b) == NonzeroIn(a) + NonzeroIn(b)
    decreases |b|
  {
    if b != [] {
      assert (a + b)[..|a + b| - 1] == a + b[..|b| - 1];
      NonzeroInAppend(a, b[..|b| - 1]);
    } else {
      assert a + b == a;
    }
  }

  /** The land count of a padded map: the first `k` grid rows hold the first `k - 1` data rows' land. */
  lemma {:induction false} LandSquaresPaddedPrefix(width: nat, height: nat, rows: seq<seq<int>>, k: nat)
    requires |rows| == height && forall i :: 0 <= i < height ==> |rows[i]| == width
    requires 1 <= k <= height + 1
    ensures LandSquares(Padded(width, height, rows)[..k]) == LandSquares(rows[..k - 1])
  {
    if k == 1 {
      LandSquaresPaddedTop(width, height, rows);
    } else {
      LandSquaresPaddedPrefix(width, height, rows, k - 1);
      LandSquaresPaddedStep(width, height, rows, k);
    }
  }

  /** The top border row of a padded map holds no land. */
  lemma LandSquaresPaddedTop(width: nat, height: nat, rows: seq<seq<int>>)
    requires |rows| == height && forall i :: 0 <= i < height ==> |rows[i]| == width
    ensures LandSquares(Padded(width, height, rows)[..1]) == LandSquares(rows[..0])
  {
    var g := Padded(width, height, rows);
    LandSquaresSnoc(g, 1);
    assert g[0] == PaddedRow(width, rows, 0) == Zeros(width + 2);
    NonzeroInZeros(width + 2);
    assert rows[..0] == [];
  }

  /** Grid row k - 1 of a padded map holds the land of data row k - 2 and no more. */
  lemma LandSquaresPaddedStep(width: nat, height: nat, rows: seq<seq<int>>, k: nat)
    requires |rows| == height && forall i :: 0 <= i < height ==> |rows[i]| == width
    requires 2 <= k <= height + 1
    requires LandSquares(Padded(width, height, rows)[..k - 1]) == LandSquares(rows[..k - 2])
    ensures LandSquares(Padded(width, height, rows)[..k]) == LandSquares(rows[..k - 1])
  {
    var g := Padded(width, height, rows);
    LandSquaresSnoc(g, k);
    LandSquaresSnoc(rows, k - 1);
    var r := rows[k - 2];
    assert g[k - 1] == PaddedRow(width, rows, k - 1) == [0] + r + [0];
    NonzeroInAppend([0] + r, [0]);
    NonzeroInAppend([0], r);
    assert NonzeroIn([0]) == 0 by { assert [0][..0] == []; }
  }

  /** The land count of the first k rows adds row k - 1's count to that of the first k - 1. */
  lemma LandSquaresSnoc(g: seq<seq<int>>, k: int)
    requires 1 <= k <= |g|
    ensures LandSquares(g[..k]) == LandSquares(g[..k - 1]) + NonzeroIn(g[k - 1])
    ensures k == 1 ==> LandSquares(g[..k - 1]) == 0
  {
    var p := g[..k];
    assert p[..|p| - 1] == g[..k - 1];
    assert p[|p| - 1] == g[k - 1];
  }

  /** `land_squares` of a loaded map counts the nonzero values of the file's data rows: the border adds none. */
  lemma LandSquaresPadded(width: nat, height: nat, rows: seq<seq<int>>)
    requires |rows| == height && forall i :: 0 <= i < height ==> |rows[i]| == width
    ensures LandSquares(Padded(width, height, rows)) == LandSquares(rows)
  {
    var g := Padded(width, height, rows);
    LandSquaresPaddedPrefix(width, height, rows, height + 1);
    LandSquaresSnoc(g, height + 2);
    assert g[..height + 2] == g;
    assert rows[..height] == rows;
    assert g[height + 1] == PaddedRow(width, rows, height + 1) == Zeros(width + 2);
    NonzeroInZeros(width + 2);
  }

  lemma {:induction false} LandSquaresAllLandRows(width: nat, height: nat)
    ensures LandSquares(AllLand(width, height)) == width * height
  {
    if height > 0 {
      var g := AllLand(width, height);
      assert g[..height - 1] == AllLand(width, height - 1);
      assert g[height - 1] == seq(width, _ => 1);
      LandSquaresAllLandRows(width, height - 1);
      NonzeroInOnes(width);
      assert LandSquares(g) == width * (height - 1) + width;
    }
  }

  /** An all-land width x height map has width * height land squares (200 for 10 x 20). */
  lemma LandSquaresAllLand(width: nat, height: nat)
    ensures LandSquares(Padded(width, height, AllLand(width, height))) == width * height
  {
    LandSquaresPadded(width, height, AllLand(width, height));
    LandSquaresAllLandRows(width, height);
  }

  /** Parsing the remaining lines one step further: the next row joins the rows already parsed. */
  lemma ParseRowsStep(rows: seq<seq<int>>, lines: seq<string>, width: int, firstLine: nat)
    requires lines != []
    ensures ParseRow(lines[0], width, firstLine).Err? ==>
              Then(rows, ParseRows(lines, width, firstLine)) == Err(ParseRow(lines[0], width, firstLine).error)
    ensures ParseRow(lines[0], width, firstLine).Ok? ==>
              Then(rows, ParseRows(lines, width, firstLine)) ==
              Then(rows + [ParseRow(lines[0], width, firstLine).value], ParseRows(lines[1..], width, firstLine + 1))
  {
    match ParseRows(lines[1..], width, firstLine + 1)
    case Err(e) =>
    case Ok(more) =>
      if ParseRow(lines[0], width, firstLine).Ok? {
        var row := ParseRow(lines[0], width, firstLine).value;
        assert rows + ([row] + more) == rows + [row] + more;
      }
  }

  /** The all-zero grid the loader starts from is the padded grid of no rows. */
  lemma PaddedNone(width: nat, height: nat, grid: seq<seq<int>>)
    requires grid == seq(height + 2, _ => Zeros(width + 2))
    ensures grid == Padded(width, height, [])
  {
    CellwiseEqual(grid, Padded(width, height, []), height + 2, width + 2);
  }

  /** One step of the row loop of `Landscape.__init__`: file line i + 1 either raises or extends the rows read so far. */
  lemma FillStep(lines: seq<string>, width: int, rows: seq<seq<int>>, i: nat)
    requires 1 + i < |lines|
    ensures ParseRow(lines[1 + i], width, 1 + i).Err? ==>
              Then(rows, ParseRows(lines[1 + i..], width, 1 + i)) == Err(ParseRow(lines[1 + i], width, 1 + i).error)
    ensures ParseRow(lines[1 + i], width, 1 + i).Ok? ==>
              Then(rows, ParseRows(lines[1 + i..], width, 1 + i)) ==
              Then(rows + [ParseRow(lines[1 + i], width, 1 + i).value], ParseRows(lines[2 + i..], width, 2 + i))
  {
    ParseRowsStep(rows, lines[1 + i..], width, 1 + i);
    assert lines[1 + i..][0] == lines[1 + i] && lines[1 + i..][1..] == lines[2 + i..];
  }

  /** Storing the next data row into the padded grid gives the padded grid of one more row. */
  lemma PaddedStore(width: nat, height: nat, rows: seq<seq<int>>, row: seq<int>)
    requires |rows| < height
    requires forall i :: 0 <= i < |rows| ==> |rows[i]| == width
    requires |row| == width
    ensures Padded(width, height, rows)[|rows| + 1 := [0] + row + [0]] == Padded(width, height, rows + [row])
  {
    var g := Padded(width, height, rows)[|rows| + 1 := [0] + row + [0]];
    CellwiseEqual(g, Padded(width, height, rows + [row]), height + 2, width + 2);
  }

  // ---------------------------------------------------------------- loading

  /** What a successful load produces: positive size, padded shape, zero border, neighbour sums of the grid. */
  predicate Loaded(ls: Landscape) {
    && ls.width > 0 && ls.height > 0
    && IsRect(ls.grid, ls.height + 2, ls.width + 2)
    && BorderZero(ls.grid)
    && ls.neighbours == Neighbours(ls.grid)
  }

  /**
   * The checks `load_landscape` makes before it reads the data rows: the file opens, has a
   * line, its header holds two integers `w, h`, both positive, and `h` data lines follow.
   * Yields the lines with the two sizes.
   */
  function Preamble(file: Option<string>): (r: Result<(seq<string>, int, int)>)
    ensures r.Ok? ==> var (lines, w, h) := r.value; w > 0 && h > 0 && |lines| == h + 1
  {
    match file
    case None => Err(RuntimeError(CannotOpen))
    case Some(text) =>
      var lines := ReadLines(text);
      if |lines| == 0 then Err(RuntimeError(EmptyFile))
      else match ParseHeader(lines[0])
        case Err(e) => Err(e)
        case Ok(size) =>
          var (w, h) := size;
          if !(w > 0 && h > 0) then Err(RuntimeError(BadDimensions(w, h)))
          else if |lines| - 1 != h then Err(RuntimeError(LineCount(h, |lines| - 1)))
          else Ok((lines, w, h))
  }

  /**
   * `Landscape(file)`: `file` is the text `open(...).read` would deliver, or None when the
   * file cannot be opened or read. Every failure the model reports is a RuntimeError.
   */
  function Load(file: Option<string>): (r: Result<Landscape>)
    ensures r.Ok? ==> r.value.Shaped()
  {
    match Preamble(file)
    case Err(e) => Err(e)
    case Ok((lines, w, h)) =>
      match ParseRows(lines[1..], w, 1)
      case Err(e) => Err(e)
      case Ok(rows) =>
        LoadedGrid(lines, w, h);
        var g := Padded(w, h, rows);
        Ok(Landscape(w, h, g, Neighbours(g)))
  }

  /** `load_landscape` followed by `calculate_neighbours`: the rows are parsed and stored one at a time. */
  method LoadLandscape(file: Option<string>) returns (r: Result<Landscape>)
    ensures r == Load(file)
  {
    var preamble := Preamble(file);
    if preamble.Err? {
      return Err(preamble.error);
    }
    var (lines, w, h) := preamble.value;
    var grid := FillGrid(lines, w, h);
    if grid.Err? {
      return Err(grid.error);
    }
    return Ok(Landscape(w, h, grid.value, Neighbours(grid.value)));
  }

  /**
   * The loop of `load_landscape`: a zeroed (h + 2, w + 2) grid receives data line i in row
   * i, columns 1 .. w, until a line fails to parse.
   */
  method FillGrid(lines: seq<string>, w: int, h: int) returns (r: Result<seq<seq<int>>>)
    requires w > 0 && h > 0 && |lines| == h + 1
    ensures ParseRows(lines[1..], w, 1).Err? ==> r == Err(ParseRows(lines[1..], w, 1).error)
    ensures ParseRows(lines[1..], w, 1).Ok? ==> r == Ok(Padded(w, h, ParseRows(lines[1..], w, 1).value))
  {
    var grid := seq(h + 2, _ => Zeros(w + 2));
    ghost var rows: seq<seq<int>> := [];
    PaddedNone(w, h, grid);
    assert lines[1..] == lines[1 + 0..];
    var i := 0;
    while i < h
      invariant 0 <= i <= h && |rows| == i
      invariant forall k :: 0 <= k < i ==> |rows[k]| == w
      invariant grid == Padded(w, h, rows)
      invariant ParseRows(lines[1..], w, 1) == Then(rows, ParseRows(lines[1 + i..], w, 1 + i))
    {
      FillStep(lines, w, rows, i);
      var row := ParseRow(lines[1 + i], w, 1 + i);
      if row.Err? {
        return Err(row.error);
      }
      PaddedStore(w, h, rows, row.value);
      grid := grid[i + 1 := [0] + row.value + [0]];
      rows := rows + [row.value];
      i := i + 1;
    }
    assert lines[1 + h..] == [];
    assert rows + [] == rows;
    return Ok(grid);
  }

  /** A file that cannot be opened, and an empty file, are both rejected. */
  lemma UnreadableOrEmpty()
    ensures Load(None) == Err(RuntimeError(CannotOpen))
    ensures Load(Some("")) == Err(RuntimeError(EmptyFile))
  {
  }

  /** Every failure the model of a load reports is a RuntimeError. */
  lemma LoadFailsWithRuntimeError(file: Option<string>)
    ensures Load(file).Err? ==> Load(file).error.RuntimeError?
  {
    if file.Some? && |ReadLines(file.value)| > 0 {
      var tokens := Split(ReadLines(file.value)[0]);
      var _ := ParseInts(if |tokens| <= 3 then tokens else tokens[..3]);
    }
    if Preamble(file).Ok? {
      var (lines, w, h) := Preamble(file).value;
      RowFailureIsRuntimeError(lines[1..], w, 1);
    }
  }

  lemma {:induction false} RowFailureIsRuntimeError(lines: seq<string>, width: int, firstLine: nat)
    ensures ParseRows(lines, width, firstLine).Err? ==> ParseRows(lines, width, firstLine).error.RuntimeError?
    decreases |lines|
  {
    if lines != [] {
      var _ := ParseInts(Split(lines[0]));
      RowFailureIsRuntimeError(lines[1..], width, firstLine + 1);
    }
  }

  /**
   * A load succeeds exactly when the preamble checks pass and every data line parses to
   * `w` integers; the landscape then has the padded shape, a zero border, the wrapping
   * neighbour sums, and data line i (1-based) parsed into grid row i, columns 1..w.
   */
  lemma LoadSucceeds(file: Option<string>)
    ensures Load(file).Ok? <==>
              Preamble(file).Ok? &&
              var (lines, w, h) := Preamble(file).value;
              forall i :: 1 <= i <= h ==> ParseRow(lines[i], w, i).Ok?
    ensures Load(file).Ok? ==>
              var (lines, w, h) := Preamble(file).value;
              var ls := Load(file).value;
              && ls.width == w && ls.height == h
              && Loaded(ls) && ls.Shaped()
              && (forall i :: 1 <= i <= h ==> |Split(lines[i])| == w)
              && forall i, j :: 1 <= i <= h && 1 <= j <= w ==> ParseInt(Split(lines[i])[j - 1]) == Some(ls.grid[i][j])
  {
    if Preamble(file).Ok? {
      var (lines, w, h) := Preamble(file).value;
      LoadRowsOk(lines, w, h);
      if Load(file).Ok? {
        LoadedGrid(lines, w, h);
      }
    }
  }

  /** The data lines parse exactly when each of them does. */
  lemma LoadRowsOk(lines: seq<string>, w: int, h: int)
    requires |lines| == h + 1 && h >= 0
    ensures ParseRows(lines[1..], w, 1).Ok? <==> forall i :: 1 <= i <= h ==> ParseRow(lines[i], w, i).Ok?
  {
    var data := lines[1..];
    assert forall i :: 1 <= i <= h ==> data[i - 1] == lines[i];
    ParseRowsOk(data, w, 1);
    if !ParseRows(data, w, 1).Ok? {
      var k :| 0 <= k < |data| && ParseRow(data[k], w, 1 + k).Err?;
      assert ParseRow(lines[k + 1], w, k + 1).Err?;
    }
  }

  /** Parsed data lines, padded, give a loaded landscape holding line i's values in row i. */
  lemma LoadedGrid(lines: seq<string>, w: int, h: int)
    requires |lines| == h + 1 && w > 0 && h > 0 && ParseRows(lines[1..], w, 1).Ok?
    ensures var g := Padded(w, h, ParseRows(lines[1..], w, 1).value);
      && Loaded(Landscape(w, h, g, Neighbours(g))) && Landscape(w, h, g, Neighbours(g)).Shaped()
      && (forall i :: 1 <= i <= h ==> |Split(lines[i])| == w)
      && forall i, j :: 1 <= i <= h && 1 <= j <= w ==> ParseInt(Split(lines[i])[j - 1]) == Some(g[i][j])
  {
    var data := lines[1..];
    ParseRowsOk(data, w, 1);
    var rows := ParseRows(data, w, 1).value;
    var g := Padded(w, h, rows);
    assert BorderZero(g);
    forall i | 1 <= i <= h
      ensures |Split(lines[i])| == w
      ensures forall j :: 1 <= j <= w ==> ParseInt(Split(lines[i])[j - 1]) == Some(g[i][j])
    {
      assert data[i - 1] == lines[i];
      assert Ok(rows[i - 1]) == ParseRow(data[i - 1], w, i);
    }
  }

  // ---------------------------------------------------------------- writing a map

  /** The tokens `str()` gives for the values of a row. */
  function Tokens(row: seq<int>): (tokens: seq<string>)
    ensures |tokens| == |row| && forall j :: 0 <= j < |row| ==> tokens[j] == IntToString(row[j])
  {
    seq(|row|, j requires 0 <= j < |row| => IntToString(row[j]))
  }

  /** A map file line: the values separated by single spaces, then a newline. */
  function RenderLine(row: seq<int>): string {
    Join(Tokens(row)) + "\n"
  }

  /** The lines of a map file: the header `w h`, then one line per data row. */
  function RenderLines(width: int, height: int, rows: seq<seq<int>>): (lines: seq<string>)
    ensures |lines| == |rows| + 1
  {
    [RenderLine([width, height])] + seq(|rows|, i requires 0 <= i < |rows| => RenderLine(rows[i]))
  }

  /** Line 0 of a map file is its header and line i + 1 its data row i. */
  lemma RenderLinesAt(width: int, height: int, rows: seq<seq<int>>)
    ensures RenderLines(width, height, rows)[0] == RenderLine([width, height])
    ensures forall i :: 0 <= i < |rows| ==> RenderLines(width, height, rows)[i + 1] == RenderLine(rows[i])
  {
  }

  /** The text of a map file. */
  function Render(width: int, height: int, rows: seq<seq<int>>): string {
    Concat(RenderLines(width, height, rows))
  }

  lemma {:induction false} JoinHasNoNewline(words: seq<string>)
    requires forall k, i :: 0 <= k < |words| && 0 <= i < |words[k]| ==> words[k][i] != '\n'
    ensures forall i :: 0 <= i < |Join(words)| ==> Join(words)[i] != '\n'
  {
    if |words| > 1 {
      JoinHasNoNewline(words[1..]);
      assert Join(words) == words[0] + " " + Join(words[1..]);
    }
  }

  /** A rendered line is one line of the file, and `split()` gives back the row's tokens. */
  lemma RenderLineSplits(row: seq<int>)
    ensures IsLine(RenderLine(row))
    ensures Split(RenderLine(row)) == Tokens(row)
  {
    var tokens := Tokens(row);
    assert forall k, i :: 0 <= k < |tokens| && 0 <= i < |tokens[k]| ==> tokens[k][i] == '-' || IsDigit(tokens[k][i]);
    JoinHasNoNewline(tokens);
    SplitJoin(tokens, "\n");
  }

  /** `int()` applied to the rendered tokens gives back the row. */
  lemma ParseTokens(row: seq<int>)
    ensures ParseInts(Tokens(row)) == Ok(row)
  {
    var r := ParseInts(Tokens(row));
    assert r.Ok?;
    assert r.value == row;
  }

  /** A rendered data line parses back to its row when the row holds `width` values, and fails naming its line otherwise. */
  lemma ParseRenderedRow(row: seq<int>, width: int, lineNo: nat)
    ensures ParseRow(RenderLine(row), width, lineNo) ==
            if |row| == width then Ok(row) else Err(RuntimeError(BadRowLength(lineNo)))
  {
    RenderLineSplits(row);
    ParseTokens(row);
  }

  /** A rendered file of positive size with as many rows as its height passes the preamble checks. */
  lemma RenderPreamble(width: int, height: int, rows: seq<seq<int>>)
    requires width > 0 && height > 0 && |rows| == height
    ensures Preamble(Some(Render(width, height, rows))) == Ok((RenderLines(width, height, rows), width, height))
  {
    RenderReadsBack(width, height, rows);
  }

  /** A rendered file reads back as its lines, and its header parses to the two sizes. */
  lemma RenderReadsBack(width: int, height: int, rows: seq<seq<int>>)
    ensures ReadLines(Render(width, height, rows)) == RenderLines(width, height, rows)
    ensures ParseHeader(RenderLines(width, height, rows)[0]) == Ok((width, height))
  {
    var lines := RenderLines(width, height, rows);
    RenderLinesAt(width, height, rows);
    forall k | 0 <= k < |lines|
      ensures IsLine(lines[k])
    {
      if k == 0 { RenderLineSplits([width, height]); } else { RenderLineSplits(rows[k - 1]); }
    }
    ReadLinesConcat(lines);
    RenderLineSplits([width, height]);
    ParseTokens([width, height]);
  }

  /** A header with a width or height that is not positive is rejected with both values. */
  lemma NonPositiveSize(width: int, height: int, rows: seq<seq<int>>)
    requires width <= 0 || height <= 0
    ensures Load(Some(Render(width, height, rows))) == Err(RuntimeError(BadDimensions(width, height)))
  {
    RenderReadsBack(width, height, rows);
  }

  /** A file with a number of data lines other than its height is rejected with both counts. */
  lemma WrongLineCount(width: int, height: int, rows: seq<seq<int>>)
    requires width > 0 && height > 0 && |rows| != height
    ensures Load(Some(Render(width, height, rows))) == Err(RuntimeError(LineCount(height, |rows|)))
  {
    RenderReadsBack(width, height, rows);
  }

  /**
   * Loading the text of a map of positive size whose rows each hold `width` integers gives
   * back exactly that map, padded, with its neighbour sums.
   */
  lemma LoadRender(width: int, height: int, rows: seq<seq<int>>)
    requires width > 0 && height > 0
    requires |rows| == height && forall i :: 0 <= i < height ==> |rows[i]| == width
    ensures Load(Some(Render(width, height, rows))) ==
            Ok(Landscape(width, height, Padded(width, height, rows), Neighbours(Padded(width, height, rows))))
  {
    var lines := RenderLines(width, height, rows);
    RenderLinesAt(width, height, rows);
    RenderPreamble(width, height, rows);
    var data := lines[1..];
    forall k | 0 <= k < |data|
      ensures ParseRow(data[k], width, 1 + k) == Ok(rows[k])
    {
      assert data[k] == RenderLine(rows[k]);
      ParseRenderedRow(rows[k], width, 1 + k);
    }
    ParseRowsOk(data, width, 1);
    var r := ParseRows(data, width, 1);
    assert r.Ok?;
    assert r.value == rows;
  }

  /** The all-land 10 x 20 file: width 10, height 20, a 22 x 12 grid with 1 at (1, 1) and 200 land squares. */
  lemma AllLandFileLoads()
    ensures var r := Load(Some(Render(10, 20, AllLand(10, 20))));
      && r.Ok? && r.value.width == 10 && r.value.height == 20
      && |r.value.grid| == 22 && |r.value.grid[0]| == 12 && r.value.grid[1][1] == 1
      && LandSquares(r.value.grid) == 200
  {
    LoadRender(10, 20, AllLand(10, 20));
    LandSquaresAllLand(10, 20);
  }

  /** A header whose first token is not an integer fails on that token, before any size check. */
  lemma BadHeaderToken(header: string, rest: string)
    requires IsLine(header)
    requires Split(header) != [] && ParseInt(Split(header)[0]).None?
    ensures Load(Some(header + rest)) == Err(RuntimeError(BadInteger(Split(header)[0])))
  {
    var text := header + rest;
    LineLengthOfLine(header, rest);
    assert text[..|header|] == header;
    var tokens := Split(header);
    var first := if |tokens| <= 3 then tokens else tokens[..3];
    assert first[0] == tokens[0];
  }

  /** The header `10a 20` is rejected with a RuntimeError naming `10a`. */
  lemma NonIntegerWidth(rest: string)
    ensures Load(Some("10a 20\n" + rest)) == Err(RuntimeError(BadInteger("10a")))
  {
    NonIntegerHeader();
    TenANotInteger();
    BadHeaderToken("10a 20\n", rest);
  }

  lemma NonIntegerHeader()
    ensures IsLine("10a 20\n") && Split("10a 20\n") == ["10a", "20"]
  {
    var a, b := "10a", "20";
    BadHeaderWords();
    JoinPair(a, b);
    assert a + " " + b + "\n" == "10a 20\n";
    SplitJoin([a, b], "\n");
    BadHeaderIsLine();
  }

  lemma TenANotInteger()
    ensures ParseInt("10a") == None
  {
    var t := "10a";
    assert t[2] == 'a' && !IsDigit(t[2]);
    assert t[0] == '1';
  }

  lemma BadHeaderWords()
    ensures IsWord("10a") && IsWord("20") && AllSpace("\n")
  {
    var a, b := "10a", "20";
    assert a[0] == '1' && a[1] == '0' && a[2] == 'a';
    assert b[0] == '2' && b[1] == '0';
  }

  lemma BadHeaderIsLine()
    ensures IsLine("10a 20\n")
  {
    var s := "10a 20\n";
    assert s[0] == '1' && s[1] == '0' && s[2] == 'a' && s[3] == ' ' && s[4] == '2' && s[5] == '0';
  }

  /** Two words joined by `" ".join`. */
  lemma JoinPair(a: string, b: string)
    ensures Join([a, b]) == a + " " + b
  {
    assert [a, b][1..] == [b];
  }

  /** A data line with a number of integers other than `w` fails, naming that line. */
  lemma ShortRow(width: int, height: int, rows: seq<seq<int>>, k: nat)
    requires width > 0 && height > 0 && |rows| == height
    requires k < height && |rows[k]| != width
    requires forall i :: 0 <= i < k ==> |rows[i]| == width
    ensures Load(Some(Render(width, height, rows))) == Err(RuntimeError(BadRowLength(k + 1)))
  {
    var lines := RenderLines(width, height, rows);
    RenderLinesAt(width, height, rows);
    RenderPreamble(width, height, rows);
    RenderedRowsFail(lines[1..], rows, width, k);
  }

  lemma RenderedRowsFail(data: seq<string>, rows: seq<seq<int>>, width: int, k: nat)
    requires |data| == |rows| && forall i :: 0 <= i < |rows| ==> data[i] == RenderLine(rows[i])
    requires k < |rows| && |rows[k]| != width
    requires forall i :: 0 <= i < k ==> |rows[i]| == width
    ensures ParseRows(data, width, 1) == Err(RuntimeError(BadRowLength(k + 1)))
  {
    RenderedRowsParse(data, rows, width, k);
    ParseRenderedRow(rows[k], width, 1 + k);
    assert ParseRow(data[k], width, 1 + k) == Err(RuntimeError(BadRowLength(k + 1)));
    FirstBadRow(data, width, 1, k);
  }

  lemma RenderedRowsParse(data: seq<string>, rows: seq<seq<int>>, width: int, k: nat)
    requires |data| == |rows| && forall i :: 0 <= i < |rows| ==> data[i] == RenderLine(rows[i])
    requires k <= |rows| && forall i :: 0 <= i < k ==> |rows[i]| == width
    ensures forall i :: 0 <= i < k ==> ParseRow(data[i], width, 1 + i).Ok?
  {
    forall i | 0 <= i < k
      ensures ParseRow(data[i], width, 1 + i).Ok?
    {
      ParseRenderedRow(rows[i], width, 1 + i);
    }
  }

  /** Parsing the data lines stops at the first line that fails, with that line's error. */
  lemma {:induction false} FirstBadRow(data: seq<string>, width: int, firstLine: nat, k: nat)
    requires k < |data|
    requires forall i :: 0 <= i < k ==> ParseRow(data[i], width, firstLine + i).Ok?
    requires ParseRow(data[k], width, firstLine + k).Err?
    ensures ParseRows(data, width, firstLine) == Err(ParseRow(data[k], width, firstLine + k).error)
    decreases k
  {
    FirstBadRowFrom(data, width, firstLine, 0, k);
    assert data[0..] == data;
  }

  lemma {:induction false} FirstBadRowFrom(data: seq<string>, width: int, firstLine: nat, s: nat, k: nat)
    requires s <= k < |data|
    requires forall i :: s <= i < k ==> ParseRow(data[i], width, firstLine + i).Ok?
    requires ParseRow(data[k], width, firstLine + k).Err?
    ensures ParseRows(data[s..], width, firstLine + s) == Err(ParseRow(data[k], width, firstLine + k).error)
    decreases k - s
  {
    if s < k {
      FirstBadRowFrom(data, width, firstLine, s + 1, k);
    }
    ParseRowsFrom(data, width, firstLine, s);
  }

  /** Parsing from line s: line s's error, or line s's row followed by parsing from line s + 1. */
  lemma ParseRowsFrom(data: seq<string>, width: int, firstLine: nat, s: nat)
    requires s < |data|
    ensures ParseRow(data[s], width, firstLine + s).Err? ==>
              ParseRows(data[s..], width, firstLine + s) == Err(ParseRow(data[s], width, firstLine + s).error)
    ensures ParseRow(data[s], width, firstLine + s).Ok? && ParseRows(data[s + 1..], width, firstLine + (s + 1)).Err? ==>
              ParseRows(data[s..], width, firstLine + s) == ParseRows(data[s + 1..], width, firstLine + (s + 1))
  {
    var tail := data[s..];
    assert tail[0] == data[s];
    assert tail[1..] == data[s + 1..];
  }
}
