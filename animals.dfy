/**
 * One animal species (predator_prey/Animal.py): three validated rates, a landscape and a
 * population field the size of the padded landscape grid, seeded from the random generator.
 */
module Animals {
  import opened Errors
  import opened Grids
  import opened Habitat

  /** The class of an animal object: the `Mice` and `Fox` subclasses, or a plain `AnimalModel` with its `animal_type`. */
  datatype Species = Mice | Fox | Plain(animalType: string)

  /**
   * The values `random.uniform(0, 5.0)` returns one after another once the generator has
   * been reseeded: draw k is the k-th call's result.
   */
  type Draws = nat -> real

  /** Every draw lies in [0, 5.0], as `random.uniform(0, 5.0)` promises. */
  ghost predicate UniformDraws(draws: Draws) {
    forall k: nat :: 0.0 <= draws(k) <= 5.0
  }

  // ---------------------------------------------------------------- rates

  /** `validate_rate`: the rate itself when it lies in [0, 1], else a ValueError. */
  function ValidateRate(rate: real): (r: Result<real>)
    ensures r.Ok? <==> 0.0 <= rate <= 1.0
    ensures r.Ok? ==> r.value == rate
    ensures r.Err? ==> r.error == ValueError(RateOutOfRange)
  {
    if 0.0 <= rate <= 1.0 then Ok(rate) else Err(ValueError(RateOutOfRange))
  }

  datatype Rates = Rates(diffusion: real, birth: real, death: real)

  /** The constructor's checks: diffusion, then birth, then death rate; the first bad one raises. */
  function CheckRates(diffusion: real, birth: real, death: real): (r: Result<Rates>)
    ensures r.Ok? <==> 0.0 <= diffusion <= 1.0 && 0.0 <= birth <= 1.0 && 0.0 <= death <= 1.0
    ensures r.Ok? ==> r.value == Rates(diffusion, birth, death)
    ensures r.Err? ==> r.error == ValueError(RateOutOfRange)
  {
    match ValidateRate(diffusion)
    case Err(e) => Err(e)
    case Ok(d) =>
      match ValidateRate(birth)
      case Err(e) => Err(e)
      case Ok(b) =>
        match ValidateRate(death)
        case Err(e) => Err(e)
        case Ok(dr) => Ok(Rates(d, b, dr))
  }

  // ---------------------------------------------------------------- maximum and sum

  function RowMax(row: seq<real>): real
    requires |row| > 0
  {
    if |row| == 1 then row[0]
    else
      var m := RowMax(row[1..]);
      if row[0] >= m then row[0] else m
  }

  function RowsMax(g: Grid): real
    requires |g| > 0 && Rect(g) && Width(g) > 0
  {
    var first := RowMax(g[0]);
    if |g| == 1 then first
    else
      assert Width(g[1..]) == Width(g);
      var m := RowsMax(g[1..]);
      if first >= m then first else m
  }

  /** `np.max` of a whole grid: its largest value, or a ValueError when the grid has no cells. */
  function GridMax(g: Grid): (r: Result<real>)
    requires Rect(g)
    ensures r.Err? <==> |g| == 0 || Width(g) == 0
    ensures r.Err? ==> r.error == ValueError(EmptyArray)
  {
    if |g| == 0 || Width(g) == 0 then Err(ValueError(EmptyArray)) else Ok(RowsMax(g))
  }

  /** The maximum of a row is one of its values and no value exceeds it. */
  lemma {:induction false} RowMaxIsMax(row: seq<real>)
    requires |row| > 0
    ensures RowMax(row) in row
    ensures forall j :: 0 <= j < |row| ==> row[j] <= RowMax(row)
  {
    if |row| > 1 {
      RowMaxIsMax(row[1..]);
      forall j | 1 <= j < |row|
        ensures row[j] <= RowMax(row)
      {
        assert row[j] == row[1..][j - 1];
      }
    }
  }

  /** The maximum of the rows is a cell of the grid and no cell exceeds it. */
  lemma {:induction false} RowsMaxIsMax(g: Grid)
    requires |g| > 0 && Rect(g) && Width(g) > 0
    ensures exists i, j :: 0 <= i < |g| && 0 <= j < Width(g) && g[i][j] == RowsMax(g)
    ensures forall i, j :: 0 <= i < |g| && 0 <= j < Width(g) ==> g[i][j] <= RowsMax(g)
  {
    RowMaxIsMax(g[0]);
    var j0 :| 0 <= j0 < |g[0]| && g[0][j0] == RowMax(g[0]);
    if |g| > 1 {
      var rest := g[1..];
      assert Width(rest) == Width(g);
      RowsMaxIsMax(rest);
      var i1, j1 :| 0 <= i1 < |rest| && 0 <= j1 < Width(rest) && rest[i1][j1] == RowsMax(rest);
      assert g[i1 + 1][j1] == RowsMax(rest);
      forall i, j | 0 <= i < |g| && 0 <= j < Width(g)
        ensures g[i][j] <= RowsMax(g)
      {
        if i > 0 {
          assert g[i] == rest[i - 1];
        }
      }
    }
  }

  /** A grid with cells has its maximum among them, and no cell exceeds it. */
  lemma GridMaxIsMax(g: Grid)
    requires Rect(g) && GridMax(g).Ok?
    ensures exists i, j :: 0 <= i < |g| && 0 <= j < Width(g) && g[i][j] == GridMax(g).value
    ensures forall i, j :: 0 <= i < |g| && 0 <= j < Width(g) ==> g[i][j] <= GridMax(g).value
  {
    RowsMaxIsMax(g);
  }

  function RowSum(row: seq<real>): real {
    if row == [] then 0.0 else row[0] + RowSum(row[1..])
  }

  /** `np.sum` of a whole grid. */
  function GridSum(g: Grid): real {
    if g == [] then 0.0 else RowSum(g[0]) + GridSum(g[1..])
  }

  /** `calculate_average(nlands)` on a field: its sum divided by `nlands`, or 0 when `nlands` is 0. */
  function Average(g: Grid, nlands: int): real {
    if nlands != 0 then GridSum(g) / nlands as real else 0.0
  }

  /** The average times the land count gives back the sum; with no land squares it is 0. */
  lemma AverageTimesCount(g: Grid, nlands: int)
    ensures nlands != 0 ==> Average(g, nlands) * nlands as real == GridSum(g)
    ensures nlands == 0 ==> Average(g, nlands) == 0.0
  {
  }

  lemma {:induction false} RowSumNonnegative(row: seq<real>)
    requires forall j :: 0 <= j < |row| ==> row[j] >= 0.0
    ensures RowSum(row) >= 0.0
  {
    if row != [] {
      RowSumNonnegative(row[1..]);
    }
  }

  /** A field with no negative cell has a sum that is not negative. */
  lemma {:induction false} GridSumNonnegative(g: Grid)
    requires forall i, j :: 0 <= i < |g| && 0 <= j < |g[i]| ==> g[i][j] >= 0.0
    ensures GridSum(g) >= 0.0
  {
    if g != [] {
      RowSumNonnegative(g[0]);
      GridSumNonnegative(g[1..]);
    }
  }

  lemma {:induction false} RowSumUniform(row: seq<real>, v: real)
    requires forall j :: 0 <= j < |row| ==> row[j] == v
    ensures RowSum(row) == v * |row| as real
  {
    if row != [] {
      RowSumUniform(row[1..], v);
    }
  }

  /** A field holding one value `v` in each of its rows x cols cells sums to v * rows * cols. */
  lemma {:induction false} GridSumUniform(g: Grid, cols: nat, v: real)
    requires IsRect(g, |g|, cols)
    requires forall i, j :: 0 <= i < |g| && 0 <= j < cols ==> g[i][j] == v
    ensures GridSum(g) == v * (|g| * cols) as real
  {
    if g != [] {
      RowSumUniform(g[0], v);
      GridSumUniform(g[1..], cols, v);
    }
  }

  /** The 3 x 3 field holding 0 to 8 row by row. */
  function CountingGrid(): Grid {
    [[0.0, 1.0, 2.0], [3.0, 4.0, 5.0], [6.0, 7.0, 8.0]]
  }

  /** Its maximum is 8 and its sum 36. */
  lemma CountingGridValues()
    ensures GridMax(CountingGrid()) == Ok(8.0)
    ensures GridSum(CountingGrid()) == 36.0
  {
    var g := CountingGrid();
    GridSumOfThree(g[0], g[1], g[2]);
    RowSumOfThree(0.0, 1.0, 2.0);
    RowSumOfThree(3.0, 4.0, 5.0);
    RowSumOfThree(6.0, 7.0, 8.0);
    forall i, j | 0 <= i < 3 && 0 <= j < 3
      ensures g[i][j] <= 8.0
    {
      if i == 0 {
      } else if i == 1 {
      }
    }
    GridMaxIs(g, 8.0, 2, 2);
  }

  lemma RowSumOfThree(a: real, b: real, c: real)
    ensures RowSum([a, b, c]) == a + b + c
  {
    assert [a, b, c][1..] == [b, c];
    assert [b, c][1..] == [c];
    assert [c][1..] == [];
    assert RowSum([c]) == c;
    assert RowSum([b, c]) == b + c;
  }

  lemma GridSumOfThree(r0: seq<real>, r1: seq<real>, r2: seq<real>)
    ensures GridSum([r0, r1, r2]) == RowSum(r0) + RowSum(r1) + RowSum(r2)
  {
    assert [r0, r1, r2][1..] == [r1, r2];
    assert [r1, r2][1..] == [r2];
    assert [r2][1..] == [];
    assert GridSum([r2]) == RowSum(r2);
    assert GridSum([r1, r2]) == RowSum(r1) + RowSum(r2);
  }

  /** A value present in the grid that no cell exceeds is its maximum. */
  lemma GridMaxIs(g: Grid, m: real, i0: int, j0: int)
    requires Rect(g) && 0 <= i0 < |g| && 0 <= j0 < Width(g) && g[i0][j0] == m
    requires forall i, j :: 0 <= i < |g| && 0 <= j < Width(g) ==> g[i][j] <= m
    ensures GridMax(g) == Ok(m)
  {
    var r := GridMax(g);
    GridMaxIsMax(g);
    var i, j :| 0 <= i < |g| && 0 <= j < Width(g) && g[i][j] == r.value;
  }

  // ---------------------------------------------------------------- initial population

  /** Cell (x, y) lies inside the outer ring of the grid, where the initialisation loop runs. */
  predicate Interior(g: seq<seq<int>>, x: int, y: int) {
    1 <= x < |g| - 1 && 1 <= y < Width(g) - 1
  }

  /** The number of nonzero values among `row[1..y]`. */
  function LandInRow(row: seq<int>, y: int): nat
    requires y <= 1 || y <= |row|
  {
    if y <= 1 then 0 else LandInRow(row, y - 1) + (if row[y - 1] != 0 then 1 else 0)
  }

  /** The number of nonzero interior cells in the grid rows 1 .. x-1. */
  function LandRowsBefore(g: seq<seq<int>>, x: int): nat
    requires Rect(g) && (x <= 1 || x <= |g|)
  {
    if x <= 1 then 0 else LandRowsBefore(g, x - 1) + LandInRow(g[x - 1], Width(g) - 1)
  }

  /** The number of nonzero interior cells: how many draws a seeded initialisation consumes. */
  function LandCount(g: seq<seq<int>>): nat
    requires Rect(g)
  {
    if |g| == 0 then 0 else LandRowsBefore(g, |g| - 1)
  }

  /**
   * Which draw a habitable interior cell receives: the number of habitable interior cells
   * that come before it in row-major order.
   */
  function DrawIndex(g: seq<seq<int>>, x: int, y: int): nat
    requires Rect(g) && 0 <= x < |g| && (y <= 1 || y <= Width(g))
  {
    LandRowsBefore(g, x) + LandInRow(g[x], y)
  }

  /** The value `initialize_population` leaves in cell (x, y). */
  function InitialCell(seed: int, draws: Draws, g: seq<seq<int>>, x: int, y: int): real
    requires Rect(g) && 0 <= x < |g| && 0 <= y < Width(g)
  {
    if !Interior(g, x, y) then g[x][y] as real
    else if seed == 0 then 0.0
    else if g[x][y] != 0 then draws(DrawIndex(g, x, y))
    else 0.0
  }

  /** The whole field `initialize_population` returns for grid `g` after reseeding with `seed`. */
  function InitialPopulation(seed: int, draws: Draws, g: seq<seq<int>>): (p: Grid)
    requires Rect(g)
    ensures IsRect(p, |g|, Width(g))
    ensures forall x, y :: 0 <= x < |g| && 0 <= y < Width(g) ==> p[x][y] == InitialCell(seed, draws, g, x, y)
  {
    seq(|g|, x requires 0 <= x < |g| =>
      seq(Width(g), y requires 0 <= y < Width(g) => InitialCell(seed, draws, g, x, y)))
  }

  lemma {:induction false} LandInRowMonotone(row: seq<int>, y1: int, y2: int)
    requires y1 <= y2 <= |row|
    ensures LandInRow(row, y1) <= LandInRow(row, y2)
    decreases y2 - y1
  {
    if y1 < y2 {
      LandInRowMonotone(row, y1, y2 - 1);
    }
  }

  lemma {:induction false} LandRowsMonotone(g: seq<seq<int>>, x1: int, x2: int)
    requires Rect(g) && 1 <= x1 < x2 <= |g|
    ensures LandRowsBefore(g, x1) + LandInRow(g[x1], Width(g) - 1) <= LandRowsBefore(g, x2)
    decreases x2 - x1
  {
    if x1 + 1 < x2 {
      LandRowsMonotone(g, x1, x2 - 1);
    }
  }

  /**
   * Draws go out in row-major order, one per habitable interior cell: a habitable cell gets
   * an earlier draw than every interior cell after it, so no two cells share a draw.
   */
  lemma DrawsInOrder(g: seq<seq<int>>, x1: int, y1: int, x2: int, y2: int)
    requires Rect(g) && Interior(g, x1, y1) && Interior(g, x2, y2) && g[x1][y1] != 0
    requires x1 < x2 || (x1 == x2 && y1 < y2)
    ensures DrawIndex(g, x1, y1) < DrawIndex(g, x2, y2)
  {
    var w := Width(g);
    assert LandInRow(g[x1], y1 + 1) == LandInRow(g[x1], y1) + 1;
    if x1 == x2 {
      LandInRowMonotone(g[x1], y1 + 1, y2);
    } else {
      LandInRowMonotone(g[x1], y1 + 1, w - 1);
      LandRowsMonotone(g, x1, x2);
    }
  }

  /** Every draw a cell receives is one of the first `LandCount(g)`. */
  lemma DrawBelowCount(g: seq<seq<int>>, x: int, y: int)
    requires Rect(g) && Interior(g, x, y) && g[x][y] != 0
    ensures DrawIndex(g, x, y) < LandCount(g)
  {
    var w := Width(g);
    assert LandInRow(g[x], y + 1) == LandInRow(g[x], y) + 1;
    LandInRowMonotone(g[x], y + 1, w - 1);
    if x + 1 < |g| - 1 {
      LandRowsMonotone(g, x, |g| - 1);
    }
  }

  /**
   * With seed 0 every interior cell is 0; with any seed every other cell keeps the grid's
   * value as a float.
   */
  lemma SeedZero(draws: Draws, g: seq<seq<int>>)
    requires Rect(g)
    ensures forall x, y :: 0 <= x < |g| && 0 <= y < Width(g) ==>
              InitialPopulation(0, draws, g)[x][y] == if Interior(g, x, y) then 0.0 else g[x][y] as real
  {
  }

  /** The grid [[0, 1], [1, 0]] has no interior, so seed 0 leaves [[0.0, 1.0], [1.0, 0.0]]. */
  lemma SeedZeroTwoByTwo(draws: Draws)
    ensures InitialPopulation(0, draws, [[0, 1], [1, 0]]) == [[0.0, 1.0], [1.0, 0.0]]
  {
    var p := InitialPopulation(0, draws, [[0, 1], [1, 0]]);
    CellwiseEqual(p, [[0.0, 1.0], [1.0, 0.0]], 2, 2);
  }

  /**
   * With uniform draws every interior cell lies in [0, 5.0], and a seeded habitable cell
   * holds its own draw; with a grid that is not negative, no cell is.
   */
  lemma InitialBounds(seed: int, draws: Draws, g: seq<seq<int>>)
    requires Rect(g) && UniformDraws(draws)
    ensures forall x, y :: Interior(g, x, y) ==> 0.0 <= InitialPopulation(seed, draws, g)[x][y] <= 5.0
    ensures (forall x, y :: 0 <= x < |g| && 0 <= y < Width(g) ==> g[x][y] >= 0) ==>
              forall x, y :: 0 <= x < |g| && 0 <= y < Width(g) ==> InitialPopulation(seed, draws, g)[x][y] >= 0.0
  {
    var p := InitialPopulation(seed, draws, g);
    forall x, y | Interior(g, x, y)
      ensures 0.0 <= p[x][y] <= 5.0
    {
      if seed != 0 && g[x][y] != 0 {
        assert p[x][y] == draws(DrawIndex(g, x, y));
      }
    }
  }

  /**
   * `initialize_population`: a float copy of the grid whose interior cells are overwritten
   * row by row, drawing once per habitable cell when the seed is not 0.
   */
  method InitializePopulation(seed: int, draws: Draws, g: seq<seq<int>>) returns (population: array2<real>)
    requires Rect(g)
    ensures fresh(population)
    ensures Cells(population) == InitialPopulation(seed, draws, g)
  {
    var rows, cols := |g|, Width(g);
    population := new real[rows, cols]((i, j) requires 0 <= i < rows && 0 <= j < cols => g[i][j] as real);
    InitializeInterior(population, seed, draws, g);
  }

  /** The loop of `initialize_population` over the interior rows of a fresh float copy of the grid. */
  method InitializeInterior(population: array2<real>, seed: int, draws: Draws, g: seq<seq<int>>)
    requires Rect(g) && population.Length0 == |g| && population.Length1 == Width(g)
    requires forall i, j :: 0 <= i < |g| && 0 <= j < Width(g) ==> population[i, j] == g[i][j] as real
    modifies population
    ensures Cells(population) == InitialPopulation(seed, draws, g)
  {
    var rows, cols := |g|, Width(g);
    var k: nat := 0;
    var x := 1;
    while x < rows - 1
      invariant 1 <= x <= if rows >= 2 then rows - 1 else 1
      invariant k == if seed == 0 then 0 else LandRowsBefore(g, x)
      invariant forall i, j :: 0 <= i < x && 0 <= j < cols ==> population[i, j] == InitialCell(seed, draws, g, i, j)
      invariant forall i, j :: x <= i < rows && 0 <= j < cols ==> population[i, j] == g[i][j] as real
    {
      k := InitializeRow(population, seed, draws, g, x, k);
      x := x + 1;
    }
    CellwiseEqual(Cells(population), InitialPopulation(seed, draws, g), rows, cols);
  }

  /**
   * The inner loop of `initialize_population` over row `x`: `k` counts the draws taken so
   * far and comes back advanced by one per habitable cell of the row.
   */
  method InitializeRow(population: array2<real>, seed: int, draws: Draws, g: seq<seq<int>>, x: int, k0: nat)
    returns (k: nat)
    requires Rect(g) && population.Length0 == |g| && population.Length1 == Width(g)
    requires 1 <= x < |g| - 1
    requires k0 == if seed == 0 then 0 else LandRowsBefore(g, x)
    requires forall j :: 0 <= j < Width(g) ==> population[x, j] == g[x][j] as real
    modifies population
    ensures k == if seed == 0 then 0 else LandRowsBefore(g, x + 1)
    ensures forall j :: 0 <= j < Width(g) ==> population[x, j] == InitialCell(seed, draws, g, x, j)
    ensures forall i, j :: 0 <= i < |g| && 0 <= j < Width(g) && i != x ==> population[i, j] == old(population[i, j])
  {
    var cols: int := Width(g);
    k := k0;
    var y := 1;
    while y < cols - 1
      invariant 1 <= y <= if cols >= 2 then cols - 1 else 1
      invariant seed == 0 ==> k == 0
      invariant seed != 0 ==> k == DrawIndex(g, x, y)
      invariant forall j :: 0 <= j < y && j < cols ==> population[x, j] == InitialCell(seed, draws, g, x, j)
      invariant forall j :: y <= j < cols ==> population[x, j] == g[x][j] as real
      invariant forall i, j :: 0 <= i < |g| && 0 <= j < cols && i != x ==> population[i, j] == old(population[i, j])
    {
      k := InitializeCell(population, seed, draws, g, x, y, k);
      y := y + 1;
    }
    RowEnd(g, x, y);
  }

  /** After the last interior cell of row x the draw index is the count of habitable interior cells in rows 1 .. x. */
  lemma RowEnd(g: seq<seq<int>>, x: int, y: int)
    requires Rect(g) && 1 <= x < |g| - 1
    requires y == if Width(g) >= 2 then Width(g) - 1 else 1
    ensures DrawIndex(g, x, y) == LandRowsBefore(g, x + 1)
  {
    assert LandRowsBefore(g, x + 1) == LandRowsBefore(g, x) + LandInRow(g[x], Width(g) - 1);
  }

  /** One step of the inner loop of `initialize_population`: cell (x, y) gets its initial value, taking draw `k0` if it needs one. */
  method InitializeCell(population: array2<real>, seed: int, draws: Draws, g: seq<seq<int>>, x: int, y: int, k0: nat)
    returns (k: nat)
    requires Rect(g) && population.Length0 == |g| && population.Length1 == Width(g)
    requires Interior(g, x, y)
    requires seed == 0 ==> k0 == 0
    requires seed != 0 ==> k0 == DrawIndex(g, x, y)
    modifies population
    ensures seed == 0 ==> k == 0
    ensures seed != 0 ==> k == DrawIndex(g, x, y + 1)
    ensures population[x, y] == InitialCell(seed, draws, g, x, y)
    ensures forall i, j :: 0 <= i < |g| && 0 <= j < Width(g) && (i != x || j != y) ==> population[i, j] == old(population[i, j])
  {
    k := k0;
    var v := 0.0;
    if seed != 0 && g[x][y] != 0 {
      v := draws(k);
      k := k + 1;
    }
    DrawIndexStep(g, x, y);
    population[x, y] := v;
  }

  /** Moving one cell right within a row advances the draw index by one exactly when the cell left behind is habitable. */
  lemma DrawIndexStep(g: seq<seq<int>>, x: int, y: int)
    requires Rect(g) && 0 <= x < |g| && 1 <= y < Width(g)
    ensures DrawIndex(g, x, y + 1) == DrawIndex(g, x, y) + (if g[x][y] != 0 then 1 else 0)
  {
  }

  // ---------------------------------------------------------------- the animal object

  /** `AnimalModel` (and its `Mice` and `Fox` subclasses): set once by the constructor. */
  class AnimalModel {
    const seed: int
    const diffusionRate: real
    const birthRate: real
    const deathRate: real
    const landscape: Landscape
    const population: array2<real>
    const species: Species

    constructor (seed: int, rates: Rates, landscape: Landscape, population: array2<real>, species: Species)
      ensures this.seed == seed && this.landscape == landscape && this.population == population
      ensures this.species == species
      ensures diffusionRate == rates.diffusion && birthRate == rates.birth && deathRate == rates.death
    {
      this.seed := seed;
      this.diffusionRate := rates.diffusion;
      this.birthRate := rates.birth;
      this.deathRate := rates.death;
      this.landscape := landscape;
      this.population := population;
      this.species := species;
    }

    /**
     * `AnimalModel(seed, diffusion_rate, birth_rate, death_rate, landscape, animal_type)`:
     * the three rates are checked before anything else, then the population is built from
     * the draws the generator gives after reseeding with `seed`.
     */
    static method Create(seed: int, diffusion: real, birth: real, death: real, landscape: Landscape,
                         species: Species, generator: int -> Draws) returns (r: Result<AnimalModel>)
      requires Rect(landscape.grid)
      ensures r.Err? <==> CheckRates(diffusion, birth, death).Err?
      ensures r.Err? ==> r.error == ValueError(RateOutOfRange)
      ensures r.Ok? ==> fresh(r.value) && fresh(r.value.population)
      ensures r.Ok? ==> var m := r.value;
        && m.seed == seed && m.landscape == landscape && m.species == species
        && m.diffusionRate == diffusion && m.birthRate == birth && m.deathRate == death
        && Cells(m.population) == InitialPopulation(seed, generator(seed), landscape.grid)
    {
      var rates := CheckRates(diffusion, birth, death);
      if rates.Err? {
        return Err(rates.error);
      }
      var population := InitializePopulation(seed, generator(seed), landscape.grid);
      var m := new AnimalModel(seed, rates.value, landscape, population, species);
      return Ok(m);
    }

    /** `calculate_max`: the largest population value over the whole field. */
    function CalculateMax(): (r: Result<real>)
      reads population
      ensures r.Err? <==> population.Length0 == 0 || population.Length1 == 0
      ensures r.Err? ==> r.error == ValueError(EmptyArray)
      ensures r.Ok? ==> exists i, j :: 0 <= i < population.Length0 && 0 <= j < population.Length1 &&
                                       population[i, j] == r.value
      ensures r.Ok? ==> forall i, j :: 0 <= i < population.Length0 && 0 <= j < population.Length1 ==>
                                       population[i, j] <= r.value
    {
      var g := Cells(population);
      var r := GridMax(g);
      if r.Ok? then
        GridMaxIsMax(g);
        var i, j :| 0 <= i < |g| && 0 <= j < Width(g) && g[i][j] == r.value;
        assert population[i, j] == r.value;
        r
      else r
    }

    /** `calculate_average(nlands)`: the field's sum divided by `nlands`, or 0 when `nlands` is 0. */
    function CalculateAverage(nlands: int): (r: real)
      reads population
      ensures nlands != 0 ==> r * nlands as real == GridSum(Cells(population))
      ensures nlands == 0 ==> r == 0.0
    {
      AverageTimesCount(Cells(population), nlands);
      Average(Cells(population), nlands)
    }

    /** `validate_coordinates`: true inside the padded grid's shape, else an IndexError. */
    function ValidateCoordinates(coords: (int, int)): (r: Result<bool>)
      ensures r.Ok? <==> 0 <= coords.0 < |landscape.grid| && 0 <= coords.1 < Width(landscape.grid)
      ensures r.Ok? ==> r.value
      ensures r.Err? ==> r.error == IndexError
    {
      if 0 <= coords.0 < |landscape.grid| && 0 <= coords.1 < Width(landscape.grid) then Ok(true)
      else Err(IndexError)
    }
  }

  /** On the 3 x 3 field holding 0 to 8 the maximum is 8 and the average over 9 cells is 4. */
  lemma CountingGridModel(m: AnimalModel)
    requires Cells(m.population) == CountingGrid()
    ensures m.CalculateMax() == Ok(8.0)
    ensures m.CalculateAverage(9) == 4.0
  {
    CountingGridValues();
    var r := m.CalculateMax();
    assert m.population[2, 2] == 8.0;
  }
}
