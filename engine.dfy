/**
 * The simulation step (predator_prey/Simulation.py): two population buffers per species,
 * a per-cell reaction-diffusion update that reads the `current` buffers and writes the
 * `next` ones, and a swap of the two at the end of every run.
 */
module Engine {
  import opened Errors
  import opened Grids
  import opened Habitat
  import opened Animals

  /** The contents of the four buffers. */
  datatype Buffers = Buffers(currentMice: Grid, nextMice: Grid, currentFox: Grid, nextFox: Grid)

  /** All four buffers have the padded shape of the landscape. */
  predicate Fits(s: Buffers, ls: Landscape) {
    && ls.Shaped()
    && IsRect(s.currentMice, ls.height + 2, ls.width + 2)
    && IsRect(s.nextMice, ls.height + 2, ls.width + 2)
    && IsRect(s.currentFox, ls.height + 2, ls.width + 2)
    && IsRect(s.nextFox, ls.height + 2, ls.width + 2)
  }

  /** No cell of any buffer is negative. */
  predicate Nonnegative(s: Buffers) {
    && (forall i, j :: 0 <= i < |s.currentMice| && 0 <= j < |s.currentMice[i]| ==> s.currentMice[i][j] >= 0.0)
    && (forall i, j :: 0 <= i < |s.nextMice| && 0 <= j < |s.nextMice[i]| ==> s.nextMice[i][j] >= 0.0)
    && (forall i, j :: 0 <= i < |s.currentFox| && 0 <= j < |s.currentFox[i]| ==> s.currentFox[i][j] >= 0.0)
    && (forall i, j :: 0 <= i < |s.nextFox| && 0 <= j < |s.nextFox[i]| ==> s.nextFox[i][j] >= 0.0)
  }

  /** The rates an animal object carries. */
  function RatesOf(a: AnimalModel): Rates {
    Rates(a.diffusionRate, a.birthRate, a.deathRate)
  }

  /** Python's `max(0, v)`. */
  function Max0(v: real): (r: real)
    ensures r >= 0.0 && r >= v && (r == v || r == 0.0)
  {
    if v > 0.0 then v else 0.0
  }

  /** `calculate_diffusion` (the definition at line 106): the cross sum less neighbours[x, y] times the cell, scaled by the rate. */
  function Diffusion(c: Grid, nb: seq<seq<int>>, x: int, y: int, rate: real): real
    requires Rect(c) && 1 <= x < |c| - 1 && 1 <= y < Width(c) - 1
    requires x < |nb| && y < |nb[x]|
  {
    rate * (c[x - 1][y] + c[x + 1][y] + c[x][y - 1] + c[x][y + 1] - nb[x][y] as real * c[x][y])
  }

  /** The value `update_mice_population` writes at (x, y): births, minus deaths by foxes, plus diffusion, floored at 0. */
  function MouseNext(m: Grid, f: Grid, nb: seq<seq<int>>, rates: Rates, dt: real, x: int, y: int): (r: real)
    requires Rect(m) && 1 <= x < |m| - 1 && 1 <= y < Width(m) - 1
    requires x < |f| && y < |f[x]| && x < |nb| && y < |nb[x]|
    ensures r >= 0.0
  {
    var births := rates.birth * m[x][y];
    var deaths := rates.death * m[x][y] * f[x][y];
    Max0(m[x][y] + dt * (births - deaths + Diffusion(m, nb, x, y, rates.diffusion)))
  }

  /** The value `update_fox_population` writes at (x, y): births from eating mice, minus deaths, plus diffusion, floored at 0. */
  function FoxNext(m: Grid, f: Grid, nb: seq<seq<int>>, rates: Rates, dt: real, x: int, y: int): (r: real)
    requires Rect(f) && 1 <= x < |f| - 1 && 1 <= y < Width(f) - 1
    requires x < |m| && y < |m[x]| && x < |nb| && y < |nb[x]|
    ensures r >= 0.0
  {
    var births := rates.birth * m[x][y] * f[x][y];
    var deaths := rates.death * f[x][y];
    Max0(f[x][y] + dt * (births - deaths + Diffusion(f, nb, x, y, rates.diffusion)))
  }

  /** The next-mice buffer once `run` has visited every cell: land cells updated, all others as they were. */
  function WrittenMice(s: Buffers, ls: Landscape, rates: Rates, dt: real): (g: Grid)
    requires Fits(s, ls)
    ensures IsRect(g, ls.height + 2, ls.width + 2)
    ensures forall i, j :: 0 <= i < ls.height + 2 && 0 <= j < ls.width + 2 ==>
              g[i][j] == if ls.IsLand(i, j) then MouseNext(s.currentMice, s.currentFox, ls.neighbours, rates, dt, i, j)
                         else s.nextMice[i][j]
  {
    seq(ls.height + 2, i requires 0 <= i < ls.height + 2 =>
      seq(ls.width + 2, j requires 0 <= j < ls.width + 2 =>
        if ls.IsLand(i, j) then MouseNext(s.currentMice, s.currentFox, ls.neighbours, rates, dt, i, j)
        else s.nextMice[i][j]))
  }

  /** The next-fox buffer once `run` has visited every cell. */
  function WrittenFox(s: Buffers, ls: Landscape, rates: Rates, dt: real): (g: Grid)
    requires Fits(s, ls)
    ensures IsRect(g, ls.height + 2, ls.width + 2)
    ensures forall i, j :: 0 <= i < ls.height + 2 && 0 <= j < ls.width + 2 ==>
              g[i][j] == if ls.IsLand(i, j) then FoxNext(s.currentMice, s.currentFox, ls.neighbours, rates, dt, i, j)
                         else s.nextFox[i][j]
  {
    seq(ls.height + 2, i requires 0 <= i < ls.height + 2 =>
      seq(ls.width + 2, j requires 0 <= j < ls.width + 2 =>
        if ls.IsLand(i, j) then FoxNext(s.currentMice, s.currentFox, ls.neighbours, rates, dt, i, j)
        else s.nextFox[i][j]))
  }

  /** One `run`: both next buffers written from the current ones, then current and next exchanged. */
  function Advance(s: Buffers, ls: Landscape, mice: Rates, fox: Rates, dt: real): (t: Buffers)
    requires Fits(s, ls)
    ensures Fits(t, ls)
  {
    Buffers(WrittenMice(s, ls, mice, dt), s.currentMice, WrittenFox(s, ls, fox, dt), s.currentFox)
  }

  /** The even run count at or just below `n`. */
  function EvenFloor(n: nat): (e: nat)
    ensures e <= n < e + 2 && e % 2 == 0
  {
    n - n % 2
  }

  /** `n` runs one after another. */
  function Iterate(s: Buffers, ls: Landscape, mice: Rates, fox: Rates, dt: real, n: nat): (t: Buffers)
    requires Fits(s, ls)
    ensures Fits(t, ls)
  {
    if n == 0 then s else Advance(Iterate(s, ls, mice, fox, dt, n - 1), ls, mice, fox, dt)
  }

  /** The buffer `mice.population` names after `n` runs: the current one after an even number, the next one after an odd. */
  function MiceView(s: Buffers, n: nat): Grid {
    if n % 2 == 0 then s.currentMice else s.nextMice
  }

  /** The buffer `fox.population` names after `n` runs. */
  function FoxView(s: Buffers, n: nat): Grid {
    if n % 2 == 0 then s.currentFox else s.nextFox
  }

  // ---------------------------------------------------------------- properties of one step

  /** A field that is uniform around (x, y), where the neighbour value is 4, does not diffuse. */
  lemma DiffusionUniform(c: Grid, nb: seq<seq<int>>, x: int, y: int, rate: real, v: real)
    requires Rect(c) && 1 <= x < |c| - 1 && 1 <= y < Width(c) - 1
    requires x < |nb| && y < |nb[x]| && nb[x][y] == 4
    requires c[x][y] == v && c[x - 1][y] == v && c[x + 1][y] == v && c[x][y - 1] == v && c[x][y + 1] == v
    ensures Diffusion(c, nb, x, y, rate) == 0.0
  {
  }

  /** A 5 x 5 field of 10s with neighbour value 4 everywhere has no diffusion at (2, 2). */
  lemma DiffusionOfTens()
    ensures var c := seq(5, _ => seq(5, _ => 10.0));
            Diffusion(c, seq(5, _ => seq(5, _ => 4)), 2, 2, 0.1) == 0.0
  {
    var c := seq(5, _ => seq(5, _ => 10.0));
    DiffusionUniform(c, seq(5, _ => seq(5, _ => 4)), 2, 2, 0.1, 10.0);
  }

  /**
   * In a 3 x 3 field of 10 mice and 10 foxes with neighbour value 4, rates (0.1, 0.2, 0.1)
   * for both species and a timestep of 1, cell (1, 1) becomes 2 mice and 29 foxes.
   */
  lemma UpdateOfTens()
    ensures var tens := seq(3, _ => seq(3, _ => 10.0));
            var fours := seq(3, _ => seq(3, _ => 4));
            var rates := Rates(0.1, 0.2, 0.1);
            && MouseNext(tens, tens, fours, rates, 1.0, 1, 1) == 2.0
            && FoxNext(tens, tens, fours, rates, 1.0, 1, 1) == 29.0
  {
    var tens := seq(3, _ => seq(3, _ => 10.0));
    DiffusionUniform(tens, seq(3, _ => seq(3, _ => 4)), 1, 1, 0.1, 10.0);
  }

  /** A run changes only land cells: every other cell of the new current buffers is the old next buffer's. */
  lemma AdvanceOnlyLand(s: Buffers, ls: Landscape, mice: Rates, fox: Rates, dt: real, i: int, j: int)
    requires Fits(s, ls) && 0 <= i < ls.height + 2 && 0 <= j < ls.width + 2 && !ls.IsLand(i, j)
    ensures Advance(s, ls, mice, fox, dt).currentMice[i][j] == s.nextMice[i][j]
    ensures Advance(s, ls, mice, fox, dt).currentFox[i][j] == s.nextFox[i][j]
  {
  }

  /** A run keeps every buffer free of negative values. */
  lemma AdvanceNonnegative(s: Buffers, ls: Landscape, mice: Rates, fox: Rates, dt: real)
    requires Fits(s, ls) && Nonnegative(s)
    ensures Nonnegative(Advance(s, ls, mice, fox, dt))
  {
    var t := Advance(s, ls, mice, fox, dt);
    forall i, j | 0 <= i < |t.currentMice| && 0 <= j < |t.currentMice[i]|
      ensures t.currentMice[i][j] >= 0.0
    {
    }
    forall i, j | 0 <= i < |t.currentFox| && 0 <= j < |t.currentFox[i]|
      ensures t.currentFox[i][j] >= 0.0
    {
    }
  }

  /** Any number of runs keeps every buffer free of negative values. */
  lemma {:induction false} IterateNonnegative(s: Buffers, ls: Landscape, mice: Rates, fox: Rates, dt: real, n: nat)
    requires Fits(s, ls) && Nonnegative(s)
    ensures Nonnegative(Iterate(s, ls, mice, fox, dt, n))
  {
    if n > 0 {
      IterateNonnegative(s, ls, mice, fox, dt, n - 1);
      AdvanceNonnegative(Iterate(s, ls, mice, fox, dt, n - 1), ls, mice, fox, dt);
    }
  }

  /**
   * What `mice.population` shows lags one run behind after an odd number of runs: after
   * `n` runs it holds the mice of the even run at or just below `n`, and so does `fox.population` for the foxes.
   */
  lemma {:induction false} ViewsLag(s: Buffers, ls: Landscape, mice: Rates, fox: Rates, dt: real, n: nat)
    requires Fits(s, ls)
    ensures MiceView(Iterate(s, ls, mice, fox, dt, n), n) == Iterate(s, ls, mice, fox, dt, EvenFloor(n)).currentMice
    ensures FoxView(Iterate(s, ls, mice, fox, dt, n), n) == Iterate(s, ls, mice, fox, dt, EvenFloor(n)).currentFox
  {
    if n % 2 == 1 {
      assert Iterate(s, ls, mice, fox, dt, n) == Advance(Iterate(s, ls, mice, fox, dt, n - 1), ls, mice, fox, dt);
    }
  }

  // ---------------------------------------------------------------- the simulation object

  /** `Simulation`: the two animals, the landscape, the timestep and the four buffers. */
  class Simulation {
    const mice: AnimalModel
    const fox: AnimalModel
    const landscape: Landscape
    const timestep: real
    var currentMice: array2<real>
    var nextMice: array2<real>
    var currentFox: array2<real>
    var nextFox: array2<real>
    /** How many times `run` has completed; its parity says which buffer each animal's `population` is. */
    ghost var runs: nat

    /**
     * The four buffers have the padded shape, are four different arrays, and the animals'
     * own `population` arrays are the current buffers after an even number of runs and the
     * next buffers after an odd number.
     */
    ghost predicate Valid()
      reads this
    {
      && landscape.Shaped()
      && Padded2(currentMice) && Padded2(nextMice) && Padded2(currentFox) && Padded2(nextFox)
      && currentMice != nextMice && currentFox != nextFox
      && currentMice != currentFox && currentMice != nextFox && nextMice != currentFox && nextMice != nextFox
      && (runs % 2 == 0 ==> mice.population == currentMice && fox.population == currentFox)
      && (runs % 2 == 1 ==> mice.population == nextMice && fox.population == nextFox)
    }

    /** `a` has the shape (height + 2, width + 2) of the padded landscape. */
    predicate Padded2(a: array2<real>) {
      a.Length0 == landscape.height + 2 && a.Length1 == landscape.width + 2
    }

    /** The contents of the four buffers. */
    function State(): Buffers
      reads this, currentMice, nextMice, currentFox, nextFox
    {
      Buffers(Cells(currentMice), Cells(nextMice), Cells(currentFox), Cells(nextFox))
    }

    constructor (mice: AnimalModel, fox: AnimalModel, landscape: Landscape, timestep: real)
      requires landscape.Shaped() && mice.population != fox.population
      requires mice.population.Length0 == landscape.height + 2 && mice.population.Length1 == landscape.width + 2
      requires fox.population.Length0 == landscape.height + 2 && fox.population.Length1 == landscape.width + 2
      ensures Valid() && runs == 0
      ensures this.mice == mice && this.fox == fox && this.landscape == landscape && this.timestep == timestep
      ensures fresh(nextMice) && fresh(nextFox)
      ensures Cells(nextMice) == Cells(mice.population) && Cells(nextFox) == Cells(fox.population)
    {
      this.mice := mice;
      this.fox := fox;
      this.landscape := landscape;
      this.timestep := timestep;
      var m, f := mice.population, fox.population;
      currentMice := m;
      nextMice := new real[m.Length0, m.Length1]((i, j) reads m requires 0 <= i < m.Length0 && 0 <= j < m.Length1 => m[i, j]);
      currentFox := f;
      nextFox := new real[f.Length0, f.Length1]((i, j) reads f requires 0 <= i < f.Length0 && 0 <= j < f.Length1 => f[i, j]);
      runs := 0;
      new;
      CellwiseEqual(Cells(nextMice), Cells(m), m.Length0, m.Length1);
      CellwiseEqual(Cells(nextFox), Cells(f), f.Length0, f.Length1);
    }

    /**
     * `Simulation(mice, fox, landscape, timestep)`: both animals must be `Mice` or `Fox`
     * objects, in either order; the current buffers are the animals' own arrays and the
     * next buffers are copies of them.
     */
    static method Create(mice: AnimalModel, fox: AnimalModel, landscape: Landscape, timestep: real)
      returns (r: Result<Simulation>)
      requires landscape.Shaped() && mice.population != fox.population
      requires mice.population.Length0 == landscape.height + 2 && mice.population.Length1 == landscape.width + 2
      requires fox.population.Length0 == landscape.height + 2 && fox.population.Length1 == landscape.width + 2
      ensures r.Err? <==> mice.species.Plain? || fox.species.Plain?
      ensures r.Err? ==> r.error == ValueError(NotAnimals)
      ensures r.Ok? ==> var sim := r.value;
        && fresh(sim) && fresh(sim.nextMice) && fresh(sim.nextFox) && sim.Valid() && sim.runs == 0
        && sim.mice == mice && sim.fox == fox && sim.landscape == landscape && sim.timestep == timestep
        && sim.currentMice == mice.population && sim.currentFox == fox.population
        && sim.State() == Buffers(Cells(mice.population), Cells(mice.population), Cells(fox.population), Cells(fox.population))
    {
      if mice.species.Plain? || fox.species.Plain? {
        return Err(ValueError(NotAnimals));
      }
      var sim := new Simulation(mice, fox, landscape, timestep);
      return Ok(sim);
    }

    /** `calculate_diffusion(current_pop, x, y, diffusion_rate)` on one of the buffers. */
    function CalculateDiffusion(current: array2<real>, x: int, y: int, rate: real): (d: real)
      reads current
      requires Padded2(current) && landscape.Shaped()
      requires 1 <= x <= landscape.height && 1 <= y <= landscape.width
      ensures d == Diffusion(Cells(current), landscape.neighbours, x, y, rate)
    {
      rate * (current[x - 1, y] + current[x + 1, y] + current[x, y - 1] + current[x, y + 1]
              - landscape.neighbours[x][y] as real * current[x, y])
    }

    /** `update_mice_population(x, y)`: writes one cell of the next mice buffer, from the current buffers only. */
    method UpdateMicePopulation(x: int, y: int)
      requires Valid() && 1 <= x <= landscape.height && 1 <= y <= landscape.width
      modifies nextMice
      ensures nextMice[x, y] ==
              MouseNext(Cells(currentMice), Cells(currentFox), landscape.neighbours, RatesOf(mice), timestep, x, y)
      ensures nextMice[x, y] >= 0.0
      ensures forall i, j :: 0 <= i < nextMice.Length0 && 0 <= j < nextMice.Length1 && (i != x || j != y) ==>
                nextMice[i, j] == old(nextMice[i, j])
    {
      var births := mice.birthRate * currentMice[x, y];
      var deaths := mice.deathRate * currentMice[x, y] * currentFox[x, y];
      var diffusion := CalculateDiffusion(currentMice, x, y, mice.diffusionRate);
      nextMice[x, y] := Max0(currentMice[x, y] + timestep * (births - deaths + diffusion));
    }

    /** `update_fox_population(x, y)`: writes one cell of the next fox buffer, reading the current mice, not the next. */
    method UpdateFoxPopulation(x: int, y: int)
      requires Valid() && 1 <= x <= landscape.height && 1 <= y <= landscape.width
      modifies nextFox
      ensures nextFox[x, y] ==
              FoxNext(Cells(currentMice), Cells(currentFox), landscape.neighbours, RatesOf(fox), timestep, x, y)
      ensures nextFox[x, y] >= 0.0
      ensures forall i, j :: 0 <= i < nextFox.Length0 && 0 <= j < nextFox.Length1 && (i != x || j != y) ==>
                nextFox[i, j] == old(nextFox[i, j])
    {
      var births := fox.birthRate * currentMice[x, y] * currentFox[x, y];
      var deaths := fox.deathRate * currentFox[x, y];
      var diffusion := CalculateDiffusion(currentFox, x, y, fox.diffusionRate);
      nextFox[x, y] := Max0(currentFox[x, y] + timestep * (births - deaths + diffusion));
    }

    /**
     * `run`: every land cell of the interior gets both updates, row by row, then the
     * current and next buffers of each species change places.
     */
    method Run()
      requires Valid()
      modifies this, nextMice, nextFox
      ensures Valid() && runs == old(runs) + 1
      ensures currentMice == old(nextMice) && nextMice == old(currentMice)
      ensures currentFox == old(nextFox) && nextFox == old(currentFox)
      ensures State() == Advance(old(State()), landscape, RatesOf(mice), RatesOf(fox), timestep)
    {
      ghost var s := State();
      Sweep(s);
      currentMice, nextMice := nextMice, currentMice;
      currentFox, nextFox := nextFox, currentFox;
      runs := runs + 1;
    }

    /** The two loops of `run`: the next buffers receive the updated interior, row by row. */
    method Sweep(ghost s: Buffers)
      requires Valid() && s == State()
      modifies nextMice, nextFox
      ensures Cells(currentMice) == s.currentMice && Cells(currentFox) == s.currentFox
      ensures Cells(nextMice) == WrittenMice(s, landscape, RatesOf(mice), timestep)
      ensures Cells(nextFox) == WrittenFox(s, landscape, RatesOf(fox), timestep)
    {
      ghost var wm := WrittenMice(s, landscape, RatesOf(mice), timestep);
      ghost var wf := WrittenFox(s, landscape, RatesOf(fox), timestep);
      var x := 1;
      while x <= landscape.height
        invariant 1 <= x <= landscape.height + 1
        invariant Cells(currentMice) == s.currentMice && Cells(currentFox) == s.currentFox
        invariant forall i, j :: 0 <= i < landscape.height + 2 && 0 <= j < landscape.width + 2 ==>
                    nextMice[i, j] == if 1 <= i < x then wm[i][j] else s.nextMice[i][j]
        invariant forall i, j :: 0 <= i < landscape.height + 2 && 0 <= j < landscape.width + 2 ==>
                    nextFox[i, j] == if 1 <= i < x then wf[i][j] else s.nextFox[i][j]
      {
        RunRow(x, s, wm, wf);
        x := x + 1;
      }
      forall i, j | 0 <= i < landscape.height + 2 && 0 <= j < landscape.width + 2
        ensures nextMice[i, j] == wm[i][j] && nextFox[i, j] == wf[i][j]
      {
        if i == 0 || i == landscape.height + 1 {
          assert !landscape.IsLand(i, j);
        }
      }
      CellwiseEqual(Cells(nextMice), wm, landscape.height + 2, landscape.width + 2);
      CellwiseEqual(Cells(nextFox), wf, landscape.height + 2, landscape.width + 2);
    }

    /** The inner loop of `run` over row `x`: both updates on each land cell of the row, left to right. */
    method RunRow(x: int, ghost s: Buffers, ghost wm: Grid, ghost wf: Grid)
      requires Valid() && 1 <= x <= landscape.height && Fits(s, landscape)
      requires wm == WrittenMice(s, landscape, RatesOf(mice), timestep)
      requires wf == WrittenFox(s, landscape, RatesOf(fox), timestep)
      requires Cells(currentMice) == s.currentMice && Cells(currentFox) == s.currentFox
      requires forall j :: 0 <= j < landscape.width + 2 ==> nextMice[x, j] == s.nextMice[x][j] && nextFox[x, j] == s.nextFox[x][j]
      modifies nextMice, nextFox
      ensures Cells(currentMice) == s.currentMice && Cells(currentFox) == s.currentFox
      ensures forall j :: 0 <= j < landscape.width + 2 ==> nextMice[x, j] == wm[x][j] && nextFox[x, j] == wf[x][j]
      ensures forall i, j :: 0 <= i < landscape.height + 2 && 0 <= j < landscape.width + 2 && i != x ==>
                nextMice[i, j] == old(nextMice[i, j]) && nextFox[i, j] == old(nextFox[i, j])
    {
      var y := 1;
      while y <= landscape.width
        invariant 1 <= y <= landscape.width + 1
        invariant Cells(currentMice) == s.currentMice && Cells(currentFox) == s.currentFox
        invariant forall j :: 0 <= j < landscape.width + 2 ==>
                    nextMice[x, j] == if 1 <= j < y then wm[x][j] else s.nextMice[x][j]
        invariant forall j :: 0 <= j < landscape.width + 2 ==>
                    nextFox[x, j] == if 1 <= j < y then wf[x][j] else s.nextFox[x][j]
        invariant forall i, j :: 0 <= i < landscape.height + 2 && 0 <= j < landscape.width + 2 && i != x ==>
                    nextMice[i, j] == old(nextMice[i, j]) && nextFox[i, j] == old(nextFox[i, j])
      {
        VisitCell(x, y, s);
        assert nextMice[x, y] == wm[x][y] && nextFox[x, y] == wf[x][y];
        y := y + 1;
      }
      assert !landscape.IsLand(x, landscape.width + 1);
    }

    /** The body of `run`'s inner loop: a land cell gets the mice update, then the fox update. */
    method VisitCell(x: int, y: int, ghost s: Buffers)
      requires Valid() && 1 <= x <= landscape.height && 1 <= y <= landscape.width && Fits(s, landscape)
      requires Cells(currentMice) == s.currentMice && Cells(currentFox) == s.currentFox
      modifies nextMice, nextFox
      ensures Cells(currentMice) == s.currentMice && Cells(currentFox) == s.currentFox
      ensures nextMice[x, y] ==
                if landscape.IsLand(x, y)
                then MouseNext(s.currentMice, s.currentFox, landscape.neighbours, RatesOf(mice), timestep, x, y)
                else old(nextMice[x, y])
      ensures nextFox[x, y] ==
                if landscape.IsLand(x, y)
                then FoxNext(s.currentMice, s.currentFox, landscape.neighbours, RatesOf(fox), timestep, x, y)
                else old(nextFox[x, y])
      ensures forall i, j :: 0 <= i < landscape.height + 2 && 0 <= j < landscape.width + 2 && (i != x || j != y) ==>
                nextMice[i, j] == old(nextMice[i, j]) && nextFox[i, j] == old(nextFox[i, j])
    {
      if landscape.grid[x][y] != 0 {
        UpdateMicePopulation(x, y);
        UpdateFoxPopulation(x, y);
      }
    }

    /** `get_mice_max`: the maximum of `mice.population`, which is the next buffer after an odd number of runs. */
    function GetMiceMax(): (r: Result<real>)
      reads this, mice.population
      requires Valid()
      ensures r == GridMax(Cells(if runs % 2 == 0 then currentMice else nextMice))
    {
      mice.CalculateMax()
    }

    /** `get_fox_max`: the maximum of `fox.population`. */
    function GetFoxMax(): (r: Result<real>)
      reads this, fox.population
      requires Valid()
      ensures r == GridMax(Cells(if runs % 2 == 0 then currentFox else nextFox))
    {
      fox.CalculateMax()
    }

    /** `get_mice_avg`: the sum of `mice.population` over the landscape's `land_squares`. */
    function GetMiceAvg(): (r: real)
      reads this, mice.population
      requires Valid()
      ensures var n := LandSquares(landscape.grid);
        && (n != 0 ==> r * n as real == GridSum(Cells(if runs % 2 == 0 then currentMice else nextMice)))
        && (n == 0 ==> r == 0.0)
    {
      mice.CalculateAverage(LandSquares(landscape.grid))
    }

    /** `get_fox_avg`: the sum of `fox.population` over the landscape's `land_squares`. */
    function GetFoxAvg(): (r: real)
      reads this, fox.population
      requires Valid()
      ensures var n := LandSquares(landscape.grid);
        && (n != 0 ==> r * n as real == GridSum(Cells(if runs % 2 == 0 then currentFox else nextFox)))
        && (n == 0 ==> r == 0.0)
    {
      fox.CalculateAverage(LandSquares(landscape.grid))
    }
  }
}
