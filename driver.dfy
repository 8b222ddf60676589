/**
 * The driver `sim` (predator_prey/simulate_predator_prey.py): it validates the parameters,
 * loads the landscape, builds the two animals and the simulation, then runs the simulation
 * `int(duration / dt)` times, logging before every run whose index is a multiple of the
 * print interval. What it prints and writes is a sequence of events.
 */
module Driver {
  import opened Errors
  import opened Grids
  import opened Habitat
  import opened Animals
  import opened Engine
  import opened Helpers

  /** The parameters of `sim`, one field per command-line option; the landscape file is passed apart. */
  datatype Params = Params(
    birthMice: real, deathMice: real, diffusionMice: real,
    birthFoxes: real, deathFoxes: real, diffusionFoxes: real,
    deltaT: real, timeStep: int, duration: int,
    mouseSeed: int, foxSeed: int)

  /** What `sim` makes visible outside the process. */
  datatype Event =
    | LogAverages(step: int, time: real, mice: real, foxes: real)  // a line printed by `log_averages`
    | AvgHeader                                                    // averages.csv truncated, its header written
    | AvgRow(step: int, time: real, mice: real, foxes: real)       // a row appended by `write_avg_file`
    | MapFile(name: string, writes: seq<string>)                   // a file written by `write_population_map`

  /** The events of a call of `sim`, and how it ended. */
  datatype Trace = Trace(events: seq<Event>, outcome: Outcome)

  /** A call that raised `e` before it produced any event. */
  function Stop(e: Error): Trace {
    Trace([], Fail(e))
  }

  /** `int(duration / dt)`: the number of iterations of the main loop. */
  function TotalSteps(duration: int, dt: real): (n: nat)
    requires duration > 0 && dt > 0.0
    ensures n as real <= duration as real / dt < n as real + 1.0
  {
    var q := duration as real / dt;
    assert q > 0.0;
    Trunc(q)
  }

  /** The time logged at iteration `i`: `i * dt`. */
  function Time(i: nat, dt: real): real {
    i as real * dt
  }

  /**
   * Iteration `i` of the main loop, before its `run()`, with `st` the buffers after `i` runs:
   * when `i % t` is 0, the averages row, the printed line and the map, all of what the
   * animals' `population` arrays hold; `i % t` raises when `t` is 0.
   */
  function Iteration(ls: Landscape, dt: real, t: int, st: Buffers, i: nat): (tr: Trace)
    requires Fits(st, ls) && t >= 0
    ensures t > 0 ==> tr.outcome == Pass
    ensures |tr.events| == if t > 0 && i % t == 0 then 3 else 0
  {
    if t == 0 then Stop(ZeroDivisionError)
    else if i % t != 0 then Trace([], Pass)
    else
      var m, f := MiceView(st, i), FoxView(st, i);
      var n := LandSquares(ls.grid);
      var time := Time(i, dt);
      Trace([AvgRow(i, time, Average(m, n), Average(f, n)),
             LogAverages(i, time, Average(m, n), Average(f, n)),
             MapFile(MapName(i), MapText(ls, m, f))],
            Pass)
  }

  /** What `write_population_map` writes for the two fields, each against its own maximum. */
  function MapText(ls: Landscape, m: Grid, f: Grid): seq<string>
    requires ls.Shaped() && IsRect(m, ls.height + 2, ls.width + 2) && IsRect(f, ls.height + 2, ls.width + 2)
  {
    var mm, mf := GridMax(m).value, GridMax(f).value;
    MapWrites(ColorCodes(m, mm, ls.grid), ColorCodes(f, mf, ls.grid), ls.grid)
  }

  /** The first `n` iterations of the main loop, each followed by a run; the loop ends at the first failure. */
  function Steps(ls: Landscape, mice: Rates, fox: Rates, dt: real, t: int, s0: Buffers, n: nat): (tr: Trace)
    requires Fits(s0, ls) && t >= 0
  {
    if n == 0 then Trace([], Pass)
    else
      var before := Steps(ls, mice, fox, dt, t, s0, n - 1);
      if before.outcome.Fail? then before
      else
        var it := Iteration(ls, dt, t, Iterate(s0, ls, mice, fox, dt, n - 1), n - 1);
        Trace(before.events + it.events, it.outcome)
  }

  /** The number of iterations below `n` that log, for a positive interval `t`. */
  function Multiples(n: nat, t: int): nat
    requires t > 0
  {
    if n == 0 then 0 else Multiples(n - 1, t) + (if (n - 1) % t == 0 then 1 else 0)
  }

  /** The buffers right after the simulation is built: each next buffer is a copy of the current one. */
  function Initial(p: Params, ls: Landscape, generator: int -> Draws): (s: Buffers)
    requires ls.Shaped()
    ensures Fits(s, ls)
  {
    var mp := InitialPopulation(p.mouseSeed, generator(p.mouseSeed), ls.grid);
    var fp := InitialPopulation(p.foxSeed, generator(p.foxSeed), ls.grid);
    Buffers(mp, mp, fp, fp)
  }

  /** `sim` once the landscape is loaded: the two animals, the zero-timestep check, the opening events and the loop. */
  function Start(p: Params, ls: Landscape, generator: int -> Draws): (tr: Trace)
    requires ls.Shaped() && p.duration > 0 && 0.0 <= p.deltaT && 0 <= p.timeStep
  {
    match CheckRates(p.diffusionMice, p.birthMice, p.deathMice)
    case Err(e) => Stop(e)
    case Ok(mice) =>
      match CheckRates(p.diffusionFoxes, p.birthFoxes, p.deathFoxes)
      case Err(e) => Stop(e)
      case Ok(fox) =>
        if p.deltaT == 0.0 then Stop(ZeroDivisionError)
        else
          var s0 := Initial(p, ls, generator);
          var n := LandSquares(ls.grid);
          var loop := Steps(ls, mice, fox, p.deltaT, p.timeStep, s0, TotalSteps(p.duration, p.deltaT));
          Trace([LogAverages(0, 0.0, Average(s0.currentMice, n), Average(s0.currentFox, n)), AvgHeader] + loop.events,
                loop.outcome)
  }

  /**
   * `sim(r, a, k, b, m, l, dt, t, d, lfile, mseed, fseed)`: `file` is the landscape file's
   * text (None when it cannot be read) and `generator(seed)` the draws after reseeding with `seed`.
   */
  function SimSpec(p: Params, file: Option<string>, generator: int -> Draws): (tr: Trace) {
    match ValidateDelta(p.deltaT)
    case Err(e) => Stop(e)
    case Ok(_) =>
      match ValidateDuration(p.duration)
      case Fail(e) => Stop(e)
      case Pass =>
        match ValidateLogInterval(p.timeStep, p.duration)
        case Fail(e) => Stop(e)
        case Pass =>
          match Load(file)
          case Err(e) => Stop(e)
          case Ok(ls) =>
            Start(p, ls, generator)
  }

  // ---------------------------------------------------------------- the driver itself

  /** `sim`: the statements of the source, one by one; its events and outcome are those of `SimSpec`. */
  method Sim(p: Params, file: Option<string>, generator: int -> Draws) returns (tr: Trace)
    ensures tr == SimSpec(p, file, generator)
  {
    var delta := ValidateDelta(p.deltaT);
    if delta.Err? {
      return Stop(delta.error);
    }
    var duration := ValidateDuration(p.duration);
    if duration.Fail? {
      return Stop(duration.error);
    }
    var interval := ValidateLogInterval(p.timeStep, p.duration);
    if interval.Fail? {
      return Stop(interval.error);
    }
    var loaded := LoadLandscape(file);
    if loaded.Err? {
      return Stop(loaded.error);
    }
    tr := Launch(p, loaded.value, generator);
  }

  /** `sim` from the construction of the two animals on: it ends as `Start` says. */
  method Launch(p: Params, landscape: Landscape, generator: int -> Draws) returns (tr: Trace)
    requires landscape.Shaped() && p.duration > 0 && 0.0 <= p.deltaT && 0 <= p.timeStep
    ensures tr == Start(p, landscape, generator)
  {
    var mice := AnimalModel.Create(p.mouseSeed, p.diffusionMice, p.birthMice, p.deathMice, landscape, Mice, generator);
    if mice.Err? {
      return Stop(mice.error);
    }
    var fox := AnimalModel.Create(p.foxSeed, p.diffusionFoxes, p.birthFoxes, p.deathFoxes, landscape, Fox, generator);
    if fox.Err? {
      return Stop(fox.error);
    }
    PopulationShape(mice.value.population, p.mouseSeed, generator, landscape);
    PopulationShape(fox.value.population, p.foxSeed, generator, landscape);
    var created := Simulation.Create(mice.value, fox.value, landscape, p.deltaT);
    assert created.Ok?;
    var sim := created.value;
    if p.deltaT == 0.0 {
      return Stop(ZeroDivisionError);
    }
    var total := TotalSteps(p.duration, p.deltaT);
    var events := [LogAverages(0, 0.0, sim.GetMiceAvg(), sim.GetFoxAvg()), AvgHeader];
    tr := Loop(p, sim, total, events, generator);
  }

  /** A population array built by `initialize_population` has the landscape's padded shape. */
  lemma PopulationShape(a: array2<real>, seed: int, generator: int -> Draws, ls: Landscape)
    requires ls.Shaped() && Cells(a) == InitialPopulation(seed, generator(seed), ls.grid)
    ensures a.Length0 == ls.height + 2 && a.Length1 == ls.width + 2
  {
    assert |Cells(a)| == a.Length0;
    assert Cells(a)[0] == InitialPopulation(seed, generator(seed), ls.grid)[0];
  }

  /** The main loop of `sim` on a freshly built simulation, after the opening events. */
  method Loop(p: Params, sim: Simulation, total: nat, opening: seq<Event>, ghost generator: int -> Draws)
    returns (tr: Trace)
    requires sim.Valid() && sim.runs == 0 && p.timeStep >= 0 && sim.timestep == p.deltaT
    requires sim.State() == Initial(p, sim.landscape, generator)
    modifies sim, sim.currentMice, sim.nextMice, sim.currentFox, sim.nextFox
    ensures var loop := Steps(sim.landscape, RatesOf(sim.mice), RatesOf(sim.fox), p.deltaT, p.timeStep,
                              Initial(p, sim.landscape, generator), total);
            tr == Trace(opening + loop.events, loop.outcome)
    ensures tr.outcome.Pass? ==>
              && sim.runs == total
              && sim.State() == Iterate(Initial(p, sim.landscape, generator), sim.landscape, RatesOf(sim.mice), RatesOf(sim.fox),
                                        p.deltaT, total)
  {
    ghost var s0 := Initial(p, sim.landscape, generator);
    ghost var ls, mr, fr := sim.landscape, RatesOf(sim.mice), RatesOf(sim.fox);
    var events := opening;
    var i := 0;
    while i < total
      invariant 0 <= i <= total
      invariant sim.Valid() && sim.runs == i
      invariant sim.currentMice == (if i % 2 == 0 then old(sim.currentMice) else old(sim.nextMice))
      invariant sim.nextMice == (if i % 2 == 0 then old(sim.nextMice) else old(sim.currentMice))
      invariant sim.currentFox == (if i % 2 == 0 then old(sim.currentFox) else old(sim.nextFox))
      invariant sim.nextFox == (if i % 2 == 0 then old(sim.nextFox) else old(sim.currentFox))
      invariant sim.State() == Iterate(s0, ls, mr, fr, p.deltaT, i)
      invariant Steps(ls, mr, fr, p.deltaT, p.timeStep, s0, i).outcome == Pass
      invariant events == opening + Steps(ls, mr, fr, p.deltaT, p.timeStep, s0, i).events
    {
      if p.timeStep == 0 {
        ZeroIntervalExit(ls, mr, fr, p.deltaT, p.timeStep, s0, i, total, opening, events);
        return Trace(events, Fail(ZeroDivisionError));
      }
      var logged := Turn(p, sim, i, s0, mr, fr);
      AppendAssoc(opening, Steps(ls, mr, fr, p.deltaT, p.timeStep, s0, i).events, logged);
      events := events + logged;
      i := i + 1;
    }
    return Trace(events, Pass);
  }

  /** The body of the main loop for a positive interval: the logging when `i % t` is 0, then `run()`. */
  method Turn(p: Params, sim: Simulation, i: nat, ghost s0: Buffers, ghost mice: Rates, ghost fox: Rates)
    returns (logged: seq<Event>)
    requires sim.Valid() && sim.runs == i && p.timeStep > 0 && sim.timestep == p.deltaT
    requires Fits(s0, sim.landscape) && mice == RatesOf(sim.mice) && fox == RatesOf(sim.fox)
    requires sim.State() == Iterate(s0, sim.landscape, mice, fox, p.deltaT, i)
    requires Steps(sim.landscape, mice, fox, p.deltaT, p.timeStep, s0, i).outcome == Pass
    modifies sim, sim.nextMice, sim.nextFox
    ensures sim.Valid() && sim.runs == i + 1
    ensures sim.currentMice == old(sim.nextMice) && sim.nextMice == old(sim.currentMice)
    ensures sim.currentFox == old(sim.nextFox) && sim.nextFox == old(sim.currentFox)
    ensures sim.State() == Iterate(s0, sim.landscape, mice, fox, p.deltaT, i + 1)
    ensures Steps(sim.landscape, mice, fox, p.deltaT, p.timeStep, s0, i + 1)
         == Trace(Steps(sim.landscape, mice, fox, p.deltaT, p.timeStep, s0, i).events + logged, Pass)
  {
    StepsNext(sim.landscape, mice, fox, p.deltaT, p.timeStep, s0, i);
    logged := [];
    if i % p.timeStep == 0 {
      logged := LogIteration(p, sim, i);
    }
    sim.Run();
  }

  /** One more iteration of a loop that has not failed appends that iteration's events. */
  lemma StepsNext(ls: Landscape, mice: Rates, fox: Rates, dt: real, t: int, s0: Buffers, n: nat)
    requires Fits(s0, ls) && t >= 0 && Steps(ls, mice, fox, dt, t, s0, n).outcome == Pass
    ensures var it := Iteration(ls, dt, t, Iterate(s0, ls, mice, fox, dt, n), n);
      Steps(ls, mice, fox, dt, t, s0, n + 1) == Trace(Steps(ls, mice, fox, dt, t, s0, n).events + it.events, it.outcome)
  {
  }

  /**
   * With a print interval of 0, which validation lets through, the loop raises
   * ZeroDivisionError in its first iteration, before any run and without logging.
   */
  lemma {:induction false} StepsZeroInterval(ls: Landscape, mice: Rates, fox: Rates, dt: real, s0: Buffers, n: nat)
    requires Fits(s0, ls)
    ensures Steps(ls, mice, fox, dt, 0, s0, n) == if n == 0 then Trace([], Pass) else Stop(ZeroDivisionError)
  {
    if n > 1 {
      StepsZeroInterval(ls, mice, fox, dt, s0, n - 1);
    }
  }

  /** The loop's exit on a zero interval: what it has logged so far is all that the whole loop logs. */
  lemma ZeroIntervalExit(ls: Landscape, mice: Rates, fox: Rates, dt: real, t: int, s0: Buffers, i: nat, n: nat,
                         opening: seq<Event>, events: seq<Event>)
    requires Fits(s0, ls) && t == 0 && i < n
    requires Steps(ls, mice, fox, dt, t, s0, i).outcome == Pass
    requires events == opening + Steps(ls, mice, fox, dt, t, s0, i).events
    ensures var loop := Steps(ls, mice, fox, dt, t, s0, n);
      Trace(events, Fail(ZeroDivisionError)) == Trace(opening + loop.events, loop.outcome)
  {
    StepsZeroInterval(ls, mice, fox, dt, s0, i);
    StepsZeroInterval(ls, mice, fox, dt, s0, n);
    assert events == opening;
  }

  lemma AppendAssoc<T>(a: seq<T>, b: seq<T>, c: seq<T>)
    ensures a + b + c == a + (b + c)
  {
  }

  /** The three calls of one logging iteration: `write_avg_file`, `log_averages` and `write_population_map`. */
  method LogIteration(p: Params, sim: Simulation, i: nat) returns (logged: seq<Event>)
    requires sim.Valid() && sim.runs == i && p.timeStep > 0 && i % p.timeStep == 0 && sim.timestep == p.deltaT
    ensures logged == Iteration(sim.landscape, p.deltaT, p.timeStep, sim.State(), i).events
  {
    ghost var st := sim.State();
    ghost var m, f := MiceView(st, i), FoxView(st, i);
    ghost var n := LandSquares(sim.landscape.grid);
    assert Cells(sim.mice.population) == m && Cells(sim.fox.population) == f;
    var time := Time(i, p.deltaT);
    var miceAvg, foxAvg := sim.GetMiceAvg(), sim.GetFoxAvg();
    assert miceAvg == Average(m, n) && foxAvg == Average(f, n);
    var mm, mf := sim.GetMiceMax(), sim.GetFoxMax();
    assert mm == GridMax(m) && mf == GridMax(f);
    var name, writes := WritePopulationMap(i, sim.mice.population, sim.fox.population, mm.value, mf.value, sim.landscape.grid);
    assert writes == MapWrites(ColorCodes(m, mm.value, sim.landscape.grid), ColorCodes(f, mf.value, sim.landscape.grid), sim.landscape.grid);
    logged := [AvgRow(i, time, miceAvg, foxAvg), LogAverages(i, time, miceAvg, foxAvg), MapFile(name, writes)];
  }

  // ---------------------------------------------------------------- properties of the schedule

  /** With a positive interval the loop never fails, and every logging iteration adds three events. */
  lemma {:induction false} StepsPass(ls: Landscape, mice: Rates, fox: Rates, dt: real, t: int, s0: Buffers, n: nat)
    requires Fits(s0, ls) && t > 0
    ensures Steps(ls, mice, fox, dt, t, s0, n).outcome == Pass
    ensures |Steps(ls, mice, fox, dt, t, s0, n).events| == 3 * Multiples(n, t)
  {
    if n > 0 {
      StepsPass(ls, mice, fox, dt, t, s0, n - 1);
    }
  }

  /**
   * The events of a logging iteration `i` stay where that iteration put them: after the
   * three events of each earlier logging iteration.
   */
  lemma {:induction false} LoggedAt(ls: Landscape, mice: Rates, fox: Rates, dt: real, t: int, s0: Buffers, n: nat, i: nat)
    requires Fits(s0, ls) && t > 0 && i < n && i % t == 0
    ensures var events := Steps(ls, mice, fox, dt, t, s0, n).events;
            var it := Iteration(ls, dt, t, Iterate(s0, ls, mice, fox, dt, i), i).events;
            var k := 3 * Multiples(i, t);
            && k + |it| <= |events|
            && events[k..k + |it|] == it
  {
    var parts := (j: nat) => Iteration(ls, dt, t, Iterate(s0, ls, mice, fox, dt, j), j).events;
    StepsJoined(ls, mice, fox, dt, t, s0, n, parts);
    StepsJoined(ls, mice, fox, dt, t, s0, i, parts);
    StepsPass(ls, mice, fox, dt, t, s0, i);
    JoinedAt(parts, n, i);
  }

  /** With a positive interval the loop's events are the iterations' events one after another. */
  lemma {:induction false} StepsJoined(ls: Landscape, mice: Rates, fox: Rates, dt: real, t: int, s0: Buffers, n: nat,
                                       parts: nat -> seq<Event>)
    requires Fits(s0, ls) && t > 0
    requires forall j: nat :: parts(j) == Iteration(ls, dt, t, Iterate(s0, ls, mice, fox, dt, j), j).events
    ensures Steps(ls, mice, fox, dt, t, s0, n).events == Joined(parts, n)
  {
    if n > 0 {
      var m := n - 1;
      var it := Iteration(ls, dt, t, Iterate(s0, ls, mice, fox, dt, m), m).events;
      assert Steps(ls, mice, fox, dt, t, s0, n).events == Steps(ls, mice, fox, dt, t, s0, m).events + it by {
        StepsPass(ls, mice, fox, dt, t, s0, m);
        StepsNext(ls, mice, fox, dt, t, s0, m);
      }
      assert Steps(ls, mice, fox, dt, t, s0, m).events == Joined(parts, m) by {
        StepsJoined(ls, mice, fox, dt, t, s0, m, parts);
      }
      assert parts(m) == it;
    }
  }

  /** The chunks `parts(0)`, ..., `parts(n - 1)`, one after another. */
  function Joined<T>(parts: nat -> seq<T>, n: nat): seq<T> {
    if n == 0 then [] else Joined(parts, n - 1) + parts(n - 1)
  }

  /** Each chunk sits in the joined sequence right after the chunks before it. */
  lemma {:induction false} JoinedAt<T>(parts: nat -> seq<T>, n: nat, i: nat)
    requires i < n
    ensures var k := |Joined(parts, i)|;
      && k + |parts(i)| <= |Joined(parts, n)|
      && Joined(parts, n)[k..k + |parts(i)|] == parts(i)
  {
    if i < n - 1 {
      JoinedAt(parts, n - 1, i);
      PartKept(Joined(parts, n - 1), parts(n - 1), |Joined(parts, i)|, parts(i));
    } else {
      PartAppended(Joined(parts, i), parts(i));
    }
  }

  /** A slice of the front part of a concatenation is a slice of that part. */
  lemma PartKept<T>(a: seq<T>, b: seq<T>, k: nat, part: seq<T>)
    requires k + |part| <= |a| && a[k..k + |part|] == part
    ensures (a + b)[k..k + |part|] == part
  {
  }

  /** The back part of a concatenation starts right after the front part. */
  lemma PartAppended<T>(a: seq<T>, b: seq<T>)
    ensures (a + b)[|a|..|a| + |b|] == b
  {
  }

  /** The number of logging iterations below `n` is `n / t` rounded up. */
  lemma {:induction false} MultiplesCount(n: nat, t: int)
    requires t > 0
    ensures Multiples(n, t) == (n + t - 1) / t
  {
    if n > 0 {
      MultiplesCount(n - 1, t);
      CeilStep(n - 1, t);
    }
  }

  lemma CeilStep(n: nat, t: int)
    requires t > 0
    ensures (n + t) / t == (n + t - 1) / t + (if n % t == 0 then 1 else 0)
  {
    var q, r := n / t, n % t;
    if r == 0 {
      DivOf(q, t - 1, t, n + t - 1);
      DivOf(q + 1, 0, t, n + t);
    } else {
      DivOf(q + 1, r - 1, t, n + t - 1);
      DivOf(q + 1, r, t, n + t);
    }
  }

  /** Euclidean division of `q * t + r` by `t`, for `0 <= r < t`, gives `q`. */
  lemma DivOf(q: int, r: int, t: int, a: int)
    requires t > 0 && 0 <= r < t && a == q * t + r
    ensures a / t == q
  {
    var e := a / t - q;
    assert e * t == r - a % t by {
      assert a == (a / t) * t + a % t;
      assert e * t == (a / t) * t - q * t;
    }
    SmallMultiple(e, t);
  }

  lemma SmallMultiple(e: int, t: int)
    requires t > 0 && -t < e * t < t
    ensures e == 0
  {
  }

  /** With `dt` at most 1 the loop has at least `duration` iterations. */
  lemma TotalAtLeastDuration(duration: int, dt: real)
    requires duration > 0 && 0.0 < dt <= 1.0
    ensures TotalSteps(duration, dt) >= duration
  {
    var q := duration as real / dt;
    assert q * dt == duration as real;
    assert q >= duration as real;
  }

  /**
   * The three validators run first, in the order delta, duration, interval; the first that
   * fails ends the call with its ValueError and no event, whatever the landscape file holds.
   * After them comes the load, whose failure ends the call the same way.
   */
  lemma ValidationOrder(p: Params, file: Option<string>, generator: int -> Draws)
    ensures !(0.0 <= p.deltaT <= 1.0) ==> SimSpec(p, file, generator) == Stop(ValueError(DeltaOutOfRange))
    ensures 0.0 <= p.deltaT <= 1.0 && p.duration <= 0 ==>
              SimSpec(p, file, generator) == Stop(ValueError(DurationNotPositive))
    ensures 0.0 <= p.deltaT <= 1.0 && p.duration > 0 && p.timeStep > p.duration ==>
              SimSpec(p, file, generator) == Stop(ValueError(IntervalAboveDuration))
    ensures 0.0 <= p.deltaT <= 1.0 && p.duration > 0 && p.timeStep < 0 ==>
              SimSpec(p, file, generator) == Stop(ValueError(IntervalNegative))
    ensures !(0.0 <= p.deltaT <= 1.0 && 0 <= p.timeStep <= p.duration && p.duration > 0) ==>
              SimSpec(p, file, generator) == SimSpec(p, None, generator)
    ensures 0.0 <= p.deltaT <= 1.0 && 0 <= p.timeStep <= p.duration && p.duration > 0 && Load(file).Err? ==>
              SimSpec(p, file, generator) == Stop(Load(file).error)
  {
  }

  /** A timestep of 0 passes `validate_delta`, and `int(duration / dt)` then raises, before any event. */
  lemma ZeroDelta(p: Params, file: Option<string>, generator: int -> Draws)
    requires p.deltaT == 0.0 && 0 <= p.timeStep <= p.duration && p.duration > 0 && Load(file).Ok?
    requires CheckRates(p.diffusionMice, p.birthMice, p.deathMice).Ok?
    requires CheckRates(p.diffusionFoxes, p.birthFoxes, p.deathFoxes).Ok?
    ensures SimSpec(p, file, generator) == Stop(ZeroDivisionError)
  {
  }

  /**
   * A print interval of 0 passes `validate_log_interval`; the opening line is printed and
   * the averages header written, then `i % 0` raises in the first iteration, before any run.
   */
  lemma ZeroInterval(p: Params, file: Option<string>, generator: int -> Draws)
    requires 0.0 < p.deltaT <= 1.0 && p.timeStep == 0 && p.duration > 0 && Load(file).Ok?
    requires CheckRates(p.diffusionMice, p.birthMice, p.deathMice).Ok?
    requires CheckRates(p.diffusionFoxes, p.birthFoxes, p.deathFoxes).Ok?
    ensures var tr := SimSpec(p, file, generator);
      && tr.outcome == Fail(ZeroDivisionError)
      && |tr.events| == 2 && tr.events[0].LogAverages? && tr.events[1] == AvgHeader
  {
    var ls := Load(file).value;
    TotalAtLeastDuration(p.duration, p.deltaT);
    StepsZeroInterval(ls, Rates(p.diffusionMice, p.birthMice, p.deathMice), Rates(p.diffusionFoxes, p.birthFoxes, p.deathFoxes),
                      p.deltaT, Initial(p, ls, generator), TotalSteps(p.duration, p.deltaT));
  }

  /**
   * With valid parameters and a positive interval `sim` ends normally. It prints the
   * opening line and writes the averages header, then logs three events for each
   * iteration below `int(d / dt)` that is a multiple of the interval.
   */
  lemma Schedule(p: Params, file: Option<string>, generator: int -> Draws)
    requires 0.0 < p.deltaT <= 1.0 && 0 < p.timeStep <= p.duration && Load(file).Ok?
    requires CheckRates(p.diffusionMice, p.birthMice, p.deathMice).Ok?
    requires CheckRates(p.diffusionFoxes, p.birthFoxes, p.deathFoxes).Ok?
    ensures var tr := SimSpec(p, file, generator);
      && tr.outcome == Pass
      && |tr.events| == 2 + 3 * Multiples(TotalSteps(p.duration, p.deltaT), p.timeStep)
      && tr.events[0].LogAverages? && tr.events[0].step == 0 && tr.events[1] == AvgHeader
  {
    var ls := Load(file).value;
    var mr, fr := Rates(p.diffusionMice, p.birthMice, p.deathMice), Rates(p.diffusionFoxes, p.birthFoxes, p.deathFoxes);
    StepsPass(ls, mr, fr, p.deltaT, p.timeStep, Initial(p, ls, generator), TotalSteps(p.duration, p.deltaT));
    Opening(p, file, generator);
  }

  /**
   * Iteration `i` below `int(d / dt)` with `i % t == 0` appends an averages row with time
   * `i * dt`, prints the same values and writes `map_iiii.ppm`, after the two opening
   * events and the three of each earlier logging iteration. The averages come from the
   * animals' own arrays, which after `i` runs hold the populations after `i - i % 2` runs.
   */
  lemma ScheduledRow(p: Params, file: Option<string>, generator: int -> Draws, i: nat)
    requires 0.0 < p.deltaT <= 1.0 && 0 < p.timeStep <= p.duration && Load(file).Ok?
    requires CheckRates(p.diffusionMice, p.birthMice, p.deathMice).Ok?
    requires CheckRates(p.diffusionFoxes, p.birthFoxes, p.deathFoxes).Ok?
    requires i < TotalSteps(p.duration, p.deltaT) && i % p.timeStep == 0
    ensures var ls := Load(file).value;
      var s := Iterate(Initial(p, ls, generator), ls, Rates(p.diffusionMice, p.birthMice, p.deathMice),
                       Rates(p.diffusionFoxes, p.birthFoxes, p.deathFoxes), p.deltaT, EvenFloor(i));
      var n := LandSquares(ls.grid);
      RowLogged(SimSpec(p, file, generator).events, 2 + 3 * Multiples(i, p.timeStep),
                i, Time(i, p.deltaT), Average(s.currentMice, n), Average(s.currentFox, n))
  {
    StartRow(p, Load(file).value, generator, i);
  }

  /** `ScheduledRow` once the landscape is loaded. */
  lemma StartRow(p: Params, ls: Landscape, generator: int -> Draws, i: nat)
    requires ls.Shaped() && 0.0 < p.deltaT <= 1.0 && 0 < p.timeStep <= p.duration
    requires CheckRates(p.diffusionMice, p.birthMice, p.deathMice).Ok?
    requires CheckRates(p.diffusionFoxes, p.birthFoxes, p.deathFoxes).Ok?
    requires i < TotalSteps(p.duration, p.deltaT) && i % p.timeStep == 0
    ensures var s := Iterate(Initial(p, ls, generator), ls, Rates(p.diffusionMice, p.birthMice, p.deathMice),
                             Rates(p.diffusionFoxes, p.birthFoxes, p.deathFoxes), p.deltaT, EvenFloor(i));
      var n := LandSquares(ls.grid);
      RowLogged(Start(p, ls, generator).events, 2 + 3 * Multiples(i, p.timeStep),
                i, Time(i, p.deltaT), Average(s.currentMice, n), Average(s.currentFox, n))
  {
    var mr, fr := Rates(p.diffusionMice, p.birthMice, p.deathMice), Rates(p.diffusionFoxes, p.birthFoxes, p.deathFoxes);
    var s0 := Initial(p, ls, generator);
    var s := Iterate(s0, ls, mr, fr, p.deltaT, EvenFloor(i));
    var n := LandSquares(ls.grid);
    StartOpened(p, ls, generator);
    LoopRow(ls, mr, fr, p.deltaT, p.timeStep, s0, TotalSteps(p.duration, p.deltaT), i);
    RowBehind(Start(p, ls, generator).events, 2, Steps(ls, mr, fr, p.deltaT, p.timeStep, s0, TotalSteps(p.duration, p.deltaT)).events,
              3 * Multiples(i, p.timeStep), i, Time(i, p.deltaT), Average(s.currentMice, n), Average(s.currentFox, n));
  }

  /** After the rate checks, `Start` is the opening line, the header and the loop. */
  lemma StartOpened(p: Params, ls: Landscape, generator: int -> Draws)
    requires ls.Shaped() && 0.0 < p.deltaT <= 1.0 && 0 < p.timeStep <= p.duration
    requires CheckRates(p.diffusionMice, p.birthMice, p.deathMice).Ok?
    requires CheckRates(p.diffusionFoxes, p.birthFoxes, p.deathFoxes).Ok?
    ensures var s0 := Initial(p, ls, generator);
      var loop := Steps(ls, Rates(p.diffusionMice, p.birthMice, p.deathMice), Rates(p.diffusionFoxes, p.birthFoxes, p.deathFoxes),
                        p.deltaT, p.timeStep, s0, TotalSteps(p.duration, p.deltaT));
      && |Start(p, ls, generator).events| == 2 + |loop.events|
      && Start(p, ls, generator).events[2..] == loop.events
  {
  }

  /**
   * In the loop's events, iteration `i` (a multiple of `t`) logs its row after those of
   * the earlier logging iterations, from the arrays as they stood after `i - i % 2` runs.
   */
  lemma LoopRow(ls: Landscape, mice: Rates, fox: Rates, dt: real, t: int, s0: Buffers, total: nat, i: nat)
    requires Fits(s0, ls) && t > 0 && i < total && i % t == 0
    ensures var s := Iterate(s0, ls, mice, fox, dt, EvenFloor(i));
      var n := LandSquares(ls.grid);
      RowLogged(Steps(ls, mice, fox, dt, t, s0, total).events, 3 * Multiples(i, t),
                i, Time(i, dt), Average(s.currentMice, n), Average(s.currentFox, n))
  {
    LoggedViews(ls, mice, fox, dt, t, s0, total, i);
    ViewsLag(s0, ls, mice, fox, dt, i);
  }

  /** `LoopRow` with the averages of the buffers the animals name after `i` runs. */
  lemma LoggedViews(ls: Landscape, mice: Rates, fox: Rates, dt: real, t: int, s0: Buffers, total: nat, i: nat)
    requires Fits(s0, ls) && t > 0 && i < total && i % t == 0
    ensures var st := Iterate(s0, ls, mice, fox, dt, i);
      var n := LandSquares(ls.grid);
      RowLogged(Steps(ls, mice, fox, dt, t, s0, total).events, 3 * Multiples(i, t),
                i, Time(i, dt), Average(MiceView(st, i), n), Average(FoxView(st, i), n))
  {
    LoggedAt(ls, mice, fox, dt, t, s0, total, i);
    var st := Iterate(s0, ls, mice, fox, dt, i);
    var n := LandSquares(ls.grid);
    IterationRow(ls, dt, t, st, i);
    RowInSlice(Steps(ls, mice, fox, dt, t, s0, total).events, 3 * Multiples(i, t), Iteration(ls, dt, t, st, i).events,
               i, Time(i, dt), Average(MiceView(st, i), n), Average(FoxView(st, i), n));
  }

  /** With valid parameters and a positive timestep, `sim` is the opening line, the header and the loop. */
  lemma Opening(p: Params, file: Option<string>, generator: int -> Draws)
    requires 0.0 < p.deltaT <= 1.0 && 0 < p.timeStep <= p.duration && Load(file).Ok?
    requires CheckRates(p.diffusionMice, p.birthMice, p.deathMice).Ok?
    requires CheckRates(p.diffusionFoxes, p.birthFoxes, p.deathFoxes).Ok?
    ensures var ls := Load(file).value;
      var s0 := Initial(p, ls, generator);
      var n := LandSquares(ls.grid);
      var loop := Steps(ls, Rates(p.diffusionMice, p.birthMice, p.deathMice), Rates(p.diffusionFoxes, p.birthFoxes, p.deathFoxes),
                        p.deltaT, p.timeStep, s0, TotalSteps(p.duration, p.deltaT));
      SimSpec(p, file, generator) ==
        Trace([LogAverages(0, 0.0, Average(s0.currentMice, n), Average(s0.currentFox, n)), AvgHeader] + loop.events, loop.outcome)
  {
  }

  /** A logging iteration records the averages row, the printed line and the map, in that order. */
  lemma IterationRow(ls: Landscape, dt: real, t: int, st: Buffers, i: nat)
    requires Fits(st, ls) && t > 0 && i % t == 0
    ensures var n := LandSquares(ls.grid);
      RowLogged(Iteration(ls, dt, t, st, i).events, 0, i, Time(i, dt), Average(MiceView(st, i), n), Average(FoxView(st, i), n))
  {
  }

  /**
   * From index `k` on, `events` holds the averages row and the printed line of iteration `i`
   * with the given time and averages, then the map of iteration `i`.
   */
  predicate RowLogged(events: seq<Event>, k: nat, i: nat, time: real, mice: real, foxes: real) {
    && k + 3 <= |events|
    && events[k] == AvgRow(i, time, mice, foxes)
    && events[k + 1] == LogAverages(i, time, mice, foxes)
    && events[k + 2].MapFile? && events[k + 2].name == MapName(i)
  }

  /** A logged row keeps its events inside a longer sequence that holds its part at `k`. */
  lemma RowInSlice(events: seq<Event>, k: nat, part: seq<Event>, i: nat, time: real, mice: real, foxes: real)
    requires k + |part| <= |events| && events[k..k + |part|] == part
    requires RowLogged(part, 0, i, time, mice, foxes)
    ensures RowLogged(events, k, i, time, mice, foxes)
  {
    assert events[k] == part[0] && events[k + 1] == part[1] && events[k + 2] == part[2];
  }

  /** A logged row moves back by `d` behind `d` earlier events. */
  lemma RowBehind(events: seq<Event>, d: nat, rest: seq<Event>, k: nat, i: nat, time: real, mice: real, foxes: real)
    requires d <= |events| && events[d..] == rest
    requires RowLogged(rest, k, i, time, mice, foxes)
    ensures RowLogged(events, d + k, i, time, mice, foxes)
  {
    assert events[d + k] == rest[k] && events[d + k + 1] == rest[k + 1] && events[d + k + 2] == rest[k + 2];
  }
}
