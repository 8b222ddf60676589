# Predator–prey simulation, modelled in Dafny

This project models the core of the predator–prey simulation, a Python program that
runs mice and foxes on a rectangular map of land and water:

- **Habitat** (`Landscape`) reads a text file. The file holds a `"w h"` header and then
  `h` rows of `w` integers. From it the habitat builds a `(h+2) x (w+2)` grid with a zero
  border ring, and a table that gives each cell the sum of its four orthogonal
  neighbours, with indices wrapping around the padded shape.
- **Animals** (`AnimalModel`, `Mice`, `Fox`) check their three rates and build a
  population array from the map and a random seed. They also report the maximum and
  the average of that array.
- **Engine** (`Simulation`) keeps a current and a next buffer for each species.
  One `run()` writes the reaction–diffusion update of every interior land cell into the
  next buffers, then swaps current and next.
  The current buffers are the animals' own arrays. So the animals' `population`
  attributes, which the getters and the driver read, show the state of the last run
  only after an even number of runs. The model keeps that aliasing visible.
- **Helpers** hold the three parameter validators, the colour codes and the lines of the
  PPM population map.
- **Driver** (`sim`) validates, loads, builds and then runs `int(duration / dt)`
  iterations. Each iteration whose index is a multiple of the print interval logs the
  averages and writes a map before its `run()`.

The modules are:

- `Errors`: the exceptions as `Result`/`Outcome` values.
- `Text`: the parts of `str.split`, `int()`, `str()` and `readlines` the core relies on, with their round trips.
- `Grids`: rectangular grids, and array contents as sequences.
- `Habitat`, `Animals`, `Engine`, `Helpers` and `Driver`: one module per source file.

How the model treats the source's state and effects:

- The population buffers and colour arrays are Dafny `array2`s, updated in place.
- Loading and the driver are methods proved equal to pure specification functions (`Load`, `SimSpec`).
- A file's content is a parameter: `Option<string>`, where `None` is a file that cannot be opened or read.
- The random generator is a parameter: the sequence of draws after reseeding.
- Printing and file writes are events in a trace.

## Model

| member | source | states |
|---|---|---|
| Text.Split | predator_prey/Landscape.py:38 | `str.split()` yields whitespace-free, non-empty words, and none exactly when the line is all whitespace |
| Text.SplitJoin | predator_prey/Landscape.py:51 | splitting words joined by single spaces, plus trailing whitespace, gives the words back |
| Text.IntToString | predator_prey/Helpers.py:93 | the decimal text of an integer is one word that `int()` reads back as the same integer |
| Text.NatToString | predator_prey/Helpers.py:87 | the digits of a natural number denote that number |
| Text.ParseIntReads | predator_prey/Landscape.py:38 | `int()` reads a number only from a token that ends in a digit, a negative number only after a minus sign, and a string of digits as its decimal value |
| Text.ReadLines | predator_prey/Landscape.py:34 | `readlines` yields no lines exactly for an empty text |
| Text.ReadLinesConcat | predator_prey/Landscape.py:34 | reading lines from the concatenation of newline-terminated lines gives those lines back |
| Grids.Cells | predator_prey/Simulation.py:31-34 | the contents of a numpy buffer as a grid: same shape, same value in every cell |
| Habitat.ParseInts | predator_prey/Landscape.py:51 | the tokens parse exactly when every one is an integer; the values are the tokens' values, and the error names a rejected token |
| Habitat.ParseHeader | predator_prey/Landscape.py:38 | the header parses exactly when it holds two words that are integers; the result is their values |
| Habitat.ParseRow | predator_prey/Landscape.py:51-53 | a data line parses exactly when all its words are integers and there are `w` of them |
| Habitat.ParseRowsOk | predator_prey/Landscape.py:50-54 | the data lines parse exactly when each one does, and the rows have `w` values each |
| Habitat.Padded | predator_prey/Landscape.py:47-54 | the grid is `(h+2) x (w+2)`; data row i fills grid row i+1 between the zero border columns; all other cells are 0 |
| Habitat.Neighbours | predator_prey/Landscape.py:63-71 | the neighbour table has the grid's shape |
| Habitat.WrapIsZeroPadded | predator_prey/Landscape.py:70-71 | on a grid with a zero border, the wrapped sum of the four neighbours equals the zero-padded sum |
| Habitat.AllLandNeighbours | predator_prey/Landscape.py:63-71 | on an all-land map, each cell's neighbour value is the number of its orthogonal neighbours inside the land block |
| Habitat.AllLandNeighbourTableInside | tests/unit_tests/test_landscape.py:64-74 | all-land map: 4 on the inner cells, 3 on the inner ring's edges, 2 at its corners |
| Habitat.AllLandNeighbourTableBorder | tests/unit_tests/test_landscape.py:64-74 | all-land map: 1 on the border edges, 0 at the border corners |
| Habitat.LandSquaresNone | predator_prey/Landscape.py:84-92 | `land_squares` is 0 exactly when every cell of the grid is 0 |
| Habitat.LandSquaresPadded | predator_prey/Landscape.py:84-92 | padding adds no land: the land count of the padded grid is that of the data rows |
| Habitat.LandSquaresAllLand | predator_prey/Landscape.py:84-92 | an all-land `w x h` map has `w*h` land squares |
| Habitat.Preamble | predator_prey/Landscape.py:34-45 | a header that passes gives positive width and height and exactly `h` data lines |
| Habitat.Load | predator_prey/Landscape.py:22-61 | a loaded landscape has the padded shape, a zero border and the wrapped neighbour table |
| Habitat.LoadLandscape | predator_prey/Landscape.py:22-61 | the loading method with its row loop ends exactly as the specification `Load` does |
| Habitat.FillGrid | predator_prey/Landscape.py:47-54 | the row loop leaves the padded grid of the parsed rows, or the first failing line's error |
| Habitat.UnreadableOrEmpty | predator_prey/Landscape.py:33-36 | an unreadable file and an empty file both raise RuntimeError |
| Habitat.LoadFailsWithRuntimeError | predator_prey/Landscape.py:58-61 | every failure the model of a load reports is a RuntimeError |
| Habitat.LoadSucceeds | predator_prey/Landscape.py:34-55 | loading succeeds exactly when the header and every line are well formed; grid cell (i, j) is then token j of line i |
| Habitat.RenderReadsBack | predator_prey/Landscape.py:34-38 | a map file written out line by line reads back into its lines, and its header into `(w, h)` |
| Habitat.LoadRender | predator_prey/Landscape.py:22-55 | a well-formed map file loads into exactly the padded grid of its rows |
| Habitat.NonPositiveSize | predator_prey/Landscape.py:41-42 | a width or height at most 0 raises RuntimeError with those dimensions |
| Habitat.WrongLineCount | predator_prey/Landscape.py:44-45 | a number of data lines different from `h` raises RuntimeError |
| Habitat.ShortRow | predator_prey/Landscape.py:52-53 | the first data line of the wrong length raises RuntimeError naming that line |
| Habitat.FirstBadRow | predator_prey/Landscape.py:50-54 | parsing stops at the first bad data line and reports its error |
| Habitat.BadHeaderToken | predator_prey/Landscape.py:38 | a header whose first word is not an integer raises RuntimeError naming that word |
| Habitat.NonIntegerWidth | tests/unit_tests/test_landscape.py:40-43 | the header `10a 20` raises RuntimeError |
| Habitat.AllLandFileLoads | tests/unit_tests/test_landscape.py:33-38 | the 10 x 20 all-land file loads as a 22 x 12 grid with land at (1, 1) and 200 land squares |
| Animals.ValidateRate | predator_prey/Animal.py:30-46 | the rate comes back unchanged exactly when it lies in [0, 1]; otherwise ValueError |
| Animals.CheckRates | predator_prey/Animal.py:23-27 | the constructor's three checks pass exactly when all three rates lie in [0, 1] |
| Animals.GridMax | predator_prey/Animal.py:48-55 | the maximum fails with ValueError exactly on an empty array |
| Animals.GridMaxIsMax | predator_prey/Animal.py:55 | the maximum is a cell's value and bounds every cell |
| Animals.GridMaxIs | predator_prey/Animal.py:55 | a cell value bounding every cell is the maximum |
| Animals.AverageTimesCount | predator_prey/Animal.py:67-71 | for a land count n ≠ 0 the average times n is the grid's sum; for n = 0 it is 0 |
| Animals.GridSumNonnegative | predator_prey/Animal.py:70 | the sum of a grid of non-negative values is non-negative |
| Animals.GridSumUniform | predator_prey/Animal.py:70 | the sum of a uniform grid is its value times its number of cells |
| Animals.CountingGridValues | tests/unit_tests/test_animal_model.py:33-47 | the grid 0..8 has maximum 8 and sum 36 |
| Animals.CountingGridModel | tests/unit_tests/test_animal_model.py:33-47 | an animal holding the grid 0..8 reports maximum 8 and average 4 over 9 cells |
| Animals.InitialPopulation | predator_prey/Animal.py:91-109 | the initial array has the map's shape and each cell's value is the one `initialize_population` assigns to it |
| Animals.SeedZero | predator_prey/Animal.py:99-104 | with seed 0 every interior cell is 0; the other cells keep the map's value as a float |
| Animals.SeedZeroTwoByTwo | tests/unit_tests/test_animal_model.py:61-69 | seed 0 on `[[0, 1], [1, 0]]` gives `[[0.0, 1.0], [1.0, 0.0]]` |
| Animals.DrawsInOrder | predator_prey/Animal.py:100-108 | habitable interior cells take draws in row-major order, one draw each |
| Animals.DrawBelowCount | predator_prey/Animal.py:100-108 | the draw a habitable cell takes lies below the number of habitable interior cells |
| Animals.InitialBounds | predator_prey/Animal.py:100-108 | with draws in [0, 5.0] every interior cell is in [0, 5.0]; on a non-negative map no cell is negative |
| Animals.InitializePopulation | predator_prey/Animal.py:91-109 | the nested loop fills a fresh array whose contents are `InitialPopulation` |
| Animals.InitializeRow | predator_prey/Animal.py:100-108 | one row of the loop sets that row's cells, touches no other row, and advances the draw counter past the row's land |
| Animals.InitializeCell | predator_prey/Animal.py:101-108 | one cell is set and the draw counter moves by one exactly on a habitable cell |
| Animals.AnimalModel.Create | predator_prey/Animal.py:10-28 | construction fails with ValueError exactly when a rate is out of range; otherwise it keeps the parameters and builds the initial population from the seed's draws |
| Animals.AnimalModel.CalculateMax | predator_prey/Animal.py:48-55 | ValueError exactly on an empty array; otherwise a cell's value bounding every cell |
| Animals.AnimalModel.CalculateAverage | predator_prey/Animal.py:57-71 | the population's sum divided by n, or 0 when n is 0 |
| Animals.AnimalModel.ValidateCoordinates | predator_prey/Animal.py:73-89 | true exactly for coordinates inside the padded map; IndexError otherwise |
| Engine.Max0 | predator_prey/Simulation.py:134 | the update's floor is non-negative, at least its argument, and is the argument or 0 |
| Engine.MouseNext | predator_prey/Simulation.py:121-134 | the new mouse value reads only the current buffers and is never negative |
| Engine.FoxNext | predator_prey/Simulation.py:136-149 | the new fox value reads the current mouse buffer, not the freshly written one, and is never negative |
| Engine.WrittenMice | predator_prey/Simulation.py:156-161 | after the sweep, the next mouse buffer holds the update on interior land cells and its old value everywhere else |
| Engine.WrittenFox | predator_prey/Simulation.py:156-161 | the same for the next fox buffer |
| Engine.Advance | predator_prey/Simulation.py:151-165 | one run keeps the four buffers in the landscape's shape |
| Engine.AdvanceOnlyLand | predator_prey/Simulation.py:156-165 | after a run, every non-land cell of the new current buffers is the old next buffer's value |
| Engine.AdvanceNonnegative | predator_prey/Simulation.py:134-165 | a run keeps all four buffers non-negative |
| Engine.IterateNonnegative | predator_prey/Simulation.py:151-165 | any number of runs keeps all four buffers non-negative |
| Engine.ViewsLag | predator_prey/Simulation.py:62-104 | what the animals' arrays show after n runs is the current state after the largest even number of runs not above n |
| Engine.DiffusionUniform | predator_prey/Simulation.py:119 | diffusion is 0 where the field is uniform and the neighbour value is 4 |
| Engine.DiffusionOfTens | tests/unit_tests/test_simulation.py:56-67 | a 5 x 5 field of 10s with neighbours 4 has diffusion 0 at (2, 2) |
| Engine.UpdateOfTens | tests/unit_tests/test_simulation.py:84-103 | rates (0.1, 0.2, 0.1) on fields of 10s give 2 mice and 29 foxes at (1, 1) |
| Engine.Simulation.constructor | predator_prey/Simulation.py:10-38 | the current buffers are the animals' arrays; the next buffers are fresh copies of them |
| Engine.Simulation.Create | predator_prey/Simulation.py:22-34 | ValueError exactly when an argument is not a Mice or a Fox; otherwise the buffers alias and copy as in the constructor |
| Engine.Simulation.CalculateDiffusion | predator_prey/Simulation.py:106-119 | the diffusion term of a cell, read from the given buffer and the neighbour table |
| Engine.Simulation.UpdateMicePopulation | predator_prey/Simulation.py:121-134 | writes the mouse update into the next buffer at (x, y), non-negative, and no other cell |
| Engine.Simulation.UpdateFoxPopulation | predator_prey/Simulation.py:136-149 | writes the fox update into the next buffer at (x, y), non-negative, and no other cell |
| Engine.Simulation.Run | predator_prey/Simulation.py:151-165 | the buffers are swapped and the new state is `Advance` of the old one |
| Engine.Simulation.Sweep | predator_prey/Simulation.py:156-161 | the nested loop leaves the current buffers alone and writes `WrittenMice`/`WrittenFox` into the next ones |
| Engine.Simulation.RunRow | predator_prey/Simulation.py:157-161 | one row of the loop writes that row's cells and no other row |
| Engine.Simulation.VisitCell | predator_prey/Simulation.py:158-161 | a land cell gets both updates; a water cell keeps its values; no other cell changes |
| Engine.Simulation.GetMiceMax | predator_prey/Simulation.py:62-72 | the maximum of the animals' array, which is the current buffer only after an even number of runs |
| Engine.Simulation.GetFoxMax | predator_prey/Simulation.py:74-83 | the same for the foxes |
| Engine.Simulation.GetMiceAvg | predator_prey/Simulation.py:85-94 | the average of the animals' array over the land count, 0 when there is no land |
| Engine.Simulation.GetFoxAvg | predator_prey/Simulation.py:96-104 | the same for the foxes |
| Helpers.ValidateDelta | predator_prey/Helpers.py:144-160 | delta comes back exactly when it lies in [0, 1]; otherwise ValueError |
| Helpers.ValidateDuration | predator_prey/Helpers.py:131-142 | passes exactly when the duration is positive; otherwise ValueError |
| Helpers.ValidateLogInterval | predator_prey/Helpers.py:115-129 | passes exactly when 0 ≤ interval ≤ duration; the check against the duration comes first |
| Helpers.Trunc | predator_prey/Helpers.py:57-58 | the int conversion truncates toward zero |
| Helpers.ColorCode | predator_prey/Helpers.py:55-58 | the code is 0 when the maximum is 0; otherwise it is `pop / max * 255` truncated toward zero, less than 1 away from it on the side of 0 |
| Helpers.ColorCodeRange | predator_prey/Helpers.py:55-57 | for 0 ≤ pop ≤ max the code lies in [0, 255], is 255 at pop = max, and is 0 when max is 0 |
| Helpers.ColorCodeMonotone | predator_prey/Helpers.py:55-57 | a larger population never gets a smaller code |
| Helpers.ColorCodes | predator_prey/Helpers.py:48-58 | the code arrays are `(h, w)`; entry (x-1, y-1) holds the code on land and 0 elsewhere |
| Helpers.ColorCodesAgainstMax | predator_prey/Helpers.py:48-58 | against the array's maximum every code lies in [0, 255], and all are 0 when the maximum is 0 |
| Helpers.CalculateColorCodes | predator_prey/Helpers.py:33-60 | the nested loop fills two fresh arrays whose contents are `ColorCodes` |
| Helpers.ColorRow | predator_prey/Helpers.py:53-58 | one row of the loop sets that row's codes and no other row |
| Helpers.WritePopulationMap | predator_prey/Helpers.py:62-95 | the file name is `map_{i:04d}.ppm` and the writes are the header and the pixel lines of the colour codes |
| Helpers.WriteLines | predator_prey/Helpers.py:88-95 | the writes are the header followed by the pixel lines |
| Helpers.WritePixels | predator_prey/Helpers.py:90-95 | the nested loop writes the pixel lines in row-major order |
| Helpers.WriteRow | predator_prey/Helpers.py:91-95 | one row of pixel lines, in column order |
| Helpers.RowPixels | predator_prey/Helpers.py:91-95 | a map row has `w` pixel lines, one per cell |
| Helpers.PixelAt | predator_prey/Helpers.py:90-95 | pixel line `x*w + y` is the pixel of cell (x, y) |
| Helpers.PixelParses | predator_prey/Helpers.py:92-95 | a land pixel reads back as fox code, mouse code, 0; a water pixel as 0, 200, 255 |
| Helpers.HeaderParses | predator_prey/Helpers.py:88 | the header is `P3`, then a line that reads back as `w h`, then one that reads back as 255 |
| Helpers.MapReadsBack | predator_prey/Helpers.py:88-95 | the map file reads back as the three header lines followed by exactly `w*h` pixel lines |
| Helpers.WritesReadBack | predator_prey/Helpers.py:88-95 | the concatenated writes read back as the three header lines and the `w*h` pixel lines |
| Helpers.MapNameDigits | predator_prey/Helpers.py:87 | for i < 10000 the map name is `map_`, four digits that denote i, then `.ppm` |
| Helpers.Pad4 | predator_prey/Helpers.py:87 | zero padding gives at least four characters |
| Helpers.Pad4Value | predator_prey/Helpers.py:87 | zero padding keeps the number the digits denote |
| Driver.TotalSteps | predator_prey/simulate_predator_prey.py:61 | the number of iterations is `int(duration / dt)`, the floor of a positive quotient |
| Driver.Iteration | predator_prey/simulate_predator_prey.py:69-73 | an iteration logs three events exactly when its index is a multiple of a positive interval |
| Driver.Sim | predator_prey/simulate_predator_prey.py:37-75 | the driver's statements produce exactly the events and outcome of the specification `SimSpec` |
| Driver.Launch | predator_prey/simulate_predator_prey.py:57-75 | from the construction of the animals on, the driver ends as the specification says |
| Driver.Loop | predator_prey/simulate_predator_prey.py:69-75 | the trace is the opening events followed by the events and outcome of the specification `Steps` over all iterations; when the loop ends normally it has run `total` times and the buffers hold `Iterate` of the initial state after `total` runs |
| Driver.Turn | predator_prey/simulate_predator_prey.py:70-75 | one iteration logs what `Steps` schedules for it (the three events exactly when its index is a multiple of the interval), then runs once, so the buffers hold `Iterate` after one more run |
| Driver.LogIteration | predator_prey/simulate_predator_prey.py:71-73 | the averages row, the printed line and the map of the animals' arrays, in that order |
| Driver.StepsPass | predator_prey/simulate_predator_prey.py:69-75 | with a positive interval the loop never fails and logs three events per multiple of the interval |
| Driver.StepsZeroInterval | predator_prey/simulate_predator_prey.py:70 | with interval 0 the loop raises ZeroDivisionError in its first iteration, before logging anything |
| Driver.LoggedAt | predator_prey/simulate_predator_prey.py:69-73 | the events of iteration i sit in the trace right after those of the earlier multiples |
| Driver.MultiplesCount | predator_prey/simulate_predator_prey.py:69-70 | the iterations below n that log number `ceil(n / t)` |
| Driver.TotalAtLeastDuration | predator_prey/simulate_predator_prey.py:61 | with `0 < dt ≤ 1`, which validation guarantees once dt = 0 is excluded, there are at least `d` iterations |
| Driver.ValidationOrder | predator_prey/simulate_predator_prey.py:44-54 | delta, duration and interval are checked in that order, before the file is read |
| Driver.ZeroDelta | predator_prey/simulate_predator_prey.py:44-61 | dt = 0 passes validation, then raises ZeroDivisionError with no event |
| Driver.ZeroInterval | predator_prey/simulate_predator_prey.py:46-70 | t = 0 passes validation, then raises ZeroDivisionError after the opening line and header only |
| Driver.Schedule | predator_prey/simulate_predator_prey.py:62-75 | with valid parameters and a positive interval the call ends normally: the opening averages line, the header, then three events per multiple of t below the iteration count |
| Driver.ScheduledRow | predator_prey/simulate_predator_prey.py:69-73 | at a logging iteration i, the row and line hold time `i*dt` and the averages the animals' arrays show, followed by `map_{i:04d}.ppm` |

## Left out

- File I/O, `print` and the averages file's text: reading the map file is a parameter (`Option<string>`). Printing and writing are trace events. The formats `{:.1f}` and `{:.17f}` of `log_averages` and `write_avg_file` are floating-point formatting and are not modelled, so a row event carries the exact values.
- Command-line parsing (`simCommLineIntf`) is plumbing: `Sim` takes the parsed parameters.
- `getVersion` and the `__repr__` methods are trivial and are left out.
- Python's Mersenne Twister is a foreign library. `random.uniform(0, 5.0)` after `random.seed(s)` is a parameter `generator(s)` giving the sequence of draws, so the model does not say which values a given seed yields.
- `scipy.signal.convolve2d` is a foreign call. The neighbour table is defined directly as the wrap-around sum of the four orthogonal cells.
- Populations and rates are exact reals, not IEEE-754 doubles, so rounding is not modelled. Integer cells are unbounded, not numpy `int64`.
- The first, vectorised `calculate_diffusion` is dead, because the second definition replaces it; only the second is modelled. The unused `land_squares` cache in `Simulation.__init__` is not modelled either.
- The `print` of the neighbour table in `calculate_neighbours` is left out.
- Habitat.Load: a data value outside the int64 range (header `1 1`, data line `99999999999999999999`) makes the row assignment at predator_prey/Landscape.py:54 raise OverflowError, which the handlers at predator_prey/Landscape.py:58-61 do not catch. The model has unbounded integer cells and loads such a value, so `Habitat.LoadFailsWithRuntimeError` speaks only of the failures the model reports.
- Helpers.WritePopulationMap: takes `i: nat`. The `{i:04d}` format also accepts a negative i, but `sim` passes only indices from `range(0, total_time_steps)`.
- Text.ParseInt: accepts an optional sign and ASCII digits only. It does not accept the underscores or non-ASCII digits that Python's `int()` also accepts. Whitespace is already stripped by `split`.
- Text.ReadLines: splits at `\n` only. Universal-newline translation of `\r` and `\r\n` in text mode is not modelled.
- Engine.Simulation.Create: requires the two animals to hold different population arrays. Two separately built animals always do; passing the same animal twice would make the buffers alias each other, and that case is not modelled. It also requires both arrays, and so the copies, to have the landscape's padded shape (predator_prey/Simulation.py:22-34 does not check this); `sim` builds both animals from the same landscape, so it always holds.
- Engine.Simulation.UpdateMicePopulation: requires an interior cell (1 ≤ x ≤ height, 1 ≤ y ≤ width), which is all that `run` passes. numpy's negative-index wrap for edge cells is not modelled.
- Engine.Simulation.UpdateFoxPopulation: requires an interior cell, for the same reason.
- Engine.Simulation.CalculateDiffusion: requires an interior cell, for the same reason.
- Animals.GridMax: its contract states only when the maximum fails. What the maximum is (a cell value bounding every cell) is stated by `Animals.GridMaxIsMax` and `Animals.GridMaxIs`.
- The constructor's check that the landscape argument is a `Landscape` is carried by the Dafny type and not modelled as an error path.
