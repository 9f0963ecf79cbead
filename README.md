# Zamboni Driver, modelled in Dafny

This project is a Dafny model of the game logic of *Zamboni Driver*, a browser game in which a
resurfacing machine is steered around an ice rink until every dirty cell of the ice is clean. The
model covers the parts of the game that compute and keep state:

- **The dirt grid.** A row-major `tile` array of dirt levels in [0,1]. `applyCleaningAt` clears it
  in place around the squeegee, and `computeCleanPercent` turns it into a clean percentage.
  Modules `Dirt` and `Session`.
- **The fixed-tick simulation.** `createGame`, `integrate`, `tickMany` and `normalizeAngle`.
  - A tick steers, clamps the vehicle to the boards and counts board bumps on the rising edge.
  - It then cleans twice: at the new position and at the previous one.
  - Last it keeps the books: elapsed time, the boost countdown, the clean percentage and completion.
  - `GameState` is a class whose methods change its fields. It is specified against a pure
    `Tick` function, and that function's properties are proved as lemmas.
- **Per-session dirt generation.** Module `DirtGen`.
  - The seed is a 32-bit FNV-1a hash of the level id's UTF-16 code units, xored with an entropy word.
  - The generator is mulberry32, a class with a `bv32` state.
  - The noise field is white noise, then 3x3 clamped box blurs, then min-max normalisation.
  - Each cell is a clamped blend of the level's base pattern and the noise.
- **The level table.** `makeGrid`, the three shipped levels, `LEVEL_IDS` and `findLevel`. Module `Levels`.
- **Scoring helpers of the canvas component.** The grid mean, the par time, the bump penalty and
  the three grades (module `Scoring`), plus the pixel-alpha hardening pass (module `Alpha`).
- **The canvas frame reducer (module `Frame`).**
  - Keyboard intent, Space boost on its press edge, and drag and flick input.
  - The freeze once the level is completed.
  - The one-time completion bookkeeping: par, grade, progress, best time and career records.
- **Persistence.** Local storage is an in-memory `Storage` object holding a map (module `Store`).
  - `progress.ts`: completed set and best times. Module `Progress`.
  - `highScores.ts`: career records and composite score. Module `Scores`.
- **Route strings** of `paths.ts` (module `Paths`).
- **The status state machine of `useGameState`** (module `GameStatus`). Its statuses are menu,
  playing, paused, level complete and game over. It covers pausing, dropped frames, latched
  completion, the time limit and level advance.
- **Sequencer logic of the background music** (module `Chiptune`).
  - The NES-style loop's bass and drum tables and its step clock.
  - The MIDI loop's voice routing, drum mapping, time sort and tempo snapshot.
  - The warm-up loop's snapshot validation.
  - The wrap-around schedule window.
- **The line-ending normaliser script** (module `Eol`).

The global single-character replacement that both the path normaliser (`+` to `/`) and the
line-ending normaliser (CR to LF) use is defined once, in module `Chars`.

Numbers are modelled as exact `real`s, and JavaScript's `Math.floor`, `Math.ceil` and
`Math.round` as integer functions with their defining bounds (module `Num`). Anything that only
the runtime provides is passed in as a parameter:

- `Math.sin`, `Math.cos`, `Math.atan2`, `Math.hypot` and `Math.pow` are function-valued fields of
  a `MathLib`, so nothing is assumed about them beyond what is stated where used.
- Entropy and clock readings are parameters.
- The helper functions `useGameState` imports are parameters too.

## Model

| member | source | states |
|---|---|---|
| `Num.Clamp` | src/utils/gameLogic.ts:14 | `max(a, min(b, v))` lies in [a,b] when a <= b and is `v` when `v` is already inside |
| `Num.Floor` | src/utils/gameLogic.ts:146 | `Math.floor`: the integer r with r <= x < r + 1 |
| `Num.Ceil` | src/utils/gameLogic.ts:147 | `Math.ceil`: the integer r with r - 1 < x <= r |
| `Num.Round` | src/utils/highScores.ts:48 | `Math.round`: the integer r with r - 0.5 <= x < r + 0.5 (halves go up) |
| `Dirt.HitInGrid` | src/utils/gameLogic.ts:146-157 | a cell the clear touches lies inside the grid, so its row-major index is inside the tile array |
| `Dirt.ClearedAt` | src/utils/gameLogic.ts:151-160 | after a clear, cell (x,y) is 0 when its centre is in the disc, it lies in the clamped scan window and it was positive; otherwise it is unchanged |
| `Dirt.ClearedNoDirtier` | src/utils/gameLogic.ts:156-158 | no cell grows; every changed cell is now exactly 0 and lies in the disc |
| `Dirt.ClearedIdempotent` | src/utils/gameLogic.ts:151-161 | clearing the same disc twice equals clearing it once |
| `Dirt.ClearedKeepsUnit` | src/utils/gameLogic.ts:158 | a grid with every cell in [0,1] keeps that property after a clear |
| `Dirt.SumMonotone` | src/utils/gameLogic.ts:166 | a grid no dirtier cell by cell has a sum no larger |
| `Dirt.PercentRange` | src/utils/gameLogic.ts:164-169 | on a non-empty grid of cells in [0,1] the clean percentage exists and lies in [0,100] |
| `Dirt.PercentFullIff` | src/utils/gameLogic.ts:164-169 | on a non-empty grid of non-negative cells the percentage is at most 100, and reaches 100 exactly when every cell is 0 |
| `Dirt.PercentMonotone` | src/utils/gameLogic.ts:164-169 | a grid no dirtier cell by cell has a percentage no lower |
| `Dirt.ClearedPercentMonotone` | src/utils/gameLogic.ts:132-169 | a clear never lowers the clean percentage |
| `Dirt.ComputeCleanPercent` | src/utils/gameLogic.ts:164-169 | the summing loop returns `(1 - sum/len) * 100`, and no value (JS NaN) on an empty grid |
| `Dirt.ClearRow` | src/utils/gameLogic.ts:152-160 | the inner loop clears exactly the hit positive cells of one row and leaves every other cell unchanged |
| `Dirt.ClearDisc` | src/utils/gameLogic.ts:146-161 | the nested loops over the clamped window leave the array equal to `Cleared` of its old contents |
| `Levels.Unit` | src/utils/levels.ts:7 | `min(1, max(0, v))` is in [0,1] and is the clamp of v |
| `Levels.MakeGrid` | src/utils/levels.ts:3-10 | the grid has the given columns and rows, `cols * rows` cells, each in [0,1] |
| `Levels.MakeGridAt` | src/utils/levels.ts:4-7 | cell `y * cols + x` holds `fn(x, y)` clamped to [0,1] (row-major) |
| `Levels.AllLevels` | src/utils/levels.ts:20-71 | three levels are shipped |
| `Levels.LevelIdsValues` | src/utils/levels.ts:20-73 | `LEVEL_IDS` lists the table's ids in order, and they are `level-1`, `level-2`, `level-3`, pairwise distinct |
| `Levels.LevelsWellFormed` | src/utils/levels.ts:20-71 | every shipped level has cells of 10x10 world units, a non-empty grid, and a start inside the 8-unit board margin |
| `Levels.FindFirst` | src/utils/levels.ts:74 | `find` yields nothing exactly when no level has the id, and otherwise the first level that has it |
| `Levels.FindLevel` | src/utils/levels.ts:74 | `findLevel` always returns one of the shipped levels |
| `Levels.FindLevelById` | src/utils/levels.ts:74 | a known id finds its level; an unknown id falls back to the first level |
| `DirtGen.CodeUnits` | src/utils/gameLogic.ts:201 | a character is one or two UTF-16 code units |
| `DirtGen.Utf16RoundTrip` | src/utils/gameLogic.ts:200-201 | the code units the hash reads determine the string, so no character is lost or merged |
| `DirtGen.MakeSeed` | src/utils/gameLogic.ts:197-213 | the hash loop computes 32-bit FNV-1a over the UTF-16 units, xored with the entropy word |
| `DirtGen.SeedEntropy` | src/utils/gameLogic.ts:204-212 | xoring the entropy out gives back the level hash; different entropy words give different seeds for the same level |
| `DirtGen.ToUnit` | src/utils/gameLogic.ts:220 | an unsigned word divided by 2^32 lies in [0,1) |
| `DirtGen.Draws` | src/utils/gameLogic.ts:226 | n draws give n values |
| `DirtGen.DrawsInUnit` | src/utils/gameLogic.ts:215-222 | every drawn value lies in [0,1) |
| `DirtGen.Mulberry32.constructor` | src/utils/gameLogic.ts:215 | the generator state starts as the seed |
| `DirtGen.Mulberry32.Next` | src/utils/gameLogic.ts:216-221 | one call adds 0x6D2B79F5 to the state modulo 2^32 and returns the mixed state scaled into [0,1) |
| `DirtGen.Pin` | src/utils/gameLogic.ts:237-238 | a neighbour coordinate clamped into the grid is a valid column or row |
| `DirtGen.SampleAt` | src/utils/gameLogic.ts:235-239 | the box sample at offset (dx,dy) is the field value at the clamped neighbour |
| `DirtGen.BlurAt` | src/utils/gameLogic.ts:229-245 | a blurred cell is the sum of its nine clamped samples divided by 9 |
| `DirtGen.BlurKeepsBounds` | src/utils/gameLogic.ts:231-245 | one blur pass keeps every value within the bounds of its input |
| `DirtGen.BlurredKeepsBounds` | src/utils/gameLogic.ts:229-247 | any number of blur passes keeps every value within the bounds of the white noise |
| `DirtGen.NormalizeInUnit` | src/utils/gameLogic.ts:249-256 | min-max normalisation maps every value into [0,1] and the smallest to 0 |
| `DirtGen.NoiseFieldInUnit` | src/utils/gameLogic.ts:224-257 | the noise field holds one value in [0,1] per cell, with a 0 when the grid is non-empty |
| `DirtGen.BoxAverage` | src/utils/gameLogic.ts:233-243 | the `dy`/`dx` loop counts 9 samples and yields their mean |
| `DirtGen.BoxRow` | src/utils/gameLogic.ts:236-241 | the `dx` loop for one row offset adds that row's three clamped samples to the running sum and count |
| `DirtGen.BlurRow` | src/utils/gameLogic.ts:232-244 | one row loop writes that row's blurred values and keeps the rows written before |
| `DirtGen.BlurPass` | src/utils/gameLogic.ts:230-246 | one pass yields a fresh array equal to the blur of the field |
| `DirtGen.MinMax` | src/utils/gameLogic.ts:249-254 | the scan finds the minimum and the maximum of the field |
| `DirtGen.WhiteNoise` | src/utils/gameLogic.ts:226 | cell i gets the generator's i-th draw, and the generator advances by the cell count |
| `DirtGen.BlurPasses` | src/utils/gameLogic.ts:229-247 | the pass loop applies exactly `blurPasses` blurs, none when it is not positive |
| `DirtGen.Normalized` | src/utils/gameLogic.ts:249-256 | the normalisation step equals `Normalize` of the field |
| `DirtGen.MakeNoiseField` | src/utils/gameLogic.ts:224-257 | the result is `NoiseField` of the generator's next `cols * rows` draws, and the generator advances by that many |
| `DirtGen.BlendCell` | src/utils/gameLogic.ts:271-274 | a blended cell lies in [0,1] |
| `DirtGen.RandomizedDirtShape` | src/utils/gameLogic.ts:259-277 | the generated grid keeps the base grid's columns and rows and holds one value in [0,1] per cell |
| `DirtGen.RandomizeDirt` | src/utils/gameLogic.ts:259-277 | the generation loop builds `RandomizedDirt` of the base grid, the seed and the level id |
| `DirtGen.BlendCells` | src/utils/gameLogic.ts:266-275 | every cell is the base value and the shaped noise value of that cell blended and clamped to [0,1] |
| `Session.LoweredSpec` | src/utils/gameLogic.ts:126 | the first loop ends at or below PI, stays above -PI when it started there, and subtracts whole turns |
| `Session.RaisedSpec` | src/utils/gameLogic.ts:127 | the second loop ends above -PI, stays at or below PI when it started there, and adds whole turns |
| `Session.NormalAngleSpec` | src/utils/gameLogic.ts:125-129 | the result is in (-PI, PI], differs from the input by whole turns, leaves angles in that range alone, and is idempotent |
| `Session.NormalizeAngle` | src/utils/gameLogic.ts:125-129 | the two while-loops compute `NormalAngle` and end in (-PI, PI] |
| `Session.TurnDelta` | src/utils/gameLogic.ts:54-57 | one tick turns by at most `TURN_RATE * DT` either way |
| `Session.SteerHeading` | src/utils/gameLogic.ts:53-58 | the new heading lies in (-PI, PI] and is the old heading plus the limited turn, up to whole turns; steering moves nothing else of the vehicle |
| `Session.MarginClampSpec` | src/utils/gameLogic.ts:98-108 | on a rink of at least 16 units each way the clamped position lies inside the 8-unit margin, and it changed exactly when the position was outside |
| `Session.TickBoards` | src/utils/gameLogic.ts:97-112 | after a tick the vehicle is inside the margin; contact holds exactly when the unclamped move left it; bumps grow by one exactly on a rising contact edge |
| `Session.TickCleaning` | src/utils/gameLogic.ts:114-116 | a tick makes no cell dirtier, and every changed cell is now 0 and lies in the disc around the new or the previous squeegee position |
| `Session.StartInv` | src/utils/gameLogic.ts:35-44 | a new game on a grid of unit cells satisfies the simulation invariant |
| `Session.CompletedMeansClean` | src/utils/gameLogic.ts:121-122 | under the invariant, a completed game has every cell at 0 |
| `Session.TickBookkeeping` | src/utils/gameLogic.ts:118-122 | a tick keeps the invariant, adds DT, counts boost down to no less than 0, never lowers the percentage, completes exactly when the grid is clean, and never un-completes |
| `Session.TicksKeepInv` | src/utils/gameLogic.ts:191-193 | any number of ticks keeps the invariant and keeps a completed game completed |
| `Session.TicksProgress` | src/utils/gameLogic.ts:191-193 | n ticks add n*DT to elapsed, make no cell dirtier and never lower the bump count |
| `Session.FreshDirt` | src/utils/gameLogic.ts:24-27 | the session's dirt is the randomized grid for the level hash xor the entropy, sized to the level, every cell in [0,1] |
| `Session.GameState.constructor` | src/utils/gameLogic.ts:23-45 | `createGame`: the randomized dirt, the vehicle at the level start with zero velocity and heading 0, idle input and zero counters |
| `Session.GameState.ApplyCleaningAt` | src/utils/gameLogic.ts:132-162 | the tile array becomes `Cleared` around the squeegee point behind `position`, with the radius enlarged by 5% |
| `Session.GameState.SteerStep` | src/utils/gameLogic.ts:53-91 | the vehicle becomes `Steer` of the old vehicle and input; nothing else changes |
| `Session.GameState.Drive` | src/utils/gameLogic.ts:93-112 | returns the previous position, moves and clamps the vehicle, and sets contact and the bump count by the edge rule |
| `Session.GameState.Sweep` | src/utils/gameLogic.ts:114-122 | cleans at the new then the previous position, sets the percentage and completion, adds DT and counts the boost down |
| `Session.GameState.Integrate` | src/utils/gameLogic.ts:47-123 | the new state is `Tick` of the old one |
| `Session.GameState.Run` | src/utils/gameLogic.ts:192 | n calls of `Integrate` give `Ticks` of the old state |
| `Session.GameState.TickMany` | src/utils/gameLogic.ts:191-193 | `tickMany(s, ticks)` runs `integrate` `LoopCount(ticks)` times and keeps the class invariant |
| `Session.LoopCount` | src/utils/gameLogic.ts:192 | the `for (i = 0; i < ticks; i++)` loop runs the least count that is at or above `ticks`: none for a count that is not positive, and a fractional count rounded up |
| `Session.FromInputDragSpec` | src/utils/gameLogic.ts:181-189 | inside the 5-unit dead zone: direction +x, no throttle; beyond it: the unit vector along the drag, a throttle in (0,1] equal to l/80 below 80 and full exactly from 80 on |
| `Scoring.ComputeGridAvg` | src/components/Game/CanvasGame.tsx:1390-1394 | the summing loop returns `sum / max(1, len)` |
| `Scoring.GridAvgSpec` | src/components/Game/CanvasGame.tsx:1390-1394 | the mean is 0 on an empty grid, lies in [0,1] for unit cells, and equals `1 - percentage/100` on a non-empty grid |
| `Scoring.ComputePar` | src/components/Game/CanvasGame.tsx:1396-1403 | par is at least 10 and at least `18 + w*h/9000 + 22*initAvg`, and equals one of the two |
| `Scoring.ParMonotone` | src/components/Game/CanvasGame.tsx:1396-1403 | a larger rink area or a dirtier start never lowers par |
| `Scoring.GradeTiers` | src/components/Game/CanvasGame.tsx:1405-1410 | each grade holds exactly on its time band (both directions), and a larger time never earns a better grade |
| `Scoring.BumpPenaltyMonotone` | src/components/Game/CanvasGame.tsx:344 | the bump penalty is a surcharge in [0, 0.12] that is 0 exactly up to one bump and never decreases as bumps grow |
| `Scoring.FinalGradeMonotone` | src/components/Game/CanvasGame.tsx:344-345 | more bumps or more time never earn a better final grade |
| `Alpha.HardenedSpec` | src/components/Game/CanvasGame.tsx:1266-1278 | only alpha bytes strictly between 0 and 255 change; such a byte becomes 255 exactly when it reaches the threshold and 0 exactly when below it; afterwards every alpha byte is 0 or 255 |
| `Alpha.HardenedIdempotent` | src/components/Game/CanvasGame.tsx:1271-1276 | hardening twice is hardening once, whatever the thresholds |
| `Alpha.HardenedExtremes` | src/components/Game/CanvasGame.tsx:1274 | a threshold of 0 or below makes every visible pixel opaque; one above 255 makes every partly transparent pixel invisible |
| `Alpha.HardenAlpha` | src/components/Game/CanvasGame.tsx:1266-1278 | the in-place loop leaves the buffer equal to `Hardened` of its old contents |
| `Frame.IntentRange` | src/components/Game/CanvasGame.tsx:277-282 | the key intent is in {-1,0,1} on each axis, and opposite keys cancel |
| `Frame.FoldKeysSpec` | src/components/Game/CanvasGame.tsx:273-306 | the per-frame key fold: see the list below the table |
| `Frame.FlickVelocity` | src/components/Game/CanvasGame.tsx:203-205 | a drag whose last point is its start point has zero flick velocity, whatever the times |
| `Frame.IsFlickIsHypotTest` | src/components/Game/CanvasGame.tsx:206-208 | the squared-speed flick test holds exactly when the speed (the length of the velocity) exceeds 0.8 |
| `Frame.DragEndSpec` | src/components/Game/CanvasGame.tsx:197-217 | releasing a drag deactivates the input with no throttle and the same direction, and adds 15 boost ticks exactly when the release velocity is a flick; otherwise the boost count is unchanged |
| `Frame.ReleaseWithoutMoveNoBoost` | src/components/Game/CanvasGame.tsx:168-219 | a press released without any move deactivates the input and never adds boost ticks |
| `Frame.FlickNeedsDistance` | src/components/Game/CanvasGame.tsx:203-208 | a flick needs the last point to lie more than 0.8 units from the start, since the time step is at least 1 |
| `Frame.InputOkKept` | src/components/Game/CanvasGame.tsx:168-306 | the initial input, the key fold, drag start, move and end, and the boost countdown all keep a unit direction, a throttle in [0,1] and a non-negative boost count |
| `Frame.StoreAfterCompletionSpec` | src/components/Game/CanvasGame.tsx:332-362 | after the completion writes the level is complete, its stored best is the best shown on screen, and the career run count is one higher |
| `Frame.PersistCompletion` | src/components/Game/CanvasGame.tsx:332-362 | marks the level complete, saves the best time and updates the career records, in that order, and returns `min(prevBest, elapsed)`, or the saved time when there was none |
| `Frame.Play.constructor` | src/components/Game/CanvasGame.tsx:95-98 | a new screen is not completed, holds no keys, and records the initial dirt mean of the grid |
| `Frame.Play.KeyDown` | src/components/Game/CanvasGame.tsx:242-253 | a key press is ignored once completed; otherwise it is added to the held keys, and Space sets the space flag |
| `Frame.Play.KeyUp` | src/components/Game/CanvasGame.tsx:254-259 | a key release removes the key, and releasing Space clears the space flag |
| `Frame.Play.PointerStart` | src/components/Game/CanvasGame.tsx:168-180 | a press records a drag at the pointer with that time as last time, activates the input and leaves the rest of the component unchanged |
| `Frame.Play.PointerMove` | src/components/Game/CanvasGame.tsx:182-195 | without a drag a move changes nothing; with one, the input is steered by the offset from the drag start and the drag's last point and time become the pointer and the current time |
| `Frame.Play.PointerEnd` | src/components/Game/CanvasGame.tsx:197-219 | without a drag a release changes nothing in the game; with one, the input is released with the flick velocity of the recorded drag; afterwards there is no drag |
| `Frame.Play.Complete` | src/components/Game/CanvasGame.tsx:332-365 | sets completed, par from the recorded or current dirt mean, the penalised grade and the shown best time, and performs the storage writes |
| `Frame.Play.FoldAndTick` | src/components/Game/CanvasGame.tsx:272-311 | the held keys are folded into the input, the game advances one tick, and the component's own fields other than the space edge are unchanged |
| `Frame.Play.GradeRun` | src/components/Game/CanvasGame.tsx:340-346 | par from the recorded dirt mean, or from the current one when the recorded mean is 0, as the logical-or fallback does, and the grade of the bump-penalised time against it; the other component fields are unchanged |
| `Frame.Play.Step` | src/components/Game/CanvasGame.tsx:269-367 | once completed a frame changes nothing; otherwise it folds the keys, runs one tick, and does the completion work exactly on the frame that first completes |
| `Progress.AbsentOrMalformedIsEmpty` | src/utils/progress.ts:10-25 | a missing or unparsable progress item reads as no completed level |
| `Progress.DedupSpec` | src/utils/progress.ts:24 | the set-to-array conversion keeps exactly the elements, each once |
| `Progress.DedupNoDup` | src/utils/progress.ts:31 | a list without repetitions converts to itself |
| `Progress.MarkedSpec` | src/utils/progress.ts:27-38 | `markComplete` adds the id, keeps every completed id, and touches no other storage key |
| `Progress.MarkIdempotent` | src/utils/progress.ts:27-38 | marking twice leaves the same storage as marking once |
| `Progress.MarkedIsComplete` | src/utils/progress.ts:40-42 | `isComplete(id)` holds after `markComplete(id)` |
| `Progress.MarkComplete` | src/utils/progress.ts:27-38 | the storage becomes `Marked` of the old one, and the returned set is the stored completed set |
| `Progress.GetBestTime` | src/utils/progress.ts:53-58 | a best time is returned exactly when the stored record holds a number for the id, and it is that number |
| `Progress.BestAfterSpec` | src/utils/progress.ts:60-72 | the stored best becomes the new time when none existed or it is strictly smaller, else stays; other levels and keys are untouched |
| `Progress.SetBestTime` | src/utils/progress.ts:60-72 | the storage becomes `BestAfter` of the old one, and the returned number is the stored best |
| `Scores.ComputeComposite` | src/utils/highScores.ts:47-49 | the composite is the nearest integer to `1.2*clean - 3*bumps - 0.55*time`, halves up |
| `Scores.CompositeMonotone` | src/utils/highScores.ts:47-49 | a quicker, less bumpy or cleaner run never has a lower composite |
| `Scores.UpdatedTotals` | src/utils/highScores.ts:54-55 | every update adds one run and the run's clean percentage, with absent totals read as 0 |
| `Scores.UpdatedLevelBest` | src/utils/highScores.ts:58-75 | the level's entry becomes the field-wise best of the old entry and the run, with one more run, in both branches; other levels are unchanged |
| `Scores.UpdatedBests` | src/utils/highScores.ts:76-93 | each all-time record is replaced exactly under its own rule (strictly better, or equal with a strictly smaller time) and otherwise kept |
| `Scores.AfterRunsFastest` | src/utils/highScores.ts:54-76 | over any history from an empty record, the run count is the history's length and the fastest time is the time of one of the runs, no slower than any |
| `Scores.MergeLevel` | src/utils/highScores.ts:56-75 | the per-level branch writes `LevelAfter` of the previous entry |
| `Scores.MergeBests` | src/utils/highScores.ts:76-93 | the four record checks replace each record under its source condition and change nothing else |
| `Scores.UpdateHighScores` | src/utils/highScores.ts:51-95 | the stored record becomes `Updated` of the old record and the run; no other key changes |
| `Chars.ReplaceCharAppend` | scripts/normalize-eol.mjs:16 | replacing a character in a concatenation is the concatenation of the replaced parts, which is what lets `replace(/\r/g, "\n")` be taken one chunk at a time |
| `Chars.ReplaceCharRemoves` | scripts/normalize-eol.mjs:16 | after `replace(/\r/g, "\n")`, or any replacement by a different character, none of the replaced character is left |
| `Paths.NormSpec` | src/utils/paths.ts:11 | `norm` turns every '+' into '/', then drops exactly one trailing '/' if there is one |
| `Paths.NumberText` | src/utils/paths.ts:18 | a stringified number contains no '/' |
| `Paths.Cleaned` | src/utils/paths.ts:16-19 | one cleaned string per kept segment |
| `Paths.StripSpec` | src/utils/paths.ts:19 | stripping yields a slice of the segment with no leading or trailing '/', removes only slashes, leaves a clean segment alone, and is idempotent |
| `Paths.AppPathShape` | src/utils/paths.ts:15-22 | `appPath` starts with '/', and `appPath()` is "/" |
| `Paths.AppPathSkipsAbsent` | src/utils/paths.ts:16-17 | an undefined or null segment anywhere changes nothing |
| `Paths.AppPathSplits` | src/utils/paths.ts:19-21 | splitting the path after its leading '/' gives back the kept, stripped segments when they hold no '/' |
| `Paths.FullAppPathSpec` | src/utils/paths.ts:25-28 | the full path is the normalised base path followed by `appPath`, so it extends the base; for an empty base it is just `appPath` and starts with `/` |
| `Paths.RoutesSpec` | src/utils/paths.ts:30-33 | `paths.home` is "/" and `paths.play(id)` is "/play/" plus the id with its outer slashes stripped |
| `Eol.NormalizeIsOnePass` | scripts/normalize-eol.mjs:16 | the two replacements equal a single left-to-right pass mapping CRLF and lone CR to LF |
| `Eol.NormalizeNoCr` | scripts/normalize-eol.mjs:16 | the normalised text contains no '\r' |
| `Eol.NormalizeKeepsLf` | scripts/normalize-eol.mjs:16 | text without '\r' is left unchanged |
| `Eol.NormalizeChangesIff` | scripts/normalize-eol.mjs:16-17 | the text changes exactly when it contains '\r', and normalising is idempotent |
| `Eol.AfterAllSpec` | scripts/normalize-eol.mjs:11-27 | the file set keeps its paths; listed files end without '\r', others are untouched; at most one change is counted per listed path |
| `Eol.NothingChanged` | scripts/normalize-eol.mjs:17-33 | the count is 0 exactly when no listed file holds a '\r', and then nothing was rewritten |
| `Eol.NormalizeFiles` | scripts/normalize-eol.mjs:11-27 | the loop leaves the files equal to `AfterAll` and counts the files it rewrote |
| `GameStatus.InitializeLevelSpec` | src/hooks/useGameState.ts:27-59 | an out-of-range index changes nothing; otherwise the vehicle is centred, heading 0, not moving, and score, cleaned count and time are 0; the status is kept |
| `GameStatus.TogglePauseSpec` | src/hooks/useGameState.ts:72-83 | playing goes to paused and paused to playing, with `isPaused` to match; other statuses and a missing state change nothing; toggling twice from a consistent state is the identity |
| `GameStatus.UpdateMovementSpec` | src/hooks/useGameState.ts:86-92 | only while playing with a state, direction and moving flag are set and nothing else changes |
| `GameStatus.GameTickSpec` | src/hooks/useGameState.ts:95-150 | the tick: see the list below the table |
| `GameStatus.CompletionLatches` | src/hooks/useGameState.ts:131-142 | once completed, any later ticks keep completion, the score and the saved progress |
| `GameStatus.DroppedFramesIgnored` | src/hooks/useGameState.ts:101-102 | a frame longer than 0.5 s anywhere in a tick sequence has no effect |
| `GameStatus.NextLevelSpec` | src/hooks/useGameState.ts:160-167 | the next level starts, playing with fresh counters, when it exists; otherwise the machine is at the menu with no state |
| `GameStatus.RestartIsStart` | src/hooks/useGameState.ts:170-184 | restarting equals starting the current level afresh, with time 0 and not completed |
| `GameStatus.InvKept` | src/hooks/useGameState.ts:27-184 | every operation keeps the state consistent with the status and keeps the level index inside the table, so looking the level up (`GAME_LEVELS[i]`) never finds it missing; a playing machine runs every frame of at most 0.5 s |
| `GameStatus.GameHook.constructor` | src/hooks/useGameState.ts:15-19 | the hook starts at the menu, index 0, with no state |
| `GameStatus.GameHook.InitializeLevel` | src/hooks/useGameState.ts:27-59 | the new state is `LevelInitialized` of the old |
| `GameStatus.GameHook.StartGame` | src/hooks/useGameState.ts:62-69 | the new state is `GameStarted` of the old |
| `GameStatus.GameHook.TogglePause` | src/hooks/useGameState.ts:72-83 | the new state is `PauseToggled` of the old |
| `GameStatus.GameHook.UpdateZamboniMovement` | src/hooks/useGameState.ts:86-92 | the new state is `UpdateMovement` of the old |
| `GameStatus.GameHook.GameTick` | src/hooks/useGameState.ts:95-150 | the new state is `Ticked` of the old |
| `GameStatus.AdvanceStep` | src/hooks/useGameState.ts:104-128 | the clock, movement and cleaning steps give `Advance`; the clock grows by the frame time and the level, completion flag and score are untouched |
| `GameStatus.GameHook.ResetToMenu` | src/hooks/useGameState.ts:153-157 | the new state is `AtMenu` of the old |
| `GameStatus.GameHook.NextLevel` | src/hooks/useGameState.ts:160-167 | the new state is `LevelAdvanced` of the old |
| `GameStatus.GameHook.RestartLevel` | src/hooks/useGameState.ts:170-184 | the new state is `LevelRestarted` of the old |
| `Chiptune.BassSpec` | src/components/Audio/ChiptuneBG.tsx:74-81 | the bass table for key 57 is the stated 16 notes; each odd step is a fifth above the step before; every note lies 5 to 15 semitones below the key |
| `Chiptune.DrumsSpec` | src/components/Audio/ChiptuneBG.tsx:160-166 | kicks at steps {0,6,8}, snares at {4,12,15}, hats exactly on even steps, open-hat flags at {7,15} |
| `Chiptune.OpenHatNeverPlayed` | src/components/Audio/ChiptuneBG.tsx:209-215 | an open hat sounds exactly when hat and open flag are both set, a closed hat when only hat is; no step of the table ever sounds an open hat |
| `Chiptune.StepClock.constructor` | src/components/Audio/ChiptuneBG.tsx:70 | seconds per step are `60 / tempo / stepsPerBeat`; the clock starts stopped with nothing scheduled |
| `Chiptune.StepClock.Start` | src/components/Audio/ChiptuneBG.tsx:169-187 | a running clock is left alone; otherwise it runs, keeps what was scheduled before, and schedules the chain of steps from step 0 at 0.05 s from now up to the look-ahead, exactly as `Tick` does |
| `Chiptune.StepClock.Stop` | src/components/Audio/ChiptuneBG.tsx:189-196 | the clock stops and keeps its step, time and schedule |
| `Chiptune.StepClock.Tick` | src/components/Audio/ChiptuneBG.tsx:176-184 | the scheduling loop: see the list below the table |
| `Chiptune.RoutingPartition` | src/components/Audio/ChiptuneBG.tsx:837-844 | the three voice lists together hold every pitched note exactly once |
| `Chiptune.VoiceNotesMembers` | src/components/Audio/ChiptuneBG.tsx:838-844 | a voice holds only non-drum notes routed to it |
| `Chiptune.DrumHitsCount` | src/components/Audio/ChiptuneBG.tsx:846-853 | there are exactly as many hits as channel-9 notes whose key maps to a drum |
| `Chiptune.DrumHitsSpec` | src/components/Audio/ChiptuneBG.tsx:846-853 | a hit exists exactly when some channel-9 note has a mapped key, with that note's time and mapped kind |
| `Chiptune.InsertByTimeSorted` | src/components/Audio/ChiptuneBG.tsx:855-859 | inserting into a time-sorted list keeps it sorted |
| `Chiptune.InsertByTimePerm` | src/components/Audio/ChiptuneBG.tsx:855-859 | inserting adds exactly the one element |
| `Chiptune.SortByTimeSpec` | src/components/Audio/ChiptuneBG.tsx:855-859 | the sort result is time-ordered and a permutation of its input |
| `Chiptune.SortByTimeStable` | src/components/Audio/ChiptuneBG.tsx:855-859 | the sort is stable: for every time, the notes of that time come out in their input order |
| `Chiptune.SortedVoice` | src/components/Audio/ChiptuneBG.tsx:856-858 | a sorted voice list is ordered, a permutation of the routed notes, and holds only notes of that voice |
| `Chiptune.LoadSpec` | src/components/Audio/ChiptuneBG.tsx:836-859 | after loading, all four lists are time-sorted; the voices partition the pitched notes by the pitch rules; the drum list is a permutation of the mapped hits |
| `Chiptune.LoopDur` | src/components/Audio/ChiptuneBG.tsx:814-822 | a non-zero duration is kept; otherwise the loop length is at least 1 and every track end, and equals 1 or one of them |
| `Chiptune.SplitPairSpec` | src/components/Audio/ChiptuneBG.tsx:880-883 | the melody pitch is the higher of the two, and the pair keeps both pitches |
| `Chiptune.SnapshotTempo` | src/components/Audio/ChiptuneBG.tsx:886-890 | the tempo lies in [40,220], is 90 without a loop length, and is `round(480/loopDur)` when that is in range |
| `Chiptune.SnapshotRoundTrip` | src/components/Audio/ChiptuneBG.tsx:599-607 | a written snapshot reads back its three tunes; its tempo is applied exactly when strictly between 40 and 220, so a clamped tempo is dropped |
| `Chiptune.InvalidSnapshotIgnored` | src/components/Audio/ChiptuneBG.tsx:599-601 | a snapshot with any array that is not 16 numbers leaves the defaults |
| `Chiptune.InWindowIffOffset` | src/components/Audio/ChiptuneBG.tsx:960-963 | for a window no longer than the loop, `inWindow(t)` holds exactly when the event's offset from the window start is below the window length, and that offset lies in [0, dur) |

The longer rows, in full:

- **`Frame.FoldKeysSpec`** (the key fold of one frame):
  - A direction intent gives full throttle, active input and the unit vector of the intent.
  - With no intent the throttle drops to 0 unless a touch is active.
  - Space adds 15 boost ticks exactly on its press edge while keys are held.
  - The remembered Space state is "held and keys down".
- **`GameStatus.GameTickSpec`** (one game tick):
  - Nothing happens unless the game is playing, has a state, has a level, and the frame is at most 0.5 s.
  - Otherwise the time grows by `dt` and the vehicle moves.
  - Cleaning happens only while moving. The grid then becomes the cleaned grid, and the cleaned count grows by the cells it cleaned.
  - The clean percentage is recomputed from the grid.
  - Completion latches and saves once. On the completing tick, and only then, the score becomes `calculateLevelScore` of the new totals. On every other tick the score and the saves are unchanged.
  - Game over holds exactly when the time limit is reached, even on the completing tick.
- **`Chiptune.StepClock.Tick`** (the scheduling loop):
  - Only a running clock schedules.
  - It schedules consecutive steps from the old step and time. Each step is one further modulo 16 and one step length later.
  - Every scheduled step number lies in [0,16).
  - Every scheduled time is before the look-ahead end, and the next time lies at or beyond it.

## Left out

- Floating point: all arithmetic is on exact reals, so rounding of doubles is not modelled, and
  neither are NaN and infinity. The clean percentage of an empty grid is `None` where the source
  gets NaN.
- `Math.sin`, `Math.cos`, `Math.atan2`, `Math.hypot` and `Math.pow` are parameters.
  - Steering, damping, friction and the speed cap are modelled through them.
  - Nothing is proved about velocity beyond its being what these steps compute.
  - Where a length must be exact (the drag length), it is a parameter `l` with `l >= 0` and
    `l*l == dx*dx + dy*dy`.
  - The flick test `hypot(vx, vy) > 0.8` is written on squares, `vx*vx + vy*vy > 0.64`, and
    `Frame.IsFlickIsHypotTest` proves the two agree.
  - The diagonal key length is likewise a parameter.
- `Session.SteerHeading`: states the heading bound and the turn limit, not any property of the new
  velocity, because that depends on the uninterpreted trigonometry.
- The entropy word of `makeSeed` (`crypto.getRandomValues` or `Math.random`) is a parameter, and so
  is the clock (`performance.now()`, the audio clock).
- `localStorage` and `JSON.parse`/`JSON.stringify` are an in-memory map of already-parsed items.
  - A missing or unparsable item is modelled as in the source.
  - Well-formed JSON of an unexpected shape is not.
  - Storage exceptions are not modelled.
- React state and effects: state updates are applied immediately in call order, refs are fields,
  and the `useEffect` listener wiring is not modelled.
  - Each key or pointer listener is a method of `Frame.Play` (`KeyDown`, `KeyUp`, `PointerStart`,
    `PointerMove`, `PointerEnd`); the pointer position relative to the canvas and the value of
    `performance.now()` are its parameters.
- The helpers `useGameState` imports (`initializeIceGrid`, `cleanIceCells`,
  `calculateCleanPercentage`, `updateZamboniPosition`, `calculateLevelScore`, `saveGameProgress`)
  and `GAME_LEVELS` are not part of this model.
  - They are function-valued parameters and a sequence of levels.
  - `saveGameProgress` is recorded as a list of saved states.
- The base dirt patterns of the levels use `Math.sin`, `Math.cos` and `Math.hypot` through `MathLib`.
  Only their clamping into [0,1] and the grid shapes are proved.
- The MIDI loop's note sorting and routing are modelled on sequences rather than arrays pushed and
  sorted in place.
  - The sort is insertion from the end, and `Chiptune.SortByTimeStable` proves it stable, as
    JavaScript's `Array.prototype.sort` is.
- The MIDI snapshot's pitch sampling (`sample` with `mtof`) is not modelled; the three tunes are
  inputs to the snapshot lemmas.
- `loopPos` in `scheduleWindow` is a real modulo; the window lemma takes it as a parameter in [0, dur).
- Web Audio synthesis, oscillators, `setInterval`, `fetch` and the MIDI parser are not modelled,
  nor are canvas rendering, confetti, sparkles, sound effects and viewport sizing.
- `hardenAlpha`'s canvas read and write-back are left out; the method works on the pixel bytes.
- `Paths.NumberText`: only integral numbers are stringified, as decimal digits. `String(n)` for a
  fractional number ("1.5"), for a number of 1e21 or more ("1e+21"), or for NaN or infinity is not
  modelled. Every route in the game passes strings.
- `runtimeBasePath` reads the DOM and the environment, so it is a parameter of `FullAppPath`.
- The line-ending script's console output and file I/O errors are not modelled. A missing file is
  taken to be absent from the file map.
