# Muscle Survivors: a verified model of the game logic

Muscle Survivors is a pygame game steered by the player's body. A webcam
pose model finds the shoulders. Raising or lowering them moves a
circle up or down through an endlessly scrolling field of red obstacle
tiles. This project models the game's logic in Dafny and proves what that
logic promises. The model covers four parts:

- **The scrolling grid** (`ScrollGrid`, grid.dfy; class `Grid` in main.py).
  - The bounding box is derived from the tile size and the window.
  - Two flat lists of line segments are built in nested loops.
  - A scroll step moves each line that left the box across its left, top
    or bottom edge to the opposite edge. No branch tests the right edge, so
    a line past it stays where it is.
    As written, a horizontal line that leaves across a left corner of the
    box keeps its old row (see "## Findings").
  - Conversions between tile indices and pixels.
- **The countdown timer** (`Timers`, timer.dfy; class `Timer` in
  miscellaneous.py). It is a small state machine over `start`, `reset`,
  `is_over` and `get_time`, with the clock passed in. Its `has_ended` flag
  is a latch: `is_over` answers True at most once between resets.
- **The calibration store and movement normaliser** (`Movement`,
  movement.dfy; class `MovementAnalyser` in movement_analyser.py, without
  the camera).
  - Arms-up and arms-down shoulder/elbow samples are taken by slicing.
  - Their means are computed.
  - The current shoulder height goes through a clamped linear map to [-1, 1].
- **The game mode** (`Obstacles`, obstacles.dfy, and `GameModes`,
  game_mode.dfy; class `GameMode1` in game_mode1.py).
  - The difficulty table.
  - Where a spawn may put obstacles, and a spawn that adds no duplicate position.
  - Culling around the player's tile.
  - The collision test with its asymmetric edges.
  - The frame throttle of the movement sampler.
  - The two-phase UP/DOWN calibration machine of `intro_update`.
  - Restarting the game.

The four classes whose fields change (`Grid`, `Timer`, `MovementAnalyser`
and `GameMode1`) are Dafny classes. `Grid`'s dictionary of line lists
becomes two fields, `verticals` and `horizontals`. The player, whose
`movement` `get_movement` assigns in place, is a `Player` value held in
the field `GameMode1.player`, and that method replaces it whole. The
methods are proved against pure step functions on a value snapshot of the
state:

- `Timer.State()` and `IsOverStep`;
- `MovementAnalyser.State()` and `UpPositionsStep`;
- `GameMode1.IntroView()` and `IntroStep`;
- `Recycle` for `Grid.update`;
- `ClearStep` for `clear_obstacles`.

The properties are lemmas about those functions. Loops stay loops:

- the nested loops of `calculate_grid`;
- the copy-and-mutate loops of `update` and `clear_obstacles`;
- the for/else loop of `generate_obstacles`.

Each loop is proved with invariants against its specification function.

Inputs the program gets from outside become parameters:

- the wall clock is `now: real`, read once per call;
- the camera's landmark frame is `frame: Option<seq<BodyPart>>`, where
  None means the camera read failed;
- the random choices of `generate_obstacle_positions` are `rows`, whose
  range and count are fixed by `requires`.

Pixel shifts, radii, densities and percentages are exact `real`s. Tile
indices and line coordinates are `int`s.

## Model

| member | source | states |
|---|---|---|
| Common.CeilDiv | main.py:39-40 | `ceil(a / b)` for a positive divisor: the unique `c` with `(c - 1) * b < a <= c * b` |
| Common.Ceil | main.py:29-30 | `math.ceil` of a real: the integer `c` with `c - 1 < r <= c` |
| Common.RemoveFirst | main.py:77-79 | `list.remove`: one element fewer when `x` is present; the list is unchanged when it is absent (the `except ValueError: pass` of game_mode1.py:185-188) |
| Common.RemoveFirstMultiset | game_mode1.py:185-188 | removing a column takes away exactly one copy of it if there is one: multiset difference with `{x}` |
| Common.RemoveFirstAt | main.py:77-79 | when the first occurrence of `x` follows a prefix without it, remove cuts out exactly that element |
| ScrollGrid.LineCoversWindow | main.py:21-24 | `line_width = ceil(W / tw) * tw` covers the window and overshoots it by less than one tile; likewise `line_height` |
| ScrollGrid.BoxForFits | main.py:26-30 | with a non-negative outer margin, `min_x < max_x` and the box is at least one line height tall, so recycling lands lines inside it |
| ScrollGrid.Range | main.py:43-44 | Python's `range(start, stop, step)`: empty when `start >= stop`; element `k` is `start + k * step < stop`; the count is the least that reaches `stop` |
| ScrollGrid.RangeIndex | main.py:43-44 | every `start + k * step` below `stop` is element `k` of the range |
| ScrollGrid.GridLinesLength | main.py:43-49 | the nested loops append as many segments as the outer range times the inner range has elements |
| ScrollGrid.GridLinesAt | main.py:43-49 | segment `(p, q)` of the nested loops sits at index `p * n + q`, `n` the length of the inner range, with the outer loop over columns or rows |
| ScrollGrid.GridLinesShaped | main.py:43-49 | every appended segment has its orientation and the given length |
| ScrollGrid.InitialVerticalAt | main.py:43-45 | calculate_grid appends `((c, i), (c, i + line_height))` for every column `c = min_x + p * tw <= max_x` and every start `i = min_y + q * line_height < max_y` |
| ScrollGrid.InitialHorizontalAt | main.py:47-49 | calculate_grid appends `((i, r), (i + line_width, r))` for every row `r = min_y + p * th <= max_y` and every start `i = min_x + q * line_width < max_x` |
| ScrollGrid.InitialShaped | main.py:42-49 | initial verticals are vertical and `line_height` long; initial horizontals are horizontal and `line_width` long |
| ScrollGrid.QuantiseBrackets | main.py:54-55 | the quantised shift `cx = tw * (shift.x // tw)` satisfies `cx <= shift.x < cx + tw` |
| ScrollGrid.RelocateCorrect | main.py:62-103 | for the vertical step and the corrected horizontal step (not main.py:96-99 as written): a line crossing no edge stays where it is (None exactly when it is placed); a moved line is placed; orientation and length are kept; a vertical left of the box goes to `x = max_x - cx`; a horizontal left of the box goes to `[max_x - cx - line_width, max_x - cx]` |
| ScrollGrid.RelocateShaped | main.py:62-99 | relocation keeps a line's orientation and length |
| ScrollGrid.Partition | main.py:57-103 | the lines that stay and the lines that move split the list; each moving line has exactly one new position, and that position comes from a line of the list |
| ScrollGrid.RecycleMultiset | main.py:77-79 | through the loop, the live list plus the lines already moved equals the original plus their new positions |
| ScrollGrid.RecycleContents | main.py:57-103 | for either horizontal step, after one update a list holds exactly the lines that crossed no edge plus the new positions of those that did, and as many lines as before |
| ScrollGrid.RecycleShaped | main.py:57-103 | for either horizontal step, an update keeps every line's orientation and length |
| ScrollGrid.RecyclePlaced | main.py:57-103 | for the verticals, and for the horizontals with the corrected step: after an update every line is placed relative to the quantised shift, and shapes are kept |
| ScrollGrid.AsWrittenHorizontalLeftAboveBox | main.py:86-99 | a concrete line that crosses both the top and the left edge: as written it is moved right but left above the box (not placed); the corrected step places it |
| ScrollGrid.RightEdgeStays | main.py:62-99 | no branch tests `max_x`: a concrete vertical line right of the box is not moved, with either horizontal step |
| ScrollGrid.AsWrittenAgreesOtherwise | main.py:86-99 | the as-written and corrected horizontal steps differ only for a line crossing the left edge together with the top or bottom edge |
| ScrollGrid.RecycleAgrees | main.py:57-99 | when no horizontal line crosses a corner of the box, recycling as written gives exactly the corrected result |
| ScrollGrid.RelocateEndsRight | main.py:86-99 | with either horizontal step, a horizontal line that stays or moves ends right of the box's left edge |
| ScrollGrid.RecycleEndsRight | main.py:57-99 | with either horizontal step, after an update every horizontal line ends right of the box's left edge |
| ScrollGrid.Grid.NumberOfLines | main.py:36-37 | get_number_of_lines: the two list lengths added; `Update` keeps it and `Reset` grows it by the initial count |
| ScrollGrid.Grid.ConvertPosToCoordinates | main.py:109-110 | convert_pos_to_coordinates as a pure function of the grid's state, which `ConversionRoundTrip` and `LocalTileContains` characterise |
| ScrollGrid.Grid.ConvertLocalCoordinatesToPos | main.py:112-114 | convert_local_coordinates_to_pos as a pure function of the grid's state, which `ConversionRoundTrip` and `LocalTileContains` characterise |
| ScrollGrid.Grid.ConvertWorldCoordinatesToPos | main.py:116-117 | convert_world_coordinates_to_pos as a pure function of the grid's state, which `WorldTileContains` characterises |
| ScrollGrid.ConversionRoundTrip | main.py:109-114 | `convert_local_coordinates_to_pos(convert_pos_to_coordinates(p)) == p` under any shift |
| ScrollGrid.LocalTileContains | main.py:109-114 | the local tile of a pixel is the tile whose on-screen rectangle contains it |
| ScrollGrid.WorldTileContains | main.py:116-117 | the world conversion is floor division by the tile size and ignores the shift; with zero shift it equals the local conversion |
| ScrollGrid.FloorDivBrackets | main.py:113-117 | `floor(s / t) * t <= s < (floor(s / t) + 1) * t` for a positive tile size |
| ScrollGrid.Grid.constructor | main.py:15-34 | grid size `ceil(W / tw)` by `ceil(H / th)`; the bounds of the box; the initial line lists; zero shift |
| ScrollGrid.Grid.CalculateGrid | main.py:42-49 | appends exactly the initial verticals and horizontals after what the lists hold |
| ScrollGrid.AppendGrid | main.py:43-49 | the nested loops append exactly `GridLines` to the list |
| ScrollGrid.Grid.Update | main.py:51-103 | as written: stores the given shift; each list becomes its recycling against the quantised shift; the line count is unchanged and shapes are kept; every vertical ends up placed; every horizontal ends right of the box's left edge, and all horizontals are placed when no line crossed a corner of the box |
| ScrollGrid.RecycleLines | main.py:57-103 | the loop over a copy with remove/append computes `Recycle` on the list |
| ScrollGrid.Grid.Reset | main.py:119-121 | zero shift; the old lines stay and a fresh initial set is appended, so the line count grows by the initial count |
| Timers.IsOverWhen | miscellaneous.py:37-47 | is_over is True iff started, the duration is truthy, not yet ended and `now - start >= duration`; only `has_ended` changes; once ended it returns False without a change |
| Timers.GetTimeCounts | miscellaneous.py:49-62 | wherever get_time is defined, including the duration-less game timer: None exactly before the start, and forward is `floor(elapsed)`, with `up <= elapsed < up + 1`; for a timer with a duration, forward plus reverse at one instant is the duration |
| Timers.Apply | miscellaneous.py:22-62 | any call keeps a timer consistent |
| Timers.EndedStaysSilent | miscellaneous.py:42-47 | once ended, no run of calls without a reset makes is_over answer True, and the timer stays ended |
| Timers.FiresAtMostOnce | miscellaneous.py:42-47 | between resets is_over answers True at most once, and never again after the timer has ended |
| Timers.Timer.constructor | miscellaneous.py:8-18 | the fresh state: no start or current time, both flags False, no last count |
| Timers.Timer.Start | miscellaneous.py:22-28 | the new state is `StartStep` of the old one |
| Timers.Timer.Reset | miscellaneous.py:30-35 | start time, current time and last count None; both flags False |
| Timers.Timer.IsOver | miscellaneous.py:37-47 | new state and answer are `IsOverStep` of the old state |
| Timers.Timer.GetTime | miscellaneous.py:49-62 | new state and answer are `GetTimeStep`, including the counter-sound branch's `last_count` |
| Movement.Mean | movement_analyser.py:35-37 | get_mean times the count is the sum |
| Movement.SumBounds | movement_analyser.py:35-37 | the sum of `n` values in `[lo, hi]` lies in `[n * lo, n * hi]` |
| Movement.MeanBounds | movement_analyser.py:35-37 | the mean lies between the smallest and the largest argument |
| Movement.MeanOfTwo | movement_analyser.py:31-37 | the mean of two values is their midpoint |
| Movement.Slice | movement_analyser.py:23-29 | Python's `s[lo:hi]`: its length is cut at the end of the list, and element `k` is `s[lo + k]` |
| Movement.SampleSlices | movement_analyser.py:23-29 | shoulders are landmarks 11 and 12 of a non-empty frame; elbows are 13 and 14, or fewer when the frame is shorter; an empty frame gives empty slices |
| Movement.StepsWellFormed | movement_analyser.py:23-33 | the sampling steps keep the slices well formed; the means are the midpoints of the two recorded shoulder `y` values; elbows are ignored |
| Movement.Clamp | movement_analyser.py:92-93 | the result is in [-1, 1]; it is the identity inside and saturates outside |
| Movement.Percentage | movement_analyser.py:84-95 | the result is in [-1, 1]; 0 with no landmarks; 1 when the shoulders are at `mean_up`; -1 at `mean_down` |
| Movement.LinearEnds | movement_analyser.py:90-91 | the unclamped map is 1 at `mean_up`, -1 at `mean_down` and 0 half way |
| Movement.LinearInside | movement_analyser.py:90-91 | for either order of the calibrated heights, the unclamped map of a height between them lies in [-1, 1] |
| Movement.PercentageUnclamped | movement_analyser.py:88-93 | for either order of the two calibrated heights, a shoulder height between them gives exactly the linear map, unclamped |
| Movement.PercentageMonotone | movement_analyser.py:88-93 | when the arms-up height is above the arms-down height on screen (`mean_up < mean_down`), lower shoulders never give a larger percentage |
| Movement.MovementAnalyser.constructor | movement_analyser.py:16-21 | slices None, means 0, no landmarks |
| Movement.MovementAnalyser.ReceiveFrame | movement_analyser.py:39-64 | a frame that could not be read leaves `body_parts` alone; otherwise `body_parts` is replaced by the frame's landmarks |
| Movement.MovementAnalyser.GetUpPositions | movement_analyser.py:23-25 | stores `body_parts[11:13]` and `body_parts[13:15]` as the arms-up sample |
| Movement.MovementAnalyser.GetDownPositions | movement_analyser.py:27-29 | stores the same slices as the arms-down sample |
| Movement.MovementAnalyser.CalculateSetupMeans | movement_analyser.py:31-33 | both means are set from the shoulder `y` values |
| Movement.MovementAnalyser.Reset | movement_analyser.py:97-104 | back to the constructor state |
| Obstacles.UpperIdempotent | game_mode1.py:72 | upper-casing keeps the length and is idempotent |
| Obstacles.SpawnAmountFor | game_mode1.py:71-72 | a density exists iff the upper-cased name is EASY, NORMAL or HARD (otherwise KeyError); each density lies in (0, 1) |
| Obstacles.DifficultyCaseInsensitive | game_mode1.py:71-72 | the lookup ignores case |
| Obstacles.DifficultyTable | game_mode1.py:71-72 | easy gives 0.1, Normal 0.25, HARD 0.4; the empty name fails |
| Obstacles.GenerateObstaclePositions | game_mode1.py:153-162 | between 1 and `int((max_y - min_y) * spawn_amount // th)` positions; all lie in the column `pos.x + line_width / tw` and within `3 * line_height / th` rows of `pos.y` |
| Obstacles.SpawnSurvivesCulling | game_mode1.py:153-162 | generated positions lie in the culling window of the tile they were spawned around |
| Obstacles.AddNewSpec | game_mode1.py:168-173 | old obstacles are kept first and in order; only red tiles at given positions are appended; every given position ends up occupied; positions stay unique |
| Obstacles.GenerateSpec | game_mode1.py:164-175 | a known first column changes nothing; a new one is appended to the summoned list exactly once; obstacles keep their prefix and uniqueness |
| Obstacles.CullOneMore | game_mode1.py:183-214 | visiting one more obstacle either keeps it or adds its column to the culled columns |
| Obstacles.DropOneMore | game_mode1.py:185-188 | dropping one more column is one more `list.remove` |
| Obstacles.InsideSpec | game_mode1.py:177-214 | an obstacle survives culling iff it was there and lies in the window; kept plus culled is the whole list |
| Obstacles.InsideConcat | game_mode1.py:183-214 | culling distributes over concatenation, so survivors keep their order |
| Obstacles.InsideNoDup | game_mode1.py:183-214 | culling keeps obstacle positions unique |
| Obstacles.InsideAll | game_mode1.py:183-214 | when every obstacle is inside the window nothing is culled |
| Obstacles.DropColumnsMultiset | game_mode1.py:185-212 | the summoned list loses one copy of each culled obstacle's column, as far as there is one, whichever edge culled it |
| Obstacles.CheckCollisionsIff | game_mode1.py:216-228 | the result is True iff some obstacle's tile satisfies `px + r > ox`, `px - r <= ox + tw`, `py + r > oy` and `py - r <= oy + th` |
| Obstacles.TouchingEdges | game_mode1.py:218-225 | touching a tile's left or top edge is no collision; touching its right or bottom edge is one |
| Obstacles.ThrottledAdd | game_mode1.py:257-263 | `a + b` calls of the frame counter are `a` calls followed by `b` |
| Obstacles.ThrottleHolds | game_mode1.py:257-261 | from counter `c`, the next `everyN - c` calls hold the movement and count up; the call after them samples and resets to 0 |
| Obstacles.ThrottleCycle | game_mode1.py:257-266 | from a fresh counter the sensor is read on every `(everyN + 1)`-th call and on no other |
| GameModes.UpPhasePreserves | game_mode1.py:78-89 | the up half of intro_update keeps the intro invariant |
| GameModes.DownPhasePreserves | game_mode1.py:91-105 | the down half of intro_update keeps the intro invariant |
| GameModes.IntroPreserves | game_mode1.py:74-105 | every intro tick keeps the invariant: timers consistent, slices well formed, and the down countdown runs only after the latched up countdown left a usable sample; calculate_setup_means therefore never fails |
| GameModes.IntroLeavesOnlyCalibrated | game_mode1.py:91-105 | "MIDDLE GAME" comes only on the tick where the down timer has just ended with a usable down sample; both means are then the shoulder midpoints and the game timer runs; an "INTRO" tick leaves the game timer alone |
| GameModes.IntroRetries | game_mode1.py:80-97 | a countdown firing on a sample without shoulders or elbows restarts that timer at `now` and returns "INTRO" |
| GameModes.IntroUpAdvances | game_mode1.py:80-89 | an up countdown firing on a sample with a shoulder and an elbow records the arms-up sample, shows "DOWN!" and starts the down countdown at `now`; the tick returns "INTRO" |
| GameModes.IntroDownAdvances | game_mode1.py:91-105 | a running down countdown firing on a sample with a shoulder and an elbow returns "MIDDLE GAME" |
| GameModes.IntroUpLatched | game_mode1.py:78-89 | once the down countdown runs, the up half changes nothing |
| GameModes.CullLoop | game_mode1.py:183-214 | the loop over the copy, which removes the visited obstacle and one copy of its column, computes `ClearStep` |
| GameModes.GameMode1.constructor | game_mode1.py:31-65 | empty obstacle and summoned lists; player with radius `th / 2 * 0.6` at `(125, H // 2)`; the difficulty's density; fresh timers and analyser; text "UP!"; throttle `(0, 3)` |
| GameModes.GameMode1.SetupDifficulty | game_mode1.py:71-72 | succeeds iff the name is in the table, and then sets the density |
| GameModes.GameMode1.SetDifficulty | game_mode1.py:67-69 | stores the name, then looks it up |
| GameModes.GameMode1.IntroUpdate | game_mode1.py:74-105 | new intro state and returned phase are `IntroStep` of the old state; the invariant is kept |
| GameModes.GameMode1.IntroUpHalf | game_mode1.py:75-89 | new state and early return are `UpPhase` of the old state |
| GameModes.GameMode1.IntroDownHalf | game_mode1.py:91-105 | new state and phase are `DownPhase` of the old state |
| GameModes.GameMode1.GenerateObstacles | game_mode1.py:164-175 | the new obstacles and summoned list are `GenerateStep` of the old ones; unique positions stay unique, so the class invariant is kept |
| GameModes.GameMode1.ClearObstacles | game_mode1.py:177-214 | the new lists are `ClearStep` around the player's local tile; every remaining obstacle lies in the window; unique positions stay unique, so the class invariant is kept |
| GameModes.GameMode1.CheckCollisions | game_mode1.py:216-228 | True iff the square of side `2r` around the player (the box enclosing its circle, so a corner of the tile can count that the circle misses) overlaps some obstacle's on-screen tile, with the tile's left and top edges exclusive |
| GameModes.GameMode1.RestartGame | game_mode1.py:230-250 | grid reset; obstacles and summoned emptied; player at `(100, H / 2)` and not moving; analyser and timers fresh; text "UP!"; throttle `(0, 3)`; difficulty kept |
| GameModes.GameMode1.ResetIntro | game_mode1.py:237-243 | analyser, the three timers and the instruction text are back at the intro start |
| GameModes.GameMode1.GetMovement | game_mode1.py:257-266 | the counter follows `ThrottleStep`; a held call changes nothing; a sampling call reads the frame and sets the movement to `(0, 10 * percentage)`; the result is bounded |

## Left out

- Drawing and UI: `Grid.draw`, `GameMode1.draw`, `intro_draw`,
  `game_over_draw`, `game_over_update`, the buttons, all of `Game` and
  UI.py. The colours of the grid and the player are dropped too.
- Camera and pose model: `get_positions` is replaced by its effect on
  `body_parts`, with the frame as an input. A frame holds no landmarks or
  at least 13. `convert_cv2_img_to_pygame_img`, `show_camera_image`,
  `close_camera_window`, `close_analyser` and `close` are left out.
- Sound: the mixer, the music in `intro_update`, and `counter_sfx.play()`
  in `get_time`. The `last_count` bookkeeping of that branch is kept.
- database.py and `GameMode1.update`, which calls `insert_score` on a
  collision and otherwise chains `generate_obstacle_positions`,
  `generate_obstacles` and `clear_obstacles`. Those three are modelled one
  by one.
- The process-wide `settings.game_state` that `restart_game` and
  `to_main_menu` set, and `movement_image`. `to_main_menu` is left out.
- `time.time()` becomes the `now` argument, read once per call. Python
  reads the clock again inside `is_over` and `get_time`.
- `random.randint` in `generate_obstacle_positions` becomes the list of
  chosen rows. Its length and range are fixed by the preconditions.
  Python raises ValueError when the upper bound is below 1.
- IEEE floating point. Shifts, radii, densities and percentages are exact
  reals. `str.upper` is modelled on ASCII letters only.
- `Grid.update` aliasing: Python stores the caller's `Vector2` in
  `self.shift`, and `reset` then zeroes that same vector in place. The
  model stores and zeroes a value.
- `clear_obstacles` removes by identity, because `Tile` has no `__eq__`.
  The model removes the visited element, at the index right after the
  obstacles kept so far.
- The player is a value: `get_movement` assigns `self.player.movement`
  in place, and the model replaces the whole `Player` value instead. No
  other object of the game logic refers to the player. The `Vector2` that
  `get_movement` returns is the player's own; the model returns a value.
- ScrollGrid.Grid.Update: promises placement of the horizontal lines only
  when no line crossed a corner of the box. As written, main.py:96-99
  leaves such a line outside the box (see "## Findings").
- `check_collisions` falls through with None, which the model returns as
  False.
- GameModes.GameMode1.IntroUpdate: requires a frame that was read. Python
  fails converting a missing camera image (game_mode1.py:75-76).
- GameModes.GameMode1.GetMovement: requires a sampling call to have two
  shoulders and two different calibration means. Python raises
  IndexError or ZeroDivisionError there, because the division is
  unguarded.
- Timers.Timer.GetTime: requires a duration wherever Python would raise
  TypeError, that is when counting down or when the sound branch compares
  with a missing duration.
- GameModes.GameMode1.constructor: requires a known difficulty name. Python
  raises KeyError in `setup_difficulty` otherwise.
- ScrollGrid.Grid.constructor: requires positive window and tile sizes, and
  takes the window size as arguments instead of `settings.WINDOW_SIZE`.

## Findings

| source | as written | input that shows it | evidently intended | confidence | as-written member | corrected member |
|---|---|---|---|---|---|---|
| main.py:96-99 | a horizontal line that crosses the left edge is rebuilt from its ORIGINAL `y` values (`start[1]`, `end[1]`), which discards a move to the bottom or top made by main.py:86-94 in the same call (the vertical loop composes its moves through `new_start`) | a 100x100 window, 10-pixel tiles, outer margin 1; the first horizontal line `((-10, -100), (90, -100))`; one update by the shift `(-100, -10)` moves it to `((200, -100), (300, -100))`, still above the box | keep the row chosen by the vertical move: `((200, 210), (300, 210))`, inside the box | not executed | ScrollGrid.RelocateHorizontalAsWritten, used by ScrollGrid.Grid.Update, with the counterexample ScrollGrid.AsWrittenHorizontalLeftAboveBox | ScrollGrid.RelocateHorizontal, proved placing in ScrollGrid.RelocateCorrect and ScrollGrid.RecyclePlaced |
