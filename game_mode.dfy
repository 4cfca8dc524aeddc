/** The game mode of game_mode1.py (class GameMode1): the two-phase
    calibration in intro_update, and the obstacle field, collision test and
    movement sampling of the running game.

    Each call reads the clock once (`now`); the camera frame that
    get_positions would fetch is an input (`frame`, None when the camera is
    off or the read fails). Music, drawing and the game-over buttons are not
    modelled. */
module GameModes {
  import opened Common
  import opened ScrollGrid
  import opened Timers
  import opened Movement
  import opened Obstacles

  /** What intro_update returns: `"INTRO"` or `"MIDDLE GAME"`. */
  datatype Phase = Intro | MiddleGame

  /** Both calibration timers count down three seconds, `Timer(3)`. */
  const CalibrationSeconds := 3

  /** Everything intro_update reads or changes: the three timers, the
      analyser's calibration and the instruction text. */
  datatype IntroState = IntroState(up: TimerState, down: TimerState, game: TimerState, cal: Calibration, text: string)

  /** The intro state of a new or restarted game mode. */
  const IntroStart := IntroState(Fresh, Fresh, Fresh, Uncalibrated, "UP!")

  /** An arms-up sample with a shoulder and an elbow in it was taken. */
  predicate UpRecorded(c: Calibration) {
    c.upShoulders.Some? && c.upShoulders.value != [] && c.upElbows.Some? && c.upElbows.value != []
  }

  /** What the machine keeps between ticks: the timers and the analyser are
      consistent, and the down countdown only runs once the up countdown has
      fired (it is latched) and left a usable arms-up sample behind. */
  predicate IntroInvariant(s: IntroState) {
    && Consistent(s.up) && Consistent(s.down) && Consistent(s.game) && WellFormed(s.cal)
    && (s.down.hasStarted ==> s.up.hasEnded && UpRecorded(s.cal))
  }

  predicate FrameOk(frame: Option<seq<BodyPart>>) {
    frame.Some? ==> WellFormedFrame(frame.value)
  }

  /** The second half of intro_update (game_mode1.py:91-105): when the down
      countdown fires, take the arms-down sample; if it lacks a shoulder or
      an elbow restart the countdown, otherwise compute the means, start the
      game timer and move on. */
  function DownPhase(s: IntroState, now: real): (IntroState, Phase)
    requires Consistent(s.down) && Consistent(s.game) && WellFormed(s.cal)
    requires s.down.hasStarted ==> UpRecorded(s.cal)
  {
    var (down1, fired) := IsOverStep(s.down, Some(CalibrationSeconds), now);
    if !fired then (s.(down := down1), Intro)
    else
      var cal1 := DownPositionsStep(s.cal);
      if cal1.downShoulders.value == [] || cal1.downElbows.value == [] then
        (s.(down := StartStep(Fresh, now), cal := cal1), Intro)
      else
        (s.(down := down1, cal := SetupMeansStep(cal1), game := StartStep(s.game, now)), MiddleGame)
  }

  /** The first half of intro_update (game_mode1.py:75-89): read the frame
      and make sure the up countdown runs; when it fires take the arms-up
      sample, and either restart the countdown and end the tick (the sample
      lacks a shoulder or an elbow: `stop`) or show "DOWN!" and start the
      down countdown. */
  function UpPhase(s: IntroState, now: real, frame: Option<seq<BodyPart>>): (IntroState, bool)
    requires IntroInvariant(s) && FrameOk(frame)
  {
    var cal0 := ReceiveFrameStep(s.cal, frame);
    var (up1, fired) := IsOverStep(StartStep(s.up, now), Some(CalibrationSeconds), now);
    if fired then
      var cal1 := UpPositionsStep(cal0);
      if cal1.upShoulders.value == [] || cal1.upElbows.value == [] then
        (s.(up := StartStep(Fresh, now), cal := cal1), true)
      else
        (s.(up := up1, cal := cal1, text := "DOWN!", down := StartStep(s.down, now)), false)
    else
      (s.(up := up1, cal := cal0), false)
  }

  /** The first half keeps the invariant. */
  lemma UpPhasePreserves(s: IntroState, now: real, frame: Option<seq<BodyPart>>)
    requires IntroInvariant(s) && FrameOk(frame)
    ensures IntroInvariant(UpPhase(s, now, frame).0)
  {
    StepsWellFormed(s.cal, frame);
    var cal0 := ReceiveFrameStep(s.cal, frame);
    var started := StartStep(s.up, now);
    StepsConsistent(s.up, None, false, false, now);
    IsOverWhen(started, Some(CalibrationSeconds), now);
    var (up1, fired) := IsOverStep(started, Some(CalibrationSeconds), now);
    StepsConsistent(started, Some(CalibrationSeconds), false, false, now);
    if fired {
      var cal1 := UpPositionsStep(cal0);
      StepsWellFormed(cal0, None);
      if cal1.upShoulders.value == [] || cal1.upElbows.value == [] {
        StepsConsistent(Fresh, None, false, false, now);
      } else {
        StepsConsistent(s.down, None, false, false, now);
      }
    }
  }

  /** intro_update (game_mode1.py:74-105): the up half, then, unless it
      ended the tick, the down half. */
  function IntroStep(s: IntroState, now: real, frame: Option<seq<BodyPart>>): (IntroState, Phase)
    requires IntroInvariant(s) && FrameOk(frame)
  {
    UpPhasePreserves(s, now, frame);
    var (s1, stop) := UpPhase(s, now, frame);
    if stop then (s1, Intro) else DownPhase(s1, now)
  }

  /** Every tick keeps the invariant. In particular calculate_setup_means
      never meets a missing arms-up sample: the up timer fires at most once
      before it is reset, and only a usable sample lets the down countdown
      start. */
  lemma IntroPreserves(s: IntroState, now: real, frame: Option<seq<BodyPart>>)
    requires IntroInvariant(s) && FrameOk(frame)
    ensures IntroInvariant(IntroStep(s, now, frame).0)
  {
    UpPhasePreserves(s, now, frame);
    var (s1, stop) := UpPhase(s, now, frame);
    if !stop {
      DownPhasePreserves(s1, now);
    }
  }

  lemma DownPhasePreserves(s: IntroState, now: real)
    requires IntroInvariant(s)
    ensures IntroInvariant(DownPhase(s, now).0)
  {
    var (down1, fired) := IsOverStep(s.down, Some(CalibrationSeconds), now);
    StepsConsistent(s.down, Some(CalibrationSeconds), false, false, now);
    IsOverWhen(s.down, Some(CalibrationSeconds), now);
    if fired {
      var cal1 := DownPositionsStep(s.cal);
      StepsWellFormed(s.cal, None);
      if cal1.downShoulders.value == [] || cal1.downElbows.value == [] {
        StepsConsistent(Fresh, None, false, false, now);
      } else {
        StepsWellFormed(cal1, None);
        StepsConsistent(s.game, None, false, false, now);
      }
    }
  }

  /** The tick that leaves the intro: it comes only when the down countdown
      has just ended with a shoulder and an elbow in the arms-down sample;
      the up countdown has ended too, both means are the midpoints of the
      recorded shoulder heights and the game timer runs. Every other tick
      stays in the intro and leaves the game timer alone. */
  lemma IntroLeavesOnlyCalibrated(s: IntroState, now: real, frame: Option<seq<BodyPart>>)
    requires IntroInvariant(s) && FrameOk(frame)
    ensures var (t, phase) := IntroStep(s, now, frame);
      phase == MiddleGame ==>
        && !s.down.hasEnded && t.down.hasEnded && t.up.hasEnded
        && t.cal.downShoulders.Some? && |t.cal.downShoulders.value| == 2
        && t.cal.downElbows.Some? && t.cal.downElbows.value != []
        && t.cal.upShoulders.Some? && |t.cal.upShoulders.value| == 2
        && t.cal.meanUp == (t.cal.upShoulders.value[0].y + t.cal.upShoulders.value[1].y) as real / 2.0
        && t.cal.meanDown == (t.cal.downShoulders.value[0].y + t.cal.downShoulders.value[1].y) as real / 2.0
        && t.game.hasStarted
    ensures var (t, phase) := IntroStep(s, now, frame);
      phase == Intro ==> t.game == s.game
  {
    StepsWellFormed(s.cal, frame);
    var cal0 := ReceiveFrameStep(s.cal, frame);
    var cal1 := UpPositionsStep(cal0);
    StepsWellFormed(cal0, None);
    StepsWellFormed(DownPositionsStep(cal1), None);
    StepsWellFormed(DownPositionsStep(cal0), None);
  }

  /** A countdown that fires on a sample without a shoulder or an elbow is
      restarted from `now` and the tick stays in the intro: the up countdown
      without touching the down one, the down countdown without touching
      the up one. */
  lemma IntroRetries(s: IntroState, now: real, frame: Option<seq<BodyPart>>)
    requires IntroInvariant(s) && FrameOk(frame)
    ensures var cal0 := ReceiveFrameStep(s.cal, frame);
      IsOverStep(StartStep(s.up, now), Some(CalibrationSeconds), now).1 &&
      (Shoulders(cal0.bodyParts) == [] || Elbows(cal0.bodyParts) == []) ==>
        IntroStep(s, now, frame) == (s.(up := StartStep(Fresh, now), cal := UpPositionsStep(cal0)), Intro)
        && !s.down.hasStarted
    ensures var cal0 := ReceiveFrameStep(s.cal, frame);
      s.down.hasStarted && IsOverStep(s.down, Some(CalibrationSeconds), now).1 &&
      (Shoulders(cal0.bodyParts) == [] || Elbows(cal0.bodyParts) == []) ==>
        IntroStep(s, now, frame).1 == Intro
        && IntroStep(s, now, frame).0.down == StartStep(Fresh, now)
        && IntroStep(s, now, frame).0.up == IsOverStep(StartStep(s.up, now), Some(CalibrationSeconds), now).0
  {
    IsOverWhen(StartStep(s.up, now), Some(CalibrationSeconds), now);
    IsOverWhen(s.up, Some(CalibrationSeconds), now);
  }

  /** An up countdown that fires on a sample with a shoulder and an elbow
      moves the intro on: the text becomes "DOWN!" and the down countdown
      runs, started at `now`, so the tick itself stays in the intro with the
      arms-up sample recorded. */
  lemma IntroUpAdvances(s: IntroState, now: real, frame: Option<seq<BodyPart>>)
    requires IntroInvariant(s) && FrameOk(frame)
    requires IsOverStep(StartStep(s.up, now), Some(CalibrationSeconds), now).1
    requires Shoulders(ReceiveFrameStep(s.cal, frame).bodyParts) != []
    requires Elbows(ReceiveFrameStep(s.cal, frame).bodyParts) != []
    ensures IntroStep(s, now, frame).0.text == "DOWN!" && IntroStep(s, now, frame).0.down.hasStarted
    ensures IntroStep(s, now, frame).0.down.startTime == Some(now) && IntroStep(s, now, frame).1 == Intro
    ensures IntroStep(s, now, frame).0.cal.upShoulders == Some(Shoulders(ReceiveFrameStep(s.cal, frame).bodyParts))
  {
    IsOverWhen(StartStep(s.up, now), Some(CalibrationSeconds), now);
  }

  /** A running down countdown that fires on a sample with a shoulder and an
      elbow ends the intro: the tick returns "MIDDLE GAME". */
  lemma IntroDownAdvances(s: IntroState, now: real, frame: Option<seq<BodyPart>>)
    requires IntroInvariant(s) && FrameOk(frame) && s.down.hasStarted
    requires IsOverStep(s.down, Some(CalibrationSeconds), now).1
    requires Shoulders(ReceiveFrameStep(s.cal, frame).bodyParts) != []
    requires Elbows(ReceiveFrameStep(s.cal, frame).bodyParts) != []
    ensures IntroStep(s, now, frame).1 == MiddleGame
  {
    IsOverWhen(s.up, Some(CalibrationSeconds), now);
  }

  /** The up countdown is not rearmed once the down countdown runs: from
      then on the up half of intro_update does nothing. */
  lemma IntroUpLatched(s: IntroState, now: real, frame: Option<seq<BodyPart>>)
    requires IntroInvariant(s) && FrameOk(frame) && s.down.hasStarted
    ensures IntroStep(s, now, frame).0.up == s.up
    ensures IntroStep(s, now, frame).0.cal.upShoulders == s.cal.upShoulders
    ensures IntroStep(s, now, frame).0.cal.upElbows == s.cal.upElbows
  {
    IsOverWhen(s.up, Some(CalibrationSeconds), now);
  }

  /** A sampled or held movement: vertical, at most the speed in size. */
  predicate MovementBounded(m: Vec) {
    m.x == 0.0 && -(MovementSpeed as real) <= m.y <= MovementSpeed as real
  }

  /** The list being culled, `kept + copy[k..]`, seen from its cursor: the
      obstacle visited next, what removing it leaves and what keeping it
      means. */
  lemma VisitNext(kept: seq<Tile>, copy: seq<Tile>, k: int)
    requires 0 <= k < |copy|
    ensures (kept + copy[k..])[|kept|] == copy[k]
    ensures (kept + copy[k..])[..|kept|] + (kept + copy[k..])[|kept| + 1..] == kept + copy[k + 1..]
    ensures (kept + [copy[k]]) + copy[k + 1..] == kept + copy[k..]
  {
    var o := kept + copy[k..];
    assert o[..|kept|] == kept;
    assert o[|kept| + 1..] == copy[k + 1..];
    assert copy[k..] == [copy[k]] + copy[k + 1..];
  }

  /** The loop of clear_obstacles (game_mode1.py:187-214) over a copy of the
      obstacle list: the obstacle visited sits right after the ones kept so
      far, and is removed together with one copy of its column. */
  method CullLoop(copy: seq<Tile>, summoned0: seq<int>, centre: Cell, nx: int, ny: int)
    returns (obstacles: seq<Tile>, summoned: seq<int>)
    ensures (obstacles, summoned) == ClearStep(copy, summoned0, centre, nx, ny)
  {
    obstacles, summoned := copy, summoned0;
    var j := 0;
    for k := 0 to |copy|
      invariant j == |Inside(copy[..k], centre, nx, ny)|
      invariant obstacles == Inside(copy[..k], centre, nx, ny) + copy[k..]
      invariant summoned == DropColumns(summoned0, OutsideColumns(copy[..k], centre, nx, ny))
    {
      var obstacle := copy[k];
      CullOneMore(copy, k, centre, nx, ny);
      VisitNext(Inside(copy[..k], centre, nx, ny), copy, k);
      if obstacle.pos.x < centre.x - 3 * nx || obstacle.pos.x > centre.x + 3 * nx
         || obstacle.pos.y < centre.y - 3 * ny || obstacle.pos.y > centre.y + 3 * ny {
        DropOneMore(summoned0, OutsideColumns(copy[..k], centre, nx, ny), obstacle.pos.x);
        summoned := RemoveFirst(summoned, obstacle.pos.x);
        obstacles := obstacles[..j] + obstacles[j + 1..];
      } else {
        j := j + 1;
      }
    }
    assert copy[..|copy|] == copy && copy[|copy|..] == [];
    assert obstacles == Inside(copy, centre, nx, ny);
  }

  /** The GameMode1 object. The grid is shared with the caller; the analyser
      and the three timers belong to the game mode. */
  class GameMode1 {
    var obstacles: seq<Tile>
    var summoned: seq<int>
    var player: Player
    const grid: Grid
    var spawnAmount: real
    var difficulty: string
    const analyser: MovementAnalyser
    const downTimer: Timer
    const upTimer: Timer
    const gameTimer: Timer
    var introCheckText: string
    var lastCheckedFrame: int
    var everyN: int
    /** `settings.WINDOW_SIZE[1]`. */
    const windowHeight: int

    function IntroView(): IntroState
      reads this, upTimer, downTimer, gameTimer, analyser
    {
      IntroState(upTimer.State(), downTimer.State(), gameTimer.State(), analyser.State(), introCheckText)
    }

    ghost predicate Valid()
      reads this, grid, analyser, upTimer, downTimer, gameTimer
    {
      && grid.Valid() && analyser.Valid()
      && upTimer.Valid() && downTimer.Valid() && gameTimer.Valid()
      && upTimer != downTimer && upTimer != gameTimer && downTimer != gameTimer
      && upTimer.duration == Some(CalibrationSeconds) && downTimer.duration == Some(CalibrationSeconds)
      && gameTimer.duration == None && !gameTimer.hasSound
      && IntroInvariant(IntroView())
      && MovementBounded(player.movement)
      && NoDup(Positions(obstacles))
    }

    /** The player's radius, `tile_height / 2 * 0.6`. */
    function PlayerSize(): real
      reads this, grid
    {
      grid.tileHeight as real / 2.0 * 0.6
    }

    /** GameMode1.__init__ (game_mode1.py:31-65): the difficulty must be one
        of the three names, or setup_difficulty raises. */
    constructor (grid: Grid, difficulty: string, windowHeight: int)
      requires grid.Valid() && SpawnAmountFor(difficulty).Some?
      ensures Valid() && fresh(analyser) && fresh(upTimer) && fresh(downTimer) && fresh(gameTimer)
      ensures this.grid == grid && this.windowHeight == windowHeight
      ensures obstacles == [] && summoned == []
      ensures player == Player(PlayerSize(), Vec(125.0, (windowHeight / 2) as real), Vec(0.0, 0.0))
      ensures this.difficulty == difficulty && spawnAmount == SpawnAmountFor(difficulty).value
      ensures IntroView() == IntroStart
      ensures lastCheckedFrame == 0 && everyN == 3
    {
      obstacles := [];
      summoned := [];
      player := Player(grid.tileHeight as real / 2.0 * 0.6, Vec(125.0, (windowHeight / 2) as real), Vec(0.0, 0.0));
      this.grid := grid;
      this.difficulty := difficulty;
      spawnAmount := SpawnAmountFor(difficulty).value;
      analyser := new MovementAnalyser();
      downTimer := new Timer(Some(CalibrationSeconds), true);
      upTimer := new Timer(Some(CalibrationSeconds), true);
      gameTimer := new Timer(None, false);
      introCheckText := "UP!";
      lastCheckedFrame := 0;
      everyN := 3;
      this.windowHeight := windowHeight;
    }

    /** setup_difficulty (game_mode1.py:71-72): `ok` is false where Python
        raises KeyError, leaving the density as it was. */
    method SetupDifficulty() returns (ok: bool)
      modifies this`spawnAmount
      ensures ok == SpawnAmountFor(difficulty).Some?
      ensures spawnAmount == if ok then SpawnAmountFor(difficulty).value else old(spawnAmount)
    {
      var amount := SpawnAmountFor(difficulty);
      if amount.None? {
        return false;
      }
      spawnAmount := amount.value;
      return true;
    }

    /** set_difficulty (game_mode1.py:67-69): the name is stored even when
        the lookup then fails. */
    method SetDifficulty(difficulty: string) returns (ok: bool)
      modifies this`difficulty, this`spawnAmount
      ensures this.difficulty == difficulty
      ensures ok == SpawnAmountFor(difficulty).Some?
      ensures spawnAmount == if ok then SpawnAmountFor(difficulty).value else old(spawnAmount)
    {
      this.difficulty := difficulty;
      ok := SetupDifficulty();
    }

    /** intro_update (game_mode1.py:74-105). The frame must have been read:
        Python converts the camera image before anything else and fails on
        a missing one. */
    method IntroUpdate(now: real, frame: Option<seq<BodyPart>>) returns (phase: Phase)
      requires Valid() && FrameOk(frame) && frame.Some?
      modifies this`introCheckText, analyser, upTimer, downTimer, gameTimer
      ensures Valid()
      ensures (IntroView(), phase) == IntroStep(old(IntroView()), now, frame)
    {
      var stop := IntroUpHalf(now, frame);
      if stop {
        return Intro;
      }
      phase := IntroDownHalf(now);
    }

    /** The first half of intro_update (game_mode1.py:75-89). */
    method IntroUpHalf(now: real, frame: Option<seq<BodyPart>>) returns (stop: bool)
      requires Valid() && FrameOk(frame) && frame.Some?
      modifies this`introCheckText, analyser, upTimer, downTimer
      ensures Valid()
      ensures (IntroView(), stop) == UpPhase(old(IntroView()), now, frame)
    {
      ghost var s := IntroView();
      UpPhasePreserves(s, now, frame);
      StepsWellFormed(s.cal, frame);
      analyser.ReceiveFrame(frame);
      upTimer.Start(now);
      var upOver := upTimer.IsOver(now);
      if upOver {
        analyser.GetUpPositions();
        if analyser.upShoulders.value == [] || analyser.upElbows.value == [] {
          upTimer.Reset();
          upTimer.Start(now);
          return true;
        }
        introCheckText := "DOWN!";
        downTimer.Start(now);
      }
      return false;
    }

    /** The second half of intro_update (game_mode1.py:91-105). */
    method IntroDownHalf(now: real) returns (phase: Phase)
      requires Valid()
      modifies this`introCheckText, analyser, upTimer, downTimer, gameTimer
      ensures Valid()
      ensures (IntroView(), phase) == DownPhase(old(IntroView()), now)
    {
      ghost var s := IntroView();
      DownPhasePreserves(s, now);
      var downOver := downTimer.IsOver(now);
      if downOver {
        analyser.GetDownPositions();
        if analyser.downShoulders.value == [] || analyser.downElbows.value == [] {
          downTimer.Reset();
          downTimer.Start(now);
          return Intro;
        }
        assert MeansDefined(analyser.State());
        analyser.CalculateSetupMeans();
        gameTimer.Start(now);
        return MiddleGame;
      }
      return Intro;
    }

    /** generate_obstacles (game_mode1.py:164-175). */
    method GenerateObstacles(positions: seq<Cell>)
      requires |positions| > 0
      modifies this`obstacles, this`summoned
      ensures (obstacles, summoned) == GenerateStep(old(obstacles), old(summoned), positions)
      ensures NoDup(Positions(old(obstacles))) ==> NoDup(Positions(obstacles))
      ensures old(Valid()) ==> Valid()
    {
      GenerateSpec(obstacles, summoned, positions);
      if positions[0].x in summoned {
        return;
      }
      for i := 0 to |positions|
        invariant obstacles == AddNew(old(obstacles), positions[..i])
        invariant summoned == old(summoned)
      {
        var position := positions[i];
        var j := 0;
        while j < |obstacles| && position != obstacles[j].pos
          invariant 0 <= j <= |obstacles|
          invariant forall k :: 0 <= k < j ==> obstacles[k].pos != position
        {
          j := j + 1;
        }
        assert positions[..i + 1][..i] == positions[..i];
        if j == |obstacles| {
          assert position !in Positions(obstacles);
          obstacles := obstacles + [Tile(position, ObstacleColour)];
        } else {
          assert Positions(obstacles)[j] == position;
        }
      }
      assert positions[..|positions|] == positions;
      summoned := summoned + [positions[0].x];
    }

    /** The player's tile, relative to the grid's shift. */
    function PlayerTile(): Cell
      reads this, grid
      requires grid.Valid()
    {
      grid.ConvertLocalCoordinatesToPos(player.pos)
    }

    /** clear_obstacles (game_mode1.py:177-214): iterate over a copy; an
        obstacle beyond any of the four window edges gives up one copy of its
        column in the summoned list (if there is one) and is removed. The
        removed object is the one being visited, which sits right after the
        obstacles kept so far. */
    method ClearObstacles()
      requires grid.Valid()
      modifies this`obstacles, this`summoned
      ensures (obstacles, summoned) == ClearStep(old(obstacles), old(summoned), PlayerTile(),
                                                 grid.lineWidth / grid.tileWidth, grid.lineHeight / grid.tileHeight)
      ensures forall t :: t in obstacles ==>
        InWindow(t.pos, PlayerTile(), grid.lineWidth / grid.tileWidth, grid.lineHeight / grid.tileHeight)
      ensures NoDup(Positions(old(obstacles))) ==> NoDup(Positions(obstacles))
      ensures old(Valid()) ==> Valid()
    {
      var nx := grid.lineWidth / grid.tileWidth;
      var ny := grid.lineHeight / grid.tileHeight;
      var centre := grid.ConvertLocalCoordinatesToPos(player.pos);
      var copy := obstacles;
      var kept, left := CullLoop(copy, summoned, centre, nx, ny);
      obstacles, summoned := kept, left;
      InsideSpec(copy, centre, nx, ny);
      InsideNoDup(copy, centre, nx, ny);
    }

    /** check_collisions (game_mode1.py:216-228): True exactly when the
        square of side `2r` around the player (the box enclosing its
        circle) overlaps some obstacle's tile on screen. */
    function CheckCollisions(): (hit: bool)
      reads this, grid
      ensures hit <==> exists k :: (0 <= k < |obstacles| &&
        Hit(grid.ConvertPosToCoordinates(obstacles[k].pos), player.pos, player.size, grid.tileWidth, grid.tileHeight))
    {
      CheckCollisionsIff(obstacles, player.pos, player.size, grid.tileWidth, grid.tileHeight, grid.shift);
      Obstacles.CheckCollisions(obstacles, player.pos, player.size, grid.tileWidth, grid.tileHeight, grid.shift)
    }

    /** restart_game (game_mode1.py:230-250): the grid is reset (which
        appends a fresh set of lines), the obstacle field cleared, the player
        placed at `(100, H / 2)`, the analyser and all three timers reset.
        The global game state is not modelled. */
    method RestartGame()
      requires Valid()
      modifies this, grid, analyser, upTimer, downTimer, gameTimer
      ensures Valid()
      ensures grid.shift == Vec(0.0, 0.0)
      ensures grid.verticals == old(grid.verticals) + InitialVerticals(grid.Bounds())
      ensures grid.horizontals == old(grid.horizontals) + InitialHorizontals(grid.Bounds())
      ensures obstacles == [] && summoned == []
      ensures player == Player(PlayerSize(), Vec(100.0, windowHeight as real / 2.0), Vec(0.0, 0.0))
      ensures IntroView() == IntroStart
      ensures lastCheckedFrame == 0 && everyN == 3
      ensures difficulty == old(difficulty) && spawnAmount == old(spawnAmount)
    {
      grid.Reset();
      obstacles := [];
      summoned := [];
      player := Player(grid.tileHeight as real / 2.0 * 0.6, Vec(100.0, windowHeight as real / 2.0), Vec(0.0, 0.0));
      ResetIntro();
      lastCheckedFrame := 0;
      everyN := 3;
    }

    /** The part of restart_game (game_mode1.py:237-243) that returns the
        calibration to its start: analyser, timers and instruction text. */
    method ResetIntro()
      requires upTimer != downTimer && upTimer != gameTimer && downTimer != gameTimer
      modifies this`introCheckText, analyser, upTimer, downTimer, gameTimer
      ensures analyser.Valid() && upTimer.Valid() && downTimer.Valid() && gameTimer.Valid()
      ensures IntroView() == IntroStart
    {
      analyser.Reset();
      downTimer.Reset();
      upTimer.Reset();
      gameTimer.Reset();
      introCheckText := "UP!";
    }

    /** get_movement (game_mode1.py:257-266): count the frame; while the
        count is at most `everyN` return the held movement; otherwise reset
        the count, read the frame and sample `(0, 10 * percentage)`. The
        percentage of the new frame must be defined. */
    method GetMovement(frame: Option<seq<BodyPart>>) returns (m: Vec)
      requires Valid() && FrameOk(frame)
      requires lastCheckedFrame + 1 > everyN ==>
        PercentageDefined(ReceiveFrameStep(analyser.State(), frame).bodyParts, analyser.meanUp, analyser.meanDown)
      modifies this`lastCheckedFrame, this`player, analyser
      ensures Valid()
      ensures lastCheckedFrame == ThrottleStep(old(lastCheckedFrame), everyN).0
      ensures !ThrottleStep(old(lastCheckedFrame), everyN).1 ==>
        player == old(player) && analyser.State() == old(analyser.State())
      ensures ThrottleStep(old(lastCheckedFrame), everyN).1 ==>
        && analyser.State() == ReceiveFrameStep(old(analyser.State()), frame)
        && player == old(player).(movement := Vec(0.0, MovementSpeed as real *
             Percentage(analyser.bodyParts, analyser.meanUp, analyser.meanDown)))
      ensures m == player.movement && MovementBounded(m)
    {
      lastCheckedFrame := lastCheckedFrame + 1;
      if lastCheckedFrame <= everyN {
        return player.movement;
      }
      lastCheckedFrame := 0;
      analyser.ReceiveFrame(frame);
      var p := Percentage(analyser.bodyParts, analyser.meanUp, analyser.meanDown);
      SampledMovementBounded(p);
      player := player.(movement := Vec(0.0, MovementSpeed as real * p));
      return player.movement;
    }
  }
}
