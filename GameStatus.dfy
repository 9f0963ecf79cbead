/** The status state machine of src/hooks/useGameState.ts: starting a level,
    pausing, steering, the per-frame tick with its frame dropping, latched
    completion and time limit, returning to the menu, advancing and
    restarting. The grid helpers it calls and the level table it reads are
    not part of this model and are parameters: a `Helpers` value of
    function-valued fields and a sequence of levels. React state updates
    take effect immediately, in call order. */
module GameStatus {
  import opened Num

  datatype Status = Menu | Playing | Paused | LevelComplete | GameOver

  datatype Position = Position(x: real, y: real)
  datatype Size = Size(width: real, height: real)

  datatype ZamboniState = ZamboniState(position: Position, direction: real, speed: real,
                                       isMoving: bool, cleaningRadius: real)

  datatype IceCell = IceCell(x: real, y: real, isDirty: bool, dirtLevel: real)
  type Grid = seq<seq<IceCell>>

  /** A level of the table. `timeLimit` is `None` for no limit. */
  datatype GameLevel = GameLevel(id: int, name: string, rinkSize: Size, initialDirtCoverage: real,
                                 targetCleanPercentage: real, timeLimit: Option<real>,
                                 zamboniSpeed: real, cleaningRadius: real)

  datatype HookState = HookState(currentLevel: int, score: real, totalCleaned: int,
                                 isPlaying: bool, isPaused: bool, timeElapsed: real,
                                 zamboni: ZamboniState, iceGrid: Grid,
                                 cleanPercentage: real, levelCompleted: bool)

  datatype CleanResult = CleanResult(grid: Grid, cellsCleaned: int)

  /** The helpers the hook calls: `initializeIceGrid`, `cleanIceCells`,
      `calculateCleanPercentage`, `updateZamboniPosition` and
      `calculateLevelScore`. */
  datatype Helpers = Helpers(
    initGrid: (Size, real) -> Grid,
    clean: (Grid, Position, real) -> CleanResult,
    cleanPct: Grid -> real,
    move: (ZamboniState, real, Size, real) -> ZamboniState,
    levelScore: (int, real, GameLevel, real) -> real)

  /** The hook's state: the status, the current level index, the game
      state (`null` is `None`) and the progress saved so far. */
  datatype Machine = Machine(status: Status, currentLevelIndex: int, state: Option<HookState>,
                             saved: seq<HookState>)

  /** `GAME_LEVELS[i]`, which is `undefined` outside the table. */
  function LevelAt(levels: seq<GameLevel>, i: int): (r: Option<GameLevel>)
    ensures r.Some? <==> 0 <= i < |levels|
    ensures r.Some? ==> r.value == levels[i]
  {
    if 0 <= i < |levels| then Some(levels[i]) else None
  }

  /** `level.timeLimit && timeElapsed >= level.timeLimit`: an absent or zero
      limit never runs out. */
  predicate TimeUp(level: GameLevel, elapsed: real) {
    level.timeLimit.Some? && level.timeLimit.value != 0.0 && elapsed >= level.timeLimit.value
  }

  /** The hook when the component mounts. */
  function Initial(): Machine {
    Machine(Menu, 0, None, [])
  }

  /** The fresh game state of a level. */
  function FreshState(h: Helpers, level: GameLevel, i: int): HookState {
    var grid := h.initGrid(level.rinkSize, level.initialDirtCoverage);
    var z := ZamboniState(Position(level.rinkSize.width / 2.0, level.rinkSize.height / 2.0), 0.0,
                          level.zamboniSpeed, false, level.cleaningRadius);
    HookState(i, 0.0, 0, false, false, 0.0, z, grid, h.cleanPct(grid), false)
  }

  /** `initializeLevel(i)`: nothing when the level does not exist. */
  function LevelInitialized(h: Helpers, levels: seq<GameLevel>, m: Machine, i: int): Machine {
    match LevelAt(levels, i)
    case None => m
    case Some(level) => m.(state := Some(FreshState(h, level, i)), currentLevelIndex := i)
  }

  /** `startGame(i)`: initialise the level, switch to playing, and mark the
      game state playing when there is one. */
  function GameStarted(h: Helpers, levels: seq<GameLevel>, m: Machine, i: int): Machine {
    var m1 := LevelInitialized(h, levels, m, i);
    m1.(status := Playing,
        state := if m1.state.Some? then Some(m1.state.value.(isPlaying := true)) else None)
  }

  /** `togglePause`. */
  function PauseToggled(m: Machine): Machine {
    if m.state.None? then m
    else if m.status == Playing then m.(status := Paused, state := Some(m.state.value.(isPaused := true)))
    else if m.status == Paused then m.(status := Playing, state := Some(m.state.value.(isPaused := false)))
    else m
  }

  /** `updateZamboniMovement(direction, isMoving)`. */
  function UpdateMovement(m: Machine, direction: real, isMoving: bool): Machine {
    if m.state.None? || m.status != Playing then m
    else
      var s := m.state.value;
      m.(state := Some(s.(zamboni := s.zamboni.(direction := direction, isMoving := isMoving))))
  }

  /** The game state after the clock, movement and cleaning of a tick. */
  function Advance(h: Helpers, level: GameLevel, s: HookState, dt: real): HookState {
    var s1 := s.(timeElapsed := s.timeElapsed + dt);
    var s2 := s1.(zamboni := h.move(s1.zamboni, dt, level.rinkSize, level.cleaningRadius));
    var s3 :=
      if s2.zamboni.isMoving then
        var c := h.clean(s2.iceGrid, s2.zamboni.position, s2.zamboni.cleaningRadius);
        s2.(iceGrid := c.grid, totalCleaned := s2.totalCleaned + c.cellsCleaned)
      else s2;
    s3.(cleanPercentage := h.cleanPct(s3.iceGrid))
  }

  /** The clock, movement and cleaning steps of `gameTick`, one update of
      the state at a time: the step-by-step form of `Advance`, which
      specifies it. */
  method AdvanceStep(h: Helpers, level: GameLevel, s0: HookState, dt: real) returns (s: HookState)
    ensures s == Advance(h, level, s0, dt)
    ensures s.timeElapsed == s0.timeElapsed + dt && s.currentLevel == s0.currentLevel
    ensures s.levelCompleted == s0.levelCompleted && s.score == s0.score
  {
    s := s0.(timeElapsed := s0.timeElapsed + dt);
    s := s.(zamboni := h.move(s.zamboni, dt, level.rinkSize, level.cleaningRadius));
    if s.zamboni.isMoving {
      var c := h.clean(s.iceGrid, s.zamboni.position, s.zamboni.cleaningRadius);
      s := s.(iceGrid := c.grid, totalCleaned := s.totalCleaned + c.cellsCleaned);
    }
    s := s.(cleanPercentage := h.cleanPct(s.iceGrid));
  }

  /** Whether the tick completes the level: the target is reached and the
      level was not already completed. */
  predicate Completes(level: GameLevel, s: HookState) {
    s.cleanPercentage >= level.targetCleanPercentage && !s.levelCompleted
  }

  /** `gameTick(dt)`. */
  function Ticked(h: Helpers, levels: seq<GameLevel>, m: Machine, dt: real): Machine {
    if m.state.None? || m.status != Playing then m
    else match LevelAt(levels, m.state.value.currentLevel)
      case None => m
      case Some(level) =>
        if dt > 0.5 then m
        else
          var s := Advance(h, level, m.state.value, dt);
          var done := Completes(level, s);
          var s' := if done then s.(levelCompleted := true,
                                    score := h.levelScore(s.totalCleaned, s.timeElapsed, level, s.cleanPercentage))
                    else s;
          var status := if TimeUp(level, s'.timeElapsed) then GameOver
                        else if done then LevelComplete else m.status;
          m.(status := status, state := Some(s'), saved := if done then m.saved + [s'] else m.saved)
  }

  /** `resetToMenu`. */
  function AtMenu(m: Machine): Machine {
    m.(status := Menu, state := None)
  }

  /** `nextLevel`. */
  function LevelAdvanced(h: Helpers, levels: seq<GameLevel>, m: Machine): Machine {
    if m.currentLevelIndex + 1 < |levels| then GameStarted(h, levels, m, m.currentLevelIndex + 1)
    else AtMenu(m)
  }

  /** `restartLevel`: the progress fields are zeroed first, then the current
      level is started again. */
  function LevelRestarted(h: Helpers, levels: seq<GameLevel>, m: Machine): Machine {
    var m1 :=
      if m.state.Some? then
        m.(state := Some(m.state.value.(cleanPercentage := 0.0, totalCleaned := 0,
                                        timeElapsed := 0.0, levelCompleted := false)))
      else m;
    GameStarted(h, levels, m1, m.currentLevelIndex)
  }

  // ------------------------------------------------------------- lemmas

  /** A level starts with the zamboni centred in the rink, heading 0, not
      moving, and with no score, nothing cleaned and no time elapsed; an
      index outside the table changes nothing. */
  lemma InitializeLevelSpec(h: Helpers, levels: seq<GameLevel>, m: Machine, i: int)
    ensures !(0 <= i < |levels|) ==> LevelInitialized(h, levels, m, i) == m
    ensures 0 <= i < |levels| ==>
      var m' := LevelInitialized(h, levels, m, i);
      var s := m'.state.value;
      m'.state.Some? && m'.currentLevelIndex == i && m'.status == m.status &&
      s.currentLevel == i &&
      s.zamboni.position == Position(levels[i].rinkSize.width / 2.0, levels[i].rinkSize.height / 2.0) &&
      s.zamboni.direction == 0.0 && !s.zamboni.isMoving &&
      s.zamboni.speed == levels[i].zamboniSpeed && s.zamboni.cleaningRadius == levels[i].cleaningRadius &&
      s.score == 0.0 && s.totalCleaned == 0 && s.timeElapsed == 0.0 &&
      !s.isPlaying && !s.isPaused && !s.levelCompleted &&
      s.cleanPercentage == h.cleanPct(s.iceGrid)
  {
  }

  /** Pausing flips between playing and paused, with `isPaused` following;
      in any other status, or without a game state, nothing changes. Two
      toggles from playing or paused restore the machine. */
  lemma TogglePauseSpec(m: Machine)
    ensures m.state.Some? && m.status == Playing ==>
      PauseToggled(m).status == Paused && PauseToggled(m).state.value.isPaused
    ensures m.state.Some? && m.status == Paused ==>
      PauseToggled(m).status == Playing && !PauseToggled(m).state.value.isPaused
    ensures m.state.None? || (m.status != Playing && m.status != Paused) ==> PauseToggled(m) == m
    ensures PauseToggled(m).state.Some? == m.state.Some?
    ensures m.state.Some? ==> PauseToggled(m).state.value == m.state.value.(isPaused := PauseToggled(m).state.value.isPaused)
    ensures m.state.Some? && (m.status == Playing || m.status == Paused) && (m.state.value.isPaused <==> m.status == Paused) ==>
      PauseToggled(PauseToggled(m)) == m
  {
  }

  /** Steering changes the heading and the moving flag, and only while
      playing with a game state. */
  lemma UpdateMovementSpec(m: Machine, direction: real, isMoving: bool)
    ensures m.state.None? || m.status != Playing ==> UpdateMovement(m, direction, isMoving) == m
    ensures m.state.Some? && m.status == Playing ==>
      var m' := UpdateMovement(m, direction, isMoving);
      m'.status == m.status && m'.state.Some? &&
      m'.state.value.zamboni.direction == direction && m'.state.value.zamboni.isMoving == isMoving &&
      m'.state.value == m.state.value.(zamboni := m'.state.value.zamboni) &&
      m'.state.value.zamboni == m.state.value.zamboni.(direction := direction, isMoving := isMoving)
  {
  }

  /** When a tick does anything at all: playing, with a game state whose
      level exists, and a frame of at most half a second. */
  predicate Runs(levels: seq<GameLevel>, m: Machine, dt: real) {
    m.state.Some? && m.status == Playing && 0 <= m.state.value.currentLevel < |levels| && dt <= 0.5
  }

  /** A tick that does not run changes nothing. One that runs advances the
      clock by `dt`, counts cleaned cells only while moving, recomputes the
      clean percentage from the grid, completes the level at most once (and
      only then computes the score and saves), and ends in GAME_OVER
      whenever the limit is reached, even on the completing tick. */
  lemma GameTickSpec(h: Helpers, levels: seq<GameLevel>, m: Machine, dt: real)
    ensures !Runs(levels, m, dt) ==> Ticked(h, levels, m, dt) == m
    ensures Runs(levels, m, dt) ==>
      var m' := Ticked(h, levels, m, dt);
      var s, s' := m.state.value, m'.state.value;
      var level := levels[s.currentLevel];
      var z := h.move(s.zamboni, dt, level.rinkSize, level.cleaningRadius);
      m'.state.Some? && m'.currentLevelIndex == m.currentLevelIndex &&
      s'.timeElapsed == s.timeElapsed + dt && s'.zamboni == z &&
      s'.currentLevel == s.currentLevel && s'.isPaused == s.isPaused && s'.isPlaying == s.isPlaying &&
      (!z.isMoving ==> s'.iceGrid == s.iceGrid && s'.totalCleaned == s.totalCleaned) &&
      (z.isMoving ==> s'.iceGrid == h.clean(s.iceGrid, z.position, z.cleaningRadius).grid &&
                      s'.totalCleaned == s.totalCleaned + h.clean(s.iceGrid, z.position, z.cleaningRadius).cellsCleaned) &&
      s'.cleanPercentage == h.cleanPct(s'.iceGrid) &&
      (s'.levelCompleted <==> s.levelCompleted || s'.cleanPercentage >= level.targetCleanPercentage) &&
      (!s.levelCompleted && s'.levelCompleted ==>
         s'.score == h.levelScore(s'.totalCleaned, s'.timeElapsed, level, s'.cleanPercentage) &&
         m'.saved == m.saved + [s']) &&
      (!(!s.levelCompleted && s'.levelCompleted) ==> s'.score == s.score && m'.saved == m.saved) &&
      (m'.status == GameOver <==> TimeUp(level, s'.timeElapsed)) &&
      (!TimeUp(level, s'.timeElapsed) ==>
         (m'.status == LevelComplete <==> !s.levelCompleted && s'.levelCompleted) &&
         (m'.status == Playing <==> !(!s.levelCompleted && s'.levelCompleted)))
  {
  }

  /** The game state after a run of ticks. */
  function GameTicks(h: Helpers, levels: seq<GameLevel>, m: Machine, dts: seq<real>): Machine {
    if |dts| == 0 then m else Ticked(h, levels, GameTicks(h, levels, m, dts[..|dts| - 1]), dts[|dts| - 1])
  }

  /** Completion latches: once the level is completed, no later tick clears
      the flag, recomputes the score or saves again. */
  lemma {:induction false} CompletionLatches(h: Helpers, levels: seq<GameLevel>, m: Machine, dts: seq<real>)
    requires m.state.Some? && m.state.value.levelCompleted
    ensures var m' := GameTicks(h, levels, m, dts);
      m'.state.Some? && m'.state.value.levelCompleted &&
      m'.state.value.score == m.state.value.score && m'.saved == m.saved
  {
    if |dts| > 0 {
      CompletionLatches(h, levels, m, dts[..|dts| - 1]);
      GameTickSpec(h, levels, GameTicks(h, levels, m, dts[..|dts| - 1]), dts[|dts| - 1]);
    }
  }

  /** A dropped frame (longer than half a second) leaves everything as it
      was, wherever it falls in a run of ticks. */
  lemma {:induction false} DroppedFramesIgnored(h: Helpers, levels: seq<GameLevel>, m: Machine, a: seq<real>, dt: real, b: seq<real>)
    requires dt > 0.5
    ensures GameTicks(h, levels, m, a + [dt] + b) == GameTicks(h, levels, m, a + b)
    decreases |b|
  {
    if |b| == 0 {
      assert (a + [dt] + b)[..|a + [dt] + b| - 1] == a;
      assert a + b == a;
    } else {
      var b0 := b[..|b| - 1];
      DroppedFramesIgnored(h, levels, m, a, dt, b0);
      assert (a + [dt] + b)[..|a + [dt] + b| - 1] == a + [dt] + b0;
      assert (a + b)[..|a + b| - 1] == a + b0;
    }
  }

  /** Advancing starts the next level when there is one and otherwise goes
      back to the menu with the game state cleared. */
  lemma NextLevelSpec(h: Helpers, levels: seq<GameLevel>, m: Machine)
    requires 0 <= m.currentLevelIndex
    ensures var m' := LevelAdvanced(h, levels, m);
      (m.currentLevelIndex + 1 < |levels| ==>
         m'.status == Playing && m'.currentLevelIndex == m.currentLevelIndex + 1 &&
         m'.state.Some? && m'.state.value.currentLevel == m.currentLevelIndex + 1 &&
         m'.state.value.isPlaying && m'.state.value.timeElapsed == 0.0 && !m'.state.value.levelCompleted) &&
      (m.currentLevelIndex + 1 >= |levels| ==> m'.status == Menu && m'.state.None?)
  {
  }

  /** Restarting a level of the table is starting it afresh: the zeroed
      progress fields are overwritten by the new game state. */
  lemma RestartIsStart(h: Helpers, levels: seq<GameLevel>, m: Machine)
    requires 0 <= m.currentLevelIndex < |levels|
    ensures LevelRestarted(h, levels, m) == GameStarted(h, levels, m, m.currentLevelIndex)
    ensures LevelRestarted(h, levels, m).state.value.timeElapsed == 0.0
    ensures !LevelRestarted(h, levels, m).state.value.levelCompleted
  {
  }

  /** The hook's invariant: the level index names a level; a game state
      exists exactly outside the menu, belongs to the current level, is
      paused exactly in the paused status and playing once started; and a
      completed level is no longer being played. */
  predicate Inv(levels: seq<GameLevel>, m: Machine) {
    0 <= m.currentLevelIndex < |levels| &&
    (m.status == Menu <==> m.state.None?) &&
    (m.state.Some? ==>
       var s := m.state.value;
       s.currentLevel == m.currentLevelIndex &&
       (s.isPaused <==> m.status == Paused) &&
       s.isPlaying &&
       (s.levelCompleted ==> m.status == LevelComplete || m.status == GameOver))
  }

  /** The invariant holds at mount for a non-empty table and every operation
      keeps it (starting a game needs an index inside the table), so a tick
      never finds its level missing. */
  lemma InvKept(h: Helpers, levels: seq<GameLevel>, m: Machine, i: int, dt: real, direction: real, isMoving: bool)
    requires Inv(levels, m)
    ensures Inv(levels, Initial())
    ensures 0 <= i < |levels| ==> Inv(levels, GameStarted(h, levels, m, i))
    ensures Inv(levels, PauseToggled(m))
    ensures Inv(levels, UpdateMovement(m, direction, isMoving))
    ensures Inv(levels, Ticked(h, levels, m, dt))
    ensures Inv(levels, AtMenu(m))
    ensures Inv(levels, LevelAdvanced(h, levels, m))
    ensures Inv(levels, LevelRestarted(h, levels, m))
    ensures m.state.Some? && m.status == Playing && dt <= 0.5 ==> Runs(levels, m, dt)
  {
    GameTickSpec(h, levels, m, dt);
  }

  /** The hook, with the level table and helpers it was built over. */
  class GameHook {
    const levels: seq<GameLevel>
    const helpers: Helpers
    var gameStatus: Status
    var currentLevelIndex: int
    var gameState: Option<HookState>
    var saved: seq<HookState>

    function Snap(): Machine
      reads this
    {
      Machine(gameStatus, currentLevelIndex, gameState, saved)
    }

    constructor (levels: seq<GameLevel>, helpers: Helpers)
      ensures this.levels == levels && this.helpers == helpers
      ensures Snap() == Initial()
    {
      this.levels := levels;
      this.helpers := helpers;
      gameStatus := Menu;
      currentLevelIndex := 0;
      gameState := None;
      saved := [];
    }

    method InitializeLevel(levelIndex: int)
      modifies this
      ensures Snap() == LevelInitialized(helpers, levels, old(Snap()), levelIndex)
    {
      if !(0 <= levelIndex < |levels|) {
        return;
      }
      var level := levels[levelIndex];
      var iceGrid := helpers.initGrid(level.rinkSize, level.initialDirtCoverage);
      var zamboni := ZamboniState(Position(level.rinkSize.width / 2.0, level.rinkSize.height / 2.0), 0.0,
                                  level.zamboniSpeed, false, level.cleaningRadius);
      gameState := Some(HookState(levelIndex, 0.0, 0, false, false, 0.0, zamboni, iceGrid,
                                  helpers.cleanPct(iceGrid), false));
      currentLevelIndex := levelIndex;
    }

    method StartGame(levelIndex: int)
      modifies this
      ensures Snap() == GameStarted(helpers, levels, old(Snap()), levelIndex)
    {
      InitializeLevel(levelIndex);
      gameStatus := Playing;
      if gameState.Some? {
        gameState := Some(gameState.value.(isPlaying := true));
      }
    }

    method TogglePause()
      modifies this
      ensures Snap() == PauseToggled(old(Snap()))
    {
      if gameState.None? {
        return;
      }
      if gameStatus == Playing {
        gameStatus := Paused;
        gameState := Some(gameState.value.(isPaused := true));
      } else if gameStatus == Paused {
        gameStatus := Playing;
        gameState := Some(gameState.value.(isPaused := false));
      }
    }

    method UpdateZamboniMovement(direction: real, isMoving: bool)
      modifies this
      ensures Snap() == UpdateMovement(old(Snap()), direction, isMoving)
    {
      if gameState.None? || gameStatus != Playing {
        return;
      }
      var s := gameState.value;
      gameState := Some(s.(zamboni := s.zamboni.(direction := direction, isMoving := isMoving)));
    }

    method GameTick(deltaTime: real)
      modifies this
      ensures Snap() == Ticked(helpers, levels, old(Snap()), deltaTime)
    {
      if gameState.None? || gameStatus != Playing {
        return;
      }
      if !(0 <= gameState.value.currentLevel < |levels|) {
        return;
      }
      var level := levels[gameState.value.currentLevel];
      if deltaTime > 0.5 {
        return;
      }
      var s := AdvanceStep(helpers, level, gameState.value, deltaTime);
      if s.cleanPercentage >= level.targetCleanPercentage && !s.levelCompleted {
        s := s.(levelCompleted := true,
                score := helpers.levelScore(s.totalCleaned, s.timeElapsed, level, s.cleanPercentage));
        gameStatus := LevelComplete;
        saved := saved + [s];
      }
      gameState := Some(s);
      if level.timeLimit.Some? && level.timeLimit.value != 0.0 && s.timeElapsed >= level.timeLimit.value {
        gameStatus := GameOver;
      }
    }

    method ResetToMenu()
      modifies this
      ensures Snap() == AtMenu(old(Snap()))
    {
      gameStatus := Menu;
      gameState := None;
    }

    method NextLevel()
      modifies this
      ensures Snap() == LevelAdvanced(helpers, levels, old(Snap()))
    {
      var nextLevelIndex := currentLevelIndex + 1;
      if nextLevelIndex < |levels| {
        StartGame(nextLevelIndex);
      } else {
        ResetToMenu();
      }
    }

    method RestartLevel()
      modifies this
      ensures Snap() == LevelRestarted(helpers, levels, old(Snap()))
    {
      if gameState.Some? {
        gameState := Some(gameState.value.(cleanPercentage := 0.0, totalCleaned := 0,
                                           timeElapsed := 0.0, levelCompleted := false));
      }
      StartGame(currentLevelIndex);
    }
  }
}
