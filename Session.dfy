/** The simulation of one level (src/utils/gameLogic.ts): the mutable game
    state, the fixed-rate `integrate` step, `tickMany`, `createGame`, the angle
    normaliser and the drag-to-input mapper.

    Each tick is specified by the pure function `Tick` on a snapshot `Sim` of
    the state; the class's methods are proved to change the state exactly as
    `Tick` says, and the properties of a tick are lemmas about `Tick`. */
module Session {
  import opened Num
  import opened Dirt
  import opened DirtGen
  import opened Levels

  // Tuning constants of src/utils/constants.ts.
  const DT: real := 1.0 / 60.0
  const MAX_SPEED: real := 120.0
  const BOOST_EXTRA: real := 50.0
  const ACCEL: real := 210.0
  const FRICTION: real := 130.0
  const TURN_RATE: real := PI * 1.2
  const LATERAL_DAMP: real := 8.0
  const ZAMBONI_WIDTH: real := 28.0
  const ZAMBONI_LENGTH: real := 42.0
  const CLEAN_THRESHOLD: real := 100.0
  /** Distance kept between the vehicle's centre and the boards. */
  const BOARD_MARGIN: real := 8.0

  datatype Zamboni = Zamboni(pos: Vec2, vel: Vec2, heading: real, width: real, length: real)

  /** The control input: whether a touch is held, the wanted direction, the
      throttle and the remaining boost ticks. */
  datatype Input = Input(active: bool, dir: Vec2, strength: real, boostTicks: int)

  // ------------------------------------------------------- normalizeAngle

  /** The first loop of `normalizeAngle`: subtract 2*PI while above PI. */
  function Lowered(a: real): real
    decreases if a > PI then a.Floor else 0
  {
    if a > PI then Lowered(a - PI * 2.0) else a
  }

  /** The second loop: add 2*PI while at or below -PI. */
  function Raised(a: real): real
    decreases if a <= -PI then (-a).Floor else 0
  {
    if a <= -PI then Raised(a + PI * 2.0) else a
  }

  /** What `normalizeAngle` returns. */
  function NormalAngle(a: real): real {
    Raised(Lowered(a))
  }

  /** How many times the first loop subtracts 2*PI. */
  function LoweredTurns(a: real): nat
    decreases if a > PI then a.Floor else 0
  {
    if a > PI then LoweredTurns(a - PI * 2.0) + 1 else 0
  }

  /** How many times the second loop adds 2*PI. */
  function RaisedTurns(a: real): nat
    decreases if a <= -PI then (-a).Floor else 0
  {
    if a <= -PI then RaisedTurns(a + PI * 2.0) + 1 else 0
  }

  /** The net whole turns `normalizeAngle` adds to its argument. */
  function AngleTurns(a: real): int {
    RaisedTurns(Lowered(a)) - LoweredTurns(a)
  }

  lemma {:induction false} LoweredSpec(a: real)
    ensures Lowered(a) <= PI
    ensures a > -PI ==> Lowered(a) > -PI
    ensures Lowered(a) == a - LoweredTurns(a) as real * (PI * 2.0)
    decreases if a > PI then a.Floor else 0
  {
    if a > PI {
      LoweredSpec(a - PI * 2.0);
    }
  }

  lemma {:induction false} RaisedSpec(a: real)
    ensures Raised(a) > -PI
    ensures a <= PI ==> Raised(a) <= PI
    ensures Raised(a) == a + RaisedTurns(a) as real * (PI * 2.0)
    decreases if a <= -PI then (-a).Floor else 0
  {
    if a <= -PI {
      RaisedSpec(a + PI * 2.0);
    }
  }

  /** `normalizeAngle` lands in (-PI, PI], differs from its argument by whole
      turns, and leaves an angle already in range alone (so it is
      idempotent). */
  lemma NormalAngleSpec(a: real)
    ensures -PI < NormalAngle(a) <= PI
    ensures NormalAngle(a) == a + AngleTurns(a) as real * (PI * 2.0)
    ensures -PI < a <= PI ==> NormalAngle(a) == a
    ensures NormalAngle(NormalAngle(a)) == NormalAngle(a)
  {
    LoweredSpec(a);
    RaisedSpec(Lowered(a));
    LoweredSpec(NormalAngle(a));
    RaisedSpec(Lowered(NormalAngle(a)));
  }

  /** `normalizeAngle`, with its two while-loops. */
  method NormalizeAngle(a0: real) returns (a: real)
    ensures a == NormalAngle(a0)
    ensures -PI < a <= PI
  {
    a := a0;
    while a > PI
      invariant Lowered(a) == Lowered(a0)
      decreases a.Floor
    {
      a := a - PI * 2.0;
    }
    while a <= -PI
      invariant Raised(a) == NormalAngle(a0)
      decreases (-a).Floor
    {
      a := a + PI * 2.0;
    }
    NormalAngleSpec(a0);
  }

  // ------------------------------------------------------------ steering

  /** `norm`: the vector divided by its length, a zero length read as 1. */
  function UnitDir(m: MathLib, v: Vec2): Vec2 {
    var l := Hypot(m, v.x, v.y);
    var l1 := if l == 0.0 then 1.0 else l;
    Vec2(v.x / l1, v.y / l1)
  }

  /** The turn of one tick: the angle to the input direction, limited to
      `TURN_RATE * DT` either way. */
  function TurnDelta(m: MathLib, z: Zamboni, inp: Input): (d: real)
    ensures -TURN_RATE * DT <= d <= TURN_RATE * DT
  {
    var maxTurn := TURN_RATE * DT;
    Clamp(NormalAngle(Atan2(m, inp.dir.y, inp.dir.x) - z.heading), -maxTurn, maxTurn)
  }

  /** The extra speed while boost ticks remain. */
  function Boost(inp: Input): real {
    if inp.boostTicks > 0 then BOOST_EXTRA else 0.0
  }

  /** Acceleration along the heading `fwd`: throttle times `ACCEL`, plus the
      boost, for one tick. */
  function Thrust(v: Vec2, fwd: Vec2, inp: Input): Vec2 {
    Add(v, Scale(fwd, (ACCEL * inp.strength + Boost(inp)) * DT))
  }

  /** Lateral damping: keep the component along `fwd`, shrink the sideways
      one by `max(0, 1 - LATERAL_DAMP * DT)` when it has a length. */
  function DampSide(m: MathLib, v: Vec2, fwd: Vec2): Vec2 {
    var vF := Scale(fwd, Dot(v, fwd));
    var vS := Sub(v, vF);
    if Hypot(m, vS.x, vS.y) > 0.0 then Add(vF, Scale(vS, Max(0.0, 1.0 - LATERAL_DAMP * DT))) else v
  }

  /** Friction: shorten a moving velocity by `FRICTION * DT`, not below 0. */
  function ApplyFriction(m: MathLib, v: Vec2): Vec2 {
    var vlen := Hypot(m, v.x, v.y);
    if vlen > 0.0 then Scale(v, Max(0.0, vlen - FRICTION * DT) / vlen) else v
  }

  /** The speed cap: a velocity longer than `MAX_SPEED + boost` is rescaled
      to that length. */
  function CapSpeed(m: MathLib, v: Vec2, boost: real): Vec2 {
    if Hypot(m, v.x, v.y) > MAX_SPEED + boost then Scale(UnitDir(m, v), MAX_SPEED + boost) else v
  }

  /** The steering and velocity half of `integrate`: turn, accelerate along
      the new heading, damp the sideways component, apply friction, cap the
      speed. Trigonometry and lengths come from `m`. */
  function Steer(m: MathLib, z: Zamboni, inp: Input): Zamboni {
    var heading := NormalAngle(z.heading + TurnDelta(m, z, inp));
    var fwd := Vec2(Cos(m, heading), Sin(m, heading));
    var v := CapSpeed(m, ApplyFriction(m, DampSide(m, Thrust(z.vel, fwd, inp), fwd)), Boost(inp));
    z.(heading := heading, vel := v)
  }

  /** Steering keeps the heading in (-PI, PI], turns it by at most
      `TURN_RATE * DT` (up to whole turns), and moves nothing else. */
  lemma SteerHeading(m: MathLib, z: Zamboni, inp: Input)
    ensures var s := Steer(m, z, inp);
      -PI < s.heading <= PI &&
      s.heading == z.heading + TurnDelta(m, z, inp) + AngleTurns(z.heading + TurnDelta(m, z, inp)) as real * (PI * 2.0) &&
      s.pos == z.pos && s.width == z.width && s.length == z.length
  {
    NormalAngleSpec(z.heading + TurnDelta(m, z, inp));
  }

  // ------------------------------------------------------- boards, bumps

  /** The position clamped to the rectangle 8 units inside the boards. */
  function MarginClamp(p: Vec2, rink: Rink): Vec2 {
    Vec2(Clamp(p.x, BOARD_MARGIN, rink.width - BOARD_MARGIN),
         Clamp(p.y, BOARD_MARGIN, rink.height - BOARD_MARGIN))
  }

  predicate InsideMargin(p: Vec2, rink: Rink) {
    BOARD_MARGIN <= p.x <= rink.width - BOARD_MARGIN &&
    BOARD_MARGIN <= p.y <= rink.height - BOARD_MARGIN
  }

  /** On a rink at least 16 units each way the clamp lands inside the margin,
      and it changes the position exactly when the position was outside. */
  lemma MarginClampSpec(p: Vec2, rink: Rink)
    requires rink.width >= 2.0 * BOARD_MARGIN && rink.height >= 2.0 * BOARD_MARGIN
    ensures InsideMargin(MarginClamp(p, rink), rink)
    ensures MarginClamp(p, rink) != p <==> !InsideMargin(p, rink)
  {
  }

  /** The centre of the squeegee: 0.45 of the vehicle's length behind `p`. */
  function SqueegeeCenter(m: MathLib, p: Vec2, heading: real, length: real): Vec2 {
    Add(p, Vec2(-Cos(m, heading) * (length * 0.45), -Sin(m, heading) * (length * 0.45)))
  }

  /** The radius the squeegee clears: the level's radius plus 5%. */
  function CleanRadius(cleaningRadius: real): real {
    cleaningRadius * 1.05
  }

  // --------------------------------------------------------------- tick

  /** The level data a tick reads but never writes. */
  datatype Arena = Arena(rink: Rink, cleaningRadius: real, grid: Geom)

  /** A snapshot of everything a tick writes. */
  datatype Sim = Sim(
    z: Zamboni,
    input: Input,
    tile: seq<real>,
    cleanedPercent: real,
    completed: bool,
    elapsed: real,
    bumpCount: int,
    wallContact: bool)

  predicate ArenaOk(e: Arena) {
    e.grid.Valid() && e.rink.width >= 2.0 * BOARD_MARGIN && e.rink.height >= 2.0 * BOARD_MARGIN
  }

  predicate Fits(e: Arena, s: Sim) {
    e.grid.Valid() && |s.tile| == e.grid.cols * e.grid.rows
  }

  lemma GridNonEmpty(e: Arena)
    requires e.grid.Valid()
    ensures e.grid.cols * e.grid.rows >= 1
  {
    MulMonotone(1, e.grid.rows, e.grid.cols);
  }

  /** The position at the end of a tick, before the clamp. */
  function Moved(m: MathLib, s: Sim): Vec2 {
    var z := Steer(m, s.z, s.input);
    Add(z.pos, Scale(z.vel, DT))
  }

  /** The grid after the two cleanings of a tick: first around the new
      position, then around the previous one, both with the new heading. */
  function TickTile(m: MathLib, e: Arena, s: Sim): (t: seq<real>)
    requires Fits(e, s)
    ensures |t| == |s.tile|
  {
    var z := Steer(m, s.z, s.input);
    var pos := MarginClamp(Moved(m, s), e.rink);
    var r := CleanRadius(e.cleaningRadius);
    var t1 := Cleared(e.grid, SqueegeeCenter(m, pos, z.heading, z.length), r, s.tile);
    Cleared(e.grid, SqueegeeCenter(m, s.z.pos, z.heading, z.length), r, t1)
  }

  /** The vehicle after a tick: steered, moved, clamped to the margin. */
  function TickZ(m: MathLib, e: Arena, s: Sim): Zamboni {
    Steer(m, s.z, s.input).(pos := MarginClamp(Moved(m, s), e.rink))
  }

  /** Whether the clamp moved the vehicle on this tick. */
  function Contact(m: MathLib, e: Arena, s: Sim): bool {
    var moved := Moved(m, s);
    var pos := MarginClamp(moved, e.rink);
    moved.x != pos.x || moved.y != pos.y
  }

  /** One `integrate` call. */
  function Tick(m: MathLib, e: Arena, s: Sim): (t: Sim)
    requires Fits(e, s)
    ensures Fits(e, t)
  {
    var tile := TickTile(m, e, s);
    GridNonEmpty(e);
    var pct := CleanPercent(tile).value;
    var contact := Contact(m, e, s);
    Sim(TickZ(m, e, s),
        s.input.(boostTicks := MaxInt(0, s.input.boostTicks - 1)),
        tile,
        pct,
        pct >= CLEAN_THRESHOLD,
        s.elapsed + DT,
        if contact && !s.wallContact then s.bumpCount + 1 else s.bumpCount,
        contact)
  }

  /** After a tick the vehicle is inside the board margin, `wallContact`
      says whether the clamp moved it, and a bump is counted exactly on the
      rising edge of contact. */
  lemma TickBoards(m: MathLib, e: Arena, s: Sim)
    requires ArenaOk(e) && Fits(e, s)
    ensures var t := Tick(m, e, s);
      InsideMargin(t.z.pos, e.rink) &&
      (t.wallContact <==> !InsideMargin(Moved(m, s), e.rink)) &&
      (t.wallContact && !s.wallContact ==> t.bumpCount == s.bumpCount + 1) &&
      (!(t.wallContact && !s.wallContact) ==> t.bumpCount == s.bumpCount)
  {
    MarginClampSpec(Moved(m, s), e.rink);
  }

  /** A tick only cleans: no cell gets dirtier, a changed cell becomes 0, and
      every changed cell lies under one of the two squeegee positions. */
  lemma TickCleaning(m: MathLib, e: Arena, s: Sim)
    requires Fits(e, s)
    ensures var t := Tick(m, e, s);
      var z := t.z;
      var r := CleanRadius(e.cleaningRadius);
      var c1 := SqueegeeCenter(m, z.pos, z.heading, z.length);
      var c2 := SqueegeeCenter(m, s.z.pos, z.heading, z.length);
      NoDirtier(t.tile, s.tile) &&
      forall i :: 0 <= i < |s.tile| && t.tile[i] != s.tile[i] ==>
        t.tile[i] == 0.0 &&
        (Hit(e.grid, c1, r, i % e.grid.cols, i / e.grid.cols) ||
         Hit(e.grid, c2, r, i % e.grid.cols, i / e.grid.cols))
  {
    var z := Tick(m, e, s).z;
    var r := CleanRadius(e.cleaningRadius);
    var c1 := SqueegeeCenter(m, z.pos, z.heading, z.length);
    var t1 := Cleared(e.grid, c1, r, s.tile);
    ClearedNoDirtier(e.grid, c1, r, s.tile);
    ClearedNoDirtier(e.grid, SqueegeeCenter(m, s.z.pos, z.heading, z.length), r, t1);
  }

  /** The invariant every reachable state keeps: cells in [0,1], a
      non-negative boost count, a stored percentage no larger than the grid's
      (it starts at 0, below the real one) and `completed` meaning the stored
      percentage reached 100. */
  predicate Inv(e: Arena, s: Sim) {
    Fits(e, s) && |s.tile| > 0 &&
    AllUnit(s.tile) && s.input.boostTicks >= 0 &&
    0.0 <= s.cleanedPercent <= CleanPercent(s.tile).value &&
    (s.completed <==> s.cleanedPercent >= CLEAN_THRESHOLD)
  }

  /** A fresh game (clean percentage 0, not completed, no boost) over a
      grid of unit cells satisfies the invariant. */
  lemma StartInv(e: Arena, s: Sim)
    requires Fits(e, s) && AllUnit(s.tile)
    requires s.input.boostTicks == 0 && s.cleanedPercent == 0.0 && !s.completed
    ensures Inv(e, s)
  {
    GridNonEmpty(e);
    PercentRange(s.tile);
  }

  /** A completed state is a clean grid. */
  lemma CompletedMeansClean(e: Arena, s: Sim)
    requires Inv(e, s) && s.completed
    ensures AllZero(s.tile)
  {
    PercentFullIff(s.tile);
  }

  /** A tick adds `DT` to the clock, counts a boost tick down to no lower
      than 0, stores the grid's percentage and sets `completed` exactly when
      the grid is clean; it keeps the invariant, never lowers the stored
      percentage and never clears `completed`. */
  lemma TickBookkeeping(m: MathLib, e: Arena, s: Sim)
    requires Inv(e, s)
    ensures var t := Tick(m, e, s);
      Inv(e, t) &&
      t.elapsed == s.elapsed + DT &&
      t.input.boostTicks == MaxInt(0, s.input.boostTicks - 1) &&
      t.cleanedPercent == CleanPercent(t.tile).value &&
      t.cleanedPercent >= s.cleanedPercent &&
      (t.completed <==> AllZero(t.tile)) &&
      (s.completed ==> t.completed)
  {
    var t := Tick(m, e, s);
    TickCleaning(m, e, s);
    var z := t.z;
    var r := CleanRadius(e.cleaningRadius);
    var c1 := SqueegeeCenter(m, z.pos, z.heading, z.length);
    var t1 := Cleared(e.grid, c1, r, s.tile);
    ClearedKeepsUnit(e.grid, c1, r, s.tile);
    ClearedKeepsUnit(e.grid, SqueegeeCenter(m, s.z.pos, z.heading, z.length), r, t1);
    PercentRange(t.tile);
    PercentMonotone(t.tile, s.tile);
    PercentFullIff(t.tile);
  }

  /** `n` consecutive ticks. */
  function Ticks(m: MathLib, e: Arena, s: Sim, n: nat): (t: Sim)
    requires Fits(e, s)
    ensures Fits(e, t)
  {
    if n == 0 then s else Tick(m, e, Ticks(m, e, s, n - 1))
  }

  /** Over `n` ticks the invariant holds and completion, once reached,
      stays. */
  lemma {:induction false} TicksKeepInv(m: MathLib, e: Arena, s: Sim, n: nat)
    requires Inv(e, s)
    ensures Inv(e, Ticks(m, e, s, n))
    ensures s.completed ==> Ticks(m, e, s, n).completed
  {
    if n > 0 {
      TicksKeepInv(m, e, s, n - 1);
      TickBookkeeping(m, e, Ticks(m, e, s, n - 1));
    }
  }

  /** Over `n` ticks the clock advances by exactly `n * DT`, no cell gets
      dirtier and bumps are never uncounted. */
  lemma {:induction false} TicksProgress(m: MathLib, e: Arena, s: Sim, n: nat)
    requires Fits(e, s)
    ensures var t := Ticks(m, e, s, n);
      t.elapsed == s.elapsed + n as real * DT &&
      NoDirtier(t.tile, s.tile) &&
      t.bumpCount >= s.bumpCount
  {
    if n > 0 {
      var p := Ticks(m, e, s, n - 1);
      var t := Tick(m, e, p);
      assert Ticks(m, e, s, n) == t;
      TicksProgress(m, e, s, n - 1);
      TickCleaning(m, e, p);
      NoDirtierTrans(t.tile, p.tile, s.tile);
      MulSucc(n, DT);
    }
  }

  lemma PositiveQuotient(a: real, b: real)
    requires a > 0.0 && b > 0.0
    ensures a / b > 0.0
  {
    assert a / b * b == a;
  }

  lemma MulSucc(n: nat, d: real)
    requires n > 0
    ensures n as real * d == (n - 1) as real * d + d
  {
  }

  /** The randomised dirt `createGame` copies into a new game, as a fresh
      array of cells. */
  method FreshDirt(m: MathLib, level: Level, entropy: bv32) returns (cells: array<real>)
    requires WellFormed(level)
    ensures fresh(cells)
    ensures cells[..] == RandomizedDirt(m, level.dirt, Fnv1a(Utf16(level.id)) ^ entropy, level.id).tile
    ensures cells.Length == level.dirt.cols * level.dirt.rows && AllUnit(cells[..])
  {
    var seed := MakeSeed(level.id, entropy);
    var dirt := RandomizeDirt(m, level.dirt, seed, level.id);
    RandomizedDirtShape(m, level.dirt, seed, level.id);
    cells := new real[|dirt.tile|](i requires 0 <= i < |dirt.tile| => dirt.tile[i]);
    assert cells[..] == dirt.tile;
  }

  // --------------------------------------------------------- game state

  /** `GameState`: the level's fixed data, its dirt grid as an array written
      in place, and the fields `integrate` updates. */
  class GameState {
    const id: string
    const rink: Rink
    const cleaningRadius: real
    const cols: int
    const rows: int
    const tile: array<real>
    var z: Zamboni
    var input: Input
    var cleanedPercent: real
    var completed: bool
    var elapsed: real
    var bumpCount: int
    var wallContact: bool

    /** The grid geometry: one cell is `rink.width / cols` by
        `rink.height / rows`. */
    function Setting(): Arena {
      Arena(rink, cleaningRadius,
        Geom(cols, rows, rink.width / (if cols == 0 then 1 else cols) as real,
                         rink.height / (if rows == 0 then 1 else rows) as real))
    }

    function Snap(): Sim
      reads this, tile
    {
      Sim(z, input, tile[..], cleanedPercent, completed, elapsed, bumpCount, wallContact)
    }

    predicate GridOk() {
      cols >= 1 && rows >= 1 && tile.Length == cols * rows &&
      rink.width >= 2.0 * BOARD_MARGIN && rink.height >= 2.0 * BOARD_MARGIN
    }

    lemma GridGeom()
      requires GridOk()
      ensures Setting().grid.Valid() && tile.Length == Setting().grid.cols * Setting().grid.rows
    {
      PositiveQuotient(rink.width, cols as real);
      PositiveQuotient(rink.height, rows as real);
    }

    predicate Valid()
      reads this, tile
    {
      GridOk() && Inv(Setting(), Snap())
    }

    /** `createGame`: hash the level id with the entropy word into a seed,
        randomise the level's dirt with it, put the vehicle at the level's
        start at rest facing +x, with idle input and zero counters. */
    constructor (m: MathLib, level: Level, entropy: bv32)
      requires WellFormed(level)
      ensures Valid() && fresh(tile)
      ensures id == level.id && rink == level.rink && cleaningRadius == level.cleaningRadius
      ensures cols == level.dirt.cols && rows == level.dirt.rows
      ensures tile[..] == RandomizedDirt(m, level.dirt, Fnv1a(Utf16(level.id)) ^ entropy, level.id).tile
      ensures z == Zamboni(level.zamboniStart, Vec2(0.0, 0.0), 0.0, ZAMBONI_WIDTH, ZAMBONI_LENGTH)
      ensures input == Input(false, Vec2(1.0, 0.0), 0.0, 0)
      ensures cleanedPercent == 0.0 && !completed && elapsed == 0.0 && bumpCount == 0 && !wallContact
    {
      var cells := FreshDirt(m, level, entropy);
      id := level.id;
      rink := level.rink;
      cleaningRadius := level.cleaningRadius;
      cols := level.dirt.cols;
      rows := level.dirt.rows;
      tile := cells;
      z := Zamboni(level.zamboniStart, Vec2(0.0, 0.0), 0.0, ZAMBONI_WIDTH, ZAMBONI_LENGTH);
      input := Input(false, Vec2(1.0, 0.0), 0.0, 0);
      cleanedPercent := 0.0;
      completed := false;
      elapsed := 0.0;
      bumpCount := 0;
      wallContact := false;
      new;
      GridGeom();
      StartInv(Setting(), Snap());
    }

    /** `applyCleaningAt`: clear the disc of radius `cleaningRadius * 1.05`
        around the squeegee behind `position`. */
    method ApplyCleaningAt(m: MathLib, position: Vec2)
      requires GridOk()
      modifies tile
      ensures tile[..] == Cleared(Setting().grid, SqueegeeCenter(m, position, z.heading, z.length),
                                  CleanRadius(cleaningRadius), old(tile[..]))
    {
      var r := CleanRadius(cleaningRadius);
      var c := SqueegeeCenter(m, position, z.heading, z.length);
      GridGeom();
      ClearDisc(tile, Setting().grid, c, r);
    }

    /** The steering half of `integrate`, written as the source updates
        `z.heading` and `z.vel` in turn. */
    method SteerStep(m: MathLib)
      modifies this
      ensures z == Steer(m, old(z), input)
      ensures input == old(input) && cleanedPercent == old(cleanedPercent) && completed == old(completed)
      ensures elapsed == old(elapsed) && bumpCount == old(bumpCount) && wallContact == old(wallContact)
    {
      var veh := z;
      var dir := input.dir;
      var throttle := input.strength;
      var boost := if input.boostTicks > 0 then BOOST_EXTRA else 0.0;
      var targetAngle := Atan2(m, dir.y, dir.x);
      var delta := NormalizeAngle(targetAngle - veh.heading);
      var maxTurn := TURN_RATE * DT;
      delta := Clamp(delta, -maxTurn, maxTurn);
      var heading := NormalizeAngle(veh.heading + delta);
      veh := veh.(heading := heading);
      var forward := Vec2(Cos(m, veh.heading), Sin(m, veh.heading));
      var accel := ACCEL * throttle + boost;
      veh := veh.(vel := Add(veh.vel, Scale(forward, accel * DT)));
      assert veh.vel == Thrust(z.vel, forward, input);
      var v := veh.vel;
      var dot := Dot(v, forward);
      var vForward := Scale(forward, dot);
      var vSide := Sub(v, vForward);
      var sideLen := Hypot(m, vSide.x, vSide.y);
      if sideLen > 0.0 {
        var damp := Max(0.0, 1.0 - LATERAL_DAMP * DT);
        veh := veh.(vel := Add(vForward, Scale(vSide, damp)));
      }
      assert veh.vel == DampSide(m, v, forward);
      var v2 := veh.vel;
      var vlen := Hypot(m, veh.vel.x, veh.vel.y);
      if vlen > 0.0 {
        var decel := FRICTION * DT;
        var newLen := Max(0.0, vlen - decel);
        veh := veh.(vel := Scale(veh.vel, newLen / vlen));
      }
      assert veh.vel == ApplyFriction(m, v2);
      var v3 := veh.vel;
      var sp := Hypot(m, veh.vel.x, veh.vel.y);
      if sp > MAX_SPEED + boost {
        veh := veh.(vel := Scale(UnitDir(m, veh.vel), MAX_SPEED + boost));
      }
      assert veh.vel == CapSpeed(m, v3, Boost(input));
      z := veh;
    }

    /** The driving half of `integrate`: steer, move by one tick of
        velocity, clamp to the board margin and count a bump on the rising
        edge of wall contact. Gives back the position before the move. */
    method Drive(m: MathLib) returns (prevPos: Vec2)
      modifies this
      ensures prevPos == old(z.pos)
      ensures z == TickZ(m, Setting(), old(Snap()))
      ensures wallContact == Contact(m, Setting(), old(Snap()))
      ensures bumpCount == if wallContact && !old(wallContact) then old(bumpCount) + 1 else old(bumpCount)
      ensures input == old(input) && cleanedPercent == old(cleanedPercent)
      ensures completed == old(completed) && elapsed == old(elapsed)
    {
      ghost var s := Snap();
      SteerStep(m);
      prevPos := z.pos;
      var veh := z;
      veh := veh.(pos := Add(veh.pos, Scale(veh.vel, DT)));
      assert veh.pos == Moved(m, s);
      var prevContact := wallContact;
      var minX := 0.0 + BOARD_MARGIN;
      var maxX := rink.width - BOARD_MARGIN;
      var minY := 0.0 + BOARD_MARGIN;
      var maxY := rink.height - BOARD_MARGIN;
      var beforeX := veh.pos.x;
      var beforeY := veh.pos.y;
      veh := veh.(pos := Vec2(Clamp(veh.pos.x, minX, maxX), veh.pos.y));
      veh := veh.(pos := Vec2(veh.pos.x, Clamp(veh.pos.y, minY, maxY)));
      var contact := beforeX != veh.pos.x || beforeY != veh.pos.y;
      ghost var mv := Moved(m, s);
      assert veh.pos == MarginClamp(mv, rink) && beforeX == mv.x && beforeY == mv.y;
      assert contact == Contact(m, Setting(), s);
      z := veh;
      wallContact := contact;
      if contact && !prevContact {
        bumpCount := bumpCount + 1;
      }
    }

    /** The second half of `integrate`: clean around the current position,
        then around `prevPos`, advance the clock, count a boost tick down and
        store the grid's percentage and its completion. */
    method Sweep(m: MathLib, prevPos: Vec2)
      requires GridOk()
      modifies this, tile
      ensures tile[..] == Cleared(Setting().grid, SqueegeeCenter(m, prevPos, z.heading, z.length),
                                  CleanRadius(cleaningRadius),
                                  Cleared(Setting().grid, SqueegeeCenter(m, z.pos, z.heading, z.length),
                                          CleanRadius(cleaningRadius), old(tile[..])))
      ensures |tile[..]| > 0 && cleanedPercent == CleanPercent(tile[..]).value
      ensures completed == (cleanedPercent >= CLEAN_THRESHOLD)
      ensures elapsed == old(elapsed) + DT
      ensures input == old(input).(boostTicks := MaxInt(0, old(input).boostTicks - 1))
      ensures z == old(z) && bumpCount == old(bumpCount) && wallContact == old(wallContact)
    {
      GridGeom();
      GridNonEmpty(Setting());
      ApplyCleaningAt(m, z.pos);
      ApplyCleaningAt(m, prevPos);
      elapsed := elapsed + DT;
      input := input.(boostTicks := MaxInt(0, input.boostTicks - 1));
      var pct := ComputeCleanPercent(tile);
      cleanedPercent := pct.value;
      completed := cleanedPercent >= CLEAN_THRESHOLD;
    }

    /** `integrate`: one fixed tick, changing the state exactly as `Tick`. */
    method Integrate(m: MathLib)
      requires GridOk()
      modifies this, tile
      ensures Snap() == Tick(m, Setting(), old(Snap()))
    {
      ghost var s := Snap();
      ghost var e := Setting();
      GridGeom();
      GridNonEmpty(e);
      var prevPos := Drive(m);
      Sweep(m, prevPos);
      assert tile[..] == TickTile(m, e, s);
    }

    /** `n` calls of `integrate` in a row. */
    method Run(m: MathLib, n: nat)
      requires GridOk()
      modifies this, tile
      ensures Snap() == Ticks(m, Setting(), old(Snap()), n)
    {
      GridGeom();
      var i := 0;
      while i < n
        invariant 0 <= i <= n
        invariant Snap() == Ticks(m, Setting(), old(Snap()), i)
      {
        Integrate(m);
        i := i + 1;
      }
    }

    /** `tickMany`: `for (i = 0; i < ticks; i++)` calls `integrate` once per
        integer `i` from 0 below `ticks`; the state stays valid throughout. */
    method TickMany(m: MathLib, ticks: real)
      requires Valid()
      modifies this, tile
      ensures Valid()
      ensures Snap() == Ticks(m, Setting(), old(Snap()), LoopCount(ticks))
    {
      ghost var s0 := Snap();
      GridGeom();
      Run(m, LoopCount(ticks));
      TicksKeepInv(m, Setting(), s0, LoopCount(ticks));
    }
  }

  /** How often `for (let i = 0; i < ticks; i++)` runs its body: the
      least count `n` with `n >= ticks`, which is 0 for a count that is not
      positive and rounds a fractional count up. */
  function LoopCount(ticks: real): (n: nat)
    ensures n as real >= ticks
    ensures n > 0 ==> (n - 1) as real < ticks
  {
    if ticks <= 0.0 then 0 else Ceil(ticks)
  }

  // ------------------------------------------------------- fromInputDrag

  datatype DragInput = DragInput(dir: Vec2, strength: real)

  /** `fromInputDrag` for a drag of (dx, dy) whose length `Math.hypot`
      reports as `l`. */
  function FromInputDrag(dx: real, dy: real, l: real): DragInput {
    if l < 5.0 then DragInput(Vec2(1.0, 0.0), 0.0)
    else DragInput(Vec2(dx / l, dy / l), Clamp(l / 80.0, 0.0, 1.0))
  }

  /** A drag shorter than the 5-unit dead zone gives no throttle and the +x
      direction; a longer one gives the unit vector along the drag and a
      throttle in (0,1] that is full exactly from 80 units on. */
  lemma FromInputDragSpec(dx: real, dy: real, l: real)
    requires l >= 0.0 && l * l == dx * dx + dy * dy
    ensures var o := FromInputDrag(dx, dy, l);
      (l < 5.0 ==> o.dir == Vec2(1.0, 0.0) && o.strength == 0.0) &&
      (l >= 5.0 ==>
        o.dir == Vec2(dx / l, dy / l) &&
        o.dir.x * o.dir.x + o.dir.y * o.dir.y == 1.0 &&
        0.0 < o.strength <= 1.0 &&
        (o.strength == 1.0 <==> l >= 80.0) &&
        (l < 80.0 ==> o.strength == l / 80.0))
  {
    if l >= 5.0 {
      var ux, uy := dx / l, dy / l;
      assert ux * l == dx && uy * l == dy;
      assert (ux * ux + uy * uy) * (l * l) == dx * dx + dy * dy;
    }
  }
}
