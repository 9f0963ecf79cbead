/** The level table (src/utils/levels.ts): the grid builder, the three
    shipped levels with their base dirt patterns, the id list and the lookup. */
module Levels {
  import opened Num
  import opened Dirt

  datatype Rink = Rink(width: real, height: real, cornerRadius: real)

  datatype Level = Level(
    id: string,
    name: string,
    difficulty: int,
    description: string,
    rink: Rink,
    dirt: TileGrid,
    zamboniStart: Vec2,
    cleaningRadius: real,
    cleaningRate: real)

  /** A level the simulation can run: a non-empty row-major grid of cells in
      [0,1] over a rink wide and high enough for the 8-unit board margin. */
  predicate WellFormed(l: Level) {
    l.dirt.cols >= 1 && l.dirt.rows >= 1 &&
    |l.dirt.tile| == l.dirt.cols * l.dirt.rows && AllUnit(l.dirt.tile) &&
    l.rink.width >= 16.0 && l.rink.height >= 16.0
  }

  /** `Math.min(1, Math.max(0, v))`. */
  function Unit(v: real): (r: real)
    ensures 0.0 <= r <= 1.0 && r == Clamp(v, 0.0, 1.0)
  {
    Min(1.0, Max(0.0, v))
  }

  /** `makeGrid`: cell `i` is `fn(i % cols, floor(i / cols))` clamped to [0,1]. */
  function MakeGrid(cols: int, rows: int, fn: (int, int) -> real): (g: TileGrid)
    requires cols >= 0 && rows >= 0
    ensures g.cols == cols && g.rows == rows
    ensures |g.tile| == cols * rows && AllUnit(g.tile)
  {
    var n := cols * rows;
    assert n >= 0 && (n > 0 ==> cols > 0) by {
      if cols > 0 { MulMonotone(0, rows, cols); }
    }
    var tile := seq(n, i requires 0 <= i < n => Unit(fn(i % cols, i / cols)));
    assert forall i :: 0 <= i < n ==> 0.0 <= tile[i] <= 1.0 by {
      forall i | 0 <= i < n ensures 0.0 <= tile[i] <= 1.0 {
        assert tile[i] == Unit(fn(i % cols, i / cols));
      }
    }
    TileGrid(cols, rows, tile)
  }

  /** Cell (x, y) of a built grid holds `fn(x, y)` clamped to [0,1]: the
      layout is row-major. */
  lemma MakeGridAt(cols: int, rows: int, fn: (int, int) -> real, x: int, y: int)
    requires 0 <= x < cols && 0 <= y < rows
    ensures 0 <= y * cols + x < |MakeGrid(cols, rows, fn).tile|
    ensures MakeGrid(cols, rows, fn).tile[y * cols + x] == Clamp(fn(x, y), 0.0, 1.0)
  {
    IndexInGrid(x, y, cols, rows);
    IndexRoundTrip(x, y, cols);
  }

  /** `baseDirt`: a smooth sine/cosine pattern scaled by `intensity`. */
  function BaseDirt(m: MathLib, cols: int, rows: int, intensity: real): TileGrid
    requires cols >= 1 && rows >= 1
  {
    MakeGrid(cols, rows, (x: int, y: int) =>
      var nx := x as real / cols as real;
      var ny := y as real / rows as real;
      intensity * (0.6 + 0.4 * m.sin(8.0 * nx) * m.cos(6.0 * ny)))
  }

  /** The level-2 pattern: heavy bands plus grime in the four corners. */
  function BeerLeagueDirt(m: MathLib, x: int, y: int): real {
    var nx := x as real / 80.0;
    var ny := y as real / 45.0;
    var s := m.sin(10.0 * nx);
    var band := 0.4 + 0.6 * (s * s);
    var cornerBoost :=
      Max(0.0, 0.5 - m.hypot(nx - 0.0, ny - 0.0)) * 0.7 +
      Max(0.0, 0.5 - m.hypot(nx - 1.0, ny - 0.0)) * 0.7 +
      Max(0.0, 0.5 - m.hypot(nx - 0.0, ny - 1.0)) * 0.7 +
      Max(0.0, 0.5 - m.hypot(nx - 1.0, ny - 1.0)) * 0.7;
    Min(1.0, 0.5 * band + 0.4 * cornerBoost)
  }

  /** The level-3 pattern: diagonal streaks plus wear around the centre. */
  function BigShowDirt(m: MathLib, x: int, y: int): real {
    var nx := x as real / 96.0;
    var ny := y as real / 54.0;
    var streaks := 0.6 + 0.4 * m.sin(18.0 * (nx + ny));
    var centerMess := Max(0.0, 0.7 - m.hypot(nx - 0.5, ny - 0.5)) * 0.6;
    Min(1.0, 0.55 * streaks + 0.5 * centerMess)
  }

  /** `LEVELS`, in order. */
  function AllLevels(m: MathLib): (ls: seq<Level>)
    ensures |ls| == 3
  {
    [ Level("level-1", "Backyard Pond", 1,
            "Cozy backyard ice. Learn the basics and sweep clean lanes.",
            Rink(640.0, 360.0, 24.0), BaseDirt(m, 64, 36, 0.65),
            Vec2(120.0, 180.0), 26.0, 1.1),
      Level("level-2", "Beer League Bash", 2,
            "Beer league chaos: full sheet, streaky corners, board grime.",
            Rink(800.0, 450.0, 28.0), MakeGrid(80, 45, (x: int, y: int) => BeerLeagueDirt(m, x, y)),
            Vec2(180.0, 220.0), 26.0, 1.0),
      Level("level-3", "The Big Show", 3,
            "Under the lights: pro sheet with heavy center wear and long lanes.",
            Rink(960.0, 540.0, 32.0), MakeGrid(96, 54, (x: int, y: int) => BigShowDirt(m, x, y)),
            Vec2(220.0, 260.0), 28.0, 0.95) ]
  }

  /** `LEVEL_IDS`: the ids of the levels, in table order. */
  function LevelIds(m: MathLib): (ids: seq<string>)
    ensures |ids| == |AllLevels(m)|
    ensures forall i :: 0 <= i < |ids| ==> ids[i] == AllLevels(m)[i].id
  {
    seq(|AllLevels(m)|, i requires 0 <= i < |AllLevels(m)| => AllLevels(m)[i].id)
  }

  /** The ids are the three level names, pairwise distinct, so every id picks
      out one level. */
  lemma LevelIdsValues(m: MathLib)
    ensures LevelIds(m) == ["level-1", "level-2", "level-3"]
    ensures forall i, j :: 0 <= i < j < |LevelIds(m)| ==> LevelIds(m)[i] != LevelIds(m)[j]
  {
  }

  /** The shape every shipped level has: well formed, 10-unit cells in both
      directions, and a start position inside the board margin. */
  predicate ShippedShape(l: Level) {
    WellFormed(l) &&
    l.rink.width / l.dirt.cols as real == 10.0 &&
    l.rink.height / l.dirt.rows as real == 10.0 &&
    8.0 <= l.zamboniStart.x <= l.rink.width - 8.0 &&
    8.0 <= l.zamboniStart.y <= l.rink.height - 8.0
  }

  /** Every shipped level has that shape. */
  lemma LevelsWellFormed(m: MathLib)
    ensures forall i :: 0 <= i < |AllLevels(m)| ==> ShippedShape(AllLevels(m)[i])
  {
    var ls := AllLevels(m);
    assert ShippedShape(ls[0]);
    assert ShippedShape(ls[1]);
    assert ShippedShape(ls[2]);
  }

  /** `Array.prototype.find` on levels by id. */
  function Find(ls: seq<Level>, id: string): Option<Level> {
    if |ls| == 0 then None
    else if ls[0].id == id then Some(ls[0])
    else Find(ls[1..], id)
  }

  /** `find` returns the first level with the id, and `None` exactly when no
      level has it. */
  lemma {:induction false} FindFirst(ls: seq<Level>, id: string)
    ensures Find(ls, id).None? <==> forall i :: 0 <= i < |ls| ==> ls[i].id != id
    ensures Find(ls, id).Some? ==>
      exists k :: 0 <= k < |ls| && ls[k] == Find(ls, id).value && ls[k].id == id &&
        forall j :: 0 <= j < k ==> ls[j].id != id
  {
    if |ls| > 0 && ls[0].id != id {
      FindFirst(ls[1..], id);
      if Find(ls, id).Some? {
        var k :| 0 <= k < |ls[1..]| && ls[1..][k] == Find(ls, id).value && ls[1..][k].id == id &&
          forall j :: 0 <= j < k ==> ls[1..][j].id != id;
        assert ls[k + 1] == ls[1..][k];
        forall j | 0 <= j < k + 1 ensures ls[j].id != id {
          if j > 0 { assert ls[j] == ls[1..][j - 1]; }
        }
      } else {
        forall i | 0 <= i < |ls| ensures ls[i].id != id {
          if i > 0 { assert ls[i] == ls[1..][i - 1]; }
        }
      }
    }
  }

  /** `findLevel`: the level with the id, falling back to the first level. */
  function FindLevel(m: MathLib, id: string): (l: Level)
    ensures l in AllLevels(m)
  {
    match Find(AllLevels(m), id)
    case Some(l) => FindFirst(AllLevels(m), id); l
    case None => AllLevels(m)[0]
  }

  /** The lookup hits exactly the listed ids; any other id gets level 1. */
  lemma FindLevelById(m: MathLib, id: string)
    ensures id in LevelIds(m) ==> FindLevel(m, id).id == id
    ensures id !in LevelIds(m) ==> FindLevel(m, id) == AllLevels(m)[0]
  {
    FindFirst(AllLevels(m), id);
    LevelIdsValues(m);
    if id in LevelIds(m) {
      var i :| 0 <= i < |LevelIds(m)| && LevelIds(m)[i] == id;
      assert AllLevels(m)[i].id == id;
    }
  }
}
