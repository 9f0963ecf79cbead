/** The dirt field: a row-major grid of per-cell dirt in [0,1] (0 = clean),
    the radius clear that the integrator applies to it in place, and the
    clean percentage computed from it (src/utils/gameLogic.ts). */
module Dirt {
  import opened Num

  /** `TileGrid`: `cols` by `rows` cells, stored row by row in `tile`. */
  datatype TileGrid = TileGrid(cols: int, rows: int, tile: seq<real>)

  /** Every cell holds a dirt value in [0,1]. */
  predicate AllUnit(t: seq<real>) {
    forall i :: 0 <= i < |t| ==> 0.0 <= t[i] <= 1.0
  }

  predicate AllZero(t: seq<real>) {
    forall i :: 0 <= i < |t| ==> t[i] == 0.0
  }

  /** Pointwise order: no cell of `a` is dirtier than the same cell of `b`. */
  predicate NoDirtier(a: seq<real>, b: seq<real>) {
    |a| == |b| && forall i :: 0 <= i < |a| ==> a[i] <= b[i]
  }

  lemma NoDirtierTrans(a: seq<real>, b: seq<real>, c: seq<real>)
    requires NoDirtier(a, b) && NoDirtier(b, c)
    ensures NoDirtier(a, c)
  {
  }

  /** How a grid lies in the rink: its shape and the world size of one cell
      (`rink.width / cols`, `rink.height / rows`). */
  datatype Geom = Geom(cols: int, rows: int, cellW: real, cellH: real) {
    predicate Valid() { cols >= 1 && rows >= 1 && cellW > 0.0 && cellH > 0.0 }
  }

  // The index ranges the clear visits: the disc's bounding box in cells,
  // each bound clamped to the grid.
  function MinCol(g: Geom, c: Vec2, r: real): int requires g.Valid() {
    ClampInt(Floor((c.x - r) / g.cellW), 0, g.cols - 1)
  }
  function MaxCol(g: Geom, c: Vec2, r: real): int requires g.Valid() {
    ClampInt(Ceil((c.x + r) / g.cellW), 0, g.cols - 1)
  }
  function MinRow(g: Geom, c: Vec2, r: real): int requires g.Valid() {
    ClampInt(Floor((c.y - r) / g.cellH), 0, g.rows - 1)
  }
  function MaxRow(g: Geom, c: Vec2, r: real): int requires g.Valid() {
    ClampInt(Ceil((c.y + r) / g.cellH), 0, g.rows - 1)
  }

  /** The centre of cell (x, y) is within distance `r` of `c`
      (`Math.hypot(cx - c.x, cy - c.y) <= r`, squared, which is exact). */
  predicate Reaches(g: Geom, c: Vec2, r: real, x: int, y: int) {
    var cx := x as real * g.cellW + g.cellW / 2.0;
    var cy := y as real * g.cellH + g.cellH / 2.0;
    r >= 0.0 && (cx - c.x) * (cx - c.x) + (cy - c.y) * (cy - c.y) <= r * r
  }

  /** Cell (x, y) is visited by the clear and its centre is in the disc. */
  predicate Hit(g: Geom, c: Vec2, r: real, x: int, y: int)
    requires g.Valid()
  {
    MinCol(g, c, r) <= x <= MaxCol(g, c, r) &&
    MinRow(g, c, r) <= y <= MaxRow(g, c, r) &&
    Reaches(g, c, r, x, y)
  }

  /** The grid after one radius clear of centre `c`: every positive cell the
      disc hits becomes exactly 0, every other cell is as before. */
  function Cleared(g: Geom, c: Vec2, r: real, t: seq<real>): (u: seq<real>)
    requires g.Valid() && |t| == g.cols * g.rows
    ensures |u| == |t|
  {
    seq(|t|, i requires 0 <= i < |t| =>
      if Hit(g, c, r, i % g.cols, i / g.cols) && t[i] > 0.0 then 0.0 else t[i])
  }

  /** The clear only reaches cells inside the grid: a hit cell has a column in
      [0, cols-1], a row in [0, rows-1], and its index lies inside the tile array. */
  lemma HitInGrid(g: Geom, c: Vec2, r: real, x: int, y: int)
    requires g.Valid() && Hit(g, c, r, x, y)
    ensures 0 <= x < g.cols && 0 <= y < g.rows
    ensures 0 <= y * g.cols + x < g.cols * g.rows
  {
    IndexInGrid(x, y, g.cols, g.rows);
  }

  /** Cell (x, y) of the cleared grid, read through its row-major index:
      0 when the disc hits it and it was dirty, unchanged otherwise. */
  lemma ClearedAt(g: Geom, c: Vec2, r: real, t: seq<real>, x: int, y: int)
    requires g.Valid() && |t| == g.cols * g.rows
    requires 0 <= x < g.cols && 0 <= y < g.rows
    ensures 0 <= y * g.cols + x < |t|
    ensures Cleared(g, c, r, t)[y * g.cols + x] ==
            if Hit(g, c, r, x, y) && t[y * g.cols + x] > 0.0 then 0.0 else t[y * g.cols + x]
  {
    IndexInGrid(x, y, g.cols, g.rows);
    IndexRoundTrip(x, y, g.cols);
  }

  /** No cell gets dirtier, and a cell either keeps its value or becomes 0. */
  lemma ClearedNoDirtier(g: Geom, c: Vec2, r: real, t: seq<real>)
    requires g.Valid() && |t| == g.cols * g.rows
    ensures NoDirtier(Cleared(g, c, r, t), t)
    ensures forall i :: 0 <= i < |t| ==>
              Cleared(g, c, r, t)[i] == t[i] || Cleared(g, c, r, t)[i] == 0.0
  {
  }

  /** Clearing the same disc twice leaves the grid as the first clear did. */
  lemma ClearedIdempotent(g: Geom, c: Vec2, r: real, t: seq<real>)
    requires g.Valid() && |t| == g.cols * g.rows
    ensures Cleared(g, c, r, Cleared(g, c, r, t)) == Cleared(g, c, r, t)
  {
    var u := Cleared(g, c, r, t);
    var w := Cleared(g, c, r, u);
    assert |w| == |u|;
    forall i | 0 <= i < |u| ensures w[i] == u[i] {
      if Hit(g, c, r, i % g.cols, i / g.cols) && t[i] > 0.0 {
        assert u[i] == 0.0;
      }
    }
  }

  /** A clear keeps the [0,1] range of every cell. */
  lemma ClearedKeepsUnit(g: Geom, c: Vec2, r: real, t: seq<real>)
    requires g.Valid() && |t| == g.cols * g.rows && AllUnit(t)
    ensures AllUnit(Cleared(g, c, r, t))
  {
  }

  /** Sum of the cells, accumulated front to back as the source's loop does. */
  function Sum(s: seq<real>): real {
    if |s| == 0 then 0.0 else Sum(s[..|s| - 1]) + s[|s| - 1]
  }

  /** `computeCleanPercent`: `(1 - sum / length) * 100`. On an empty grid the
      source divides 0 by 0 and gets NaN, modelled as `None`. */
  function CleanPercent(t: seq<real>): Option<real> {
    if |t| == 0 then None else Some((1.0 - Sum(t) / |t| as real) * 100.0)
  }

  lemma {:induction false} SumBounds(s: seq<real>)
    requires AllUnit(s)
    ensures 0.0 <= Sum(s) <= |s| as real
  {
    if |s| > 0 {
      SumBounds(s[..|s| - 1]);
    }
  }

  lemma {:induction false} SumNonNegZero(s: seq<real>)
    requires forall i :: 0 <= i < |s| ==> s[i] >= 0.0
    ensures Sum(s) >= 0.0
    ensures Sum(s) == 0.0 <==> AllZero(s)
  {
    if |s| > 0 {
      var p := s[..|s| - 1];
      SumNonNegZero(p);
      if AllZero(s) {
        assert AllZero(p);
      }
    }
  }

  lemma {:induction false} SumMonotone(a: seq<real>, b: seq<real>)
    requires NoDirtier(a, b)
    ensures Sum(a) <= Sum(b)
  {
    if |a| > 0 {
      SumMonotone(a[..|a| - 1], b[..|b| - 1]);
    }
  }

  /** With every cell in [0,1] the clean percentage lies in [0,100]. */
  lemma PercentRange(t: seq<real>)
    requires |t| > 0 && AllUnit(t)
    ensures CleanPercent(t).Some?
    ensures 0.0 <= CleanPercent(t).value <= 100.0
  {
    SumBounds(t);
    var n := |t| as real;
    assert 0.0 <= Sum(t) / n <= 1.0;
  }

  /** With no negative cell, the percentage reaches 100 exactly when every
      cell is clean, and it never exceeds 100. */
  lemma PercentFullIff(t: seq<real>)
    requires |t| > 0 && forall i :: 0 <= i < |t| ==> t[i] >= 0.0
    ensures CleanPercent(t).value <= 100.0
    ensures CleanPercent(t).value >= 100.0 <==> AllZero(t)
  {
    SumNonNegZero(t);
    var n := |t| as real;
    assert Sum(t) / n >= 0.0;
    assert Sum(t) / n == 0.0 <==> Sum(t) == 0.0;
  }

  /** A grid that is nowhere dirtier has at least the same clean percentage. */
  lemma PercentMonotone(a: seq<real>, b: seq<real>)
    requires NoDirtier(a, b) && |a| > 0
    ensures CleanPercent(a).value >= CleanPercent(b).value
  {
    SumMonotone(a, b);
    var n := |a| as real;
    assert Sum(a) / n <= Sum(b) / n;
  }

  /** Coverage is monotone: a clear never lowers the clean percentage. */
  lemma ClearedPercentMonotone(g: Geom, c: Vec2, r: real, t: seq<real>)
    requires g.Valid() && |t| == g.cols * g.rows
    ensures |t| > 0
    ensures CleanPercent(Cleared(g, c, r, t)).value >= CleanPercent(t).value
  {
    IndexInGrid(0, 0, g.cols, g.rows);
    ClearedNoDirtier(g, c, r, t);
    PercentMonotone(Cleared(g, c, r, t), t);
  }

  /** `computeCleanPercent`: the summing loop over the tile array. */
  method ComputeCleanPercent(tile: array<real>) returns (p: Option<real>)
    ensures p == CleanPercent(tile[..])
  {
    var sum := 0.0;
    var i := 0;
    while i < tile.Length
      invariant 0 <= i <= tile.Length
      invariant sum == Sum(tile[..i])
    {
      assert tile[..i + 1][..i] == tile[..i];
      sum := sum + tile[i];
      i := i + 1;
    }
    assert tile[..i] == tile[..];
    if tile.Length == 0 {
      p := None;
    } else {
      p := Some((1.0 - sum / tile.Length as real) * 100.0);
    }
  }

  /** The grid after clearing row `y` only: the cells of that row the disc
      hits become 0 if they were dirty; every other cell is unchanged. */
  predicate RowCleared(g: Geom, c: Vec2, r: real, t: seq<real>, u: seq<real>, y: int, x: int)
    requires g.Valid() && |t| == |u|
  {
    forall i :: 0 <= i < |t| ==>
      u[i] == if i / g.cols == y && i % g.cols < x && Hit(g, c, r, i % g.cols, i / g.cols) && t[i] > 0.0
              then 0.0 else t[i]
  }

  /** Distinct indices name distinct cells. */
  lemma SameCell(i: int, x: int, y: int, cols: int)
    requires cols > 0 && 0 <= x < cols && 0 <= y && 0 <= i && i != y * cols + x
    ensures i / cols != y || i % cols != x
  {
  }

  /** The inner loop of `applyCleaningAt`: the columns `minX..maxX` of row `y`. */
  method ClearRow(tile: array<real>, g: Geom, c: Vec2, r: real, y: int)
    requires g.Valid() && tile.Length == g.cols * g.rows
    requires MinRow(g, c, r) <= y <= MaxRow(g, c, r)
    modifies tile
    ensures RowCleared(g, c, r, old(tile[..]), tile[..], y, g.cols)
  {
    ghost var t := tile[..];
    var minX, maxX := MinCol(g, c, r), MaxCol(g, c, r);
    var x := minX;
    while x <= maxX
      invariant minX <= x
      invariant RowCleared(g, c, r, t, tile[..], y, x)
    {
      var idx := y * g.cols + x;
      IndexInGrid(x, y, g.cols, g.rows);
      IndexRoundTrip(x, y, g.cols);
      ghost var before := tile[..];
      if Reaches(g, c, r, x, y) {
        if tile[idx] > 0.0 {
          tile[idx] := 0.0;
        }
      }
      forall i | 0 <= i < tile.Length
        ensures tile[i] == if i / g.cols == y && i % g.cols < x + 1 && Hit(g, c, r, i % g.cols, i / g.cols) && t[i] > 0.0
                           then 0.0 else t[i]
      {
        if i != idx {
          SameCell(i, x, y, g.cols);
          assert tile[i] == before[i];
        }
      }
      x := x + 1;
    }
  }

  /** `applyCleaningAt`'s nested loop: visit the clamped bounding box row by
      row and zero every positive cell whose centre is in the disc. */
  method ClearDisc(tile: array<real>, g: Geom, c: Vec2, r: real)
    requires g.Valid() && tile.Length == g.cols * g.rows
    modifies tile
    ensures tile[..] == Cleared(g, c, r, old(tile[..]))
  {
    ghost var t := tile[..];
    var minY, maxY := MinRow(g, c, r), MaxRow(g, c, r);
    var y := minY;
    while y <= maxY
      invariant minY <= y
      invariant forall i :: 0 <= i < tile.Length ==>
                  tile[i] == if i / g.cols < y && Hit(g, c, r, i % g.cols, i / g.cols) && t[i] > 0.0
                             then 0.0 else t[i]
    {
      ClearRow(tile, g, c, r, y);
      y := y + 1;
    }
    forall i | 0 <= i < tile.Length
      ensures tile[i] == Cleared(g, c, r, t)[i]
    {
      RowInGrid(i, g.cols, g.rows);
    }
  }
}
