/** Shared value types and the JavaScript numeric helpers the game relies on.
    Numbers are exact reals: floating-point rounding is not modelled. */
module Num {

  datatype Option<T> = None | Some(value: T)

  /** A plain 2-D vector value. */
  datatype Vec2 = Vec2(x: real, y: real)

  function Add(a: Vec2, b: Vec2): Vec2 { Vec2(a.x + b.x, a.y + b.y) }

  function Sub(a: Vec2, b: Vec2): Vec2 { Vec2(a.x - b.x, a.y - b.y) }

  function Scale(v: Vec2, s: real): Vec2 { Vec2(v.x * s, v.y * s) }

  function Dot(a: Vec2, b: Vec2): real { a.x * b.x + a.y * b.y }

  function Min(a: real, b: real): real { if a <= b then a else b }

  function Max(a: real, b: real): real { if a >= b then a else b }

  function MinInt(a: int, b: int): int { if a <= b then a else b }

  function MaxInt(a: int, b: int): int { if a >= b then a else b }

  /** `clamp(v, a, b) = Math.max(a, Math.min(b, v))`. */
  function Clamp(v: real, lo: real, hi: real): (r: real)
    ensures lo <= hi ==> lo <= r <= hi
    ensures lo <= v <= hi ==> r == v
  {
    Max(lo, Min(hi, v))
  }

  /** The same clamp on integers (grid indices). */
  function ClampInt(v: int, lo: int, hi: int): (r: int)
    ensures lo <= hi ==> lo <= r <= hi
    ensures lo <= v <= hi ==> r == v
  {
    MaxInt(lo, MinInt(hi, v))
  }

  /** `Math.floor`. */
  function Floor(x: real): (r: int)
    ensures r as real <= x < r as real + 1.0
  {
    x.Floor
  }

  /** `Math.ceil`. */
  function Ceil(x: real): (r: int)
    ensures r as real - 1.0 < x <= r as real
  {
    -((-x).Floor)
  }

  /** `Math.round`: the nearest integer, halves rounded towards +infinity. */
  function Round(x: real): (r: int)
    ensures r as real - 0.5 <= x < r as real + 0.5
  {
    (x + 0.5).Floor
  }

  /** Floor and ceiling keep the order of their arguments. */
  lemma FloorCeilOrdered(a: real, b: real)
    requires a <= b
    ensures Floor(a) <= Ceil(b)
  {
  }

  /** Row-major indexing: cell (x, y) of a grid with `cols` columns sits at
      `y * cols + x`, and that index gives back its column and row. */
  lemma IndexRoundTrip(x: int, y: int, cols: int)
    requires cols > 0 && 0 <= x < cols && 0 <= y
    ensures (y * cols + x) / cols == y
    ensures (y * cols + x) % cols == x
  {
    var i := y * cols + x;
    var q, m := i / cols, i % cols;
    assert i == q * cols + m;
    assert 0 <= m < cols;
    if q > y {
      assert q * cols >= (y + 1) * cols by {
        assert q >= y + 1;
        MulMonotone(y + 1, q, cols);
      }
      assert false;
    } else if q < y {
      assert q * cols + cols <= y * cols by {
        assert q + 1 <= y;
        MulMonotone(q + 1, y, cols);
      }
      assert false;
    }
  }

  /** A row-major index below `cols * rows` lies in a row below `rows`. */
  lemma IndexInGrid(x: int, y: int, cols: int, rows: int)
    requires cols > 0 && 0 <= x < cols && 0 <= y < rows
    ensures 0 <= y * cols + x < cols * rows
  {
    MulMonotone(y + 1, rows, cols);
  }

  /** The row of an index below `cols * rows` lies below `rows`. */
  lemma RowInGrid(i: int, cols: int, rows: int)
    requires cols > 0 && 0 <= i < cols * rows
    ensures 0 <= i / cols < rows && 0 <= i % cols < cols
  {
    var q := i / cols;
    assert i == q * cols + i % cols;
    if q >= rows {
      MulMonotone(rows, q, cols);
      assert false;
    }
  }

  lemma MulMonotone(a: int, b: int, c: int)
    requires a <= b && c >= 0
    ensures a * c <= b * c
  {
    assert b * c - a * c == (b - a) * c;
  }

  /** Stand-ins for the transcendental functions of JavaScript's `Math`: the
      model takes them as values and relies on no property of them. */
  datatype MathLib = MathLib(
    sin: real -> real,
    cos: real -> real,
    atan2: (real, real) -> real,
    hypot: (real, real) -> real,
    pow: (real, real) -> real)

  function Sin(m: MathLib, x: real): real { m.sin(x) }
  function Cos(m: MathLib, x: real): real { m.cos(x) }
  function Atan2(m: MathLib, y: real, x: real): real { m.atan2(y, x) }
  function Hypot(m: MathLib, x: real, y: real): real { m.hypot(x, y) }
  function Pow(m: MathLib, x: real, y: real): real { m.pow(x, y) }

  /** `Math.PI`, written out as the double's shortest decimal. */
  const PI: real := 3.141592653589793
}
