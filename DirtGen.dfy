/** Per-session dirt generation (src/utils/gameLogic.ts): a 32-bit FNV-1a hash
    of the level id mixed with an entropy word, the mulberry32 generator, a
    box-blurred and normalised noise field, and the blend with the level's
    base pattern. All 32-bit integer work is on `bv32`, as JavaScript's
    `Math.imul`, `^` and `>>>` operate modulo 2^32. */
module DirtGen {
  import opened Num
  import opened Dirt

  // ---------------------------------------------------------------- seed

  /** A UTF-16 code unit. */
  type CodeUnit = u: int | 0 <= u < 0x10000

  /** The UTF-16 code units of one character: what `charCodeAt` reports. A
      character above U+FFFF becomes a high and a low surrogate. */
  function CodeUnits(ch: char): (u: seq<CodeUnit>)
    ensures 1 <= |u| <= 2
  {
    var v := ch as int;
    if v < 0x10000 then [v]
    else
      var w := v - 0x10000;
      [0xD800 + w / 0x400, 0xDC00 + w % 0x400]
  }

  /** The UTF-16 code units of a string, in order. */
  function Utf16(s: string): seq<CodeUnit> {
    if |s| == 0 then [] else CodeUnits(s[0]) + Utf16(s[1..])
  }

  /** A value that names a Unicode scalar value. */
  predicate IsScalar(v: int) {
    0 <= v < 0xD800 || 0xE000 <= v < 0x110000
  }

  /** Reads UTF-16 back into characters: a high surrogate followed by a low
      one forms one character, any other unit stands for itself, and a lone
      surrogate is malformed. Used to show that `Utf16` loses nothing. */
  function FromUtf16(u: seq<CodeUnit>): Option<string>
    decreases |u|
  {
    if |u| == 0 then Some([])
    else if 0xD800 <= u[0] < 0xDC00 then
      if |u| >= 2 && 0xDC00 <= u[1] < 0xE000 then
        var v := 0x10000 + (u[0] as int - 0xD800) * 0x400 + (u[1] as int - 0xDC00);
        match FromUtf16(u[2..])
        case Some(rest) => Some([v as char] + rest)
        case None => None
      else None
    else if 0xDC00 <= u[0] < 0xE000 then None
    else
      match FromUtf16(u[1..])
      case Some(rest) => Some([u[0] as char] + rest)
      case None => None
  }

  lemma CodeUnitsRoundTrip(ch: char, rest: seq<CodeUnit>)
    ensures FromUtf16(CodeUnits(ch) + rest) ==
            match FromUtf16(rest)
            case Some(r) => Some([ch] + r)
            case None => None
  {
    var v := ch as int;
    var u := CodeUnits(ch) + rest;
    if v < 0x10000 {
      assert u[1..] == rest;
    } else {
      var w := v - 0x10000;
      assert u[0] == 0xD800 + w / 0x400 && u[1] == 0xDC00 + w % 0x400;
      assert 0x10000 + (u[0] as int - 0xD800) * 0x400 + (u[1] as int - 0xDC00) == v;
      assert u[2..] == rest;
    }
  }

  /** The code units of a string determine it: `Utf16` is one-to-one. */
  lemma {:induction false} Utf16RoundTrip(s: string)
    ensures FromUtf16(Utf16(s)) == Some(s)
  {
    if |s| > 0 {
      Utf16RoundTrip(s[1..]);
      CodeUnitsRoundTrip(s[0], Utf16(s[1..]));
      assert [s[0]] + s[1..] == s;
    }
  }

  const FNV_OFFSET: bv32 := 2166136261
  const FNV_PRIME: bv32 := 16777619

  /** One FNV-1a step: xor in the unit, then multiply modulo 2^32 (`Math.imul`). */
  function FnvStep(h: bv32, unit: CodeUnit): bv32 {
    (h ^ (unit as bv32)) * FNV_PRIME
  }

  /** FNV-1a over a sequence of code units. */
  function Fnv1a(units: seq<CodeUnit>): bv32 {
    if |units| == 0 then FNV_OFFSET
    else FnvStep(Fnv1a(units[..|units| - 1]), units[|units| - 1])
  }

  /** `makeSeed`: hash the level id's code units, then xor the entropy word
      that the source takes from `crypto.getRandomValues` or `Math.random`. */
  method MakeSeed(levelId: string, extra: bv32) returns (seed: bv32)
    ensures seed == Fnv1a(Utf16(levelId)) ^ extra
  {
    var units := Utf16(levelId);
    var h := FNV_OFFSET;
    for i := 0 to |units|
      invariant h == Fnv1a(units[..i])
    {
      assert units[..i + 1][..i] == units[..i];
      h := FnvStep(h, units[i]);
    }
    assert units[..|units|] == units;
    seed := h ^ extra;
  }

  /** The entropy word is the only per-session part of the seed: xoring it out
      again recovers the level's hash, and different entropy words give
      different seeds for the same level. */
  lemma SeedEntropy(levelId: string, e1: bv32, e2: bv32)
    ensures (Fnv1a(Utf16(levelId)) ^ e1) ^ e1 == Fnv1a(Utf16(levelId))
    ensures (Fnv1a(Utf16(levelId)) ^ e1 == Fnv1a(Utf16(levelId)) ^ e2) <==> e1 == e2
  {
  }

  // ----------------------------------------------------------- mulberry32

  const GOLDEN: bv32 := 0x6d2b79f5

  /** The output mix of mulberry32 applied to the advanced state `t`. */
  function Mix(t0: bv32): bv32 {
    var t1 := (t0 ^ (t0 >> 15)) * (t0 | 1);
    var t2 := t1 ^ (t1 + (t1 ^ (t1 >> 7)) * (t1 | 61));
    t2 ^ (t2 >> 14)
  }

  /** An unsigned 32-bit word divided by 2^32. */
  function ToUnit(w: bv32): (r: real)
    ensures 0.0 <= r < 1.0
  {
    (w as int) as real / 4294967296.0
  }

  /** The generator state after `n` draws from state `a`. */
  function Advance(a: bv32, n: nat): bv32 {
    if n == 0 then a else Advance(a, n - 1) + GOLDEN
  }

  /** The first `n` values drawn from a generator whose state is `a`. */
  function Draws(a: bv32, n: nat): (d: seq<real>)
    ensures |d| == n
  {
    if n == 0 then [] else Draws(a, n - 1) + [ToUnit(Mix(Advance(a, n)))]
  }

  lemma {:induction false} DrawsInUnit(a: bv32, n: nat)
    ensures forall i :: 0 <= i < n ==> 0.0 <= Draws(a, n)[i] < 1.0
  {
    if n > 0 {
      DrawsInUnit(a, n - 1);
      assert forall i :: 0 <= i < n - 1 ==> Draws(a, n)[i] == Draws(a, n - 1)[i];
    }
  }

  /** `mulberry32(a)`: the closure's captured `a`, here a 32-bit field. The
      source keeps `a` as an exact integer below 2^53 and uses only its value
      modulo 2^32, so the wrap-around changes no result. */
  class Mulberry32 {
    var a: bv32

    constructor (seed: bv32)
      ensures a == seed
    {
      a := seed;
    }

    /** One call of the returned closure. */
    method Next() returns (r: real)
      modifies this
      ensures a == old(a) + GOLDEN
      ensures r == ToUnit(Mix(a))
      ensures 0.0 <= r < 1.0
    {
      a := a + GOLDEN;
      r := ToUnit(Mix(a));
    }
  }

  // ---------------------------------------------------------- noise field

  /** Column or row `v` clamped into `[0, n - 1]` as
      `Math.min(n - 1, Math.max(0, v))` does. */
  function Pin(v: int, n: int): (r: int)
    requires n >= 1
    ensures 0 <= r < n
  {
    MinInt(n - 1, MaxInt(0, v))
  }

  /** The `j`-th of the nine samples of the 3x3 box around (x, y), row by row:
      `dy = j / 3 - 1`, `dx = j % 3 - 1`. */
  function Sample(f: seq<real>, cols: int, rows: int, x: int, y: int, j: int): real
    requires cols >= 1 && rows >= 1 && |f| == cols * rows
  {
    var xx := Pin(x + (j % 3 - 1), cols);
    var yy := Pin(y + (j / 3 - 1), rows);
    IndexInGrid(xx, yy, cols, rows);
    f[yy * cols + xx]
  }

  /** The sum of the first `n` samples of the box around (x, y). */
  function BoxSum(f: seq<real>, cols: int, rows: int, x: int, y: int, n: nat): real
    requires cols >= 1 && rows >= 1 && |f| == cols * rows
  {
    if n == 0 then 0.0 else BoxSum(f, cols, rows, x, y, n - 1) + Sample(f, cols, rows, x, y, n - 1)
  }

  /** One 3x3 box-blur pass: each cell becomes the mean of its nine clamped
      samples. */
  function Blur(f: seq<real>, cols: int, rows: int): (b: seq<real>)
    requires cols >= 0 && rows >= 0 && |f| == cols * rows
    ensures |b| == |f|
  {
    seq(|f|, i requires 0 <= i < |f| =>
      BoxSum(f, cols, rows, i % cols, i / cols, 9) / 9.0)
  }

  /** `p` blur passes. */
  function Blurred(f: seq<real>, cols: int, rows: int, p: nat): (b: seq<real>)
    requires cols >= 0 && rows >= 0 && |f| == cols * rows
    ensures |b| == |f|
  {
    if p == 0 then f else Blur(Blurred(f, cols, rows, p - 1), cols, rows)
  }

  function SeqMin(f: seq<real>): real
    requires |f| > 0
  {
    if |f| == 1 then f[0] else Min(SeqMin(f[..|f| - 1]), f[|f| - 1])
  }

  function SeqMax(f: seq<real>): real
    requires |f| > 0
  {
    if |f| == 1 then f[0] else Max(SeqMax(f[..|f| - 1]), f[|f| - 1])
  }

  /** Min-max normalisation with the range floored at 1e-6. */
  function Normalize(f: seq<real>): (n: seq<real>)
    ensures |n| == |f|
  {
    if |f| == 0 then []
    else
      var lo := SeqMin(f);
      var range := Max(0.000001, SeqMax(f) - lo);
      seq(|f|, i requires 0 <= i < |f| => (f[i] - lo) / range)
  }

  /** How many of the blur loop's passes run: none when the count is not
      positive. */
  function Passes(blurPasses: int): nat {
    if blurPasses > 0 then blurPasses else 0
  }

  /** `makeNoiseField` on the white noise `white`. */
  function NoiseField(cols: int, rows: int, white: seq<real>, blurPasses: int): (n: seq<real>)
    requires cols >= 0 && rows >= 0 && |white| == cols * rows
    ensures |n| == cols * rows
  {
    Normalize(Blurred(white, cols, rows, Passes(blurPasses)))
  }

  predicate AllIn(f: seq<real>, lo: real, hi: real) {
    forall i :: 0 <= i < |f| ==> lo <= f[i] <= hi
  }

  lemma SampleBounds(f: seq<real>, cols: int, rows: int, x: int, y: int, j: int, lo: real, hi: real)
    requires cols >= 1 && rows >= 1 && |f| == cols * rows && AllIn(f, lo, hi)
    ensures lo <= Sample(f, cols, rows, x, y, j) <= hi
  {
    var xx := Pin(x + (j % 3 - 1), cols);
    var yy := Pin(y + (j / 3 - 1), rows);
    IndexInGrid(xx, yy, cols, rows);
  }

  /** `n` copies of `v` added up, which keeps the box-sum bounds linear. */
  function Scaled(n: nat, v: real): real {
    if n == 0 then 0.0 else Scaled(n - 1, v) + v
  }

  lemma {:induction false} ScaledIsProduct(n: nat, v: real)
    ensures Scaled(n, v) == n as real * v
  {
    if n > 0 {
      ScaledIsProduct(n - 1, v);
      assert n as real * v == (n - 1) as real * v + v;
    }
  }

  lemma {:induction false} BoxSumBounds(f: seq<real>, cols: int, rows: int, x: int, y: int, n: nat, lo: real, hi: real)
    requires cols >= 1 && rows >= 1 && |f| == cols * rows && AllIn(f, lo, hi)
    ensures Scaled(n, lo) <= BoxSum(f, cols, rows, x, y, n) <= Scaled(n, hi)
  {
    if n > 0 {
      BoxSumBounds(f, cols, rows, x, y, n - 1, lo, hi);
      SampleBounds(f, cols, rows, x, y, n - 1, lo, hi);
    }
  }

  /** Blurring never leaves the range of the field it blurs. */
  lemma BlurKeepsBounds(f: seq<real>, cols: int, rows: int, lo: real, hi: real)
    requires cols >= 0 && rows >= 0 && |f| == cols * rows && AllIn(f, lo, hi)
    ensures AllIn(Blur(f, cols, rows), lo, hi)
  {
    var b := Blur(f, cols, rows);
    forall i | 0 <= i < |b| ensures lo <= b[i] <= hi {
      assert cols >= 1 && rows >= 1;
      BoxSumBounds(f, cols, rows, i % cols, i / cols, 9, lo, hi);
      ScaledIsProduct(9, lo);
      ScaledIsProduct(9, hi);
    }
  }

  lemma {:induction false} BlurredKeepsBounds(f: seq<real>, cols: int, rows: int, p: nat, lo: real, hi: real)
    requires cols >= 0 && rows >= 0 && |f| == cols * rows && AllIn(f, lo, hi)
    ensures AllIn(Blurred(f, cols, rows, p), lo, hi)
  {
    if p > 0 {
      BlurredKeepsBounds(f, cols, rows, p - 1, lo, hi);
      BlurKeepsBounds(Blurred(f, cols, rows, p - 1), cols, rows, lo, hi);
    }
  }

  lemma {:induction false} SeqMinMaxBound(f: seq<real>)
    requires |f| > 0
    ensures AllIn(f, SeqMin(f), SeqMax(f))
    ensures exists i :: 0 <= i < |f| && f[i] == SeqMin(f)
    ensures exists i :: 0 <= i < |f| && f[i] == SeqMax(f)
  {
    if |f| > 1 {
      var p := f[..|f| - 1];
      SeqMinMaxBound(p);
      var k :| 0 <= k < |p| && p[k] == SeqMin(p);
      var m :| 0 <= m < |p| && p[m] == SeqMax(p);
      assert f[k] == p[k] && f[m] == p[m];
    }
  }

  lemma UnitQuotient(a: real, r: real)
    requires 0.0 <= a <= r && r > 0.0
    ensures 0.0 <= a / r <= 1.0
  {
    assert a / r * r == a;
  }

  /** Normalisation maps every value into [0,1], the smallest value to 0. */
  lemma NormalizeInUnit(f: seq<real>)
    ensures AllIn(Normalize(f), 0.0, 1.0)
    ensures |f| > 0 ==> exists i :: 0 <= i < |f| && Normalize(f)[i] == 0.0
  {
    if |f| > 0 {
      SeqMinMaxBound(f);
      var lo, hi := SeqMin(f), SeqMax(f);
      var range := Max(0.000001, hi - lo);
      var n := Normalize(f);
      forall i | 0 <= i < |f| ensures 0.0 <= n[i] <= 1.0 {
        assert 0.0 <= f[i] - lo <= hi - lo <= range;
        UnitQuotient(f[i] - lo, range);
      }
      var k :| 0 <= k < |f| && f[k] == lo;
      assert n[k] == 0.0;
    }
  }

  /** The noise field has one value in [0,1] per cell, and at least one cell
      at 0 when the grid has any. */
  lemma NoiseFieldInUnit(cols: int, rows: int, white: seq<real>, blurPasses: int)
    requires cols >= 0 && rows >= 0 && |white| == cols * rows
    ensures AllIn(NoiseField(cols, rows, white, blurPasses), 0.0, 1.0)
    ensures cols * rows > 0 ==> exists i :: 0 <= i < cols * rows && NoiseField(cols, rows, white, blurPasses)[i] == 0.0
  {
    NormalizeInUnit(Blurred(white, cols, rows, Passes(blurPasses)));
  }

  /** Sample `3 * (dy + 1) + (dx + 1)` is the one at offset (dx, dy). */
  lemma SampleAt(f: seq<real>, cols: int, rows: int, x: int, y: int, dx: int, dy: int)
    requires cols >= 1 && rows >= 1 && |f| == cols * rows
    requires -1 <= dx <= 1 && -1 <= dy <= 1
    ensures 0 <= Pin(y + dy, rows) * cols + Pin(x + dx, cols) < |f|
    ensures Sample(f, cols, rows, x, y, 3 * (dy + 1) + (dx + 1)) == f[Pin(y + dy, rows) * cols + Pin(x + dx, cols)]
  {
    IndexInGrid(Pin(x + dx, cols), Pin(y + dy, rows), cols, rows);
    IndexRoundTrip(dx + 1, dy + 1, 3);
  }

  /** Cell (x, y) of a blurred field is the mean of its box. */
  lemma BlurAt(f: seq<real>, cols: int, rows: int, x: int, y: int)
    requires cols >= 1 && rows >= 1 && |f| == cols * rows
    requires 0 <= x < cols && 0 <= y < rows
    ensures 0 <= y * cols + x < |f|
    ensures Blur(f, cols, rows)[y * cols + x] == BoxSum(f, cols, rows, x, y, 9) / 9.0
  {
    IndexInGrid(x, y, cols, rows);
    IndexRoundTrip(x, y, cols);
  }

  /** The inner `dx` loop of the box for row offset `dy`: adds its three
      samples to the running sum and count. */
  method BoxRow(field: array<real>, cols: int, rows: int, x: int, y: int, dy: int, sum0: real, count0: int)
    returns (sum: real, count: int)
    requires cols >= 1 && rows >= 1 && field.Length == cols * rows
    requires -1 <= dy <= 1 && count0 == 3 * (dy + 1)
    requires sum0 == BoxSum(field[..], cols, rows, x, y, count0)
    ensures count == count0 + 3
    ensures sum == BoxSum(field[..], cols, rows, x, y, count)
  {
    ghost var f := field[..];
    sum, count := sum0, count0;
    var dx := -1;
    while dx <= 1
      invariant -1 <= dx <= 2
      invariant count == count0 + (dx + 1)
      invariant sum == BoxSum(f, cols, rows, x, y, count)
    {
      var xx := Pin(x + dx, cols);
      var yy := Pin(y + dy, rows);
      SampleAt(f, cols, rows, x, y, dx, dy);
      sum := sum + field[yy * cols + xx];
      count := count + 1;
      dx := dx + 1;
    }
  }

  /** The nested `dy`/`dx` loop: sums the nine clamped samples and counts them. */
  method BoxAverage(field: array<real>, cols: int, rows: int, x: int, y: int) returns (mean: real, count: int)
    requires cols >= 1 && rows >= 1 && field.Length == cols * rows
    ensures count == 9
    ensures mean == BoxSum(field[..], cols, rows, x, y, 9) / 9.0
  {
    var sum := 0.0;
    count := 0;
    var dy := -1;
    while dy <= 1
      invariant -1 <= dy <= 2
      invariant count == 3 * (dy + 1)
      invariant sum == BoxSum(field[..], cols, rows, x, y, count)
    {
      sum, count := BoxRow(field, cols, rows, x, y, dy, sum, count);
      dy := dy + 1;
    }
    mean := sum / count as real;
  }

  /** Writes the blurred values of row `y` into `next`, reading `field`. */
  method BlurRow(field: array<real>, next: array<real>, cols: int, rows: int, y: int, ghost target: seq<real>)
    requires cols >= 1 && 0 <= y < rows && field.Length == cols * rows && next.Length == field.Length
    requires next != field && target == Blur(field[..], cols, rows)
    requires forall i :: 0 <= i < next.Length && i < y * cols ==> next[i] == target[i]
    modifies next
    ensures forall i :: 0 <= i < next.Length && i < (y + 1) * cols ==> next[i] == target[i]
  {
    var x := 0;
    var start := y * cols;
    while x < cols
      invariant 0 <= x <= cols
      invariant forall i :: 0 <= i < next.Length && i < start + x ==> next[i] == target[i]
    {
      BlurAt(field[..], cols, rows, x, y);
      var mean, count := BoxAverage(field, cols, rows, x, y);
      next[start + x] := mean;
      x := x + 1;
    }
    assert start + cols == (y + 1) * cols;
  }

  /** One pass of the blur loop: `next = field.slice()`, then every cell of
      `next` is written with the box mean read from `field`. */
  method BlurPass(field: array<real>, cols: int, rows: int) returns (next: array<real>)
    requires cols >= 0 && rows >= 0 && field.Length == cols * rows
    ensures fresh(next)
    ensures next[..] == Blur(field[..], cols, rows)
  {
    next := new real[field.Length](i requires 0 <= i < field.Length reads field => field[i]);
    ghost var target := Blur(field[..], cols, rows);
    if cols == 0 {
      return;
    }
    var y := 0;
    while y < rows
      invariant 0 <= y <= rows
      invariant forall i :: 0 <= i < next.Length && i < y * cols ==> next[i] == target[i]
    {
      BlurRow(field, next, cols, rows, y, target);
      y := y + 1;
    }
    assert rows * cols == next.Length;
  }

  /** The min/max scan of the normalisation step. The source starts from
      +/-Infinity; on a non-empty field the first element replaces both, which
      is where this loop starts. */
  method MinMax(field: array<real>) returns (lo: real, hi: real)
    requires field.Length > 0
    ensures lo == SeqMin(field[..]) && hi == SeqMax(field[..])
  {
    lo, hi := field[0], field[0];
    var i := 1;
    assert field[..1] == [field[0]];
    while i < field.Length
      invariant 1 <= i <= field.Length
      invariant lo == SeqMin(field[..i]) && hi == SeqMax(field[..i])
    {
      assert field[..i + 1][..i] == field[..i];
      var v := field[i];
      if v < lo { lo := v; }
      if v > hi { hi := v; }
      i := i + 1;
    }
    assert field[..i] == field[..];
  }

  /** One more draw extends the state and the drawn sequence by one step. */
  lemma DrawsStep(a0: bv32, i: nat, st: bv32, v: real)
    requires st == Advance(a0, i) + GOLDEN && v == ToUnit(Mix(st))
    ensures st == Advance(a0, i + 1) && Draws(a0, i + 1) == Draws(a0, i) + [v]
  {
  }

  /** The white-noise fill: cell `i` gets the generator's `i`-th draw. */
  method WhiteNoise(n: nat, rng: Mulberry32) returns (field: array<real>)
    modifies rng
    ensures fresh(field)
    ensures rng.a == Advance(old(rng.a), n)
    ensures field[..] == Draws(old(rng.a), n)
  {
    ghost var a0 := rng.a;
    field := new real[n];
    for i := 0 to n
      invariant rng.a == Advance(a0, i)
      invariant field[..i] == Draws(a0, i)
    {
      var v := rng.Next();
      DrawsStep(a0, i, rng.a, v);
      field[i] := v;
      assert field[..i + 1] == field[..i] + [v];
    }
    assert field[..n] == field[..];
  }

  /** `makeNoiseField`: white noise from `rng`, `blurPasses` box blurs, then
      min-max normalisation. */
  method MakeNoiseField(cols: int, rows: int, rng: Mulberry32, blurPasses: int) returns (noise: seq<real>)
    requires cols >= 0 && rows >= 0
    modifies rng
    ensures rng.a == Advance(old(rng.a), cols * rows)
    ensures noise == NoiseField(cols, rows, Draws(old(rng.a), cols * rows), blurPasses)
  {
    var n := cols * rows;
    var field := WhiteNoise(n, rng);
    field := BlurPasses(field, cols, rows, blurPasses);
    noise := Normalized(field);
  }

  /** The blur loop: `blurPasses` passes, none when it is not positive. */
  method BlurPasses(field0: array<real>, cols: int, rows: int, blurPasses: int) returns (field: array<real>)
    requires cols >= 0 && rows >= 0 && field0.Length == cols * rows
    ensures field.Length == field0.Length
    ensures field[..] == Blurred(field0[..], cols, rows, Passes(blurPasses))
  {
    field := field0;
    var p := 0;
    while p < blurPasses
      invariant 0 <= p <= Passes(blurPasses)
      invariant field.Length == field0.Length
      invariant field[..] == Blurred(field0[..], cols, rows, p)
    {
      field := BlurPass(field, cols, rows);
      p := p + 1;
    }
  }

  /** The normalisation step: scan for the extremes, then map every value. */
  method Normalized(field: array<real>) returns (noise: seq<real>)
    ensures noise == Normalize(field[..])
  {
    var n := field.Length;
    if n == 0 {
      noise := [];
    } else {
      var lo, hi := MinMax(field);
      var range := Max(0.000001, hi - lo);
      noise := seq(n, i requires 0 <= i < n reads field => (field[i] - lo) / range);
    }
  }

  // ------------------------------------------------------------ blending

  /** How many blur passes a level gets: larger clusters on later levels. */
  function BlurPassesFor(levelId: string): int {
    if levelId == "level-3" then 4 else if levelId == "level-2" then 3 else 2
  }

  /** One generated cell: `min(1, max(0, 0.35 * b + 0.8 * n^1.3))`. */
  function BlendCell(m: MathLib, b: real, n: real): (v: real)
    ensures 0.0 <= v <= 1.0
  {
    Min(1.0, Max(0.0, 0.35 * b + 0.8 * Pow(m, n, 1.3)))
  }

  /** `randomizeDirt`'s result for a base grid, a seed and a level id. */
  function RandomizedDirt(m: MathLib, base: TileGrid, seed: bv32, levelId: string): (out: TileGrid)
    requires base.cols >= 0 && base.rows >= 0 && |base.tile| == base.cols * base.rows
  {
    var n := base.cols * base.rows;
    var noise := NoiseField(base.cols, base.rows, Draws(seed, n), BlurPassesFor(levelId));
    TileGrid(base.cols, base.rows, seq(n, i requires 0 <= i < n => BlendCell(m, base.tile[i], noise[i])))
  }

  /** The generated grid keeps the base grid's shape and holds one value in
      [0,1] per cell. */
  lemma RandomizedDirtShape(m: MathLib, base: TileGrid, seed: bv32, levelId: string)
    requires base.cols >= 0 && base.rows >= 0 && |base.tile| == base.cols * base.rows
    ensures var out := RandomizedDirt(m, base, seed, levelId);
            out.cols == base.cols && out.rows == base.rows &&
            |out.tile| == base.cols * base.rows && AllUnit(out.tile)
  {
  }

  /** The blend loop: each cell of a fresh array gets its base value
      blended with its noise value. */
  method BlendCells(m: MathLib, base: seq<real>, noise: seq<real>) returns (out: seq<real>)
    requires |noise| == |base|
    ensures |out| == |base|
    ensures forall k :: 0 <= k < |base| ==> out[k] == BlendCell(m, base[k], noise[k])
  {
    var tile := new real[|base|];
    for i := 0 to |base|
      invariant forall k :: 0 <= k < i ==> tile[k] == BlendCell(m, base[k], noise[k])
    {
      var b := base[i];
      var v := noise[i];
      tile[i] := Min(1.0, Max(0.0, 0.35 * b + 0.8 * Pow(m, v, 1.3)));
    }
    out := tile[..];
  }

  /** `randomizeDirt`: seed the generator, build the noise, blend cell by cell
      into a fresh array. The base grid is a value and is left as it was. */
  method RandomizeDirt(m: MathLib, base: TileGrid, seed: bv32, levelId: string) returns (out: TileGrid)
    requires base.cols >= 0 && base.rows >= 0 && |base.tile| == base.cols * base.rows
    ensures out == RandomizedDirt(m, base, seed, levelId)
  {
    var rng := new Mulberry32(seed);
    var noise := MakeNoiseField(base.cols, base.rows, rng, BlurPassesFor(levelId));
    var tile := BlendCells(m, base.tile, noise);
    out := TileGrid(base.cols, base.rows, tile);
  }
}
