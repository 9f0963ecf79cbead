/** The per-frame reducer of src/components/Game/CanvasGame.tsx and the input
    handlers that feed it: held keys and the boost key folded into the
    input, drag start/move/release, one `integrate` per frame, and the
    one-time completion bookkeeping (progress, par, grade, best time, career
    records). */
module Frame {
  import opened Num
  import opened Session
  import opened Scoring
  import opened Store
  import Progress
  import Scores

  const BOOST_PER_TRIGGER: int := 15
  const FLICK_SPEED: real := 0.8

  // --------------------------------------------------------- keyboard

  predicate LeftHeld(keys: set<string>) { "ArrowLeft" in keys || "a" in keys || "A" in keys }
  predicate RightHeld(keys: set<string>) { "ArrowRight" in keys || "d" in keys || "D" in keys }
  predicate UpHeld(keys: set<string>) { "ArrowUp" in keys || "w" in keys || "W" in keys }
  predicate DownHeld(keys: set<string>) { "ArrowDown" in keys || "s" in keys || "S" in keys }

  /** The horizontal intent: right minus left. */
  function KeyDx(keys: set<string>): int {
    (if RightHeld(keys) then 1 else 0) - (if LeftHeld(keys) then 1 else 0)
  }

  /** The vertical intent: down minus up. */
  function KeyDy(keys: set<string>): int {
    (if DownHeld(keys) then 1 else 0) - (if UpHeld(keys) then 1 else 0)
  }

  /** The input after the keyboard part of a frame, and the new value of
      the remembered boost key state. */
  datatype KeyFold = KeyFold(input: Input, prevSpaceDown: bool)

  /** `len` is `Math.hypot(dx, dy)` of the intent. */
  predicate IsIntentLength(keys: set<string>, len: real) {
    len >= 0.0 && len * len == (KeyDx(keys) * KeyDx(keys) + KeyDy(keys) * KeyDy(keys)) as real
  }

  /** The keyboard part of the frame reducer. With keys held: a nonzero
      intent steers at full throttle, none zeroes the throttle of an
      inactive input, and the boost key adds boost ticks on its press edge.
      With no key held: the throttle of an inactive input is zeroed and the
      boost key is forgotten. */
  function FoldKeys(keys: set<string>, spaceDown: bool, prevSpaceDown: bool, input: Input, len: real): KeyFold
    requires IsIntentLength(keys, len)
  {
    if |keys| > 0 then
      var dx, dy := KeyDx(keys), KeyDy(keys);
      var steered :=
        if dx != 0 || dy != 0 then
          input.(active := true, dir := Vec2(dx as real / len, dy as real / len), strength := 1.0)
        else if !input.active then input.(strength := 0.0)
        else input;
      var boosted :=
        if spaceDown && !prevSpaceDown then steered.(boostTicks := steered.boostTicks + BOOST_PER_TRIGGER)
        else steered;
      KeyFold(boosted, spaceDown)
    else
      KeyFold(if !input.active then input.(strength := 0.0) else input, false)
  }

  /** The keys that hold the boost down. */
  predicate IsSpace(key: string) { key == " " || key == "Space" }

  /** The intent components lie in {-1, 0, 1}, and opposite keys cancel. */
  lemma IntentRange(keys: set<string>)
    ensures -1 <= KeyDx(keys) <= 1 && -1 <= KeyDy(keys) <= 1
    ensures LeftHeld(keys) && RightHeld(keys) ==> KeyDx(keys) == 0
    ensures UpHeld(keys) && DownHeld(keys) ==> KeyDy(keys) == 0
  {
  }

  /** With no key held there is no intent. */
  lemma NoKeysNoIntent(keys: set<string>)
    ensures |keys| == 0 ==> KeyDx(keys) == 0 && KeyDy(keys) == 0
  {
    if |keys| == 0 {
      assert keys == {};
    }
  }

  /** What a keyboard fold does. A nonzero intent makes the input active at
      full throttle along the unit vector of the intent. Without one, an
      inactive input gets no throttle and an active one keeps its throttle
      and direction. Boost ticks grow by 15 exactly on the frame the boost
      key goes down while keys are held, and are otherwise unchanged. */
  lemma FoldKeysSpec(keys: set<string>, spaceDown: bool, prevSpaceDown: bool, input: Input, len: real)
    requires IsIntentLength(keys, len)
    ensures var f := FoldKeys(keys, spaceDown, prevSpaceDown, input, len);
      var dx, dy := KeyDx(keys), KeyDy(keys);
      ((dx != 0 || dy != 0) ==>
         f.input.active && f.input.strength == 1.0 &&
         f.input.dir == Vec2(dx as real / len, dy as real / len) &&
         f.input.dir.x * f.input.dir.x + f.input.dir.y * f.input.dir.y == 1.0) &&
      (dx == 0 && dy == 0 && !input.active ==> f.input.strength == 0.0 && !f.input.active) &&
      (dx == 0 && dy == 0 && input.active ==> f.input.strength == input.strength && f.input.dir == input.dir) &&
      (f.input.boostTicks == if |keys| > 0 && spaceDown && !prevSpaceDown
                             then input.boostTicks + BOOST_PER_TRIGGER else input.boostTicks) &&
      f.prevSpaceDown == (|keys| > 0 && spaceDown)
  {
    var dx, dy := KeyDx(keys), KeyDy(keys);
    if dx != 0 || dy != 0 {
      NoKeysNoIntent(keys);
      assert len > 0.0;
      var ux, uy := dx as real / len, dy as real / len;
      assert ux * len == dx as real && uy * len == dy as real;
      assert (ux * ux + uy * uy) * (len * len) == len * len;
    }
  }

  // ------------------------------------------------------------ drag

  /** Touch or mouse down: the input becomes active. */
  function DragStart(input: Input): Input {
    input.(active := true)
  }

  /** A drag move of (dx, dy) from the start point, `l` being its length. */
  function DragMove(input: Input, dx: real, dy: real, l: real): Input {
    var out := FromInputDrag(dx, dy, l);
    input.(dir := out.dir, strength := out.strength)
  }

  /** `drag.current` while a drag is under way: where it started, where it
      was last seen and when. (The record's `active` flag is always true and
      never read, so it is not kept.) */
  datatype DragRecord = DragRecord(startX: real, startY: real, lastX: real, lastY: real, lastTime: real)

  /** The flick velocity on release: the last drag offset over the time
      since the last move, that time taken as at least 1 ms. */
  function FlickVelocity(r: DragRecord, now: real): (fv: Vec2)
    ensures r.lastX == r.startX && r.lastY == r.startY ==> fv == Vec2(0.0, 0.0)
  {
    var dt := Max(1.0, now - r.lastTime);
    Vec2((r.lastX - r.startX) / dt, (r.lastY - r.startY) / dt)
  }

  /** The flick test `Math.hypot(vx, vy) > 0.8`, stated on the squared
      speed so that no square root is needed. */
  predicate IsFlick(fv: Vec2) {
    fv.x * fv.x + fv.y * fv.y > FLICK_SPEED * FLICK_SPEED
  }

  /** For the non-negative length `v` of the velocity, the squared test is
      the source's `v > 0.8`. */
  lemma IsFlickIsHypotTest(fv: Vec2, v: real)
    requires v >= 0.0 && v * v == fv.x * fv.x + fv.y * fv.y
    ensures IsFlick(fv) <==> v > FLICK_SPEED
  {
    var sq := fv.x * fv.x + fv.y * fv.y;
    var lim := FLICK_SPEED * FLICK_SPEED;
    assert lim == 0.64;
    if v > FLICK_SPEED {
      assert v * v > FLICK_SPEED * v >= lim;
    } else {
      assert (FLICK_SPEED - v) * (FLICK_SPEED + v) >= 0.0;
      assert sq <= lim;
    }
  }

  /** Release: inactive, no throttle, and 15 more boost ticks on a flick. */
  function DragEnd(input: Input, fv: Vec2): Input {
    input.(active := false, strength := 0.0,
           boostTicks := if IsFlick(fv) then input.boostTicks + BOOST_PER_TRIGGER else input.boostTicks)
  }

  lemma DragEndSpec(input: Input, fv: Vec2)
    ensures !DragEnd(input, fv).active && DragEnd(input, fv).strength == 0.0
    ensures DragEnd(input, fv).dir == input.dir
    ensures DragEnd(input, fv).boostTicks == input.boostTicks + BOOST_PER_TRIGGER <==> IsFlick(fv)
    ensures !IsFlick(fv) ==> DragEnd(input, fv).boostTicks == input.boostTicks
  {
  }

  /** A release with no move since the press never boosts: the record
      still has its start point as its last point, so the flick velocity is
      0 however long the press lasted. */
  lemma ReleaseWithoutMoveNoBoost(input: Input, x: real, y: real, t: real, now: real)
    ensures DragEnd(input, FlickVelocity(DragRecord(x, y, x, y, t), now)) ==
            input.(active := false, strength := 0.0)
  {
  }

  /** A flick needs the last drag point more than 0.8 units from the start:
      the time divided by is at least 1 ms, so the speed is never more than
      the distance. */
  lemma FlickNeedsDistance(r: DragRecord, now: real)
    requires IsFlick(FlickVelocity(r, now))
    ensures (r.lastX - r.startX) * (r.lastX - r.startX) + (r.lastY - r.startY) * (r.lastY - r.startY) >
            FLICK_SPEED * FLICK_SPEED
  {
    var dt := Max(1.0, now - r.lastTime);
    var dx, dy := r.lastX - r.startX, r.lastY - r.startY;
    var fv := FlickVelocity(r, now);
    assert fv.x * dt == dx && fv.y * dt == dy;
    var q := fv.x * fv.x + fv.y * fv.y;
    assert dx * dx + dy * dy == q * (dt * dt);
    assert dt * dt >= 1.0 by {
      assert dt * dt >= dt * 1.0;
    }
    assert q * (dt * dt) >= q * 1.0;
  }

  /** The input invariant: a unit direction, a throttle in [0,1] and a
      non-negative boost count. */
  predicate InputOk(i: Input) {
    i.dir.x * i.dir.x + i.dir.y * i.dir.y == 1.0 && 0.0 <= i.strength <= 1.0 && i.boostTicks >= 0
  }

  /** The idle input of a new game satisfies the invariant, and every input
      handler keeps it: the keyboard fold, drag start, move and release, and
      the boost count-down of a tick. */
  lemma InputOkKept(input: Input, keys: set<string>, spaceDown: bool, prevSpaceDown: bool, len: real,
                    dx: real, dy: real, l: real, fv: Vec2)
    requires InputOk(input) && IsIntentLength(keys, len)
    requires l >= 0.0 && l * l == dx * dx + dy * dy
    ensures InputOk(Input(false, Vec2(1.0, 0.0), 0.0, 0))
    ensures InputOk(FoldKeys(keys, spaceDown, prevSpaceDown, input, len).input)
    ensures InputOk(DragStart(input)) && InputOk(DragMove(input, dx, dy, l)) && InputOk(DragEnd(input, fv))
    ensures InputOk(input.(boostTicks := MaxInt(0, input.boostTicks - 1)))
  {
    FoldKeysSpec(keys, spaceDown, prevSpaceDown, input, len);
    FromInputDragSpec(dx, dy, l);
  }

  // ------------------------------------------------------- completion

  /** The level's starting dirt mean as recorded when the level loads,
      falling back to the current grid's mean when that record is 0
      (`initialDirtAvgRef.current || computeGridAvg(...)`). */
  function InitAvg(recorded: real, tileNow: seq<real>): real {
    if recorded != 0.0 then recorded else GridAvg(tileNow)
  }

  /** The best time shown: the new time when there was none, otherwise the
      smaller of the old best and the new time. */
  function ShownBest(prevBest: Option<real>, elapsed: real): real {
    if prevBest.None? then elapsed else Min(prevBest.value, elapsed)
  }

  /** The storage after the completion frame: the level marked complete,
      its best time kept, and the run merged into the career records. */
  function StoreAfterCompletion(items: map<string, Item>, id: string, elapsed: real, bumps: int, clean: real): map<string, Item> {
    var marked := Progress.Marked(items, id);
    var timed := Progress.BestAfter(marked, id, elapsed);
    timed[Scores.KEY := ScoresItem(Scores.Updated(Scores.GetHighScores(timed), id, elapsed, bumps, clean))]
  }

  /** After completion the level counts as complete, the stored best time is
      the best shown, and the career record has counted the run. */
  lemma StoreAfterCompletionSpec(items: map<string, Item>, id: string, elapsed: real, bumps: int, clean: real)
    ensures var after := StoreAfterCompletion(items, id, elapsed, bumps, clean);
      Progress.IsComplete(after, id) &&
      Progress.GetBestTime(after, id) == Some(ShownBest(Progress.GetBestTime(items, id), elapsed)) &&
      Scores.GetHighScores(after).totalRuns == Some(Scores.OrZero(Scores.GetHighScores(items).totalRuns) + 1)
  {
    var marked := Progress.Marked(items, id);
    Progress.MarkedSpec(items, id);
    Progress.MarkedIsComplete(items, id);
    Progress.BestAfterSpec(marked, id, elapsed);
    var timed := Progress.BestAfter(marked, id, elapsed);
    assert Progress.GetBestTime(marked, id) == Progress.GetBestTime(items, id) by {
      assert Lookup(marked, Progress.BEST_KEY) == Lookup(items, Progress.BEST_KEY);
    }
    assert Scores.GetHighScores(timed) == Scores.GetHighScores(items) by {
      assert Lookup(timed, Scores.KEY) == Lookup(marked, Scores.KEY) == Lookup(items, Scores.KEY);
    }
    var after := StoreAfterCompletion(items, id, elapsed, bumps, clean);
    assert Lookup(after, Progress.STORAGE_KEY) == Lookup(timed, Progress.STORAGE_KEY);
    assert Lookup(after, Progress.BEST_KEY) == Lookup(timed, Progress.BEST_KEY);
  }

  /** The storage writes of the completion frame, in the source's order:
      mark the level complete, read the previous best and save the new one,
      then merge the run into the career records. Gives back the best time
      to show. */
  method PersistCompletion(store: Storage, id: string, elapsed: real, bumps: int, clean: real)
    returns (shown: real)
    modifies store
    ensures store.items == StoreAfterCompletion(old(store.items), id, elapsed, bumps, clean)
    ensures shown == ShownBest(Progress.GetBestTime(old(store.items), id), elapsed)
  {
    ghost var before := store.items;
    var _ := Progress.MarkComplete(store, id);
    var prevBest := Progress.GetBestTime(store.items, id);
    assert prevBest == Progress.GetBestTime(before, id) by {
      assert Lookup(store.items, Progress.BEST_KEY) == Lookup(before, Progress.BEST_KEY);
    }
    ghost var marked := store.items;
    var saved := Progress.SetBestTime(store, id, elapsed);
    Progress.BestAfterSpec(marked, id, elapsed);
    shown := if prevBest.None? then saved else Min(prevBest.value, elapsed);
    Scores.UpdateHighScores(store, id, elapsed, bumps, clean);
  }

  /** The component: the game it drives, the browser storage, the
      completion flag and the results shown after completion. */
  class Play {
    const game: GameState
    const store: Storage
    var completed: bool
    var keys: set<string>
    var spaceDown: bool
    var prevSpaceDown: bool
    var initialDirtAvg: real
    var parTime: Option<real>
    var grade: Option<Grade>
    var bestTime: Option<real>
    var drag: Option<DragRecord>

    /** The component's fields other than the drag record. */
    function Rest(): (bool, set<string>, bool, bool, real, Option<real>, Option<Grade>, Option<real>)
      reads this
    {
      (completed, keys, spaceDown, prevSpaceDown, initialDirtAvg, parTime, grade, bestTime)
    }

    /** Mount: nothing completed yet, and the starting dirt mean recorded. */
    constructor (game: GameState, store: Storage)
      ensures this.game == game && this.store == store
      ensures !completed && keys == {} && !spaceDown && !prevSpaceDown
      ensures initialDirtAvg == GridAvg(game.tile[..])
      ensures parTime.None? && grade.None? && bestTime.None? && drag.None?
    {
      this.game := game;
      this.store := store;
      completed := false;
      keys := {};
      spaceDown := false;
      prevSpaceDown := false;
      parTime := None;
      grade := None;
      bestTime := None;
      drag := None;
      new;
      initialDirtAvg := ComputeGridAvg(game.tile);
    }

    /** A key goes down: ignored once the level is completed; otherwise it is
        held from now on, and the space bar also marks the boost key down. */
    method KeyDown(key: string)
      modifies this
      ensures completed ==> keys == old(keys) && spaceDown == old(spaceDown)
      ensures !completed ==> keys == old(keys) + {key} &&
                             spaceDown == (old(spaceDown) || IsSpace(key))
      ensures completed == old(completed) && prevSpaceDown == old(prevSpaceDown)
      ensures initialDirtAvg == old(initialDirtAvg) && parTime == old(parTime) &&
              grade == old(grade) && bestTime == old(bestTime) && drag == old(drag)
    {
      if completed {
        return;
      }
      keys := keys + {key};
      if key == " " || key == "Space" {
        spaceDown := true;
      }
    }

    /** A key goes up: it is no longer held, and the space bar also marks
        the boost key up. */
    method KeyUp(key: string)
      modifies this
      ensures keys == old(keys) - {key}
      ensures spaceDown == (old(spaceDown) && !IsSpace(key))
      ensures completed == old(completed) && prevSpaceDown == old(prevSpaceDown)
      ensures initialDirtAvg == old(initialDirtAvg) && parTime == old(parTime) &&
              grade == old(grade) && bestTime == old(bestTime) && drag == old(drag)
    {
      keys := keys - {key};
      if key == " " || key == "Space" {
        spaceDown := false;
      }
    }

    /** The `start` handler (touch start or mouse down): a drag record is
        opened at the point and time of the press, and the input becomes
        active. */
    method PointerStart(x: real, y: real, now: real)
      modifies this, game
      ensures drag == Some(DragRecord(x, y, x, y, now))
      ensures game.Snap() == old(game.Snap()).(input := DragStart(old(game.input)))
      ensures Rest() == old(Rest())
    {
      drag := Some(DragRecord(x, y, x, y, now));
      game.input := DragStart(game.input);
    }

    /** The `move` handler: nothing without an open drag; otherwise the
        input steers along the offset from the start point (`l` is
        `Math.hypot` of that offset) and the record remembers this point and
        time. */
    method PointerMove(x: real, y: real, l: real, now: real)
      requires drag.Some? ==>
        (l >= 0.0 &&
         l * l == (x - drag.value.startX) * (x - drag.value.startX) + (y - drag.value.startY) * (y - drag.value.startY))
      modifies this, game
      ensures old(drag).None? ==> drag == old(drag) && game.Snap() == old(game.Snap())
      ensures old(drag).Some? ==>
        var r := old(drag).value;
        drag == Some(r.(lastX := x, lastY := y, lastTime := now)) &&
        game.Snap() == old(game.Snap()).(input := DragMove(old(game.input), x - r.startX, y - r.startY, l))
      ensures Rest() == old(Rest())
    {
      if drag.None? {
        return;
      }
      var r := drag.value;
      game.input := DragMove(game.input, x - r.startX, y - r.startY, l);
      drag := Some(r.(lastX := x, lastY := y, lastTime := now));
    }

    /** The `end` handler: nothing without an open drag; otherwise the input
        is released with the flick velocity of the record and the record is
        closed. */
    method PointerEnd(now: real)
      modifies this, game
      ensures drag.None?
      ensures old(drag).None? ==> game.Snap() == old(game.Snap())
      ensures old(drag).Some? ==>
        game.Snap() == old(game.Snap()).(input := DragEnd(old(game.input), FlickVelocity(old(drag).value, now)))
      ensures Rest() == old(Rest())
    {
      if drag.None? {
        return;
      }
      game.input := DragEnd(game.input, FlickVelocity(drag.value, now));
      drag := None;
    }

    /** The par time and the grade of the finished run; the starting dirt
        mean is taken from the grid now when none was recorded. */
    method GradeRun()
      modifies this
      ensures var par := ComputePar(game.rink.width, game.rink.height, InitAvg(old(initialDirtAvg), game.tile[..]));
        parTime == Some(par) && grade == Some(FinalGrade(game.elapsed, game.bumpCount, par))
      ensures completed == old(completed) && keys == old(keys) && spaceDown == old(spaceDown)
      ensures prevSpaceDown == old(prevSpaceDown) && initialDirtAvg == old(initialDirtAvg) && bestTime == old(bestTime)
      ensures drag == old(drag)
    {
      var elapsed, bumps := game.elapsed, game.bumpCount;
      var initAvg := initialDirtAvg;
      if initAvg == 0.0 {
        initAvg := ComputeGridAvg(game.tile);
      }
      var par := ComputePar(game.rink.width, game.rink.height, initAvg);
      parTime := Some(par);
      var bumpPenalty := if bumps <= 1 then 0.0 else if bumps <= 3 then 0.05 else 0.12;
      grade := Some(ComputeGrade(elapsed * (1.0 + bumpPenalty), par));
    }

    /** The completion bookkeeping, run on the frame where the game first
        reports completion. */
    method Complete()
      requires !completed
      modifies this, store
      ensures completed && keys == old(keys) && spaceDown == old(spaceDown)
      ensures prevSpaceDown == old(prevSpaceDown) && initialDirtAvg == old(initialDirtAvg) && drag == old(drag)
      ensures var par := ComputePar(game.rink.width, game.rink.height, InitAvg(initialDirtAvg, game.tile[..]));
        parTime == Some(par) && grade == Some(FinalGrade(game.elapsed, game.bumpCount, par))
      ensures bestTime == Some(ShownBest(Progress.GetBestTime(old(store.items), game.id), game.elapsed))
      ensures store.items == StoreAfterCompletion(old(store.items), game.id, game.elapsed, game.bumpCount, game.cleanedPercent)
    {
      completed := true;
      GradeRun();
      var shown := PersistCompletion(store, game.id, game.elapsed, game.bumpCount, game.cleanedPercent);
      bestTime := Some(shown);
    }

    /** The running part of a frame: the held keys are folded into the
        input and the game advances one tick; nothing else changes. */
    method FoldAndTick(m: MathLib, len: real)
      requires game.GridOk() && IsIntentLength(keys, len)
      modifies this, game, game.tile
      ensures var fold := FoldKeys(old(keys), old(spaceDown), old(prevSpaceDown), old(game.input), len);
        prevSpaceDown == fold.prevSpaceDown &&
        game.Snap() == Tick(m, game.Setting(), old(game.Snap()).(input := fold.input))
      ensures completed == old(completed) && keys == old(keys) && spaceDown == old(spaceDown)
      ensures initialDirtAvg == old(initialDirtAvg) && parTime == old(parTime) &&
              grade == old(grade) && bestTime == old(bestTime) && drag == old(drag)
    {
      var fold := FoldKeys(keys, spaceDown, prevSpaceDown, game.input, len);
      game.input := fold.input;
      prevSpaceDown := fold.prevSpaceDown;
      game.Integrate(m);
    }

    /** One animation frame. Once completed, nothing changes. Otherwise the
        held keys are folded into the input, the game advances one tick, and
        on the frame the game first reports completion the results are
        computed and stored once. */
    method Step(m: MathLib, len: real)
      requires game.GridOk() && IsIntentLength(keys, len)
      modifies this, game, game.tile, store
      ensures old(completed) ==>
        game.Snap() == old(game.Snap()) && store.items == old(store.items) &&
        completed && prevSpaceDown == old(prevSpaceDown) && parTime == old(parTime) &&
        grade == old(grade) && bestTime == old(bestTime)
      ensures !old(completed) ==>
        var fold := FoldKeys(old(keys), old(spaceDown), old(prevSpaceDown), old(game.input), len);
        prevSpaceDown == fold.prevSpaceDown &&
        game.Snap() == Tick(m, game.Setting(), old(game.Snap()).(input := fold.input)) &&
        completed == game.completed
      ensures !old(completed) && !game.completed ==>
        store.items == old(store.items) && parTime == old(parTime) && grade == old(grade) && bestTime == old(bestTime)
      ensures !old(completed) && game.completed ==>
        var par := ComputePar(game.rink.width, game.rink.height, InitAvg(initialDirtAvg, game.tile[..]));
        parTime == Some(par) && grade == Some(FinalGrade(game.elapsed, game.bumpCount, par)) &&
        bestTime == Some(ShownBest(Progress.GetBestTime(old(store.items), game.id), game.elapsed)) &&
        store.items == StoreAfterCompletion(old(store.items), game.id, game.elapsed, game.bumpCount, game.cleanedPercent)
      ensures keys == old(keys) && spaceDown == old(spaceDown) && initialDirtAvg == old(initialDirtAvg)
      ensures drag == old(drag)
    {
      if completed {
        return;
      }
      FoldAndTick(m, len);
      if game.completed {
        Complete();
      }
    }
  }
}
