/** Career records (src/utils/highScores.ts): the composite score of a run and
    the merge of one finished run into the stored record — run totals, the
    per-level best and the four all-time bests. `localStorage` is the
    in-memory `Storage` of module Store. */
module Scores {
  import opened Num
  import opened Store

  const KEY: string := "zamboni.highscores.v1"

  /** `computeComposite`: `Math.round(1.2 * clean - 3 * bumps - 0.55 * time)`,
      the integer nearest to that value, halves rounded up. */
  function ComputeComposite(time: real, bumps: int, clean: real): (r: int)
    ensures r as real - 0.5 <= 1.2 * clean - 3.0 * bumps as real - 0.55 * time < r as real + 0.5
  {
    Round(clean * 1.2 - bumps as real * 3.0 - time * 0.55)
  }

  /** A cleaner, less bumpy or quicker run never has a lower composite. */
  lemma CompositeMonotone(t1: real, b1: int, c1: real, t2: real, b2: int, c2: real)
    requires t1 <= t2 && b1 <= b2 && c1 >= c2
    ensures ComputeComposite(t1, b1, c1) >= ComputeComposite(t2, b2, c2)
  {
    var x1 := 1.2 * c1 - 3.0 * b1 as real - 0.55 * t1;
    var x2 := 1.2 * c2 - 3.0 * b2 as real - 0.55 * t2;
    assert x1 >= x2;
  }

  /** The record with no field set, what `safeParse` gives for a missing or
      unparsable item. */
  const NoScores: HighScores := HighScores(None, None, None, None, None, None, None)

  /** `getHighScores`: the stored record, or the empty one. */
  function GetHighScores(items: map<string, Item>): HighScores {
    var raw := Lookup(items, KEY);
    if raw.Some? && raw.value.ScoresItem? then raw.value.scores else NoScores
  }

  /** `x || 0` for an optional count or sum. */
  function OrZero(o: Option<int>): int { if o.Some? then o.value else 0 }

  function OrZeroReal(o: Option<real>): real { if o.Some? then o.value else 0.0 }

  /** The `improved` test: no entry yet, or better on any one field. */
  predicate Improved(prev: Option<LevelBest>, time: real, bumps: int, clean: real, comp: int) {
    prev.None? || time < prev.value.time || comp > prev.value.composite ||
    clean > prev.value.clean || bumps < prev.value.bumps
  }

  /** The per-level entry after the run, written as the two branches do: a
      rebuilt entry when improved, otherwise only `runs` counted up. */
  function LevelAfter(prev: Option<LevelBest>, time: real, bumps: int, clean: real, comp: int): LevelBest {
    if Improved(prev, time, bumps, clean, comp) then
      LevelBest(
        if prev.Some? then Min(prev.value.time, time) else time,
        if prev.Some? then MinInt(prev.value.bumps, bumps) else bumps,
        if prev.Some? then Max(prev.value.clean, clean) else clean,
        if prev.Some? then MaxInt(prev.value.composite, comp) else comp,
        (if prev.Some? then prev.value.runs else 0) + 1)
    else
      prev.value.(runs := prev.value.runs + 1)
  }

  /** The record after `updateHighScores(levelId, time, bumps, clean)`. */
  function Updated(hs: HighScores, levelId: string, time: real, bumps: int, clean: real): HighScores {
    var comp := ComputeComposite(time, bumps, clean);
    var per := if hs.perLevel.Some? then hs.perLevel.value else map[];
    var prev := if levelId in per then Some(per[levelId]) else None;
    HighScores(
      if hs.fastestTime.None? || time < hs.fastestTime.value.time
      then Some(Fastest(time, levelId)) else hs.fastestTime,
      if hs.fewestBumps.None? || bumps < hs.fewestBumps.value.bumps ||
         (bumps == hs.fewestBumps.value.bumps && time < hs.fewestBumps.value.time)
      then Some(Fewest(bumps, levelId, time)) else hs.fewestBumps,
      if hs.highestClean.None? || clean > hs.highestClean.value.clean ||
         (clean == hs.highestClean.value.clean && time < hs.highestClean.value.time)
      then Some(Cleanest(clean, levelId, time, bumps)) else hs.highestClean,
      if hs.bestComposite.None? || comp > hs.bestComposite.value.score
      then Some(Composite(comp, levelId, time, bumps, clean)) else hs.bestComposite,
      Some(OrZero(hs.totalRuns) + 1),
      Some(OrZeroReal(hs.totalIceCleanedPct) + clean),
      Some(per[levelId := LevelAfter(prev, time, bumps, clean, comp)]))
  }

  /** The entry stored for `levelId`, if any. */
  function Entry(hs: HighScores, levelId: string): Option<LevelBest> {
    if hs.perLevel.Some? && levelId in hs.perLevel.value then Some(hs.perLevel.value[levelId]) else None
  }

  /** Every update counts one more run and adds the run's clean percentage,
      an absent total read as 0. */
  lemma UpdatedTotals(hs: HighScores, levelId: string, time: real, bumps: int, clean: real)
    ensures Updated(hs, levelId, time, bumps, clean).totalRuns == Some(OrZero(hs.totalRuns) + 1)
    ensures Updated(hs, levelId, time, bumps, clean).totalIceCleanedPct ==
            Some(OrZeroReal(hs.totalIceCleanedPct) + clean)
  {
  }

  /** Whichever branch runs, the level's entry ends up as the field-wise best
      of the old entry and the run (least time and bumps, most clean and
      composite) with one more run; a first run starts the entry at 1 run.
      No other level's entry changes. */
  lemma UpdatedLevelBest(hs: HighScores, levelId: string, time: real, bumps: int, clean: real)
    ensures var comp := ComputeComposite(time, bumps, clean);
      var prev := Entry(hs, levelId);
      Entry(Updated(hs, levelId, time, bumps, clean), levelId) ==
        Some(if prev.None? then LevelBest(time, bumps, clean, comp, 1)
             else LevelBest(Min(prev.value.time, time), MinInt(prev.value.bumps, bumps),
                            Max(prev.value.clean, clean), MaxInt(prev.value.composite, comp),
                            prev.value.runs + 1))
    ensures forall other :: other != levelId ==>
      Entry(Updated(hs, levelId, time, bumps, clean), other) == Entry(hs, other)
  {
    var comp := ComputeComposite(time, bumps, clean);
    var prev := Entry(hs, levelId);
    if prev.Some? && !Improved(prev, time, bumps, clean, comp) {
      assert Min(prev.value.time, time) == prev.value.time;
      assert Max(prev.value.clean, clean) == prev.value.clean;
    }
  }

  /** Each all-time best is replaced exactly under its own rule, by a record
      of this run, and otherwise kept: fastest on a strictly smaller time;
      fewest bumps on fewer bumps, or as many in strictly less time; highest
      clean on more clean, or as much in strictly less time; best composite
      on a strictly greater composite. */
  lemma UpdatedBests(hs: HighScores, levelId: string, time: real, bumps: int, clean: real)
    ensures var u := Updated(hs, levelId, time, bumps, clean);
      var comp := ComputeComposite(time, bumps, clean);
      (u.fastestTime != hs.fastestTime <==>
         (hs.fastestTime.None? || time < hs.fastestTime.value.time)) &&
      (u.fastestTime != hs.fastestTime ==> u.fastestTime == Some(Fastest(time, levelId))) &&
      u.fastestTime.value.time == (if hs.fastestTime.None? then time else Min(hs.fastestTime.value.time, time)) &&
      (u.fewestBumps != hs.fewestBumps <==>
         (hs.fewestBumps.None? || bumps < hs.fewestBumps.value.bumps ||
          (bumps == hs.fewestBumps.value.bumps && time < hs.fewestBumps.value.time))) &&
      (u.fewestBumps != hs.fewestBumps ==> u.fewestBumps == Some(Fewest(bumps, levelId, time))) &&
      (u.highestClean != hs.highestClean <==>
         (hs.highestClean.None? || clean > hs.highestClean.value.clean ||
          (clean == hs.highestClean.value.clean && time < hs.highestClean.value.time))) &&
      (u.highestClean != hs.highestClean ==> u.highestClean == Some(Cleanest(clean, levelId, time, bumps))) &&
      (u.bestComposite != hs.bestComposite <==>
         (hs.bestComposite.None? || comp > hs.bestComposite.value.score)) &&
      (u.bestComposite != hs.bestComposite ==> u.bestComposite == Some(Composite(comp, levelId, time, bumps, clean)))
  {
  }

  /** One finished run. */
  datatype Run = Run(levelId: string, time: real, bumps: int, clean: real)

  /** The record after a sequence of runs, oldest first. */
  function AfterRuns(hs: HighScores, runs: seq<Run>): HighScores {
    if |runs| == 0 then hs
    else
      var r := runs[|runs| - 1];
      Updated(AfterRuns(hs, runs[..|runs| - 1]), r.levelId, r.time, r.bumps, r.clean)
  }

  /** Over any run history that starts from an empty record, `totalRuns`
      counts the runs, and the fastest record is the time of one of the runs
      and no slower than any of them. */
  lemma {:induction false} AfterRunsFastest(runs: seq<Run>)
    requires |runs| > 0
    ensures AfterRuns(NoScores, runs).totalRuns == Some(|runs|)
    ensures AfterRuns(NoScores, runs).fastestTime.Some?
    ensures forall i :: 0 <= i < |runs| ==> AfterRuns(NoScores, runs).fastestTime.value.time <= runs[i].time
    ensures exists i :: 0 <= i < |runs| && AfterRuns(NoScores, runs).fastestTime.value == Fastest(runs[i].time, runs[i].levelId)
  {
    var p := runs[..|runs| - 1];
    var r := runs[|runs| - 1];
    if |p| > 0 {
      AfterRunsFastest(p);
      var prev := AfterRuns(NoScores, p).fastestTime.value;
      var k :| 0 <= k < |p| && prev == Fastest(p[k].time, p[k].levelId);
      assert runs[k] == p[k];
      assert forall i :: 0 <= i < |p| ==> runs[i] == p[i];
      if r.time < prev.time {
        assert AfterRuns(NoScores, runs).fastestTime.value == Fastest(runs[|runs| - 1].time, runs[|runs| - 1].levelId);
      } else {
        assert AfterRuns(NoScores, runs).fastestTime.value == Fastest(runs[k].time, runs[k].levelId);
      }
    } else {
      assert AfterRuns(NoScores, runs).fastestTime.value == Fastest(runs[0].time, runs[0].levelId);
    }
  }

  /** The `perLevel` branch of `updateHighScores`: a rebuilt entry when the
      run improved on the old one, otherwise only its run count raised.
      This is the step-by-step form of `LevelAfter`, which specifies it. */
  method MergeLevel(per: map<string, LevelBest>, levelId: string, time: real, bumps: int, clean: real, compVal: int)
    returns (out: map<string, LevelBest>)
    ensures out == per[levelId := LevelAfter(if levelId in per then Some(per[levelId]) else None, time, bumps, clean, compVal)]
  {
    out := per;
    var prev := if levelId in per then Some(per[levelId]) else None;
    var improved := prev.None? || time < prev.value.time || compVal > prev.value.composite ||
                    clean > prev.value.clean || bumps < prev.value.bumps;
    if improved {
      out := out[levelId := LevelBest(
        if prev.Some? then Min(prev.value.time, time) else time,
        if prev.Some? then MinInt(prev.value.bumps, bumps) else bumps,
        if prev.Some? then Max(prev.value.clean, clean) else clean,
        if prev.Some? then MaxInt(prev.value.composite, compVal) else compVal,
        (if prev.Some? then prev.value.runs else 0) + 1)];
    } else {
      out := out[levelId := out[levelId].(runs := prev.value.runs + 1)];
    }
  }

  /** The four all-time best checks of `updateHighScores`, in source order.
      This is the step-by-step form of the four record fields of `Updated`,
      with the composite score passed in; its ensures are those fields. */
  method MergeBests(hs: HighScores, levelId: string, time: real, bumps: int, clean: real, compVal: int)
    returns (out: HighScores)
    ensures out.totalRuns == hs.totalRuns && out.totalIceCleanedPct == hs.totalIceCleanedPct
    ensures out.perLevel == hs.perLevel
    ensures out.fastestTime == if hs.fastestTime.None? || time < hs.fastestTime.value.time
                               then Some(Fastest(time, levelId)) else hs.fastestTime
    ensures out.fewestBumps == if hs.fewestBumps.None? || bumps < hs.fewestBumps.value.bumps ||
                                  (bumps == hs.fewestBumps.value.bumps && time < hs.fewestBumps.value.time)
                               then Some(Fewest(bumps, levelId, time)) else hs.fewestBumps
    ensures out.highestClean == if hs.highestClean.None? || clean > hs.highestClean.value.clean ||
                                   (clean == hs.highestClean.value.clean && time < hs.highestClean.value.time)
                                then Some(Cleanest(clean, levelId, time, bumps)) else hs.highestClean
    ensures out.bestComposite == if hs.bestComposite.None? || compVal > hs.bestComposite.value.score
                                 then Some(Composite(compVal, levelId, time, bumps, clean)) else hs.bestComposite
  {
    out := hs;
    if out.fastestTime.None? || time < out.fastestTime.value.time {
      out := out.(fastestTime := Some(Fastest(time, levelId)));
    }
    if out.fewestBumps.None? || bumps < out.fewestBumps.value.bumps ||
       (bumps == out.fewestBumps.value.bumps && time < out.fewestBumps.value.time) {
      out := out.(fewestBumps := Some(Fewest(bumps, levelId, time)));
    }
    if out.highestClean.None? || clean > out.highestClean.value.clean ||
       (clean == out.highestClean.value.clean && time < out.highestClean.value.time) {
      out := out.(highestClean := Some(Cleanest(clean, levelId, time, bumps)));
    }
    if out.bestComposite.None? || compVal > out.bestComposite.value.score {
      out := out.(bestComposite := Some(Composite(compVal, levelId, time, bumps, clean)));
    }
  }

  /** `updateHighScores`: read the record, update it as the source does, and
      save it under its key; no other key changes. */
  method UpdateHighScores(store: Storage, levelId: string, time: real, bumps: int, clean: real)
    modifies store
    ensures store.items == old(store.items)[KEY := ScoresItem(Updated(GetHighScores(old(store.items)), levelId, time, bumps, clean))]
  {
    var hs := GetHighScores(store.items);
    ghost var hs0 := hs;
    hs := hs.(totalRuns := Some(OrZero(hs.totalRuns) + 1));
    hs := hs.(totalIceCleanedPct := Some(OrZeroReal(hs.totalIceCleanedPct) + clean));
    if hs.perLevel.None? {
      hs := hs.(perLevel := Some(map[]));
    }
    var compVal := ComputeComposite(time, bumps, clean);
    var per := MergeLevel(hs.perLevel.value, levelId, time, bumps, clean, compVal);
    hs := hs.(perLevel := Some(per));
    hs := MergeBests(hs, levelId, time, bumps, clean, compVal);
    store.items := store.items[KEY := ScoresItem(hs)];
  }
}
