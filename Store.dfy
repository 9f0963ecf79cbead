/** The browser's `localStorage` as the game uses it: a map from key to the
    value its stored JSON text parses to. Text that does not parse, or parses
    to a value of another shape than the key's readers expect, is
    `Malformed`; an absent key is what `getItem` reports as null. */
module Store {
  import opened Num

  /** A stored best-time entry: `typeof v === "number"` or anything else. */
  datatype Scalar = Number(n: real) | NonNumber

  datatype Fastest = Fastest(time: real, levelId: string)

  datatype Fewest = Fewest(bumps: int, levelId: string, time: real)

  datatype Cleanest = Cleanest(clean: real, levelId: string, time: real, bumps: int)

  datatype Composite = Composite(score: int, levelId: string, time: real, bumps: int, clean: real)

  /** The best run on one level, and how many runs it has seen. */
  datatype LevelBest = LevelBest(time: real, bumps: int, clean: real, composite: int, runs: int)

  /** The career record `highScores.ts` keeps; every field may be absent. */
  datatype HighScores = HighScores(
    fastestTime: Option<Fastest>,
    fewestBumps: Option<Fewest>,
    highestClean: Option<Cleanest>,
    bestComposite: Option<Composite>,
    totalRuns: Option<int>,
    totalIceCleanedPct: Option<real>,
    perLevel: Option<map<string, LevelBest>>)

  datatype Item =
    | ProgressItem(completed: seq<string>)
    | BestItem(times: map<string, Scalar>)
    | ScoresItem(scores: HighScores)
    | Malformed

  /** `localStorage.getItem(key)`: the item, or none when the key is absent. */
  function Lookup(items: map<string, Item>, key: string): (r: Option<Item>)
    ensures r.Some? <==> key in items
    ensures r.Some? ==> r.value == items[key]
  {
    if key in items then Some(items[key]) else None
  }

  class Storage {
    var items: map<string, Item>

    constructor ()
      ensures items == map[]
    {
      items := map[];
    }
  }
}
