/** `progress.ts`: the set of completed level ids and the best time per
    level, kept under two storage keys. */
module Progress {
  import opened Num
  import opened Store

  const STORAGE_KEY: string := "zamboni.progress.v1"
  const BEST_KEY: string := "zamboni.bestTimes.v1"

  /** `safeParse`: the stored completed list, or the empty list when the
      key is absent or its value is not a progress record. */
  function SafeParse(raw: Option<Item>): seq<string> {
    if raw.Some? && raw.value.ProgressItem? then raw.value.completed else []
  }

  /** `getProgress().completed`. */
  function Completed(items: map<string, Item>): set<string> {
    set x | x in SafeParse(Lookup(items, STORAGE_KEY))
  }

  /** Absent or malformed progress data reads as nothing completed. */
  lemma AbsentOrMalformedIsEmpty(items: map<string, Item>)
    requires STORAGE_KEY !in items || !items[STORAGE_KEY].ProgressItem?
    ensures Completed(items) == {}
  {
  }

  /** `Array.from(new Set(s))`: the elements of `s` in order of first
      occurrence. */
  function Dedup(s: seq<string>): seq<string> {
    if |s| == 0 then []
    else
      var d := Dedup(s[..|s| - 1]);
      if s[|s| - 1] in d then d else d + [s[|s| - 1]]
  }

  predicate NoDup(s: seq<string>) {
    forall i, j :: 0 <= i < j < |s| ==> s[i] != s[j]
  }

  /** `Dedup` keeps exactly the elements of its argument, each once. */
  lemma {:induction false} DedupSpec(s: seq<string>)
    ensures forall x :: x in Dedup(s) <==> x in s
    ensures NoDup(Dedup(s))
  {
    if |s| > 0 {
      var p := s[..|s| - 1];
      DedupSpec(p);
      assert s == p + [s[|s| - 1]];
    }
  }

  /** A list without repetitions is its own `Dedup`. */
  lemma {:induction false} DedupNoDup(s: seq<string>)
    requires NoDup(s)
    ensures Dedup(s) == s
  {
    if |s| > 0 {
      var p := s[..|s| - 1];
      assert NoDup(p);
      DedupNoDup(p);
      assert s[|s| - 1] !in p by {
        forall i | 0 <= i < |p| ensures p[i] != s[|s| - 1] {
          assert s[i] != s[|s| - 1];
        }
      }
      assert s == p + [s[|s| - 1]];
    }
  }

  /** The storage after `markComplete(levelId)`: the stored list is the old
      one, repetitions removed, with `levelId` appended when it is new. */
  function Marked(items: map<string, Item>, levelId: string): map<string, Item> {
    items[STORAGE_KEY := ProgressItem(Dedup(SafeParse(Lookup(items, STORAGE_KEY)) + [levelId]))]
  }

  /** `markComplete` adds the id, keeps every id already completed and
      touches no other key. */
  lemma MarkedSpec(items: map<string, Item>, levelId: string)
    ensures Completed(Marked(items, levelId)) == Completed(items) + {levelId}
    ensures forall k :: k != STORAGE_KEY ==> Lookup(Marked(items, levelId), k) == Lookup(items, k)
  {
    DedupSpec(SafeParse(Lookup(items, STORAGE_KEY)) + [levelId]);
  }

  /** Calling `markComplete` twice leaves the same storage as calling it
      once. */
  lemma MarkIdempotent(items: map<string, Item>, levelId: string)
    ensures Marked(Marked(items, levelId), levelId) == Marked(items, levelId)
  {
    var d := Dedup(SafeParse(Lookup(items, STORAGE_KEY)) + [levelId]);
    DedupSpec(SafeParse(Lookup(items, STORAGE_KEY)) + [levelId]);
    assert SafeParse(Lookup(Marked(items, levelId), STORAGE_KEY)) == d;
    assert levelId in d;
    assert Dedup(d + [levelId]) == d by {
      assert (d + [levelId])[..|d|] == d;
      DedupNoDup(d);
    }
  }

  /** `isComplete`. */
  function IsComplete(items: map<string, Item>, levelId: string): bool {
    levelId in Completed(items)
  }

  /** After `markComplete(levelId)`, `isComplete(levelId)` holds. */
  lemma MarkedIsComplete(items: map<string, Item>, levelId: string)
    ensures IsComplete(Marked(items, levelId), levelId)
  {
    MarkedSpec(items, levelId);
  }

  /** `markComplete`: store the extended list and give back its set. */
  method MarkComplete(store: Storage, levelId: string) returns (completed: set<string>)
    modifies store
    ensures store.items == Marked(old(store.items), levelId)
    ensures completed == Completed(store.items)
  {
    var current := SafeParse(Lookup(store.items, STORAGE_KEY));
    var out := Dedup(current + [levelId]);
    store.items := store.items[STORAGE_KEY := ProgressItem(out)];
    completed := set x | x in out;
  }

  /** `parseBest`: the stored best-time record, or the empty record. */
  function ParseBest(raw: Option<Item>): map<string, Scalar> {
    if raw.Some? && raw.value.BestItem? then raw.value.times else map[]
  }

  /** `getBestTime`: the stored number for `levelId`, if there is one. */
  function GetBestTime(items: map<string, Item>, levelId: string): (r: Option<real>)
    ensures r.Some? <==> (BEST_KEY in items && items[BEST_KEY].BestItem? &&
                          levelId in items[BEST_KEY].times && items[BEST_KEY].times[levelId].Number?)
    ensures r.Some? ==> r.value == items[BEST_KEY].times[levelId].n
  {
    var best := ParseBest(Lookup(items, BEST_KEY));
    if levelId in best && best[levelId].Number? then Some(best[levelId].n) else None
  }

  /** The storage after `setBestTime(levelId, timeSec)`: written only when
      there is no numeric best yet or the new time is strictly smaller. */
  function BestAfter(items: map<string, Item>, levelId: string, timeSec: real): map<string, Item> {
    var prev := GetBestTime(items, levelId);
    if prev.None? || timeSec < prev.value then
      items[BEST_KEY := BestItem(ParseBest(Lookup(items, BEST_KEY))[levelId := Number(timeSec)])]
    else items
  }

  /** `setBestTime` keeps the smaller of the stored best and the new time,
      leaves every other level's entry and every other key as they were, and
      its result is that best. */
  lemma BestAfterSpec(items: map<string, Item>, levelId: string, timeSec: real)
    ensures var prev := GetBestTime(items, levelId);
      GetBestTime(BestAfter(items, levelId, timeSec), levelId) ==
        Some(if prev.None? then timeSec else Min(prev.value, timeSec))
    ensures forall other :: other != levelId ==>
      GetBestTime(BestAfter(items, levelId, timeSec), other) == GetBestTime(items, other)
    ensures forall k :: k != BEST_KEY ==> Lookup(BestAfter(items, levelId, timeSec), k) == Lookup(items, k)
  {
  }

  /** `setBestTime`: returns the best time after the call. */
  method SetBestTime(store: Storage, levelId: string, timeSec: real) returns (best: real)
    modifies store
    ensures store.items == BestAfter(old(store.items), levelId, timeSec)
    ensures Some(best) == GetBestTime(store.items, levelId)
  {
    var times := ParseBest(Lookup(store.items, BEST_KEY));
    if levelId !in times || !times[levelId].Number? || timeSec < times[levelId].n {
      times := times[levelId := Number(timeSec)];
      store.items := store.items[BEST_KEY := BestItem(times)];
      best := timeSec;
    } else {
      best := times[levelId].n;
    }
  }
}
