/** The sequencer arithmetic of src/components/Audio/ChiptuneBG.tsx: the
    NesLoop bass and drum tables and what a step schedules, the step clock
    shared by the two step loops, the MidiLoop voice and drum routing with
    its time sort, the snapshot the MIDI loader writes and the WarmUpsLoop
    reads back, and the wrap-around schedule window. Sound synthesis and
    audio timing are not part of this model: "scheduling" a step or a note
    records it. */
module Chiptune {
  import opened Num
  import opened Store

  const STEPS: int := 16

  // ------------------------------------------------------ NesLoop tables

  /** The four chord roots: I, bVII, bVI, bVII. */
  function Roots(keyRoot: int): seq<int> {
    [keyRoot, keyRoot - 2, keyRoot - 3, keyRoot - 2]
  }

  /** The bass note of step `i`: the chord root an octave down, a fifth
      above that on odd steps. */
  function BassNote(keyRoot: int, i: int): int
    requires 0 <= i < STEPS
  {
    var r := Roots(keyRoot)[i / 4];
    if i % 2 == 1 then r - 12 + 7 else r - 12
  }

  /** The bass line: 16 steps, four per chord. */
  function Bass(keyRoot: int): (b: seq<int>)
    ensures |b| == STEPS
  {
    seq(STEPS, i requires 0 <= i < STEPS => BassNote(keyRoot, i))
  }

  /** The default key (A, MIDI 57) gives the driving root-fifth line over
      A, G, F#, G, and in any key every odd step sits a fifth above the step
      before it, within the same chord. */
  lemma BassSpec(keyRoot: int)
    ensures Bass(57) == [45, 52, 45, 52, 43, 50, 43, 50, 42, 49, 42, 49, 43, 50, 43, 50]
    ensures forall i :: 0 <= i < STEPS && i % 2 == 1 ==> Bass(keyRoot)[i] == Bass(keyRoot)[i - 1] + 7
    ensures forall i :: 0 <= i < STEPS ==> keyRoot - 15 <= Bass(keyRoot)[i] <= keyRoot - 5
  {
    var b := Bass(57);
    assert b[0] == 45 && b[1] == 52 && b[2] == 45 && b[3] == 52;
    assert b[4] == 43 && b[5] == 50 && b[6] == 43 && b[7] == 50;
    assert b[8] == 42 && b[9] == 49 && b[10] == 42 && b[11] == 49;
    assert b[12] == 43 && b[13] == 50 && b[14] == 43 && b[15] == 50;
    forall i | 0 <= i < STEPS && i % 2 == 1
      ensures Bass(keyRoot)[i] == Bass(keyRoot)[i - 1] + 7
    {
      assert (i - 1) / 4 == i / 4;
    }
  }

  datatype DrumStep = DrumStep(kick: bool, snare: bool, hat: bool, hatOpen: bool)

  /** The rock backbeat of step `i`. */
  function DrumAt(i: int): DrumStep {
    DrumStep(i % 8 == 0 || i == 6, i % 8 == 4 || i == 15, i % 2 == 0, i == 7 || i == 15)
  }

  function Drums(): (d: seq<DrumStep>)
    ensures |d| == STEPS
  {
    seq(STEPS, i requires 0 <= i < STEPS => DrumAt(i))
  }

  /** Kicks on steps 0, 6 and 8; snares on 4, 12 and 15; closed hats on
      every even step; the open-hat flag on 7 and 15 only. */
  lemma DrumsSpec()
    ensures (set i | 0 <= i < STEPS && Drums()[i].kick) == {0, 6, 8}
    ensures (set i | 0 <= i < STEPS && Drums()[i].snare) == {4, 12, 15}
    ensures forall i :: 0 <= i < STEPS ==> (Drums()[i].hat <==> i % 2 == 0)
    ensures (set i | 0 <= i < STEPS && Drums()[i].hatOpen) == {7, 15}
  {
    var d := Drums();
    assert d[0].kick && d[6].kick && d[8].kick;
    assert d[4].snare && d[12].snare && d[15].snare;
    assert d[7].hatOpen && d[15].hatOpen;
  }

  datatype Sound = Kick | Snare | Hat | OpenHat

  /** The drum sounds `scheduleStep` plays for a step, in order: the open
      hat replaces the closed one, and only on a hat step. */
  function StepSounds(d: DrumStep): seq<Sound> {
    (if d.kick then [Kick] else []) +
    (if d.snare then [Snare] else []) +
    (if d.hat then (if d.hatOpen then [OpenHat] else [Hat]) else [])
  }

  /** An open hat is played exactly when a step has both flags, and since
      the open-hat steps are odd and the hat steps even, the NesLoop never
      plays one. */
  lemma OpenHatNeverPlayed(d: DrumStep)
    ensures OpenHat in StepSounds(d) <==> d.hat && d.hatOpen
    ensures Hat in StepSounds(d) <==> d.hat && !d.hatOpen
    ensures forall i :: 0 <= i < STEPS ==> OpenHat !in StepSounds(Drums()[i])
  {
    forall i | 0 <= i < STEPS
      ensures OpenHat !in StepSounds(Drums()[i])
    {
      assert !(Drums()[i].hat && Drums()[i].hatOpen);
    }
  }

  // ---------------------------------------------------------- step clock

  lemma ZeroProduct(d: real, s: real)
    requires s > 0.0
    ensures d * s == 0.0 ==> d == 0.0
  {
    if d > 0.0 {
      assert d * s > 0.0;
    } else if d < 0.0 {
      assert (-d) * s > 0.0;
    }
  }

  /** Moving the next step one step length later leaves one step fewer
      before the limit. */
  lemma StepsLeftDecrease(gap: real, sps: real)
    requires sps > 0.0 && gap > 0.0
    ensures 0 <= Floor(gap / sps)
    ensures Floor((gap - sps) / sps) == Floor(gap / sps) - 1
  {
    var q, q2 := gap / sps, (gap - sps) / sps;
    var d := q2 - q + 1.0;
    assert d * sps == 0.0;
    ZeroProduct(d, sps);
  }

  /** A step loop's clock: whether it runs, the next step to schedule, when
      it is due, and the steps scheduled so far with their times. */
  class StepClock {
    const secondsPerStep: real
    var running: bool
    var step: int
    var nextTime: real
    var scheduled: seq<(int, real)>

    predicate Valid()
      reads this
    {
      secondsPerStep > 0.0 && 0 <= step < STEPS
    }

    /** `secondsPerStep = 60 / tempo / stepsPerBeat`. */
    constructor (tempoBpm: real, stepsPerBeat: int)
      requires tempoBpm > 0.0 && stepsPerBeat > 0
      ensures Valid() && !running && scheduled == []
      ensures secondsPerStep == 60.0 / tempoBpm / stepsPerBeat as real
    {
      secondsPerStep := 60.0 / tempoBpm / stepsPerBeat as real;
      running := false;
      step := 0;
      nextTime := 0.0;
      scheduled := [];
    }

    /** `start`: nothing when already running; otherwise the first step is
        due 50 ms from now and the first tick runs. */
    method Start(now: real, scheduleAhead: real)
      requires Valid()
      modifies this
      ensures Valid()
      ensures old(running) ==> running && step == old(step) && nextTime == old(nextTime) && scheduled == old(scheduled)
      ensures !old(running) ==>
        running && nextTime >= now + scheduleAhead &&
        |scheduled| >= |old(scheduled)| && scheduled[..|old(scheduled)|] == old(scheduled) &&
        Chain(scheduled[|old(scheduled)|..], (0, now + 0.05), (step, nextTime), secondsPerStep, now + scheduleAhead)
    {
      if running {
        return;
      }
      running := true;
      step := 0;
      nextTime := now + 0.05;
      Tick(now, scheduleAhead);
    }

    /** `stop`. */
    method Stop()
      modifies this
      ensures !running && step == old(step) && nextTime == old(nextTime) && scheduled == old(scheduled)
    {
      running := false;
    }

    /** One timer tick: every step due before `now + scheduleAhead` is
        scheduled. The first is the pending step at its time; each next one
        is the following step (15 wrapping to 0) one step length later; the
        clock then points just past the last one. */
    method Tick(now: real, scheduleAhead: real)
      requires Valid()
      modifies this
      ensures Valid() && running == old(running)
      ensures !running ==> step == old(step) && nextTime == old(nextTime) && scheduled == old(scheduled)
      ensures running ==> nextTime >= now + scheduleAhead
      ensures |scheduled| >= |old(scheduled)| && scheduled[..|old(scheduled)|] == old(scheduled)
      ensures Chain(scheduled[|old(scheduled)|..], (old(step), old(nextTime)), (step, nextTime), secondsPerStep, now + scheduleAhead)
    {
      if !running {
        return;
      }
      ghost var n0 := |scheduled|;
      var limit := now + scheduleAhead;
      while nextTime < limit
        invariant Valid() && running
        invariant |scheduled| >= n0 && scheduled[..n0] == old(scheduled)
        invariant |scheduled| == n0 ==> step == old(step) && nextTime == old(nextTime)
        invariant |scheduled| > n0 ==> scheduled[n0] == (old(step), old(nextTime)) &&
                                       Follows(scheduled[|scheduled| - 1], (step, nextTime), secondsPerStep)
        invariant forall k :: n0 <= k < |scheduled| - 1 ==> Follows(scheduled[k], scheduled[k + 1], secondsPerStep)
        invariant forall k :: n0 <= k < |scheduled| ==> 0 <= scheduled[k].0 < STEPS && scheduled[k].1 < limit
        decreases Floor((limit - nextTime) / secondsPerStep)
      {
        StepsLeftDecrease(limit - nextTime, secondsPerStep);
        scheduled := scheduled + [(step, nextTime)];
        nextTime := nextTime + secondsPerStep;
        step := (step + 1) % STEPS;
      }
    }
  }

  /** Step entry `b` comes right after `a`: the next step, wrapping from 15
      to 0, one step length later. */
  predicate Follows(a: (int, real), b: (int, real), sps: real) {
    b.0 == (a.0 + 1) % STEPS && b.1 == a.1 + sps
  }

  /** `added` is the run of steps scheduled from the pending step `first`:
      when it is empty the clock still points at `first`; otherwise it starts
      with `first`, each entry follows the one before, every entry is a valid
      step due before `limit`, and the clock `last` follows the final entry. */
  predicate Chain(added: seq<(int, real)>, first: (int, real), last: (int, real), sps: real, limit: real) {
    (|added| == 0 ==> last == first) &&
    (|added| > 0 ==> added[0] == first && Follows(added[|added| - 1], last, sps)) &&
    (forall k :: 0 <= k < |added| - 1 ==> Follows(added[k], added[k + 1], sps)) &&
    (forall k :: 0 <= k < |added| ==> 0 <= added[k].0 < STEPS && added[k].1 < limit)
  }

  // -------------------------------------------------------- MIDI routing

  datatype MidiNote = MidiNote(time: real, duration: real, midi: int, velocity: real, channel: int)

  datatype Voice = Triangle | Pulse1 | Pulse2

  /** The voice of a pitched note: low notes on the triangle, the rest by
      the parity of the note number. */
  function VoiceOf(n: MidiNote): Voice {
    if n.midi < 50 then Triangle else if n.midi % 2 == 0 then Pulse1 else Pulse2
  }

  datatype DrumType = KickDrum | SnareDrum | HatOpenDrum | HatDrum
  datatype DrumHit = DrumHit(time: real, kind: DrumType)

  /** The General MIDI drum keys the loop plays; every other key is
      dropped. */
  function DrumOf(key: int): Option<DrumType> {
    if key == 35 || key == 36 then Some(KickDrum)
    else if key == 38 || key == 40 then Some(SnareDrum)
    else if key == 46 then Some(HatOpenDrum)
    else if key == 42 || key == 44 || key == 49 || key == 57 then Some(HatDrum)
    else None
  }

  /** Channel 10 (9 counted from zero) is the drum channel. */
  predicate IsDrum(n: MidiNote) { n.channel == 9 }

  /** The notes of one voice, in input order. */
  function VoiceNotes(notes: seq<MidiNote>, v: Voice): seq<MidiNote> {
    if |notes| == 0 then []
    else VoiceNotes(notes[..|notes| - 1], v) +
         (var n := notes[|notes| - 1]; if !IsDrum(n) && VoiceOf(n) == v then [n] else [])
  }

  /** The drum hits, in input order. */
  function DrumHits(notes: seq<MidiNote>): seq<DrumHit> {
    if |notes| == 0 then []
    else DrumHits(notes[..|notes| - 1]) +
         (var n := notes[|notes| - 1];
          if IsDrum(n) && DrumOf(n.midi).Some? then [DrumHit(n.time, DrumOf(n.midi).value)] else [])
  }

  /** The pitched notes, in input order. */
  function Pitched(notes: seq<MidiNote>): seq<MidiNote> {
    if |notes| == 0 then []
    else Pitched(notes[..|notes| - 1]) + (var n := notes[|notes| - 1]; if !IsDrum(n) then [n] else [])
  }

  /** Every pitched note lands in exactly one voice: the three voice lists
      together hold the pitched notes, each once. */
  lemma {:induction false} RoutingPartition(notes: seq<MidiNote>)
    ensures multiset(VoiceNotes(notes, Triangle)) + multiset(VoiceNotes(notes, Pulse1)) +
            multiset(VoiceNotes(notes, Pulse2)) == multiset(Pitched(notes))
  {
    if |notes| > 0 {
      var init := notes[..|notes| - 1];
      var n := notes[|notes| - 1];
      RoutingPartition(init);
      if IsDrum(n) {
        assert Pitched(notes) == Pitched(init);
        assert VoiceNotes(notes, Triangle) == VoiceNotes(init, Triangle);
        assert VoiceNotes(notes, Pulse1) == VoiceNotes(init, Pulse1);
        assert VoiceNotes(notes, Pulse2) == VoiceNotes(init, Pulse2);
      } else {
        assert Pitched(notes) == Pitched(init) + [n];
      }
    }
  }

  /** Each voice list holds only pitched notes of the input routed to it. */
  lemma {:induction false} VoiceNotesMembers(notes: seq<MidiNote>, v: Voice)
    ensures forall n :: n in VoiceNotes(notes, v) ==> n in notes && !IsDrum(n) && VoiceOf(n) == v
  {
    if |notes| > 0 {
      var init := notes[..|notes| - 1];
      VoiceNotesMembers(init, v);
      assert forall n :: n in init ==> n in notes;
    }
  }

  /** The drum list holds one hit per drum-channel note with a known key. */
  lemma {:induction false} DrumHitsCount(notes: seq<MidiNote>)
    ensures |DrumHits(notes)| == |set i | 0 <= i < |notes| && IsDrum(notes[i]) && DrumOf(notes[i].midi).Some?|
  {
    if |notes| > 0 {
      var init := notes[..|notes| - 1];
      var last := |notes| - 1;
      DrumHitsCount(init);
      var s0 := set i | 0 <= i < |init| && IsDrum(init[i]) && DrumOf(init[i].midi).Some?;
      var s1 := set i | 0 <= i < |notes| && IsDrum(notes[i]) && DrumOf(notes[i].midi).Some?;
      assert forall i :: 0 <= i < |init| ==> notes[i] == init[i];
      if IsDrum(notes[last]) && DrumOf(notes[last].midi).Some? {
        assert s1 == s0 + {last};
      } else {
        assert s1 == s0;
      }
    }
  }

  /** A hit is in the drum list exactly when a drum-channel note with a
      known key has its time and kind. */
  lemma {:induction false} DrumHitsSpec(notes: seq<MidiNote>)
    ensures forall h :: h in DrumHits(notes) <==>
      exists n :: n in notes && IsDrum(n) && DrumOf(n.midi) == Some(h.kind) && n.time == h.time
  {
    if |notes| > 0 {
      var init := notes[..|notes| - 1];
      DrumHitsSpec(init);
      assert forall n :: n in notes <==> n in init || n == notes[|notes| - 1];
    }
  }

  /** Ordered by time, earliest first. */
  predicate SortedBy<T>(s: seq<T>, time: T -> real) {
    forall i, j :: 0 <= i < j < |s| ==> time(s[i]) <= time(s[j])
  }

  /** `x` inserted after every element not later than it. */
  function InsertByTime<T>(x: T, s: seq<T>, time: T -> real): seq<T> {
    if |s| == 0 then [x]
    else if time(x) < time(s[0]) then [x] + s
    else [s[0]] + InsertByTime(x, s[1..], time)
  }

  /** `sort(byTime)`, stable: each element is inserted after the earlier
      ones with the same time. */
  function SortByTime<T>(s: seq<T>, time: T -> real): seq<T> {
    if |s| == 0 then [] else InsertByTime(s[|s| - 1], SortByTime(s[..|s| - 1], time), time)
  }

  /** Inserting an element no earlier than `lo` into a list no earlier
      than `lo` gives a list no earlier than `lo`. */
  lemma {:induction false} InsertLowerBound<T>(lo: real, x: T, s: seq<T>, time: T -> real)
    requires lo <= time(x) && forall k :: 0 <= k < |s| ==> lo <= time(s[k])
    ensures forall k :: 0 <= k < |InsertByTime(x, s, time)| ==> lo <= time(InsertByTime(x, s, time)[k])
  {
    if |s| > 0 && time(x) >= time(s[0]) {
      InsertLowerBound(lo, x, s[1..], time);
    }
  }

  lemma {:induction false} InsertByTimeSorted<T>(x: T, s: seq<T>, time: T -> real)
    requires SortedBy(s, time)
    ensures SortedBy(InsertByTime(x, s, time), time)
  {
    if |s| > 0 && time(x) >= time(s[0]) {
      InsertByTimeSorted(x, s[1..], time);
      InsertLowerBound(time(s[0]), x, s[1..], time);
    }
  }

  lemma {:induction false} InsertByTimePerm<T>(x: T, s: seq<T>, time: T -> real)
    ensures multiset(InsertByTime(x, s, time)) == multiset(s) + multiset{x}
  {
    if |s| > 0 && time(x) >= time(s[0]) {
      InsertByTimePerm(x, s[1..], time);
      assert s == [s[0]] + s[1..];
    }
  }

  /** The sorted list is ordered by time and holds the same notes. */
  lemma {:induction false} SortByTimeSpec<T>(s: seq<T>, time: T -> real)
    ensures SortedBy(SortByTime(s, time), time)
    ensures multiset(SortByTime(s, time)) == multiset(s)
  {
    if |s| > 0 {
      SortByTimeSpec(s[..|s| - 1], time);
      InsertByTimeSorted(s[|s| - 1], SortByTime(s[..|s| - 1], time), time);
      InsertByTimePerm(s[|s| - 1], SortByTime(s[..|s| - 1], time), time);
      assert s == s[..|s| - 1] + [s[|s| - 1]];
    }
  }

  /** The elements of `s` whose time is `t`, in their order in `s`. */
  function AtTime<T>(s: seq<T>, time: T -> real, t: real): seq<T> {
    if |s| == 0 then []
    else (if time(s[0]) == t then [s[0]] else []) + AtTime(s[1..], time, t)
  }

  lemma {:induction false} AtTimeAppend<T>(a: seq<T>, b: seq<T>, time: T -> real, t: real)
    ensures AtTime(a + b, time, t) == AtTime(a, time, t) + AtTime(b, time, t)
  {
    if |a| > 0 {
      AtTimeAppend(a[1..], b, time, t);
      assert (a + b)[1..] == a[1..] + b;
    } else {
      assert a + b == b;
    }
  }

  lemma {:induction false} AtTimeLater<T>(s: seq<T>, time: T -> real, t: real)
    requires forall k :: 0 <= k < |s| ==> t < time(s[k])
    ensures AtTime(s, time, t) == []
  {
    if |s| > 0 {
      AtTimeLater(s[1..], time, t);
    }
  }

  /** Inserting into a sorted list puts `x` after every element of its own
      time. */
  lemma {:induction false} InsertByTimeAtTime<T>(x: T, s: seq<T>, time: T -> real, t: real)
    requires SortedBy(s, time)
    ensures AtTime(InsertByTime(x, s, time), time, t) ==
            AtTime(s, time, t) + (if time(x) == t then [x] else [])
  {
    if |s| == 0 {
    } else if time(x) < time(s[0]) {
      if time(x) == t {
        AtTimeLater(s, time, t);
      }
      assert ([x] + s)[1..] == s;
    } else {
      InsertByTimeAtTime(x, s[1..], time, t);
      assert ([s[0]] + InsertByTime(x, s[1..], time))[1..] == InsertByTime(x, s[1..], time);
    }
  }

  /** The sort is stable: for every time, the elements of that time come
      out in the order they went in. */
  lemma {:induction false} SortByTimeStable<T>(s: seq<T>, time: T -> real, t: real)
    ensures AtTime(SortByTime(s, time), time, t) == AtTime(s, time, t)
  {
    if |s| > 0 {
      var init, last := s[..|s| - 1], s[|s| - 1];
      var sorted := SortByTime(init, time);
      var one: seq<T> := if time(last) == t then [last] else [];
      assert SortByTime(s, time) == InsertByTime(last, sorted, time);
      SortByTimeStable(init, time, t);
      SortByTimeSpec(init, time);
      InsertByTimeAtTime(last, sorted, time, t);
      assert AtTime([last], time, t) == one by {
        assert [last][1..] == [];
      }
      AtTimeAppend(init, [last], time, t);
      assert s == init + [last];
    }
  }

  function NoteTime(n: MidiNote): real { n.time }
  function HitTime(h: DrumHit): real { h.time }

  /** The four lists `load` keeps. */
  datatype Loaded = Loaded(tri: seq<MidiNote>, pulse1: seq<MidiNote>, pulse2: seq<MidiNote>, drums: seq<DrumHit>)

  /** `load`'s routing and sorting of the notes of all tracks. */
  function Load(notes: seq<MidiNote>): Loaded {
    Loaded(SortByTime(VoiceNotes(notes, Triangle), NoteTime),
           SortByTime(VoiceNotes(notes, Pulse1), NoteTime),
           SortByTime(VoiceNotes(notes, Pulse2), NoteTime),
           SortByTime(DrumHits(notes), HitTime))
  }

  /** After loading, all four lists are in time order, the voices together
      hold every pitched note once, each voice only its own notes, and the
      drum list the mapped drum hits. */
  lemma LoadSpec(notes: seq<MidiNote>)
    ensures var l := Load(notes);
      SortedBy(l.tri, NoteTime) && SortedBy(l.pulse1, NoteTime) &&
      SortedBy(l.pulse2, NoteTime) && SortedBy(l.drums, HitTime) &&
      multiset(l.tri) + multiset(l.pulse1) + multiset(l.pulse2) == multiset(Pitched(notes)) &&
      (forall n :: n in l.tri ==> n.midi < 50) &&
      (forall n :: n in l.pulse1 ==> n.midi >= 50 && n.midi % 2 == 0) &&
      (forall n :: n in l.pulse2 ==> n.midi >= 50 && n.midi % 2 == 1) &&
      multiset(l.drums) == multiset(DrumHits(notes))
  {
    SortedVoice(notes, Triangle);
    SortedVoice(notes, Pulse1);
    SortedVoice(notes, Pulse2);
    SortByTimeSpec(DrumHits(notes), HitTime);
    RoutingPartition(notes);
  }

  /** One voice list after sorting: in time order, the same notes, each
      routed to that voice. */
  lemma SortedVoice(notes: seq<MidiNote>, v: Voice)
    ensures var l := SortByTime(VoiceNotes(notes, v), NoteTime);
      SortedBy(l, NoteTime) && multiset(l) == multiset(VoiceNotes(notes, v)) &&
      forall n :: n in l ==> !IsDrum(n) && VoiceOf(n) == v
  {
    var l := SortByTime(VoiceNotes(notes, v), NoteTime);
    SortByTimeSpec(VoiceNotes(notes, v), NoteTime);
    VoiceNotesMembers(notes, v);
    forall n | n in l ensures !IsDrum(n) && VoiceOf(n) == v {
      assert n in multiset(l);
    }
  }

  /** The loop length: the file's duration, or when that is 0 the latest
      note end over the tracks (0 for an empty track), but at least 1. */
  function LoopDur(duration: real, trackEnds: seq<real>): (d: real)
    ensures duration != 0.0 ==> d == duration
    ensures duration == 0.0 ==> d >= 1.0 && forall k :: 0 <= k < |trackEnds| ==> d >= trackEnds[k]
    ensures duration == 0.0 ==> d == 1.0 || exists k :: 0 <= k < |trackEnds| && d == trackEnds[k]
  {
    if duration != 0.0 then duration
    else if |trackEnds| == 0 then 1.0
    else
      var rest := LoopDur(0.0, trackEnds[..|trackEnds| - 1]);
      var last := trackEnds[|trackEnds| - 1];
      assert forall k :: 0 <= k < |trackEnds| - 1 ==> trackEnds[k] == trackEnds[..|trackEnds| - 1][k];
      Max(rest, last)
  }

  // ------------------------------------------------------------ snapshot

  /** The melody and harmony of a snapshot step from the two pulse voices'
      pitches: the higher is the melody, the other the harmony. */
  function SplitPair(p1: real, p2: real): (real, real) {
    var hi := Max(p1, p2);
    (hi, if hi == p1 then p2 else p1)
  }

  /** The split keeps both pitches, higher first. */
  lemma SplitPairSpec(p1: real, p2: real)
    ensures SplitPair(p1, p2).0 >= SplitPair(p1, p2).1
    ensures multiset{SplitPair(p1, p2).0, SplitPair(p1, p2).1} == multiset{p1, p2}
  {
  }

  /** The snapshot tempo: eight beats over the loop, rounded and clamped
      to [40, 220], or 90 for a loop without length. */
  function SnapshotTempo(loopDur: real): (t: int)
    ensures 40 <= t <= 220
    ensures loopDur <= 0.0 ==> t == 90
    ensures loopDur > 0.0 && 40 <= Round(480.0 / loopDur) <= 220 ==> t == Round(480.0 / loopDur)
  {
    if loopDur > 0.0 then MaxInt(40, MinInt(220, Round(480.0 / loopDur))) else 90
  }

  /** A stored snapshot as read back. A field that is missing or is not an
      array is `None`. */
  datatype Snapshot = Snapshot(melodyHz: Option<seq<Scalar>>, harmonyHz: Option<seq<Scalar>>,
                               bassHz: Option<seq<Scalar>>, tempoBpm: Scalar)

  /** `valid16`: an array of exactly 16 numbers. */
  predicate Valid16(a: Option<seq<Scalar>>) {
    a.Some? && |a.value| == STEPS && forall k :: 0 <= k < |a.value| ==> a.value[k].Number?
  }

  function Numbers(a: seq<Scalar>): (r: seq<real>)
    requires forall k :: 0 <= k < |a| ==> a[k].Number?
    ensures |r| == |a| && forall k :: 0 <= k < |a| ==> r[k] == a[k].n
  {
    seq(|a|, k requires 0 <= k < |a| && a[k].Number? => a[k].n)
  }

  /** The WarmUpsLoop's tunes and step length. */
  datatype Tunes = Tunes(melodyHz: seq<real>, harmonyHz: seq<real>, bassHz: seq<real>, secondsPerStep: real)

  /** The tempo a snapshot may set: strictly between 40 and 220. */
  predicate TempoAccepted(t: Scalar) {
    t.Number? && t.n > 40.0 && t.n < 220.0
  }

  /** Reading the snapshot: the three arrays replace the defaults only when
      all three are valid, and then the tempo, when accepted, sets the step
      length (two steps per beat). A snapshot that could not be read
      (`None`) changes nothing. */
  function ApplySnapshot(defaults: Tunes, raw: Option<Snapshot>): Tunes {
    if raw.None? then defaults
    else
      var s := raw.value;
      if Valid16(s.melodyHz) && Valid16(s.harmonyHz) && Valid16(s.bassHz) then
        Tunes(Numbers(s.melodyHz.value), Numbers(s.harmonyHz.value), Numbers(s.bassHz.value),
              if TempoAccepted(s.tempoBpm) then 60.0 / s.tempoBpm.n / 2.0 else defaults.secondsPerStep)
      else defaults
  }

  /** The snapshot the MIDI loader writes: three 16-step arrays and the
      clamped tempo. */
  function Written(melody: seq<real>, harmony: seq<real>, bass: seq<real>, loopDur: real): Snapshot {
    Snapshot(Some(seq(|melody|, k requires 0 <= k < |melody| => Number(melody[k]))),
             Some(seq(|harmony|, k requires 0 <= k < |harmony| => Number(harmony[k]))),
             Some(seq(|bass|, k requires 0 <= k < |bass| => Number(bass[k]))),
             Number(SnapshotTempo(loopDur) as real))
  }

  /** What the loader writes, the WarmUpsLoop reads back whole: the three
      tunes always, and the tempo exactly when it lies strictly inside the
      clamp range, so a tempo clamped to 40 or 220 (a loop of 12 s or more,
      or of about 2.18 s or less) is ignored and the default step length
      kept. */
  lemma SnapshotRoundTrip(defaults: Tunes, melody: seq<real>, harmony: seq<real>, bass: seq<real>, loopDur: real)
    requires |melody| == STEPS && |harmony| == STEPS && |bass| == STEPS
    ensures var t := ApplySnapshot(defaults, Some(Written(melody, harmony, bass, loopDur)));
      t.melodyHz == melody && t.harmonyHz == harmony && t.bassHz == bass &&
      (40 < SnapshotTempo(loopDur) < 220 ==> t.secondsPerStep == 60.0 / SnapshotTempo(loopDur) as real / 2.0) &&
      (SnapshotTempo(loopDur) == 40 || SnapshotTempo(loopDur) == 220 ==> t.secondsPerStep == defaults.secondsPerStep)
    ensures loopDur >= 12.0 ==> SnapshotTempo(loopDur) == 40
    ensures 0.0 < loopDur && loopDur * 219.5 <= 480.0 ==> SnapshotTempo(loopDur) == 220
  {
    var w := Written(melody, harmony, bass, loopDur);
    assert Numbers(w.melodyHz.value) == melody;
    assert Numbers(w.harmonyHz.value) == harmony;
    assert Numbers(w.bassHz.value) == bass;
    if loopDur >= 12.0 {
      assert 480.0 / loopDur <= 40.0 by {
        assert 480.0 <= 40.0 * loopDur;
      }
    }
    if 0.0 < loopDur && loopDur * 219.5 <= 480.0 {
      assert 480.0 / loopDur >= 219.5 by {
        assert 480.0 >= 219.5 * loopDur;
      }
    }
  }

  /** A snapshot with a missing, short or non-numeric array is ignored
      altogether, tempo included. */
  lemma InvalidSnapshotIgnored(defaults: Tunes, s: Snapshot)
    requires !Valid16(s.melodyHz) || !Valid16(s.harmonyHz) || !Valid16(s.bassHz)
    ensures ApplySnapshot(defaults, Some(s)) == defaults
  {
  }

  // ------------------------------------------------------ schedule window

  /** `inWindow`: whether loop time `t` falls in the window that starts at
      `loopPos` and ends at `endPos`, wrapping past the loop end. */
  predicate InWindow(t: real, loopPos: real, endPos: real, dur: real) {
    if endPos <= dur then t >= loopPos && t < endPos else t >= loopPos || t < endPos - dur
  }

  /** How far after the window start an event at loop time `t` falls, as
      `scheduleNote` computes it. */
  function Offset(t: real, loopPos: real, dur: real): real {
    if t >= loopPos then t - loopPos else t + (dur - loopPos)
  }

  /** For a position inside the loop and a window no longer than the loop,
      an event in the loop is in the window exactly when its offset from the
      window start is less than the window length; so every scheduled event
      lands inside [absStart, absEnd). */
  lemma InWindowIffOffset(t: real, loopPos: real, ahead: real, dur: real)
    requires 0.0 <= loopPos < dur && 0.0 <= ahead <= dur && 0.0 <= t < dur
    ensures 0.0 <= Offset(t, loopPos, dur) < dur
    ensures InWindow(t, loopPos, loopPos + ahead, dur) <==> Offset(t, loopPos, dur) < ahead
  {
  }
}
