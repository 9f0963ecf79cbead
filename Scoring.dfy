/** The celebration helpers of src/components/Game/CanvasGame.tsx: the mean
    dirt of a grid, the par time, the bump penalty and the three-tier grade
    a finished level gets. */
module Scoring {
  import opened Num
  import opened Dirt

  /** `computeGridAvg`: the cell sum divided by `max(1, length)`. */
  function GridAvg(t: seq<real>): real {
    Sum(t) / (if |t| == 0 then 1 else |t|) as real
  }

  /** The summing loop of `computeGridAvg`. */
  method ComputeGridAvg(tile: array<real>) returns (avg: real)
    ensures avg == GridAvg(tile[..])
  {
    var sum := 0.0;
    var i := 0;
    while i < tile.Length
      invariant 0 <= i <= tile.Length
      invariant sum == Sum(tile[..i])
    {
      assert tile[..i + 1][..i] == tile[..i];
      sum := sum + tile[i];
      i := i + 1;
    }
    assert tile[..i] == tile[..];
    avg := sum / MaxInt(1, tile.Length) as real;
  }

  /** The mean is 0 on an empty grid and lies in [0,1] when the cells do; on
      a non-empty grid it is what the clean percentage is computed from, so
      `cleanedPercent = (1 - mean) * 100`. */
  lemma GridAvgSpec(t: seq<real>)
    ensures |t| == 0 ==> GridAvg(t) == 0.0
    ensures AllUnit(t) ==> 0.0 <= GridAvg(t) <= 1.0
    ensures |t| > 0 ==> CleanPercent(t) == Some((1.0 - GridAvg(t)) * 100.0)
  {
    if AllUnit(t) {
      SumBounds(t);
      if |t| > 0 {
        var n := |t| as real;
        assert Sum(t) / n <= n / n;
      }
    }
  }

  /** `computePar`: `max(10, 18 + w * h / 9000 + 22 * initAvg)`. */
  function ComputePar(w: real, h: real, initAvg: real): (par: real)
    ensures par >= 10.0 && par >= 18.0 + w * h / 9000.0 + 22.0 * initAvg
    ensures par == 10.0 || par == 18.0 + w * h / 9000.0 + 22.0 * initAvg
  {
    Max(10.0, 18.0 + w * h / 9000.0 + initAvg * 22.0)
  }

  /** A larger rink or a dirtier start never lowers the par. */
  lemma ParMonotone(w1: real, h1: real, a1: real, w2: real, h2: real, a2: real)
    requires w1 * h1 <= w2 * h2 && a1 <= a2
    ensures ComputePar(w1, h1, a1) <= ComputePar(w2, h2, a2)
  {
    assert w1 * h1 / 9000.0 <= w2 * h2 / 9000.0;
  }

  datatype Grade = CupWinner | PlayoffContender | TeamRebuild

  /** The label shown for a grade. */
  function Label(g: Grade): string {
    match g
    case CupWinner => "Cup winner"
    case PlayoffContender => "Playoff contender"
    case TeamRebuild => "Team rebuild"
  }

  /** How good a grade is: higher is better. */
  function Rank(g: Grade): int {
    match g
    case CupWinner => 2
    case PlayoffContender => 1
    case TeamRebuild => 0
  }

  /** `computeGrade`. */
  function ComputeGrade(timeSec: real, par: real): Grade {
    if timeSec <= par * 0.9 then CupWinner
    else if timeSec <= par * 1.15 then PlayoffContender
    else TeamRebuild
  }

  /** The tiers, both ways: top tier exactly up to 0.9 par, middle tier
      exactly in (0.9 par, 1.15 par], bottom tier beyond. With a
      non-negative par a larger time never earns a better grade. */
  lemma GradeTiers(t1: real, t2: real, par: real)
    ensures ComputeGrade(t1, par) == CupWinner <==> t1 <= 0.9 * par
    ensures ComputeGrade(t1, par) == PlayoffContender <==> 0.9 * par < t1 <= 1.15 * par
    ensures ComputeGrade(t1, par) == TeamRebuild <==> t1 > 1.15 * par && t1 > 0.9 * par
    ensures par >= 0.0 && t1 <= t2 ==> Rank(ComputeGrade(t1, par)) >= Rank(ComputeGrade(t2, par))
  {
  }

  /** The bump penalty tiers: none up to 1 bump, 5% for 2 or 3, 12% above. */
  function BumpPenalty(bumps: int): (p: real)
    ensures bumps <= 1 ==> p == 0.0
    ensures 2 <= bumps <= 3 ==> p == 0.05
    ensures bumps > 3 ==> p == 0.12
  {
    if bumps <= 1 then 0.0 else if bumps <= 3 then 0.05 else 0.12
  }

  /** The grade of a finished level: elapsed time scaled by the penalty,
      compared with par. */
  function FinalGrade(elapsed: real, bumps: int, par: real): Grade {
    ComputeGrade(elapsed * (1.0 + BumpPenalty(bumps)), par)
  }

  /** The penalty is a surcharge of at most 12% that only more than one bump
      incurs, and it never shrinks as bumps accumulate. */
  lemma BumpPenaltyMonotone(b1: int, b2: int)
    requires b1 <= b2
    ensures 0.0 <= BumpPenalty(b1) <= BumpPenalty(b2) <= 0.12
    ensures BumpPenalty(b1) == 0.0 <==> b1 <= 1
  {
  }

  /** More bumps or more time never earn a better grade. */
  lemma FinalGradeMonotone(e1: real, b1: int, e2: real, b2: int, par: real)
    requires 0.0 <= e1 <= e2 && b1 <= b2 && par >= 0.0
    ensures Rank(FinalGrade(e1, b1, par)) >= Rank(FinalGrade(e2, b2, par))
  {
    var p1, p2 := BumpPenalty(b1), BumpPenalty(b2);
    BumpPenaltyMonotone(b1, b2);
    assert e1 * (1.0 + p1) <= e2 * (1.0 + p1) <= e2 * (1.0 + p2);
    GradeTiers(e1 * (1.0 + p1), e2 * (1.0 + p2), par);
  }
}
