// Fitting the game-to-map affine transform from calibration points
// (modules/local_map/coordinate_transform.py, and the calculate_from_points
// guard of CoordinateTransform in modules/local_map/models.py).
//
// numpy's least-squares and weighted normal-equation solvers are not
// modelled: they are passed in as the two functions of a Solvers value, and
// every result below is stated in terms of what those functions return.
module CoordinateTransformSolver {
  import opened Wrappers
  import opened LocalMapModels

  /**
   * The numeric kernels. basic is _calculate_basic_transform (np.linalg.lstsq,
   * which returns a fit for every finite input); weighted is
   * _calculate_weighted_transform, None when np.linalg.solve raises on a
   * singular system.
   */
  datatype Solvers = Solvers(
    basic: seq<CalibrationPoint> -> Transform,
    weighted: seq<CalibrationPoint> -> Option<Transform>)

  /** ValueError for too few points, numpy's LinAlgError from a singular weighted system. */
  datatype TransformError = TooFewPoints | SingularSystem

  /** The weighted fit as the caller sees it: its LinAlgError propagates. */
  function Weighted(s: Solvers, pts: seq<CalibrationPoint>): (r: Result<Transform, TransformError>)
    ensures r.Ok? <==> s.weighted(pts).Some?
    ensures r.Ok? ==> r.value == s.weighted(pts).value
  {
    match s.weighted(pts)
    case Some(t) => Ok(t)
    case None => Err(SingularSystem)
  }

  /** The calibration points at the given indices, in that order. */
  function Pick(points: seq<CalibrationPoint>, idx: seq<nat>): (r: seq<CalibrationPoint>)
    requires forall m :: 0 <= m < |idx| ==> idx[m] < |points|
    ensures |r| == |idx| && forall m :: 0 <= m < |idx| ==> r[m] == points[idx[m]]
  {
    if |idx| == 0 then [] else [points[idx[0]]] + Pick(points, idx[1..])
  }

  // ---------------------------------------------------------------- local interpolation

  /**
   * Squared horizontal distance (x and z; the height y is ignored). The source
   * takes its square root; the square root is increasing, so every ordering
   * and every tie is the same on the squares.
   */
  function Dist2(p: Position3D, q: Position3D): real
  {
    (p.x - q.x) * (p.x - q.x) + (p.z - q.z) * (p.z - q.z)
  }

  /** Point i goes before point j in the list sorted stably by distance to pos. */
  predicate Before(points: seq<CalibrationPoint>, pos: Position3D, i: nat, j: nat)
    requires i < |points| && j < |points|
  {
    var di := Dist2(pos, points[i].gamePos);
    var dj := Dist2(pos, points[j].gamePos);
    di < dj || (di == dj && i < j)
  }

  /**
   * sel lists the min(4, n) points nearest to pos, in the order of the
   * stable sort by distance: strictly ordered, and every point left out comes
   * after every point taken.
   */
  predicate IsNearestSelection(points: seq<CalibrationPoint>, pos: Position3D, sel: seq<nat>)
  {
    && |sel| == (if |points| < 4 then |points| else 4)
    && (forall m :: 0 <= m < |sel| ==> sel[m] < |points|)
    && (forall m, m' :: 0 <= m < m' < |sel| ==> Before(points, pos, sel[m], sel[m']))
    && (forall j, m :: 0 <= j < |points| && j !in sel && 0 <= m < |sel| ==> Before(points, pos, sel[m], j))
  }

  /** A (distance, index) entry of the distances list. */
  datatype Ranked = Ranked(dist2: real, index: nat)

  predicate RankedBefore(a: Ranked, b: Ranked)
  {
    a.dist2 < b.dist2 || (a.dist2 == b.dist2 && a.index < b.index)
  }

  predicate StrictlyRanked(s: seq<Ranked>)
  {
    forall m, m' :: 0 <= m < m' < |s| ==> RankedBefore(s[m], s[m'])
  }

  /** Every entry's index is larger than bound. */
  predicate IndicesAbove(s: seq<Ranked>, bound: int)
  {
    forall m :: 0 <= m < |s| ==> s[m].index > bound
  }

  /**
   * Insertion of an entry that came first in the input: it goes before the
   * first entry that is not strictly nearer, which is what keeps the sort stable.
   */
  function InsertRanked(x: Ranked, s: seq<Ranked>): (r: seq<Ranked>)
    requires StrictlyRanked(s) && IndicesAbove(s, x.index)
    ensures StrictlyRanked(r) && multiset(r) == multiset(s) + multiset{x}
  {
    if |s| == 0 || x.dist2 <= s[0].dist2 then
      assert multiset([x] + s) == multiset{x} + multiset(s);
      [x] + s
    else
      var rest := InsertRanked(x, s[1..]);
      HeadBeforeInserted(x, s, rest);
      [s[0]] + rest
  }

  /**
   * The head of a strictly ranked list stays ahead of everything after an
   * entry ranked behind it is inserted into the tail.
   */
  lemma HeadBeforeInserted(x: Ranked, s: seq<Ranked>, rest: seq<Ranked>)
    requires |s| > 0 && StrictlyRanked(s) && x.dist2 > s[0].dist2
    requires StrictlyRanked(rest) && multiset(rest) == multiset(s[1..]) + multiset{x}
    ensures StrictlyRanked([s[0]] + rest)
    ensures multiset([s[0]] + rest) == multiset(s) + multiset{x}
  {
    assert multiset(s) == multiset{s[0]} + multiset(s[1..]) by { assert s == [s[0]] + s[1..]; }
    forall m | 0 <= m < |rest| ensures RankedBefore(s[0], rest[m]) {
      assert rest[m] in multiset(rest);
      if rest[m] != x {
        assert rest[m] in multiset(s[1..]);
        var m' :| 0 <= m' < |s[1..]| && s[1..][m'] == rest[m];
        assert s[1..][m'] == s[m' + 1];
      }
    }
    assert multiset([s[0]] + rest) == multiset{s[0]} + multiset(rest);
  }

  /** distances.sort(key=distance) on entries listed by increasing index. */
  function SortRanked(s: seq<Ranked>): (r: seq<Ranked>)
    requires forall m, m' :: 0 <= m < m' < |s| ==> s[m].index < s[m'].index
    ensures StrictlyRanked(r) && multiset(r) == multiset(s)
  {
    if |s| == 0 then []
    else
      assert s == [s[0]] + s[1..];
      var rest := SortRanked(s[1..]);
      forall m | 0 <= m < |rest| ensures rest[m].index > s[0].index {
        assert rest[m] in multiset(s[1..]);
      }
      InsertRanked(s[0], rest)
  }

  /**
   * The first k entries of the stably sorted distances list name exactly the
   * k nearest points.
   */
  lemma SortedPrefixIsNearest(points: seq<CalibrationPoint>, pos: Position3D,
                              distances: seq<Ranked>, sorted: seq<Ranked>, sel: seq<nat>)
    requires |distances| == |points|
    requires forall m :: 0 <= m < |points| ==> distances[m] == Ranked(Dist2(pos, points[m].gamePos), m)
    requires StrictlyRanked(sorted) && multiset(sorted) == multiset(distances)
    requires |sel| == (if |points| < 4 then |points| else 4)
    requires |sel| <= |sorted| && forall m :: 0 <= m < |sel| ==> sel[m] == sorted[m].index
    ensures IsNearestSelection(points, pos, sel)
  {
    forall b | 0 <= b < |sorted|
      ensures sorted[b].index < |points|
      ensures sorted[b] == distances[sorted[b].index]
    {
      assert sorted[b] in multiset(distances);
      var j :| 0 <= j < |distances| && distances[j] == sorted[b];
    }
    forall j, m | 0 <= j < |points| && j !in sel && 0 <= m < |sel|
      ensures Before(points, pos, sel[m], j)
    {
      assert distances[j] in multiset(sorted);
      var b :| 0 <= b < |sorted| && sorted[b] == distances[j];
      assert sorted[b].index == j;
      assert RankedBefore(sorted[m], sorted[b]);
    }
    forall m, m' | 0 <= m < m' < |sel|
      ensures Before(points, pos, sel[m], sel[m'])
    {
      assert RankedBefore(sorted[m], sorted[m']);
    }
  }

  lemma {:induction false} NearestPrefixAgree(points: seq<CalibrationPoint>, pos: Position3D,
                                               s1: seq<nat>, s2: seq<nat>, m: nat)
    requires IsNearestSelection(points, pos, s1) && IsNearestSelection(points, pos, s2)
    requires m <= |s1|
    ensures s1[..m] == s2[..m]
  {
    if m > 0 {
      NearestPrefixAgree(points, pos, s1, s2, m - 1);
      NearestStepAgree(points, pos, s1, s2, m - 1);
      assert s1[..m] == s1[..m - 1] + [s1[m - 1]];
      assert s2[..m] == s2[..m - 1] + [s2[m - 1]];
    }
  }

  lemma NearestStepAgree(points: seq<CalibrationPoint>, pos: Position3D, s1: seq<nat>, s2: seq<nat>, p: nat)
    requires IsNearestSelection(points, pos, s1) && IsNearestSelection(points, pos, s2)
    requires p < |s1| && s1[..p] == s2[..p]
    ensures s1[p] == s2[p]
  {
    NearestStepHalf(points, pos, s1, s2, p);
    NearestStepHalf(points, pos, s2, s1, p);
  }

  /** The p-th choice of s1 cannot come strictly before the p-th choice of s2. */
  lemma NearestStepHalf(points: seq<CalibrationPoint>, pos: Position3D, s1: seq<nat>, s2: seq<nat>, p: nat)
    requires IsNearestSelection(points, pos, s1) && IsNearestSelection(points, pos, s2)
    requires p < |s1| && s1[..p] == s2[..p]
    ensures !Before(points, pos, s1[p], s2[p])
  {
    var a := s1[p];
    forall q | 0 <= q < p ensures s1[q] == s2[q] {
      assert s1[q] == s1[..p][q] && s2[q] == s2[..p][q];
    }
    if a in s2 {
      var q :| 0 <= q < |s2| && s2[q] == a;
      if q > p {
        assert Before(points, pos, s2[p], s2[q]);
      }
    } else {
      assert Before(points, pos, s2[p], a);
    }
  }

  /** Only one list satisfies IsNearestSelection: it fixes the points the local fit uses. */
  lemma NearestSelectionUnique(points: seq<CalibrationPoint>, pos: Position3D, s1: seq<nat>, s2: seq<nat>)
    requires IsNearestSelection(points, pos, s1) && IsNearestSelection(points, pos, s2)
    ensures s1 == s2
  {
    NearestPrefixAgree(points, pos, s1, s2, |s1|);
    assert s1 == s1[..|s1|] && s2 == s2[..|s2|];
  }

  /**
   * _calculate_local_interpolation: the basic fit over the min(4, n) points
   * nearest to pos. The distance warning and the triangle test only log.
   */
  method LocalInterpolation(points: seq<CalibrationPoint>, pos: Position3D, s: Solvers)
    returns (r: Result<Transform, TransformError>)
    ensures |points| < 3 <==> r == Err(TooFewPoints)
    ensures |points| >= 3 ==>
      (exists sel :: IsNearestSelection(points, pos, sel) && r == Ok(s.basic(Pick(points, sel))))
  {
    var n := |points|;
    if n < 3 {
      return Err(TooFewPoints);
    }
    var distances: seq<Ranked> := [];
    for i := 0 to n
      invariant |distances| == i
      invariant forall m :: 0 <= m < i ==> distances[m] == Ranked(Dist2(pos, points[m].gamePos), m)
    {
      distances := distances + [Ranked(Dist2(pos, points[i].gamePos), i)];
    }
    var sorted := SortRanked(distances);
    assert |sorted| == |multiset(sorted)| == n;
    var k := if n < 4 then n else 4;
    var sel := seq(k, m requires 0 <= m < k => sorted[m].index);
    SortedPrefixIsNearest(points, pos, distances, sorted, sel);
    r := Ok(s.basic(Pick(points, sel)));
  }

  // ---------------------------------------------------------------- RANSAC

  const MaxIterations: nat := 500
  const InlierThreshold: real := 10.0

  /** Three distinct indices below n, as random.sample(range(n), 3) draws them. */
  datatype Sample = Sample(i: nat, j: nat, k: nat)

  predicate ValidSample(smp: Sample, n: nat)
  {
    smp.i < n && smp.j < n && smp.k < n && smp.i != smp.j && smp.i != smp.k && smp.j != smp.k
  }

  predicate ValidSamples(samples: seq<Sample>, n: nat)
  {
    forall m :: 0 <= m < |samples| ==> ValidSample(samples[m], n)
  }

  /** Squared pixel error of a calibration point under t. */
  function ErrorSq(t: Transform, p: CalibrationPoint): real
  {
    var (px, py) := Apply(t, p.gamePos);
    (px - p.mapX) * (px - p.mapX) + (py - p.mapY) * (py - p.mapY)
  }

  /** error < 10 on the square root is error² < 100 on the square. */
  predicate IsInlier(t: Transform, p: CalibrationPoint)
  {
    ErrorSq(t, p) < InlierThreshold * InlierThreshold
  }

  /** The inlier indices among the first k points, ascending. */
  function Inliers(points: seq<CalibrationPoint>, t: Transform, k: nat): (r: seq<nat>)
    requires k <= |points|
    ensures |r| <= k
    ensures forall m :: 0 <= m < |r| ==> r[m] < k
    ensures forall m, m' :: 0 <= m < m' < |r| ==> r[m] < r[m']
  {
    if k == 0 then []
    else Inliers(points, t, k - 1) + (if IsInlier(t, points[k - 1]) then [k - 1] else [])
  }

  /** Inliers lists exactly the points within the threshold. */
  lemma {:induction false} InliersExact(points: seq<CalibrationPoint>, t: Transform, k: nat)
    requires k <= |points|
    ensures forall i :: 0 <= i < k ==> (i in Inliers(points, t, k) <==> IsInlier(t, points[i]))
  {
    if k > 0 {
      InliersExact(points, t, k - 1);
      var prev := Inliers(points, t, k - 1);
      assert k - 1 !in prev;
    }
  }

  /** The inner loop of one RANSAC iteration. */
  method CollectInliers(points: seq<CalibrationPoint>, t: Transform) returns (inliers: seq<nat>)
    ensures inliers == Inliers(points, t, |points|)
  {
    inliers := [];
    for i := 0 to |points|
      invariant inliers == Inliers(points, t, i)
    {
      if ErrorSq(t, points[i]) < InlierThreshold * InlierThreshold {
        inliers := inliers + [i];
      }
    }
  }

  /** The basic fit over one sample's three points. */
  function Candidate(points: seq<CalibrationPoint>, smp: Sample, s: Solvers): Transform
    requires ValidSample(smp, |points|)
  {
    s.basic([points[smp.i], points[smp.j], points[smp.k]])
  }

  /** What one iteration produces: its candidate model and that model's inliers. */
  datatype Trial = Trial(candidate: Transform, inliers: seq<nat>)

  function TrialOf(points: seq<CalibrationPoint>, smp: Sample, s: Solvers): (tr: Trial)
    requires ValidSample(smp, |points|)
    ensures forall q :: 0 <= q < |tr.inliers| ==> tr.inliers[q] < |points|
  {
    var cand := Candidate(points, smp, s);
    Trial(cand, Inliers(points, cand, |points|))
  }

  /** The trials of all the iterations, in order. */
  function Trials(points: seq<CalibrationPoint>, samples: seq<Sample>, s: Solvers): (trs: seq<Trial>)
    requires ValidSamples(samples, |points|)
    ensures |trs| == |samples|
    ensures forall w :: 0 <= w < |samples| ==> trs[w] == TrialOf(points, samples[w], s)
  {
    seq(|samples|, w requires 0 <= w < |samples| => TrialOf(points, samples[w], s))
  }

  datatype RansacState = RansacState(bestScore: nat, bestInliers: seq<nat>, bestTransform: Option<Transform>)

  /** The best model after the first m trials: replaced only on a strictly larger inlier count. */
  function BestAfter(trials: seq<Trial>, m: nat): (st: RansacState)
    requires m <= |trials|
    ensures st.bestScore == |st.bestInliers|
    ensures st.bestScore == 0 <==> st.bestTransform == None
    ensures st.bestScore == 0 || exists w :: 0 <= w < m && st.bestInliers == trials[w].inliers
  {
    if m == 0 then RansacState(0, [], None)
    else
      var st := BestAfter(trials, m - 1);
      var tr := trials[m - 1];
      if |tr.inliers| > st.bestScore then RansacState(|tr.inliers|, tr.inliers, Some(tr.candidate)) else st
  }

  /** The best score is the largest inlier count any of the first m trials reached. */
  lemma {:induction false} BestIsMaximal(trials: seq<Trial>, m: nat)
    requires m <= |trials|
    ensures forall w :: 0 <= w < m ==> |trials[w].inliers| <= BestAfter(trials, m).bestScore
  {
    if m > 0 {
      BestIsMaximal(trials, m - 1);
    }
  }

  /**
   * The kept model belongs to the EARLIEST trial that reached the best score:
   * a model is replaced only on a strictly larger count.
   */
  lemma {:induction false} BestIsEarliest(trials: seq<Trial>, m: nat)
    requires m <= |trials|
    ensures var st := BestAfter(trials, m);
      st.bestScore > 0 ==>
        exists w :: 0 <= w < m
          && st.bestTransform == Some(trials[w].candidate)
          && st.bestInliers == trials[w].inliers
          && forall w' :: 0 <= w' < w ==> |trials[w'].inliers| < st.bestScore
  {
    if m > 0 {
      var prev := BestAfter(trials, m - 1);
      if |trials[m - 1].inliers| > prev.bestScore {
        BestIsMaximal(trials, m - 1);
        assert BestAfter(trials, m).bestTransform == Some(trials[m - 1].candidate);
      } else {
        BestIsEarliest(trials, m - 1);
      }
    }
  }

  /** The refit after the consensus loop. */
  function RansacRefit(points: seq<CalibrationPoint>, st: RansacState, s: Solvers): Result<Transform, TransformError>
    requires forall q :: 0 <= q < |st.bestInliers| ==> st.bestInliers[q] < |points|
  {
    if |st.bestInliers| >= 3 then
      var inlierPoints := Pick(points, st.bestInliers);
      if |inlierPoints| <= 6 then Ok(s.basic(inlierPoints)) else Weighted(s, inlierPoints)
    else Weighted(s, points)
  }

  /** The model the consensus loop keeps, over the given draws. */
  function RansacBest(points: seq<CalibrationPoint>, samples: seq<Sample>, s: Solvers): (st: RansacState)
    requires ValidSamples(samples, |points|)
    ensures forall q :: 0 <= q < |st.bestInliers| ==> st.bestInliers[q] < |points|
  {
    var trs := Trials(points, samples, s);
    var st := BestAfter(trs, |trs|);
    assert st.bestScore > 0 ==> exists w :: 0 <= w < |trs| && st.bestInliers == TrialOf(points, samples[w], s).inliers;
    st
  }

  /**
   * One iteration of the consensus loop: fit the sample, count its inliers,
   * and keep it only on a strictly larger count.
   */
  method RansacIteration(points: seq<CalibrationPoint>, smp: Sample, s: Solvers, best: RansacState)
    returns (best': RansacState)
    requires ValidSample(smp, |points|)
    ensures var tr := TrialOf(points, smp, s);
      best' == if |tr.inliers| > best.bestScore then RansacState(|tr.inliers|, tr.inliers, Some(tr.candidate)) else best
  {
    best' := best;
    var candidate := Candidate(points, smp, s);
    var inliers := CollectInliers(points, candidate);
    var score := |inliers|;
    if score > best.bestScore {
      best' := RansacState(score, inliers, Some(candidate));
    }
  }

  /**
   * _calculate_ransac_transform. The random draws are the samples parameter,
   * one per iteration.
   */
  method Ransac(points: seq<CalibrationPoint>, samples: seq<Sample>, s: Solvers)
    returns (r: Result<Transform, TransformError>)
    requires |samples| == MaxIterations && ValidSamples(samples, |points|)
    ensures r == RansacRefit(points, RansacBest(points, samples, s), s)
  {
    var best := RansacState(0, [], None);
    ghost var trs := Trials(points, samples, s);
    for iteration := 0 to MaxIterations
      invariant best == BestAfter(trs, iteration)
    {
      best := RansacIteration(points, samples[iteration], s, best);
    }
    var bestInliers := best.bestInliers;
    if |bestInliers| >= 3 {
      var inlierPoints := Pick(points, bestInliers);
      if |inlierPoints| <= 6 {
        r := Ok(s.basic(inlierPoints));
      } else {
        r := Weighted(s, inlierPoints);
      }
    } else {
      r := Weighted(s, points);
    }
  }

  // ---------------------------------------------------------------- dispatch

  /** The strategy that calculate_affine_transform picks once it has at least 3 points. */
  datatype Strategy = LocalNearest | Basic | WeightedAll | Consensus

  function ChooseStrategy(n: nat, hasPosition: bool, useLocal: bool): (st: Strategy)
    requires n >= 3
    ensures st == LocalNearest <==> hasPosition && useLocal
    ensures st == Basic <==> !(hasPosition && useLocal) && n == 3
    ensures st == WeightedAll <==> !(hasPosition && useLocal) && 4 <= n <= 6
    ensures st == Consensus <==> !(hasPosition && useLocal) && n > 6
  {
    if hasPosition && useLocal then LocalNearest
    else if n <= 3 then Basic
    else if n <= 6 then WeightedAll
    else Consensus
  }

  /** calculate_affine_transform. */
  method CalculateAffineTransform(points: seq<CalibrationPoint>, playerPos: Option<Position3D>, useLocal: bool,
                                  s: Solvers, samples: seq<Sample>)
    returns (r: Result<Transform, TransformError>)
    requires |points| > 6 ==> |samples| == MaxIterations && ValidSamples(samples, |points|)
    ensures |points| < 3 <==> r == Err(TooFewPoints)
    ensures |points| >= 3 ==> match ChooseStrategy(|points|, playerPos.Some?, useLocal)
      case LocalNearest =>
        exists sel :: IsNearestSelection(points, playerPos.value, sel) && r == Ok(s.basic(Pick(points, sel)))
      case Basic => r == Ok(s.basic(points))
      case WeightedAll => r == Weighted(s, points)
      case Consensus => r == RansacRefit(points, RansacBest(points, samples, s), s)
  {
    var n := |points|;
    if n < 3 {
      return Err(TooFewPoints);
    }
    if playerPos.Some? && useLocal && n >= 3 {
      r := LocalInterpolation(points, playerPos.value, s);
      return;
    }
    if n <= 3 {
      r := Ok(s.basic(points));
    } else if n <= 6 {
      r := Weighted(s, points);
    } else {
      r := Ransac(points, samples, s);
    }
  }

  /**
   * CoordinateTransform.calculate_from_points: the same ValueError guard, and
   * the identity transform when the solver module cannot be imported.
   */
  method CalculateFromPoints(points: seq<CalibrationPoint>, playerPos: Option<Position3D>, useLocal: bool,
                             solverAvailable: bool, s: Solvers, samples: seq<Sample>)
    returns (r: Result<Transform, TransformError>)
    requires |points| > 6 ==> |samples| == MaxIterations && ValidSamples(samples, |points|)
    ensures |points| < 3 <==> r == Err(TooFewPoints)
    ensures |points| >= 3 && !solverAvailable ==> r == Ok(Identity)
    ensures |points| >= 3 && solverAvailable ==> match ChooseStrategy(|points|, playerPos.Some?, useLocal)
      case LocalNearest =>
        exists sel :: IsNearestSelection(points, playerPos.value, sel) && r == Ok(s.basic(Pick(points, sel)))
      case Basic => r == Ok(s.basic(points))
      case WeightedAll => r == Weighted(s, points)
      case Consensus => r == RansacRefit(points, RansacBest(points, samples, s), s)
  {
    if |points| < 3 {
      return Err(TooFewPoints);
    }
    if !solverAvailable {
      return Ok(Identity);
    }
    r := CalculateAffineTransform(points, playerPos, useLocal, s, samples);
  }

  // ---------------------------------------------------------------- scale-and-offset fit

  /** An index of a largest element. */
  function ArgMax(xs: seq<real>): (i: nat)
    requires |xs| > 0
    ensures i < |xs| && forall j :: 0 <= j < |xs| ==> xs[j] <= xs[i]
  {
    if |xs| == 1 then 0
    else var m := 1 + ArgMax(xs[1..]); if xs[0] >= xs[m] then 0 else m
  }

  /** An index of a smallest element. */
  function ArgMin(xs: seq<real>): (i: nat)
    requires |xs| > 0
    ensures i < |xs| && forall j :: 0 <= j < |xs| ==> xs[i] <= xs[j]
  {
    if |xs| == 1 then 0
    else var m := 1 + ArgMin(xs[1..]); if xs[0] <= xs[m] then 0 else m
  }

  /** max() of a non-empty list. */
  function SeqMax(xs: seq<real>): real
    requires |xs| > 0
  {
    xs[ArgMax(xs)]
  }

  /** min() of a non-empty list. */
  function SeqMin(xs: seq<real>): real
    requires |xs| > 0
  {
    xs[ArgMin(xs)]
  }

  /** max - min of a non-empty list. */
  function Range(xs: seq<real>): (r: real)
    requires |xs| > 0
    ensures r >= 0.0
  {
    SeqMax(xs) - SeqMin(xs)
  }

  function GameXs(points: seq<CalibrationPoint>): seq<real>
  {
    seq(|points|, i requires 0 <= i < |points| => points[i].gamePos.x)
  }

  function GameZs(points: seq<CalibrationPoint>): seq<real>
  {
    seq(|points|, i requires 0 <= i < |points| => points[i].gamePos.z)
  }

  function MapXs(points: seq<CalibrationPoint>): seq<real>
  {
    seq(|points|, i requires 0 <= i < |points| => points[i].mapX)
  }

  function MapYs(points: seq<CalibrationPoint>): seq<real>
  {
    seq(|points|, i requires 0 <= i < |points| => points[i].mapY)
  }

  /** The axis scale: the ratio of the ranges, or 1.0 when the game range is zero. */
  function AxisScale(mapRange: real, gameRange: real): (r: real)
    requires mapRange >= 0.0 && gameRange >= 0.0
    ensures r >= 0.0
    ensures gameRange == 0.0 ==> r == 1.0
    ensures gameRange > 0.0 ==> r * gameRange == mapRange
  {
    if gameRange > 0.0 then mapRange / gameRange else 1.0
  }

  /** A transform without rotation or shear. */
  lemma AxisAlignedApply(kx: real, ox: real, kz: real, oz: real, x: real, z: real)
    ensures ApplyXZ(Transform(kx, 0.0, ox, 0.0, kz, oz), x, z) == (kx * x + ox, kz * z + oz)
  {
    var t := Transform(kx, 0.0, ox, 0.0, kz, oz);
    assert ApplyXZ(t, x, z).0 == t.a * x + t.b * z + t.c;
    assert t.a * x == kx * x;
    assert t.b * z == 0.0;
    assert ApplyXZ(t, x, z).0 == kx * x + ox;
    assert t.d * x == 0.0;
    assert t.e * z == kz * z;
    assert ApplyXZ(t, x, z).1 == kz * z + oz;
  }

  /** The offset taken from one point puts that point exactly on its pixel. */
  lemma OffsetFromPoint(k: real, g: real, m: real)
    ensures k * g + (m - g * k) == m
  {
  }

  /**
   * The unrotated transform with the given scales whose offsets put point p
   * exactly on its pixel.
   */
  function ThroughPoint(scaleX: real, scaleZ: real, p: CalibrationPoint): (t: Transform)
    ensures t.a == scaleX && t.b == 0.0 && t.d == 0.0 && t.e == scaleZ
    ensures ApplyXZ(t, p.gamePos.x, p.gamePos.z) == (p.mapX, p.mapY)
  {
    var x, z := p.gamePos.x, p.gamePos.z;
    var offsetX := p.mapX - x * scaleX;
    var offsetZ := p.mapY - z * scaleZ;
    var t := Transform(scaleX, 0.0, offsetX, 0.0, scaleZ, offsetZ);
    AxisAlignedApply(scaleX, offsetX, scaleZ, offsetZ, x, z);
    OffsetFromPoint(scaleX, x, p.mapX);
    OffsetFromPoint(scaleZ, z, p.mapY);
    t
  }


  /**
   * calculate_simple_transform: scale from the coordinate ranges, offset from
   * the first point, no rotation.
   */
  function SimpleTransform(points: seq<CalibrationPoint>): (r: Result<Transform, TransformError>)
    ensures |points| < 2 <==> r == Err(TooFewPoints)
    ensures r.Ok? ==> r.value.b == 0.0 && r.value.d == 0.0
    ensures r.Ok? ==> r.value.a >= 0.0 && r.value.e >= 0.0
    ensures r.Ok? ==> (Range(GameXs(points)) == 0.0 ==> r.value.a == 1.0)
    ensures r.Ok? ==> (Range(GameZs(points)) == 0.0 ==> r.value.e == 1.0)
    ensures r.Ok? ==>
      ApplyXZ(r.value, points[0].gamePos.x, points[0].gamePos.z) == (points[0].mapX, points[0].mapY)
  {
    if |points| < 2 then Err(TooFewPoints)
    else
      var scaleX := AxisScale(Range(MapXs(points)), Range(GameXs(points)));
      var scaleZ := AxisScale(Range(MapYs(points)), Range(GameZs(points)));
      Ok(ThroughPoint(scaleX, scaleZ, points[0]))
  }

  /**
   * Each scale is the map range over the game range of its axis, and 1 on an
   * axis whose game coordinates do not spread.
   */
  lemma SimpleTransformScales(points: seq<CalibrationPoint>)
    requires |points| >= 2
    ensures var t, gameX, gameZ := SimpleTransform(points).value, Range(GameXs(points)), Range(GameZs(points));
      && t.a == (if gameX > 0.0 then Range(MapXs(points)) / gameX else 1.0)
      && t.e == (if gameZ > 0.0 then Range(MapYs(points)) / gameZ else 1.0)
  {
    SimpleTransformCoefficients(points);
  }

  /** The two scales of the simple transform are the axis scales of the point ranges. */
  lemma SimpleTransformCoefficients(points: seq<CalibrationPoint>)
    requires |points| >= 2
    ensures SimpleTransform(points).value.a == AxisScale(Range(MapXs(points)), Range(GameXs(points)))
    ensures SimpleTransform(points).value.e == AxisScale(Range(MapYs(points)), Range(GameZs(points)))
  {
    var scaleX := AxisScale(Range(MapXs(points)), Range(GameXs(points)));
    var scaleZ := AxisScale(Range(MapYs(points)), Range(GameZs(points)));
    assert SimpleTransform(points) == Ok(ThroughPoint(scaleX, scaleZ, points[0]));
  }

  // ---------------------------------------------------------------- triangle test

  /** Dot product of the plane vectors (ux, uz) and (vx, vz). */
  function Dot(ux: real, uz: real, vx: real, vz: real): real
  {
    ux * vx + uz * vz
  }

  function Abs(x: real): real
  {
    if x < 0.0 then -x else x
  }

  /** The degeneracy cut-off on the Gram determinant, 1e-10. */
  const DegenerateDenominator: real := 0.0000000001

  /** The Gram determinant (v0·v0)(v1·v1) - (v0·v1)², zero exactly for a degenerate triangle. */
  function Gram(dot00: real, dot01: real, dot11: real): real
  {
    dot00 * dot11 - dot01 * dot01
  }

  /**
   * Barycentric coordinates (u, v) of a point from the dot products of
   * v0 = c - a, v1 = b - a and v2 = p - a, as the source computes them
   * (a product with 1 / denom).
   */
  function Barycentric(dot00: real, dot01: real, dot02: real, dot11: real, dot12: real): (uv: (real, real))
    requires Gram(dot00, dot01, dot11) != 0.0
  {
    var invDenom := 1.0 / Gram(dot00, dot01, dot11);
    ((dot11 * dot02 - dot01 * dot12) * invDenom, (dot00 * dot12 - dot01 * dot02) * invDenom)
  }

  /**
   * (u, v) solve the normal equations u·(v0·v0) + v·(v0·v1) = v0·v2 and
   * u·(v0·v1) + v·(v1·v1) = v1·v2, i.e. u·v0 + v·v1 is the projection of v2
   * on the triangle's plane: they are the coordinates of p along the edges.
   */
  lemma BarycentricSolvesNormalEquations(dot00: real, dot01: real, dot02: real, dot11: real, dot12: real)
    requires Gram(dot00, dot01, dot11) != 0.0
    ensures var (u, v) := Barycentric(dot00, dot01, dot02, dot11, dot12);
      u * dot00 + v * dot01 == dot02 && u * dot01 + v * dot11 == dot12
  {
    var denom := Gram(dot00, dot01, dot11);
    var nu := dot11 * dot02 - dot01 * dot12;
    var nv := dot00 * dot12 - dot01 * dot02;
    var inv := 1.0 / denom;
    assert inv * denom == 1.0;
    assert nu * dot00 + nv * dot01 == dot02 * denom;
    assert nu * dot01 + nv * dot11 == dot12 * denom;
    calc {
      (nu * inv) * dot00 + (nv * inv) * dot01;
      (nu * dot00 + nv * dot01) * inv;
      dot02 * denom * inv;
      dot02;
    }
    calc {
      (nu * inv) * dot01 + (nv * inv) * dot11;
      (nu * dot01 + nv * dot11) * inv;
      dot12 * denom * inv;
      dot12;
    }
  }

  /** (v0·v0, v0·v1, v1·v1) for the edge vectors v0 = c - a, v1 = b - a on the (x, z) plane. */
  function EdgeDots(a: Position3D, b: Position3D, c: Position3D): (real, real, real)
  {
    var v0x, v0z := c.x - a.x, c.z - a.z;
    var v1x, v1z := b.x - a.x, b.z - a.z;
    (Dot(v0x, v0z, v0x, v0z), Dot(v0x, v0z, v1x, v1z), Dot(v1x, v1z, v1x, v1z))
  }

  /** (v0·v2, v1·v2) for v2 = p - a. */
  function PointDots(p: Position3D, a: Position3D, b: Position3D, c: Position3D): (real, real)
  {
    var v0x, v0z := c.x - a.x, c.z - a.z;
    var v1x, v1z := b.x - a.x, b.z - a.z;
    var v2x, v2z := p.x - a.x, p.z - a.z;
    (Dot(v0x, v0z, v2x, v2z), Dot(v1x, v1z, v2x, v2z))
  }

  /** The triangle a, b, c is degenerate by the source's cut-off: |Gram| < 1e-10. */
  predicate Degenerate(a: Position3D, b: Position3D, c: Position3D)
  {
    var (dot00, dot01, dot11) := EdgeDots(a, b, c);
    Abs(Gram(dot00, dot01, dot11)) < DegenerateDenominator
  }

  /**
   * _is_inside_triangle_2d on the (x, z) plane: false unless there are
   * exactly three vertices and the triangle is not degenerate.
   */
  function IsInsideTriangle2D(point: Position3D, triangle: seq<Position3D>): (r: bool)
    ensures r ==> |triangle| == 3 && !Degenerate(triangle[0], triangle[1], triangle[2])
  {
    if |triangle| != 3 then false
    else
      var (dot00, dot01, dot11) := EdgeDots(triangle[0], triangle[1], triangle[2]);
      var (dot02, dot12) := PointDots(point, triangle[0], triangle[1], triangle[2]);
      var denom := Gram(dot00, dot01, dot11);
      if Abs(denom) < DegenerateDenominator then false
      else
        var (u, v) := Barycentric(dot00, dot01, dot02, dot11, dot12);
        u >= 0.0 && v >= 0.0 && u + v <= 1.0
  }

  /** At corner a, v2 = 0, so (u, v) = (0, 0): a non-degenerate triangle contains its first corner. */
  lemma TriangleContainsFirstCorner(a: Position3D, b: Position3D, c: Position3D)
    requires !Degenerate(a, b, c)
    ensures IsInsideTriangle2D(a, [a, b, c])
  {
    var (dot00, dot01, dot11) := EdgeDots(a, b, c);
    assert PointDots(a, a, b, c) == (0.0, 0.0);
    assert Barycentric(dot00, dot01, 0.0, dot11, 0.0) == (0.0, 0.0);
  }

  /** At corner c, v2 = v0, so (u, v) = (1, 0): a non-degenerate triangle contains its third corner. */
  lemma TriangleContainsThirdCorner(a: Position3D, b: Position3D, c: Position3D)
    requires !Degenerate(a, b, c)
    ensures IsInsideTriangle2D(c, [a, b, c])
  {
    var (dot00, dot01, dot11) := EdgeDots(a, b, c);
    assert PointDots(c, a, b, c) == (dot00, dot01);
    BarycentricAtThirdCorner(dot00, dot01, dot11);
  }

  lemma BarycentricAtThirdCorner(dot00: real, dot01: real, dot11: real)
    requires Gram(dot00, dot01, dot11) != 0.0
    ensures Barycentric(dot00, dot01, dot00, dot11, dot01) == (1.0, 0.0)
  {
    var denom := Gram(dot00, dot01, dot11);
    var inv := 1.0 / denom;
    var uv := Barycentric(dot00, dot01, dot00, dot11, dot01);
    assert uv.0 == (dot11 * dot00 - dot01 * dot01) * inv;
    assert uv.1 == (dot00 * dot01 - dot01 * dot00) * inv;
    assert (dot11 * dot00 - dot01 * dot01) * inv == denom * inv == 1.0;
    assert (dot00 * dot01 - dot01 * dot00) * inv == 0.0;
    assert uv.0 == 1.0 && uv.1 == 0.0;
  }


  /** The plane cross product v0 × v1, non-zero iff the two edges are independent. */
  function Cross2(v0x: real, v0z: real, v1x: real, v1z: real): real
  {
    v0x * v1z - v0z * v1x
  }

  /** In the plane the Gram determinant is the square of the cross product (Lagrange's identity). */
  lemma GramIsCrossSquared(v0x: real, v0z: real, v1x: real, v1z: real)
    ensures Gram(Dot(v0x, v0z, v0x, v0z), Dot(v0x, v0z, v1x, v1z), Dot(v1x, v1z, v1x, v1z))
      == Cross2(v0x, v0z, v1x, v1z) * Cross2(v0x, v0z, v1x, v1z)
  {
  }

  /** A vector orthogonal to two independent plane vectors is zero. */
  lemma OrthogonalToBoth(wx: real, wz: real, v0x: real, v0z: real, v1x: real, v1z: real)
    requires Cross2(v0x, v0z, v1x, v1z) != 0.0
    requires Dot(v0x, v0z, wx, wz) == 0.0 && Dot(v1x, v1z, wx, wz) == 0.0
    ensures wx == 0.0 && wz == 0.0
  {
    var d := Cross2(v0x, v0z, v1x, v1z);
    assert wx * v0x == -(wz * v0z);
    assert wx * v1x == -(wz * v1z);
    assert wx * d == (wx * v0x) * v1z - (wx * v1x) * v0z;
    assert wx * d == 0.0;
    assert wz * v0z == -(wx * v0x);
    assert wz * v1z == -(wx * v1x);
    assert wz * d == v0x * (wz * v1z) - v1x * (wz * v0z);
    assert wz * d == 0.0;
  }

  /** The computed (u, v) reproduce v2 exactly as u·v0 + v·v1 when the edges are independent. */
  lemma BarycentricExact(v0x: real, v0z: real, v1x: real, v1z: real, v2x: real, v2z: real)
    requires Gram(Dot(v0x, v0z, v0x, v0z), Dot(v0x, v0z, v1x, v1z), Dot(v1x, v1z, v1x, v1z)) != 0.0
    ensures var d00, d01, d11 := Dot(v0x, v0z, v0x, v0z), Dot(v0x, v0z, v1x, v1z), Dot(v1x, v1z, v1x, v1z);
      var (u, v) := Barycentric(d00, d01, Dot(v0x, v0z, v2x, v2z), d11, Dot(v1x, v1z, v2x, v2z));
      u * v0x + v * v1x == v2x && u * v0z + v * v1z == v2z
  {
    var d00, d01, d11 := Dot(v0x, v0z, v0x, v0z), Dot(v0x, v0z, v1x, v1z), Dot(v1x, v1z, v1x, v1z);
    var d02, d12 := Dot(v0x, v0z, v2x, v2z), Dot(v1x, v1z, v2x, v2z);
    CrossNonZero(v0x, v0z, v1x, v1z);
    var (u, v) := Barycentric(d00, d01, d02, d11, d12);
    BarycentricSolvesNormalEquations(d00, d01, d02, d11, d12);
    var wx, wz := v2x - (u * v0x + v * v1x), v2z - (u * v0z + v * v1z);
    DotResidual(v0x, v0z, v0x, v0z, v1x, v1z, v2x, v2z, u, v);
    DotResidual(v1x, v1z, v0x, v0z, v1x, v1z, v2x, v2z, u, v);
    OrthogonalToBoth(wx, wz, v0x, v0z, v1x, v1z);
  }

  /** A non-zero Gram determinant means independent edges. */
  lemma CrossNonZero(v0x: real, v0z: real, v1x: real, v1z: real)
    requires Gram(Dot(v0x, v0z, v0x, v0z), Dot(v0x, v0z, v1x, v1z), Dot(v1x, v1z, v1x, v1z)) != 0.0
    ensures Cross2(v0x, v0z, v1x, v1z) != 0.0
  {
    GramIsCrossSquared(v0x, v0z, v1x, v1z);
  }

  /** (v2 − u·v0 − v·v1)·e = v2·e − u·(v0·e) − v·(v1·e), for any vector e. */
  lemma DotResidual(ex: real, ez: real, v0x: real, v0z: real, v1x: real, v1z: real, v2x: real, v2z: real, u: real, v: real)
    ensures Dot(ex, ez, v2x - (u * v0x + v * v1x), v2z - (u * v0z + v * v1z))
      == Dot(ex, ez, v2x, v2z) - (u * Dot(ex, ez, v0x, v0z) + v * Dot(ex, ez, v1x, v1z))
  {
    assert ex * (v2x - (u * v0x + v * v1x)) == ex * v2x - (u * (ex * v0x) + v * (ex * v1x));
    assert ez * (v2z - (u * v0z + v * v1z)) == ez * v2z - (u * (ez * v0z) + v * (ez * v1z));
  }

  /** The formula's numerators are u·G and v·G when the dot products come from u·v0 + v·v1. */
  lemma ScalarCombination(d00: real, d01: real, d02: real, d11: real, d12: real, u: real, v: real)
    requires Gram(d00, d01, d11) != 0.0
    requires d02 == u * d00 + v * d01 && d12 == u * d01 + v * d11
    ensures Barycentric(d00, d01, d02, d11, d12) == (u, v)
  {
    var g := Gram(d00, d01, d11);
    assert d11 * d02 - d01 * d12 == u * g;
    assert d00 * d12 - d01 * d02 == v * g;
    CancelFactor(d11 * d02 - d01 * d12, u, g);
    CancelFactor(d00 * d12 - d01 * d02, v, g);
    var uv := Barycentric(d00, d01, d02, d11, d12);
    assert uv.0 == u;
    assert uv.1 == v;
  }

  /** A numerator equal to x·g, multiplied by 1 / g, is x. */
  lemma CancelFactor(n: real, x: real, g: real)
    requires g != 0.0 && n == x * g
    ensures n * (1.0 / g) == x
  {
    var inv := 1.0 / g;
    assert g * inv == 1.0;
    assert (x * g) * inv == x * (g * inv);
  }

  /** Coordinates that reproduce v2 are what the formula computes. */
  lemma BarycentricOfCombination(v0x: real, v0z: real, v1x: real, v1z: real, v2x: real, v2z: real, u: real, v: real)
    requires Gram(Dot(v0x, v0z, v0x, v0z), Dot(v0x, v0z, v1x, v1z), Dot(v1x, v1z, v1x, v1z)) != 0.0
    requires v2x == u * v0x + v * v1x && v2z == u * v0z + v * v1z
    ensures Barycentric(Dot(v0x, v0z, v0x, v0z), Dot(v0x, v0z, v1x, v1z), Dot(v0x, v0z, v2x, v2z),
                        Dot(v1x, v1z, v1x, v1z), Dot(v1x, v1z, v2x, v2z)) == (u, v)
  {
    var d00, d01, d11 := Dot(v0x, v0z, v0x, v0z), Dot(v0x, v0z, v1x, v1z), Dot(v1x, v1z, v1x, v1z);
    DotCombination(v0x, v0z, v0x, v0z, v1x, v1z, u, v);
    DotCombination(v1x, v1z, v0x, v0z, v1x, v1z, u, v);
    ScalarCombination(d00, d01, Dot(v0x, v0z, v2x, v2z), d11, Dot(v1x, v1z, v2x, v2z), u, v);
  }

  /** e·(u·v0 + v·v1) = u·(e·v0) + v·(e·v1). */
  lemma DotCombination(ex: real, ez: real, v0x: real, v0z: real, v1x: real, v1z: real, u: real, v: real)
    ensures Dot(ex, ez, u * v0x + v * v1x, u * v0z + v * v1z) == u * Dot(ex, ez, v0x, v0z) + v * Dot(ex, ez, v1x, v1z)
  {
    assert ex * (u * v0x + v * v1x) == u * (ex * v0x) + v * (ex * v1x);
    assert ez * (u * v0z + v * v1z) == u * (ez * v0z) + v * (ez * v1z);
  }
  /**
   * p lies in the triangle a, b, c on the (x, z) plane with edge weights
   * (u, v): p − a = u·(c − a) + v·(b − a), both weights non-negative and
   * their sum at most 1.
   */
  predicate InTriangleAt(p: Position3D, a: Position3D, b: Position3D, c: Position3D, u: real, v: real)
  {
    && u >= 0.0 && v >= 0.0 && u + v <= 1.0
    && p.x - a.x == u * (c.x - a.x) + v * (b.x - a.x)
    && p.z - a.z == u * (c.z - a.z) + v * (b.z - a.z)
  }

  /** The weights (u, v) _is_inside_triangle_2d computes for p. */
  function Weights(p: Position3D, a: Position3D, b: Position3D, c: Position3D): (real, real)
    requires !Degenerate(a, b, c)
  {
    var (d00, d01, d11) := EdgeDots(a, b, c);
    var (d02, d12) := PointDots(p, a, b, c);
    Barycentric(d00, d01, d02, d11, d12)
  }

  lemma InsideByWeights(p: Position3D, a: Position3D, b: Position3D, c: Position3D)
    requires !Degenerate(a, b, c)
    ensures IsInsideTriangle2D(p, [a, b, c]) <==>
      Weights(p, a, b, c).0 >= 0.0 && Weights(p, a, b, c).1 >= 0.0 && Weights(p, a, b, c).0 + Weights(p, a, b, c).1 <= 1.0
  {
    var t := [a, b, c];
    assert t[0] == a && t[1] == b && t[2] == c;
  }

  lemma WeightsExact(p: Position3D, a: Position3D, b: Position3D, c: Position3D)
    requires !Degenerate(a, b, c)
    ensures var (u, v) := Weights(p, a, b, c);
      p.x - a.x == u * (c.x - a.x) + v * (b.x - a.x) && p.z - a.z == u * (c.z - a.z) + v * (b.z - a.z)
  {
    BarycentricExact(c.x - a.x, c.z - a.z, b.x - a.x, b.z - a.z, p.x - a.x, p.z - a.z);
  }

  lemma WeightsOfCombination(p: Position3D, a: Position3D, b: Position3D, c: Position3D, u: real, v: real)
    requires !Degenerate(a, b, c)
    requires p.x - a.x == u * (c.x - a.x) + v * (b.x - a.x) && p.z - a.z == u * (c.z - a.z) + v * (b.z - a.z)
    ensures Weights(p, a, b, c) == (u, v)
  {
    BarycentricOfCombination(c.x - a.x, c.z - a.z, b.x - a.x, b.z - a.z, p.x - a.x, p.z - a.z, u, v);
  }

  /**
   * For a triangle that passes the degeneracy cut-off, _is_inside_triangle_2d
   * reports a point inside exactly when it is a convex combination of the
   * three corners.
   */
  lemma InsideTriangleIff(p: Position3D, a: Position3D, b: Position3D, c: Position3D)
    requires !Degenerate(a, b, c)
    ensures IsInsideTriangle2D(p, [a, b, c]) <==> exists u, v :: InTriangleAt(p, a, b, c, u, v)
  {
    if IsInsideTriangle2D(p, [a, b, c]) {
      InsideGivesCombination(p, a, b, c);
    }
    forall u, v | InTriangleAt(p, a, b, c, u, v)
      ensures IsInsideTriangle2D(p, [a, b, c])
    {
      CombinationGivesInside(p, a, b, c, u, v);
    }
  }

  lemma InsideGivesCombination(p: Position3D, a: Position3D, b: Position3D, c: Position3D)
    requires !Degenerate(a, b, c) && IsInsideTriangle2D(p, [a, b, c])
    ensures InTriangleAt(p, a, b, c, Weights(p, a, b, c).0, Weights(p, a, b, c).1)
  {
    InsideByWeights(p, a, b, c);
    WeightsExact(p, a, b, c);
  }

  lemma CombinationGivesInside(p: Position3D, a: Position3D, b: Position3D, c: Position3D, u: real, v: real)
    requires !Degenerate(a, b, c) && InTriangleAt(p, a, b, c, u, v)
    ensures IsInsideTriangle2D(p, [a, b, c])
  {
    WeightsOfCombination(p, a, b, c, u, v);
    InsideByWeights(p, a, b, c);
  }

  // ---------------------------------------------------------------- validation

  /** (predicted - actual) on both axes for one calibration point. */
  function Residual(t: Transform, p: CalibrationPoint): (real, real)
  {
    var (px, py) := Apply(t, p.gamePos);
    (px - p.mapX, py - p.mapY)
  }

  /** Sum of the residual lengths; `norm` stands for np.sqrt(dx² + dy²), kept abstract. */
  function SumNorms(errors: seq<(real, real)>, norm: ((real, real)) -> real): real
  {
    if |errors| == 0 then 0.0
    else SumNorms(errors[..|errors| - 1], norm) + norm(errors[|errors| - 1])
  }

  /** t sends every calibration point exactly onto its pixel. */
  predicate Fits(t: Transform, points: seq<CalibrationPoint>)
  {
    forall i :: 0 <= i < |points| ==> Apply(t, points[i].gamePos) == (points[i].mapX, points[i].mapY)
  }

  /**
   * validate_transform: the per-point residuals and their mean length. numpy
   * averages an empty list to nan; here that is None.
   */
  method ValidateTransform(t: Transform, points: seq<CalibrationPoint>, norm: ((real, real)) -> real)
    returns (avgError: Option<real>, errors: seq<(real, real)>)
    ensures |errors| == |points| && forall i :: 0 <= i < |points| ==> errors[i] == Residual(t, points[i])
    ensures avgError.None? <==> |points| == 0
    ensures avgError.Some? ==> avgError.value == SumNorms(errors, norm) / (|points| as real)
  {
    errors := [];
    for i := 0 to |points|
      invariant |errors| == i && forall j :: 0 <= j < i ==> errors[j] == Residual(t, points[j])
    {
      var (px, py) := Apply(t, points[i].gamePos);
      errors := errors + [(px - points[i].mapX, py - points[i].mapY)];
    }
    if |points| == 0 {
      return None, errors;
    }
    var total := 0.0;
    for i := 0 to |errors|
      invariant total == SumNorms(errors[..i], norm)
    {
      assert errors[..i + 1][..i] == errors[..i];
      total := total + norm(errors[i]);
    }
    assert errors[..|errors|] == errors;
    avgError := Some(total / (|points| as real));
  }

  /** What the abstract Euclidean norm is assumed to satisfy: non-negative, and zero only at the origin. */
  ghost predicate NormLike(norm: ((real, real)) -> real)
  {
    forall e :: norm(e) >= 0.0 && (norm(e) == 0.0 <==> e == (0.0, 0.0))
  }

  lemma {:induction false} SumNormsZero(errors: seq<(real, real)>, norm: ((real, real)) -> real)
    requires NormLike(norm)
    ensures SumNorms(errors, norm) >= 0.0
    ensures SumNorms(errors, norm) == 0.0 <==> forall i :: 0 <= i < |errors| ==> errors[i] == (0.0, 0.0)
  {
    if |errors| > 0 {
      var init, last := errors[..|errors| - 1], errors[|errors| - 1];
      SumNormsZero(init, norm);
      assert norm(last) >= 0.0;
      if SumNorms(errors, norm) == 0.0 {
        forall i | 0 <= i < |errors| ensures errors[i] == (0.0, 0.0) {
          if i < |errors| - 1 {
            assert errors[i] == init[i];
          }
        }
      }
    }
  }

  /**
   * A transform fits the calibration points exactly iff validate_transform
   * reports a mean error of zero (for a non-empty list).
   */
  lemma ZeroErrorIffFits(t: Transform, points: seq<CalibrationPoint>, norm: ((real, real)) -> real)
    requires NormLike(norm) && |points| > 0
    ensures var errors := seq(|points|, i requires 0 <= i < |points| => Residual(t, points[i]));
      SumNorms(errors, norm) / (|points| as real) == 0.0 <==> Fits(t, points)
  {
    var errors := seq(|points|, i requires 0 <= i < |points| => Residual(t, points[i]));
    SumNormsZero(errors, norm);
    forall i | 0 <= i < |points|
      ensures errors[i] == (0.0, 0.0) <==> Apply(t, points[i].gamePos) == (points[i].mapX, points[i].mapY)
    {
      var (px, py) := Apply(t, points[i].gamePos);
      assert errors[i] == (px - points[i].mapX, py - points[i].mapY);
    }
  }

  // ---------------------------------------------------------------- exact kernels

  /** Twice the signed area of game points i, j, k on the (x, z) plane. */
  function GameCross(pts: seq<CalibrationPoint>, i: nat, j: nat, k: nat): real
    requires i < |pts| && j < |pts| && k < |pts|
  {
    Cross2(pts[j].gamePos.x - pts[i].gamePos.x, pts[j].gamePos.z - pts[i].gamePos.z,
           pts[k].gamePos.x - pts[i].gamePos.x, pts[k].gamePos.z - pts[i].gamePos.z)
  }

  /** Some three game points are not collinear: the design matrix [x, z, 1] has rank 3. */
  predicate Spanning(pts: seq<CalibrationPoint>)
  {
    exists i: nat, j: nat, k: nat :: i < |pts| && j < |pts| && k < |pts| && GameCross(pts, i, j, k) != 0.0
  }

  /**
   * Over points that span the plane, at most one affine transform fits them
   * all exactly: three non-collinear points pin down all six coefficients.
   */
  lemma FitUnique(pts: seq<CalibrationPoint>, t1: Transform, t2: Transform)
    requires Spanning(pts) && Fits(t1, pts) && Fits(t2, pts)
    ensures t1 == t2
  {
    var i: nat, j: nat, k: nat :| i < |pts| && j < |pts| && k < |pts| && GameCross(pts, i, j, k) != 0.0;
    AgreeAt(pts, t1, t2, i);
    AgreeAt(pts, t1, t2, j);
    AgreeAt(pts, t1, t2, k);
    var p, q, w := pts[i].gamePos, pts[j].gamePos, pts[k].gamePos;
    CoefficientsAgree(t1.a - t2.a, t1.b - t2.b, t1.c - t2.c, p, q, w);
    CoefficientsAgree(t1.d - t2.d, t1.e - t2.e, t1.f - t2.f, p, q, w);
  }

  /** Two transforms that fit the same point differ, row by row, by a row vanishing on it. */
  lemma AgreeAt(pts: seq<CalibrationPoint>, t1: Transform, t2: Transform, i: nat)
    requires Fits(t1, pts) && Fits(t2, pts) && i < |pts|
    ensures var p := pts[i].gamePos;
      && (t1.a - t2.a) * p.x + (t1.b - t2.b) * p.z + (t1.c - t2.c) == 0.0
      && (t1.d - t2.d) * p.x + (t1.e - t2.e) * p.z + (t1.f - t2.f) == 0.0
  {
    var p := pts[i].gamePos;
    assert Apply(t1, p) == Apply(t2, p);
    RowDifference(t1.a, t1.b, t1.c, t2.a, t2.b, t2.c, p.x, p.z);
    RowDifference(t1.d, t1.e, t1.f, t2.d, t2.e, t2.f, p.x, p.z);
  }

  lemma RowDifference(a1: real, b1: real, c1: real, a2: real, b2: real, c2: real, x: real, z: real)
    requires a1 * x + b1 * z + c1 == a2 * x + b2 * z + c2
    ensures (a1 - a2) * x + (b1 - b2) * z + (c1 - c2) == 0.0
  {
    assert (a1 - a2) * x == a1 * x - a2 * x;
    assert (b1 - b2) * z == b1 * z - b2 * z;
  }

  /** A row (da, db, dc) that vanishes on three non-collinear points is zero. */
  lemma CoefficientsAgree(da: real, db: real, dc: real, p: Position3D, q: Position3D, w: Position3D)
    requires Cross2(q.x - p.x, q.z - p.z, w.x - p.x, w.z - p.z) != 0.0
    requires da * p.x + db * p.z + dc == 0.0
    requires da * q.x + db * q.z + dc == 0.0
    requires da * w.x + db * w.z + dc == 0.0
    ensures da == 0.0 && db == 0.0 && dc == 0.0
  {
    assert Dot(q.x - p.x, q.z - p.z, da, db) == 0.0;
    assert Dot(w.x - p.x, w.z - p.z, da, db) == 0.0;
    OrthogonalToBoth(da, db, q.x - p.x, q.z - p.z, w.x - p.x, w.z - p.z);
  }

  /**
   * What the numeric kernels do in exact arithmetic. When the game points
   * span the plane, [x, z, 1] has full column rank: lstsq then returns the
   * exact fit whenever one exists, and so does the weighted normal-equation
   * solve, whose Gaussian weights are all positive. With every point on one
   * line the weighted system is singular and np.linalg.solve raises.
   */
  ghost predicate ExactSolvers(s: Solvers)
  {
    && (forall pts, t :: Spanning(pts) && Fits(t, pts) ==> s.basic(pts) == t)
    && (forall pts :: s.weighted(pts).Some? <==> Spanning(pts))
    && (forall pts, t :: Spanning(pts) && Fits(t, pts) ==> s.weighted(pts) == Some(t))
  }

  /**
   * With exact kernels the weighted fit of calculate_affine_transform raises
   * exactly when the game points are collinear, and otherwise returns every
   * transform that fits all points, which FitUnique makes the only one.
   */
  lemma WeightedFit(s: Solvers, pts: seq<CalibrationPoint>, t: Transform)
    requires ExactSolvers(s)
    ensures Weighted(s, pts) == Err(SingularSystem) <==> !Spanning(pts)
    ensures Spanning(pts) && Fits(t, pts) ==> Weighted(s, pts) == Ok(t)
  {
  }

  // ---------------------------------------------------------------- self-test

  /** The affine transform the module's self-test points determine. */
  const SelfTestFit: Transform := Transform(2.0, 0.0, 300.0, 0.0, 2.0, -100.0)

  /**
   * The self-test points (100, 200) -> (500, 300), (150, 250) -> (600, 400)
   * and (200, 200) -> (700, 300) fit exactly one affine transform:
   * map_x = 2·x + 300, map_y = 2·z − 100.
   */
  lemma SelfTestSolution(t: Transform)
    ensures (&& ApplyXZ(t, 100.0, 200.0) == (500.0, 300.0)
             && ApplyXZ(t, 150.0, 250.0) == (600.0, 400.0)
             && ApplyXZ(t, 200.0, 200.0) == (700.0, 300.0))
        <==> t == SelfTestFit
  {
  }

  /** The self-test query position (125, 225) maps to (550, 350). */
  lemma SelfTestQuery(t: Transform)
    requires ApplyXZ(t, 100.0, 200.0) == (500.0, 300.0)
    requires ApplyXZ(t, 150.0, 250.0) == (600.0, 400.0)
    requires ApplyXZ(t, 200.0, 200.0) == (700.0, 300.0)
    ensures ApplyXZ(t, 125.0, 225.0) == (550.0, 350.0)
  {
    SelfTestSolution(t);
  }

  /** The module's three self-test points, all taken at the same time. */
  function SelfTestPoints(timestamp: string): seq<CalibrationPoint>
  {
    [ CalibrationPoint(Position3D(100.0, 0.0, 200.0), 500.0, 300.0, timestamp),
      CalibrationPoint(Position3D(150.0, 0.0, 250.0), 600.0, 400.0, timestamp),
      CalibrationPoint(Position3D(200.0, 0.0, 200.0), 700.0, 300.0, timestamp) ]
  }

  /**
   * The module's self-test run against exact kernels: three points take the
   * basic least-squares path and give back 2·x + 300, 2·z − 100, which maps
   * the query (125, 225) to (550, 350), and validate_transform reports zero
   * error on every point. The residual length stays abstract as `norm`; only
   * its value at the origin matters here.
   */
  method SelfTest(s: Solvers, norm: ((real, real)) -> real, timestamp: string)
    returns (r: Result<Transform, TransformError>, avgError: Option<real>, errors: seq<(real, real)>)
    requires ExactSolvers(s) && norm((0.0, 0.0)) == 0.0
    ensures r == Ok(SelfTestFit)
    ensures ApplyXZ(r.value, 125.0, 225.0) == (550.0, 350.0)
    ensures errors == [(0.0, 0.0), (0.0, 0.0), (0.0, 0.0)] && avgError == Some(0.0)
  {
    var points := SelfTestPoints(timestamp);
    SelfTestBasic(s, timestamp);
    r := CalculateAffineTransform(points, None, true, s, []);
    SelfTestQuery(SelfTestFit);
    var t := r.value;
    avgError, errors := ValidateTransform(t, points, norm);
    SelfTestErrorsZero(timestamp, errors);
    SumNormsOfZeros(norm);
  }

  lemma SelfTestBasic(s: Solvers, timestamp: string)
    requires ExactSolvers(s)
    ensures s.basic(SelfTestPoints(timestamp)) == SelfTestFit
  {
    SelfTestPointsFit(timestamp);
  }

  lemma SelfTestErrorsZero(timestamp: string, errors: seq<(real, real)>)
    requires |errors| == 3
    requires forall i :: 0 <= i < 3 ==> errors[i] == Residual(SelfTestFit, SelfTestPoints(timestamp)[i])
    ensures errors == [(0.0, 0.0), (0.0, 0.0), (0.0, 0.0)]
  {
    var p := SelfTestPoints(timestamp);
    assert errors[0] == Residual(SelfTestFit, p[0]) == (0.0, 0.0);
    assert errors[1] == Residual(SelfTestFit, p[1]) == (0.0, 0.0);
    assert errors[2] == Residual(SelfTestFit, p[2]) == (0.0, 0.0);
  }

  lemma SumNormsOfZeros(norm: ((real, real)) -> real)
    requires norm((0.0, 0.0)) == 0.0
    ensures SumNorms([(0.0, 0.0), (0.0, 0.0), (0.0, 0.0)], norm) == 0.0
  {
    var e: seq<(real, real)> := [];
    var z1, z2, z3 := e + [(0.0, 0.0)], e + [(0.0, 0.0), (0.0, 0.0)], e + [(0.0, 0.0), (0.0, 0.0), (0.0, 0.0)];
    assert z1[..0] == e && z2[..1] == z1 && z3[..2] == z2;
    assert SumNorms(z1, norm) == 0.0;
    assert SumNorms(z2, norm) == 0.0;
  }

  lemma SelfTestPointsFit(timestamp: string)
    ensures Spanning(SelfTestPoints(timestamp)) && Fits(SelfTestFit, SelfTestPoints(timestamp))
  {
    var points := SelfTestPoints(timestamp);
    assert GameCross(points, 0, 1, 2) != 0.0;
  }
}
