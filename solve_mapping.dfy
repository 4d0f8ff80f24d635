/**
 * The offline calibration solver: read a leader log and a baseline (ground
 * truth follower) log, stretch the baseline's time axis to the leader's
 * duration, resample the baseline at the leader's timestamps, fit
 * `baseline = m * leader + c` per joint, and turn each fit into a proposed
 * follower range for the mapping engine.
 *
 * The interpolation and the regression are library code in the original;
 * here they are parameters `interp` and `regress` of the solver.
 */
module SolveMapping {
  import opened Wrappers
  import opened Config
  import opened CsvLog
  import Mapping
  import Numeric

  /** A whole file: the first line is the header; an empty file gives two empty series. */
  function CsvSeries(lines: seq<Row>): (seq<real>, seq<seq<real>>)
  {
    if |lines| == 0 then ([], []) else Parsed(lines[1..])
  }

  /** `read_csv`: skip the header (or return empty series if there is none), then the row loop. */
  method ReadCsv(lines: seq<Row>) returns (timestamps: seq<real>, data: seq<seq<real>>)
    ensures (timestamps, data) == CsvSeries(lines)
    ensures |lines| == 0 ==> timestamps == [] && data == []
    ensures |timestamps| == |data|
  {
    if |lines| == 0 {
      return [], [];
    }
    timestamps, data := ReadRows(lines[1..]);
  }

  function Last(s: seq<real>): real
    requires |s| > 0
  {
    s[|s| - 1]
  }

  /** Baseline times stretched by `dur_lead / dur_base` when the baseline lasts more than 0 s. */
  function TimeScaled(tLead: seq<real>, tBase: seq<real>): seq<real>
    requires |tLead| > 0 && |tBase| > 0
  {
    var durLead, durBase := Last(tLead), Last(tBase);
    if durBase > 0.0 then seq(|tBase|, k requires 0 <= k < |tBase| => tBase[k] * (durLead / durBase))
    else tBase
  }

  /** After scaling, the baseline ends where the leader ends; otherwise it is left alone. */
  lemma TimeScaledDuration(tLead: seq<real>, tBase: seq<real>)
    requires |tLead| > 0 && |tBase| > 0
    ensures |TimeScaled(tLead, tBase)| == |tBase|
    ensures Last(tBase) > 0.0 ==> Last(TimeScaled(tLead, tBase)) == Last(tLead)
    ensures Last(tBase) <= 0.0 ==> TimeScaled(tLead, tBase) == tBase
  {
    var durLead, durBase := Last(tLead), Last(tBase);
    if durBase > 0.0 {
      assert durBase * (durLead / durBase) == durLead;
    }
  }

  /** Scaling by a positive factor keeps the order of the baseline's timestamps. */
  lemma TimeScaledKeepsOrder(tLead: seq<real>, tBase: seq<real>, j: nat, k: nat)
    requires |tLead| > 0 && |tBase| > 0 && Last(tLead) > 0.0
    requires j < k < |tBase| && tBase[j] <= tBase[k]
    ensures TimeScaled(tLead, tBase)[j] <= TimeScaled(tLead, tBase)[k]
  {
    var durLead, durBase := Last(tLead), Last(tBase);
    if durBase > 0.0 {
      var f := durLead / durBase;
      assert f > 0.0;
      Numeric.MulNonNegative(tBase[k] - tBase[j], f);
      assert tBase[k] * f - tBase[j] * f == (tBase[k] - tBase[j]) * f;
    }
  }

  // ---------------------------------------------------------------------------
  // Turning a fit into follower limits.

  /** The follower range for which normalise-then-map reproduces `m * x + c` (lines 196-201). */
  function DeriveLimits(inMin: real, inMax: real, m: real, c: real): (r: Pair)
    ensures r.1 - r.0 == m * (inMax - inMin)
  {
    var inRange := inMax - inMin;
    var targetRange := m * inRange;
    var targetMin := c + inMin * m;
    var targetMax := targetMin + targetRange;
    (targetMin, targetMax)
  }

  /** Normalising over the leader range and interpolating onto the derived range is exactly the fitted line. */
  lemma DerivedLimitsReproduceFit(inMin: real, inMax: real, m: real, c: real, x: real)
    requires inMin != inMax
    ensures var (tMin, tMax) := DeriveLimits(inMin, inMax, m, c);
            (x - inMin) / (inMax - inMin) * (tMax - tMin) + tMin == m * x + c
  {
    var (tMin, tMax) := DeriveLimits(inMin, inMax, m, c);
    var d := inMax - inMin;
    var n := (x - inMin) / d;
    assert n * d == x - inMin;
    calc {
      n * (tMax - tMin) + tMin;
      n * (m * d) + c + inMin * m;
      { assert n * (m * d) == (n * d) * m; }
      (x - inMin) * m + c + inMin * m;
      m * x + c;
    }
  }

  /**
   * Fed back into the mapping engine (non-inverted joint, no home offset),
   * the derived range reproduces the fit for every input inside the leader
   * range, where the clamp does not act.
   */
  lemma EngineReproducesFit(cfg: Config, i: nat, m: real, c: real, x: real)
    requires Mapping.LeaderLimit(cfg, i).0 != Mapping.LeaderLimit(cfg, i).1
    requires Mapping.HomeOffset(cfg, i) == 0.0 && !Mapping.Inverted(cfg, i)
    requires Mapping.FollowerLimit(cfg, i) == DeriveLimits(Mapping.LeaderLimit(cfg, i).0, Mapping.LeaderLimit(cfg, i).1, m, c)
    requires 0.0 <= Mapping.Normalized(cfg, i, x) <= 1.0
    ensures Mapping.JointTarget(cfg, i, x) == m * x + c
  {
    var (a, b) := Mapping.LeaderLimit(cfg, i);
    Mapping.InRangeInterpolates(cfg, i, x);
    DerivedLimitsReproduceFit(a, b, m, c, x);
  }

  /**
   * The derivation assumes a non-inverted joint: on an inverted joint (J1 and
   * J6 as configured) the engine produces the fitted line mirrored inside the range.
   */
  lemma InvertedJointMirrorsFit(cfg: Config, i: nat, m: real, c: real, x: real)
    requires Mapping.LeaderLimit(cfg, i).0 != Mapping.LeaderLimit(cfg, i).1
    requires Mapping.HomeOffset(cfg, i) == 0.0 && Mapping.Inverted(cfg, i)
    requires Mapping.FollowerLimit(cfg, i) == DeriveLimits(Mapping.LeaderLimit(cfg, i).0, Mapping.LeaderLimit(cfg, i).1, m, c)
    requires 0.0 <= Mapping.Normalized(cfg, i, x) <= 1.0
    ensures var (tMin, tMax) := Mapping.FollowerLimit(cfg, i);
            Mapping.JointTarget(cfg, i, x) == tMin + tMax - (m * x + c)
  {
    var (a, b) := Mapping.LeaderLimit(cfg, i);
    var (tMin, tMax) := Mapping.FollowerLimit(cfg, i);
    var n := Mapping.Normalized(cfg, i, x);
    Mapping.InRangeInterpolates(cfg, i, x);
    DerivedLimitsReproduceFit(a, b, m, c, x);
    assert tMax + n * (tMin - tMax) == tMin + tMax - (n * (tMax - tMin) + tMin);
  }

  /** An identity fit (slope 1, intercept 0) proposes the leader range itself. */
  lemma IdentityFitKeepsRange(inMin: real, inMax: real)
    ensures DeriveLimits(inMin, inMax, 1.0, 0.0) == (inMin, inMax)
  {
  }

  /** No small-slope guard: a flat fit collapses the proposed range to one point, with no flag raised. */
  lemma FlatFitCollapsesRange(inMin: real, inMax: real, c: real)
    ensures DeriveLimits(inMin, inMax, 0.0, c) == (c, c)
  {
  }

  // ---------------------------------------------------------------------------
  // The unused helper `suggest_limits` (before its rounding to one decimal).

  /** Rescale the current range by 1/slope around the current centre shifted by -intercept. */
  function SuggestLimits(currentMin: real, currentMax: real, slope: real, intercept: real): (r: Pair)
    ensures Numeric.Abs(slope) < 0.01 ==> r == (currentMin, currentMax)
    ensures Numeric.Abs(slope) >= 0.01 ==> r.1 - r.0 == (currentMax - currentMin) / slope
    ensures Numeric.Abs(slope) >= 0.01 ==> (r.0 + r.1) / 2.0 == (currentMax + currentMin) / 2.0 - intercept
  {
    if Numeric.Abs(slope) < 0.01 then (currentMin, currentMax)
    else
      var currentRange := currentMax - currentMin;
      var newRange := currentRange / slope;
      var center := (currentMax + currentMin) / 2.0;
      var newCenter := center - intercept;
      (newCenter - newRange / 2.0, newCenter + newRange / 2.0)
  }

  /** A perfect fit (slope 1, intercept 0) leaves the current range as it is. */
  lemma SuggestLimitsIdentity(currentMin: real, currentMax: real)
    ensures SuggestLimits(currentMin, currentMax, 1.0, 0.0) == (currentMin, currentMax)
  {
  }

  // ---------------------------------------------------------------------------
  // The solver's main flow.

  datatype SolveError =
    | EmptyData          // "Error: Empty data." and exit
    | MalformedColumns   // numpy raises: ragged rows, or fewer than six angle columns

  datatype Proposal = Proposal(slope: real, intercept: real, newMin: real, newMax: real)

  /** All rows hold the same number of values, so numpy builds a matrix from them. */
  predicate Rectangular(d: seq<seq<real>>)
  {
    forall k :: 0 <= k < |d| ==> |d[k]| == |d[0]|
  }

  predicate HasColumns(d: seq<seq<real>>, n: nat)
  {
    forall k :: 0 <= k < |d| ==> |d[k]| >= n
  }

  /** `d[:, i]`. */
  function Column(d: seq<seq<real>>, i: nat): (col: seq<real>)
    requires HasColumns(d, i + 1)
    ensures |col| == |d| && forall k :: 0 <= k < |d| ==> col[k] == d[k][i]
  {
    seq(|d|, k requires 0 <= k < |d| => d[k][i])
  }

  /** The baseline's joint `i` evaluated at every leader timestamp. */
  function Resampled(interp: (seq<real>, seq<real>, real) -> real,
                     tBaseScaled: seq<real>, dBase: seq<seq<real>>, tLead: seq<real>, i: nat): (col: seq<real>)
    requires HasColumns(dBase, i + 1)
    ensures |col| == |tLead|
  {
    seq(|tLead|, k requires 0 <= k < |tLead| => interp(tBaseScaled, Column(dBase, i), tLead[k]))
  }

  /** The proposal for joint `i` from the fit of the resampled baseline against the leader input. */
  function JointProposal(leaderLimits: seq<Pair>, i: nat, fit: (real, real)): (p: Proposal)
    requires i < |leaderLimits|
    ensures (p.newMin, p.newMax) == DeriveLimits(leaderLimits[i].0, leaderLimits[i].1, p.slope, p.intercept)
    ensures p.slope == fit.0 && p.intercept == fit.1
  {
    var (inMin, inMax) := leaderLimits[i];
    var (tMin, tMax) := DeriveLimits(inMin, inMax, fit.0, fit.1);
    Proposal(fit.0, fit.1, tMin, tMax)
  }

  /** The six proposals of a successful run, from the parsed and time-aligned logs. */
  function Proposals(leaderLimits: seq<Pair>, tLead: seq<real>, dLead: seq<seq<real>>,
                     tBase: seq<real>, dBase: seq<seq<real>>,
                     interp: (seq<real>, seq<real>, real) -> real,
                     regress: (seq<real>, seq<real>) -> (real, real)): (ps: seq<Proposal>)
    requires |leaderLimits| >= 6 && |tLead| > 0 && |tBase| > 0
    requires HasColumns(dLead, 6) && HasColumns(dBase, 6)
    ensures |ps| == 6
  {
    seq(6, i requires 0 <= i < 6 =>
      JointProposal(leaderLimits, i, regress(Column(dLead, i), Resampled(interp, TimeScaled(tLead, tBase), dBase, tLead, i))))
  }

  /** Fills the resampled matrix column by column, as `d_base_resampled[:, i] = interp(t_lead)`. */
  method ResampleColumns(interp: (seq<real>, seq<real>, real) -> real,
                         tBaseScaled: seq<real>, dBase: seq<seq<real>>, tLead: seq<real>)
    returns (resampled: array2<real>)
    requires HasColumns(dBase, 6)
    ensures fresh(resampled) && resampled.Length0 == |tLead| && resampled.Length1 == 6
    ensures forall k, j :: 0 <= k < |tLead| && 0 <= j < 6 ==>
      resampled[k, j] == Resampled(interp, tBaseScaled, dBase, tLead, j)[k]
  {
    var n := |tLead|;
    resampled := new real[n, 6];
    for i := 0 to 6
      invariant forall k, j :: 0 <= k < n && 0 <= j < i ==>
        resampled[k, j] == Resampled(interp, tBaseScaled, dBase, tLead, j)[k]
    {
      var column := Column(dBase, i);
      for k := 0 to n
        invariant forall k', j :: 0 <= k' < n && 0 <= j < i ==>
          resampled[k', j] == Resampled(interp, tBaseScaled, dBase, tLead, j)[k']
        invariant forall k' :: 0 <= k' < k ==>
          resampled[k', i] == Resampled(interp, tBaseScaled, dBase, tLead, i)[k']
      {
        resampled[k, i] := interp(tBaseScaled, column, tLead[k]);
      }
    }
  }

  /** The regression loop: fit each joint and append its derived limits. */
  method FitJoints(leaderLimits: seq<Pair>, dLead: seq<seq<real>>, resampled: array2<real>,
                   regress: (seq<real>, seq<real>) -> (real, real))
    returns (newLimits: seq<Proposal>)
    requires |leaderLimits| >= 6 && HasColumns(dLead, 6)
    requires resampled.Length0 == |dLead| && resampled.Length1 == 6
    ensures |newLimits| == 6
    ensures forall j :: 0 <= j < 6 ==>
      newLimits[j] == JointProposal(leaderLimits, j,
        regress(Column(dLead, j), seq(|dLead|, k requires 0 <= k < |dLead| reads resampled => resampled[k, j])))
  {
    var n := |dLead|;
    newLimits := [];
    for i := 0 to 6
      invariant |newLimits| == i
      invariant forall j :: 0 <= j < i ==>
        newLimits[j] == JointProposal(leaderLimits, j,
          regress(Column(dLead, j), seq(n, k requires 0 <= k < n reads resampled => resampled[k, j])))
    {
      var x := Column(dLead, i);
      var y := seq(n, k requires 0 <= k < n reads resampled => resampled[k, i]);
      var (m, c) := regress(x, y);
      var (inMin, inMax) := leaderLimits[i];
      var inRange := inMax - inMin;
      var targetRange := m * inRange;
      var targetMin := c + inMin * m;
      var targetMax := targetMin + targetRange;
      newLimits := newLimits + [Proposal(m, c, targetMin, targetMax)];
    }
  }

  /**
   * `main` after the files are chosen: read both logs, stop on malformed or
   * empty data, align time, resample, then fit and derive one proposal per joint.
   */
  method Solve(cfg: Config, leaderLines: seq<Row>, baseLines: seq<Row>,
               interp: (seq<real>, seq<real>, real) -> real,
               regress: (seq<real>, seq<real>) -> (real, real))
    returns (r: Result<seq<Proposal>, SolveError>)
    requires |cfg.leaderLimits| >= 6 && |cfg.followerLimits| >= 6
    ensures var (tLead, dLead) := CsvSeries(leaderLines);
            var (tBase, dBase) := CsvSeries(baseLines);
            r == Failure(MalformedColumns) <==>
              !Rectangular(dLead) || !Rectangular(dBase)
              || (|tLead| > 0 && |tBase| > 0 && (!HasColumns(dLead, 6) || !HasColumns(dBase, 6)))
    ensures var (tLead, dLead) := CsvSeries(leaderLines);
            var (tBase, dBase) := CsvSeries(baseLines);
            r == Failure(EmptyData) <==> Rectangular(dLead) && Rectangular(dBase) && (|tLead| == 0 || |tBase| == 0)
    ensures var (tLead, dLead) := CsvSeries(leaderLines);
            var (tBase, dBase) := CsvSeries(baseLines);
            r.Success? ==>
              && |tLead| > 0 && |tBase| > 0 && HasColumns(dLead, 6) && HasColumns(dBase, 6)
              && r.value == Proposals(cfg.leaderLimits, tLead, dLead, tBase, dBase, interp, regress)
  {
    var tLead, dLead := ReadCsv(leaderLines);
    var tBase, dBase := ReadCsv(baseLines);
    if !Rectangular(dLead) || !Rectangular(dBase) {
      return Failure(MalformedColumns);
    }
    if |tLead| == 0 || |tBase| == 0 {
      return Failure(EmptyData);
    }
    if !HasColumns(dLead, 6) || !HasColumns(dBase, 6) {
      return Failure(MalformedColumns);
    }

    var durLead := tLead[|tLead| - 1];
    var durBase := tBase[|tBase| - 1];
    var tBaseScaled;
    if durBase > 0.0 {
      var scale := durLead / durBase;
      tBaseScaled := seq(|tBase|, k requires 0 <= k < |tBase| => tBase[k] * scale);
    } else {
      tBaseScaled := tBase;
    }
    assert tBaseScaled == TimeScaled(tLead, tBase);

    var resampled := ResampleColumns(interp, tBaseScaled, dBase, tLead);
    var newLimits := FitJoints(cfg.leaderLimits, dLead, resampled, regress);
    forall j | 0 <= j < 6
      ensures seq(|dLead|, k requires 0 <= k < |dLead| reads resampled => resampled[k, j])
              == Resampled(interp, tBaseScaled, dBase, tLead, j)
    {
    }
    return Success(newLimits);
  }

  /** Every proposal the solver returns reproduces its own fitted line through the mapping arithmetic. */
  lemma ProposalReproducesFit(leaderLimits: seq<Pair>, i: nat, fit: (real, real), x: real)
    requires i < |leaderLimits| && leaderLimits[i].0 != leaderLimits[i].1
    ensures var p := JointProposal(leaderLimits, i, fit);
            var (inMin, inMax) := leaderLimits[i];
            (x - inMin) / (inMax - inMin) * (p.newMax - p.newMin) + p.newMin == fit.0 * x + fit.1
  {
    DerivedLimitsReproduceFit(leaderLimits[i].0, leaderLimits[i].1, fit.0, fit.1, x);
  }
}
