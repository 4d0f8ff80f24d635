/**
 * The comparison tool: read a leader log and a baseline log, align the
 * baseline's time axis to the leader's, and run every leader row through the
 * live mapping engine. Plotting is not modelled.
 */
module CompareTrajectories {
  import opened Wrappers
  import opened Config
  import opened CsvLog
  import Mapping
  import SolveMapping

  datatype ReadError =
    | StopIteration   // `next(reader)` on an empty file: there is no guard here
    | RaggedRows      // `np.array(data)` on angle rows of different widths raises ValueError

  /** The file has a header and its kept angle rows differ in width. */
  predicate Ragged(lines: seq<Row>)
  {
    |lines| > 0 && !SolveMapping.Rectangular(Parsed(lines[1..]).1)
  }

  /**
   * `read_csv` of this script: like the solver's, but an empty file raises
   * instead of returning empty series, and ragged rows make the final `np.array` raise.
   */
  method ReadCsv(lines: seq<Row>) returns (r: Result<(seq<real>, seq<seq<real>>), ReadError>)
    ensures |lines| == 0 <==> r == Failure(StopIteration)
    ensures Ragged(lines) <==> r == Failure(RaggedRows)
    ensures r.Success? ==> r.value == Parsed(lines[1..]) && SolveMapping.Rectangular(r.value.1)
  {
    if |lines| == 0 {
      return Failure(StopIteration);
    }
    var timestamps, data := ReadRows(lines[1..]);
    if !SolveMapping.Rectangular(data) {
      return Failure(RaggedRows);
    }
    return Success((timestamps, data));
  }

  /** A full row followed by a row with only two angles: `np.array(data)` cannot build a matrix. */
  lemma ShortSecondRowIsRagged(h: Row)
    ensures Ragged([h, [Some(0.0), Some(1.0), Some(2.0), Some(3.0), Some(4.0), Some(5.0), Some(6.0)],
                       [Some(1.0), Some(1.0), Some(2.0)]])
  {
    var full: Row := [Some(0.0), Some(1.0), Some(2.0), Some(3.0), Some(4.0), Some(5.0), Some(6.0)];
    var short: Row := [Some(1.0), Some(1.0), Some(2.0)];
    var rows := [full, short];
    assert [h, full, short][1..] == rows;
    assert |RowAngles(full).value| == 6 && |RowAngles(short).value| == 2;
    KeptRowsAppend([full], [short]);
    KeptRowsSingle(full);
    KeptRowsSingle(short);
    assert [full] + [short] == rows;
    assert KeptRows(rows) == rows;
    assert rows[..1] == [full];
    assert FirstTime(rows).Some?;
    ParsedAt(rows, 0);
    ParsedAt(rows, 1);
  }

  /** The last relative timestamp, or 0 for an empty series. */
  function Duration(ts: seq<real>): (d: real)
    ensures |ts| == 0 ==> d == 0.0
    ensures |ts| > 0 ==> d == ts[|ts| - 1]
  {
    if |ts| > 0 then ts[|ts| - 1] else 0.0
  }

  /** Baseline times stretched to the leader duration only when both durations are positive. */
  function AlignBaseline(tLeader: seq<real>, tBase: seq<real>): (scaled: seq<real>)
    ensures |scaled| == |tBase|
    ensures Duration(tBase) > 0.0 && Duration(tLeader) > 0.0 ==> Duration(scaled) == Duration(tLeader)
    ensures !(Duration(tBase) > 0.0 && Duration(tLeader) > 0.0) ==> scaled == tBase
  {
    var durLeader, durBase := Duration(tLeader), Duration(tBase);
    if durBase > 0.0 && durLeader > 0.0 then
      var scale := durLeader / durBase;
      assert durBase * scale == durLeader;
      seq(|tBase|, k requires 0 <= k < |tBase| => tBase[k] * scale)
    else tBase
  }

  /**
   * The two scripts disagree when the leader lasts 0 s: the solver still
   * scales (collapsing every baseline time to 0), this tool leaves them alone.
   */
  lemma ScalingRulesDiffer()
    ensures SolveMapping.TimeScaled([0.0], [0.0, 2.0]) == [0.0, 0.0]
    ensures AlignBaseline([0.0], [0.0, 2.0]) == [0.0, 2.0]
  {
  }

  /** Away from that corner the two rules agree. */
  lemma ScalingRulesAgree(tLeader: seq<real>, tBase: seq<real>)
    requires |tLeader| > 0 && |tBase| > 0
    requires Duration(tLeader) > 0.0 || Duration(tBase) <= 0.0
    ensures SolveMapping.TimeScaled(tLeader, tBase) == AlignBaseline(tLeader, tBase)
  {
  }

  /** The `predicted_output` loop: one mapped row per leader row. */
  method PredictOutputs(cfg: Config, rows: seq<seq<real>>) returns (predicted: seq<seq<real>>)
    ensures |predicted| == |rows|
    ensures forall k :: 0 <= k < |rows| ==> predicted[k] == Mapping.ArmAngles(cfg, rows[k]).0
    ensures forall k, i :: 0 <= k < |rows| && |rows[k]| >= 6 && 0 <= i < 6 ==>
      |predicted[k]| == 6 && Mapping.SafeMin(cfg, i) <= predicted[k][i] <= Mapping.SafeMax(cfg, i)
  {
    predicted := [];
    for k := 0 to |rows|
      invariant |predicted| == k
      invariant forall j :: 0 <= j < k ==> predicted[j] == Mapping.ArmAngles(cfg, rows[j]).0
      invariant forall j, i :: 0 <= j < k && |rows[j]| >= 6 && 0 <= i < 6 ==>
        |predicted[j]| == 6 && Mapping.SafeMin(cfg, i) <= predicted[j][i] <= Mapping.SafeMax(cfg, i)
    {
      var mapped, _ := Mapping.ProcessArmAngles(cfg, rows[k]);
      predicted := predicted + [mapped];
    }
  }

  datatype Comparison = Comparison(tLeader: seq<real>, tBaseScaled: seq<real>, predicted: seq<seq<real>>)

  /** `main` without the plotting: both reads (the leader's first, each failing on its own), the alignment and the predictions. */
  method Compare(cfg: Config, leaderLines: seq<Row>, baseLines: seq<Row>)
    returns (r: Result<Comparison, ReadError>)
    ensures r == Failure(StopIteration) <==> |leaderLines| == 0 || (!Ragged(leaderLines) && |baseLines| == 0)
    ensures r == Failure(RaggedRows) <==> Ragged(leaderLines) || (|leaderLines| > 0 && Ragged(baseLines))
    ensures r.Success? ==> |leaderLines| > 0 && |baseLines| > 0 && !Ragged(leaderLines) && !Ragged(baseLines)
    ensures r.Success? ==>
      var (tLeader, dLeader) := Parsed(leaderLines[1..]);
      var (tBase, _) := Parsed(baseLines[1..]);
      && r.value.tLeader == tLeader
      && r.value.tBaseScaled == AlignBaseline(tLeader, tBase)
      && |r.value.predicted| == |dLeader|
      && forall k :: 0 <= k < |dLeader| ==> r.value.predicted[k] == Mapping.ArmAngles(cfg, dLeader[k]).0
  {
    var leader := ReadCsv(leaderLines);
    if leader.Failure? {
      match leader.error
      case StopIteration => return Failure(StopIteration);
      case RaggedRows => return Failure(RaggedRows);
    }
    var base := ReadCsv(baseLines);
    if base.Failure? {
      return Failure(base.error);
    }
    var (tLeader, dLeader) := leader.value;
    var (tBase, _) := base.value;
    var tBaseScaled := AlignBaseline(tLeader, tBase);
    var predicted := PredictOutputs(cfg, dLeader);
    return Success(Comparison(tLeader, tBaseScaled, predicted));
  }
}
