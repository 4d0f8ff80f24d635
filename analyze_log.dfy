/**
 * The teleoperation log analyser: every CSV row is split into per-joint
 * samples (input, output, normalised value), collected in one list triple
 * per joint, and summarised per arm joint as a bias (mean of output minus
 * input), the input and output ranges and the share of saturated
 * normalised values; the gripper gets its ranges only.
 * File selection, argument parsing and the table layout are not modelled.
 */
module AnalyzeLog {
  import opened Wrappers
  import opened Numeric

  // ---------------------------------------------------------------------------
  // `mean`

  /** `mean`: 0.0 for an empty list, otherwise the sum over the length. */
  function Mean(xs: seq<real>): (m: real)
    ensures |xs| == 0 ==> m == 0.0
    ensures |xs| > 0 ==> m * |xs| as real == Sum(xs)
  {
    if |xs| == 0 then 0.0 else Sum(xs) / |xs| as real
  }

  /** The mean of values within bounds is within the same bounds. */
  lemma MeanBounds(xs: seq<real>, lo: real, hi: real)
    requires |xs| > 0
    requires forall i :: 0 <= i < |xs| ==> lo <= xs[i] <= hi
    ensures lo <= Mean(xs) <= hi
  {
    SumBounds(xs, lo, hi);
    var n := |xs| as real;
    var m := Mean(xs);
    assert m * n == Sum(xs);
    assert n * lo <= m * n <= n * hi;
    assert (m - lo) * n >= 0.0 && (hi - m) * n >= 0.0;
  }

  /** `[o - inp for o, inp in zip(outputs, inputs)]`: zip stops at the shorter list. */
  function Diffs(outputs: seq<real>, inputs: seq<real>): (d: seq<real>)
    ensures |d| == (if |outputs| <= |inputs| then |outputs| else |inputs|)
    ensures forall k :: 0 <= k < |d| ==> d[k] == outputs[k] - inputs[k]
  {
    if |outputs| == 0 || |inputs| == 0 then []
    else [outputs[0] - inputs[0]] + Diffs(outputs[1..], inputs[1..])
  }

  lemma {:induction false} SumOfDiffs(outputs: seq<real>, inputs: seq<real>)
    requires |outputs| == |inputs|
    ensures Sum(Diffs(outputs, inputs)) == Sum(outputs) - Sum(inputs)
  {
    if |outputs| > 0 {
      SumOfDiffs(outputs[1..], inputs[1..]);
    }
  }

  lemma QuotientOfDifference(x: real, y: real, n: real)
    requires n > 0.0
    ensures (x - y) / n == x / n - y / n
  {
  }

  /** The bias of equally long lists is the mean output minus the mean input. */
  lemma BiasIsDifferenceOfMeans(outputs: seq<real>, inputs: seq<real>)
    requires |outputs| == |inputs|
    ensures Mean(Diffs(outputs, inputs)) == Mean(outputs) - Mean(inputs)
  {
    SumOfDiffs(outputs, inputs);
    var d := Diffs(outputs, inputs);
    if |d| > 0 {
      var n := |d| as real;
      var so, si := Sum(outputs), Sum(inputs);
      assert Mean(d) == (so - si) / n;
      assert Mean(outputs) == so / n && Mean(inputs) == si / n;
      QuotientOfDifference(so, si, n);
    }
  }

  // ---------------------------------------------------------------------------
  // Rows of the log

  /** The columns the analyser reads. */
  datatype Column = Input(joint: int) | Output(joint: int) | Norm(joint: int) | GripperOut

  /**
   * A cell of a `csv.DictReader` row: text that `float` parses or rejects,
   * or the `None` a short row gets for its missing trailing fields.
   */
  datatype Field = Text(parsed: Option<real>) | Absent

  /** A row: only the columns of the header are keys. */
  type Row = map<Column, Field>

  /** What reading one cell gives: a number, a skip (`KeyError`, `ValueError`) or a crash (`float(None)`, a `TypeError`). */
  datatype Read = Number(v: real) | Skip | Crash

  function ReadField(row: Row, col: Column): Read
  {
    if col !in row then Skip
    else match row[col]
      case Absent => Crash
      case Text(None) => Skip
      case Text(Some(v)) => Number(v)
  }

  /** `row.get("Gripper_Out", 0)`: a file without that column gives 0. */
  function ReadGripperOut(row: Row): (r: Read)
    ensures GripperOut !in row ==> r == Number(0.0)
  {
    if GripperOut !in row then Number(0.0) else ReadField(row, GripperOut)
  }

  /** One joint's contribution from one row. */
  datatype Sample = Taken(inp: real, out: real, norm: real) | Skipped | Crashed

  /** The `try` block for joint `i`, in its order of evaluation: input, then output, then norm. */
  function JointSample(row: Row, i: int): Sample
  {
    match ReadField(row, Input(i))
      case Crash => Crashed
      case Skip => Skipped
      case Number(inp) =>
        if i == 7 then
          match ReadGripperOut(row)
            case Crash => Crashed
            case Skip => Skipped
            case Number(out) => Taken(inp, out, 0.0)
        else
          match ReadField(row, Output(i))
            case Crash => Crashed
            case Skip => Skipped
            case Number(out) =>
              match ReadField(row, Norm(i))
                case Crash => Crashed
                case Skip => Skipped
                case Number(norm) => Taken(inp, out, norm)
  }

  /** The three lists kept for one joint. */
  datatype Series = Series(ins: seq<real>, outs: seq<real>, norms: seq<real>)

  /** A joint's lists after `rows`: the samples taken, in row order. */
  function JointSeries(rows: seq<Row>, i: int): (s: Series)
    ensures |s.ins| == |s.outs| == |s.norms| <= |rows|
  {
    if |rows| == 0 then Series([], [], [])
    else Extend(JointSeries(rows[..|rows| - 1], i), JointSample(rows[|rows| - 1], i))
  }

  /** A taken sample appends to all three lists; any other leaves them alone. */
  function Extend(s: Series, sample: Sample): (r: Series)
    ensures |s.ins| == |s.outs| == |s.norms| ==> |r.ins| == |r.outs| == |r.norms| <= |s.ins| + 1
  {
    match sample
      case Taken(inp, out, norm) => Series(s.ins + [inp], s.outs + [out], s.norms + [norm])
      case Skipped => s
      case Crashed => s
  }

  /** One more row extends each joint's lists by that row's sample. */
  lemma SeriesStep(rows: seq<Row>, n: nat, i: int)
    requires n < |rows|
    ensures JointSeries(rows[..n + 1], i) == Extend(JointSeries(rows[..n], i), JointSample(rows[n], i))
  {
    assert rows[..n + 1][..n] == rows[..n];
    assert rows[..n + 1][n] == rows[n];
  }

  predicate RowCrashes(row: Row)
  {
    exists i :: 1 <= i <= 7 && JointSample(row, i) == Crashed
  }

  predicate AnyCrash(rows: seq<Row>)
  {
    exists k :: 0 <= k < |rows| && RowCrashes(rows[k])
  }

  datatype AnalyzeError = TypeError

  ghost predicate Collected(data: map<int, Series>, rows: seq<Row>)
  {
    && (forall i :: i in data <==> 1 <= i <= 7)
    && forall i :: 1 <= i <= 7 ==> data[i] == JointSeries(rows, i)
  }

  /** The joint dictionary the reading loop builds: keys 1 to 7, each with its samples in row order. */
  function Collect(rows: seq<Row>): (data: map<int, Series>)
    ensures Collected(data, rows)
  {
    map i | 1 <= i <= 7 :: JointSeries(rows, i)
  }

  /**
   * The joint loop for one row: each joint's sample is appended in joint
   * order, and the first crashing cell stops the row (and the script).
   */
  method ReadRow(row: Row, data: map<int, Series>) returns (r: Option<map<int, Series>>)
    requires forall j :: j in data <==> 1 <= j <= 7
    ensures r.None? <==> RowCrashes(row)
    ensures r.Some? ==> (forall j :: j in r.value <==> 1 <= j <= 7)
    ensures r.Some? ==> forall j :: 1 <= j <= 7 ==> r.value[j] == Extend(data[j], JointSample(row, j))
  {
    var acc := data;
    for i := 1 to 8
      invariant forall j :: j in acc <==> 1 <= j <= 7
      invariant forall j :: 1 <= j < i ==> JointSample(row, j) != Crashed
      invariant forall j :: 1 <= j <= 7 ==> acc[j] == if j < i then Extend(data[j], JointSample(row, j)) else data[j]
    {
      var sample := JointSample(row, i);
      match sample
      case Crashed =>
        return None;
      case Skipped =>
        assert acc[i] == Extend(data[i], sample);
      case Taken(inp, out, norm) =>
        var s := acc[i];
        assert Series(s.ins + [inp], s.outs + [out], s.norms + [norm]) == Extend(data[i], sample);
        acc := acc[i := Series(s.ins + [inp], s.outs + [out], s.norms + [norm])];
    }
    return Some(acc);
  }

  /** The reading loop: `data[i]['in' / 'out' / 'norm']` appended together, joint by joint, row by row. */
  method ReadAll(rows: seq<Row>) returns (r: Result<map<int, Series>, AnalyzeError>)
    ensures r.Failure? <==> AnyCrash(rows)
    ensures r.Success? ==> r.value == Collect(rows)
  {
    var data: map<int, Series> := map[];
    for i := 1 to 8
      invariant forall j :: j in data <==> 1 <= j < i
      invariant forall j :: 1 <= j < i ==> data[j] == Series([], [], [])
    {
      data := data[i := Series([], [], [])];
    }
    assert rows[..0] == [];
    for n := 0 to |rows|
      invariant !AnyCrash(rows[..n])
      invariant Collected(data, rows[..n])
    {
      var next := ReadRow(rows[n], data);
      if next.None? {
        assert RowCrashes(rows[n]);
        return Failure(TypeError);
      }
      CollectStep(rows, n, data, next.value);
      NoCrashStep(rows, n);
      data := next.value;
    }
    assert rows[..|rows|] == rows;
    CollectedIsCollect(data, rows);
    return Success(data);
  }

  /** Extending every joint's lists by the next row's sample collects one row more. */
  lemma CollectStep(rows: seq<Row>, n: nat, before: map<int, Series>, after: map<int, Series>)
    requires n < |rows| && Collected(before, rows[..n])
    requires forall j :: j in after <==> 1 <= j <= 7
    requires forall j :: 1 <= j <= 7 ==> after[j] == Extend(before[j], JointSample(rows[n], j))
    ensures Collected(after, rows[..n + 1])
  {
    forall j | 1 <= j <= 7 ensures after[j] == JointSeries(rows[..n + 1], j) {
      SeriesStep(rows, n, j);
    }
  }

  /** A prefix without a crash stays without one when the next row does not crash. */
  lemma NoCrashStep(rows: seq<Row>, n: nat)
    requires n < |rows| && !AnyCrash(rows[..n])
    requires !RowCrashes(rows[n])
    ensures !AnyCrash(rows[..n + 1])
  {
    var longer, shorter := rows[..n + 1], rows[..n];
    forall k | 0 <= k < |longer| ensures !RowCrashes(longer[k]) {
      if k < n { assert longer[k] == shorter[k]; }
    }
  }

  /** The loop's dictionary is the collected one. */
  lemma CollectedIsCollect(data: map<int, Series>, rows: seq<Row>)
    requires Collected(data, rows)
    ensures data == Collect(rows)
  {
  }

  /** Joint 7 records 0.0 as its normalised value; without a `Gripper_Out` column its outputs are 0.0 as well. */
  lemma {:induction false} GripperSeriesDefaults(rows: seq<Row>)
    ensures forall k :: 0 <= k < |JointSeries(rows, 7).norms| ==> JointSeries(rows, 7).norms[k] == 0.0
    ensures (forall k :: 0 <= k < |rows| ==> GripperOut !in rows[k]) ==>
      forall k :: 0 <= k < |JointSeries(rows, 7).outs| ==> JointSeries(rows, 7).outs[k] == 0.0
  {
    if |rows| > 0 {
      var prefix := rows[..|rows| - 1];
      GripperSeriesDefaults(prefix);
      assert forall k :: 0 <= k < |prefix| ==> prefix[k] == rows[k];
    }
  }

  /** A row contributes to joint `i` exactly when all its cells for that joint parse. */
  lemma TakenIff(row: Row, i: int)
    requires i != 7
    ensures JointSample(row, i).Taken? <==>
      ReadField(row, Input(i)).Number? && ReadField(row, Output(i)).Number? && ReadField(row, Norm(i)).Number?
  {
  }

  // ---------------------------------------------------------------------------
  // The summary

  /** `n <= 0.01 or n >= 0.99`: a normalised value at either end of its range. */
  predicate Saturated(n: real)
  {
    n <= 0.01 || n >= 0.99
  }

  function SatCount(norms: seq<real>): (c: nat)
    ensures c <= |norms|
  {
    if |norms| == 0 then 0
    else SatCount(norms[..|norms| - 1]) + (if Saturated(norms[|norms| - 1]) then 1 else 0)
  }

  /** `sat_count / len(norms) * 100`. */
  function SatPercent(norms: seq<real>): (p: real)
    requires |norms| > 0
    ensures 0.0 <= p <= 100.0
  {
    var c, n := SatCount(norms) as real, |norms| as real;
    assert 0.0 <= c / n <= 1.0 by {
      assert c <= n;
      assert c / n <= n / n;
    }
    (c / n) * 100.0
  }

  /** No saturated value gives 0 %, all saturated gives 100 %. */
  lemma {:induction false} SatCountExtremes(norms: seq<real>)
    ensures (forall k :: 0 <= k < |norms| ==> !Saturated(norms[k])) ==> SatCount(norms) == 0
    ensures (forall k :: 0 <= k < |norms| ==> Saturated(norms[k])) ==> SatCount(norms) == |norms|
  {
    if |norms| > 0 {
      var prefix := norms[..|norms| - 1];
      SatCountExtremes(prefix);
      assert forall k :: 0 <= k < |prefix| ==> prefix[k] == norms[k];
    }
  }

  /** One printed arm-joint line. */
  datatype JointSummary = JointSummary(
    joint: int, bias: real, inRange: (real, real), outRange: (real, real), saturation: real)

  function Summarize(i: int, s: Series): (j: JointSummary)
    requires |s.ins| == |s.outs| == |s.norms| > 0
    ensures j.inRange.0 <= j.inRange.1 && j.outRange.0 <= j.outRange.1
    ensures 0.0 <= j.saturation <= 100.0
  {
    JointSummary(i, Mean(Diffs(s.outs, s.ins)),
      (SeqMin(s.ins), SeqMax(s.ins)), (SeqMin(s.outs), SeqMax(s.outs)), SatPercent(s.norms))
  }

  /** Every joint key is present and its three lists have the same length. */
  ghost predicate Balanced(data: map<int, Series>)
  {
    forall i :: 1 <= i <= 7 ==> i in data && |data[i].ins| == |data[i].outs| == |data[i].norms|
  }

  /** The collected lists are balanced: a row adds to all three lists of a joint or to none. */
  lemma CollectedBalanced(data: map<int, Series>, rows: seq<Row>)
    requires Collected(data, rows)
    ensures Balanced(data)
  {
    forall i | 1 <= i <= 7 ensures i in data && |data[i].ins| == |data[i].outs| == |data[i].norms| {
      var s := JointSeries(rows, i);
    }
  }

  /** Joints `lo`..6 for which some input was recorded, in joint order (`if not inputs: continue`). */
  function ReportedJoints(data: map<int, Series>, lo: int): (joints: seq<int>)
    requires Balanced(data)
    requires 1 <= lo <= 7
    ensures forall k :: 0 <= k < |joints| ==> lo <= joints[k] <= 6 && |data[joints[k]].ins| > 0
    decreases 7 - lo
  {
    if lo == 7 then []
    else
      var rest := ReportedJoints(data, lo + 1);
      if |data[lo].ins| == 0 then rest else [lo] + rest
  }

  predicate Increasing(s: seq<int>)
  {
    forall k, l :: 0 <= k < l < |s| ==> s[k] < s[l]
  }

  /** The reported joints come in increasing order. */
  lemma {:induction false} ReportedJointsOrdered(data: map<int, Series>, lo: int)
    requires Balanced(data)
    requires 1 <= lo <= 7
    ensures Increasing(ReportedJoints(data, lo))
    decreases 7 - lo
  {
    if lo < 7 {
      ReportedJointsOrdered(data, lo + 1);
      var joints, rest := ReportedJoints(data, lo), ReportedJoints(data, lo + 1);
      assert Increasing(rest);
      if |data[lo].ins| > 0 {
        assert joints == [lo] + rest;
        forall k, l | 0 <= k < l < |joints| ensures joints[k] < joints[l] {
          assert joints[l] == rest[l - 1];
          assert lo < rest[l - 1];
          if k > 0 {
            assert joints[k] == rest[k - 1];
            assert rest[k - 1] < rest[l - 1];
          }
        }
      }
    }
  }

  /** Every arm joint with a recorded input is reported: only joints without inputs are skipped. */
  lemma {:induction false} ReportedJointsComplete(data: map<int, Series>, lo: int, i: int)
    requires Balanced(data)
    requires 1 <= lo <= i <= 6 && |data[i].ins| > 0
    ensures i in ReportedJoints(data, lo)
    decreases 7 - lo
  {
    if i > lo {
      ReportedJointsComplete(data, lo + 1, i);
    }
  }

  /** The arm-joint lines, one per reported joint. */
  function ArmSummaries(data: map<int, Series>): (lines: seq<JointSummary>)
    requires Balanced(data)
    ensures var joints := ReportedJoints(data, 1);
      |lines| == |joints| && forall k :: 0 <= k < |lines| ==> lines[k] == Summarize(joints[k], data[joints[k]])
  {
    var joints := ReportedJoints(data, 1);
    seq(|joints|, k requires 0 <= k < |joints| => Summarize(joints[k], data[joints[k]]))
  }

  /** The gripper line: input and output ranges, when any gripper input was recorded. */
  function GripperSummary(s: Series): (g: Option<((real, real), (real, real))>)
    requires |s.ins| == |s.outs|
    ensures g.Some? <==> |s.ins| > 0
    ensures g.Some? ==> g.value.0.0 <= g.value.0.1 && g.value.1.0 <= g.value.1.1
  {
    if |s.ins| == 0 then None
    else Some(((SeqMin(s.ins), SeqMax(s.ins)), (SeqMin(s.outs), SeqMax(s.outs))))
  }

  datatype Summary = Summary(arm: seq<JointSummary>, gripper: Option<((real, real), (real, real))>)

  /** The whole report: the arm-joint lines in joint order, then the gripper line. */
  function Report(data: map<int, Series>): Summary
    requires Balanced(data)
  {
    Summary(ArmSummaries(data), GripperSummary(data[7]))
  }

  /** A summarised joint's bias is the mean output minus the mean input over its lists. */
  lemma ReportBias(data: map<int, Series>, k: nat)
    requires Balanced(data)
    requires k < |Report(data).arm|
    ensures var i := ReportedJoints(data, 1)[k]; var s := data[i];
      Report(data).arm[k].bias == Mean(s.outs) - Mean(s.ins)
  {
    var s := data[ReportedJoints(data, 1)[k]];
    BiasIsDifferenceOfMeans(s.outs, s.ins);
  }

  /** `main` after the file is chosen: read every row, then summarise. */
  method Analyze(rows: seq<Row>) returns (r: Result<Summary, AnalyzeError>)
    ensures r.Failure? <==> AnyCrash(rows)
    ensures r.Success? ==> Balanced(Collect(rows)) && r.value == Report(Collect(rows))
  {
    var data := ReadAll(rows);
    if data.Failure? {
      return Failure(data.error);
    }
    CollectedBalanced(data.value, rows);
    return Success(Report(data.value));
  }
}
