/**
 * The row loop shared by the two calibration scripts' `read_csv`: each data
 * row is `time, J1, ..., J6[, ...]`; a row whose time or any of its angle
 * fields fails to parse is skipped, and kept times are made relative to the
 * first row whose time parsed.
 *
 * Parsing a field with `float` is modelled by giving each cell as an
 * `Option<real>`: `None` is a field that does not parse.
 */
module CsvLog {
  import opened Wrappers

  type Cell = Option<real>
  type Row = seq<Cell>

  /** `float(row[0])`; an empty row raises IndexError, which skips it like a parse error. */
  function RowTime(row: Row): Cell
  {
    if |row| == 0 then None else row[0]
  }

  /** Every cell parsed, or `None` as soon as one does not. */
  function ParseAll(cells: seq<Cell>): (r: Option<seq<real>>)
    ensures r.Some? <==> forall k :: 0 <= k < |cells| ==> cells[k].Some?
    ensures r.Some? ==> |r.value| == |cells| && forall k :: 0 <= k < |cells| ==> r.value[k] == cells[k].value
  {
    if |cells| == 0 then Some([])
    else match (cells[0], ParseAll(cells[1..]))
      case (Some(x), Some(rest)) => Some([x] + rest)
      case _ => None
  }

  /** `[float(x) for x in row[1:7]]`: the slice is cut short on a short row, never an error. */
  function RowAngles(row: Row): (r: Option<seq<real>>)
    ensures r.Some? ==> |r.value| <= 6 && |r.value| == (if |row| < 7 then |row| - 1 else 6)
  {
    if |row| == 0 then None
    else ParseAll(row[1..if |row| < 7 then |row| else 7])
  }

  predicate Kept(row: Row)
  {
    RowTime(row).Some? && RowAngles(row).Some?
  }

  /** The rows that make it into the result, in order. */
  function KeptRows(rows: seq<Row>): (r: seq<Row>)
    ensures |r| <= |rows|
    ensures forall k :: 0 <= k < |r| ==> RowTime(r[k]).Some? && RowAngles(r[k]).Some?
  {
    if |rows| == 0 then []
    else KeptRows(rows[..|rows| - 1]) + (if Kept(rows[|rows| - 1]) then [rows[|rows| - 1]] else [])
  }

  /** Filtering distributes over concatenation: the kept rows keep their input order. */
  lemma {:induction false} KeptRowsAppend(a: seq<Row>, b: seq<Row>)
    ensures KeptRows(a + b) == KeptRows(a) + KeptRows(b)
  {
    if |b| == 0 {
      assert a + b == a;
    } else {
      var init, last := b[..|b| - 1], b[|b| - 1];
      assert (a + b)[..|a + b| - 1] == a + init;
      assert (a + b)[|a + b| - 1] == last;
      KeptRowsAppend(a, init);
    }
  }

  /** A single row is kept exactly when its time and its angles parse. */
  lemma KeptRowsSingle(row: Row)
    ensures KeptRows([row]) == if Kept(row) then [row] else []
  {
    assert [row][..0] == [];
  }

  /** Every kept row is an input row. */
  lemma {:induction false} KeptRowsFromInput(rows: seq<Row>)
    ensures forall k :: 0 <= k < |KeptRows(rows)| ==> KeptRows(rows)[k] in rows
  {
    if |rows| > 0 {
      var init := rows[..|rows| - 1];
      KeptRowsFromInput(init);
      var kept, r := KeptRows(init), KeptRows(rows);
      forall k | 0 <= k < |r| ensures r[k] in rows {
        if k < |kept| {
          assert r[k] == kept[k];
          var j :| 0 <= j < |init| && init[j] == kept[k];
          assert rows[j] == init[j];
        }
      }
    }
  }

  /** Every input row whose time and angles parse is kept. */
  lemma {:induction false} KeptRowsComplete(rows: seq<Row>)
    ensures forall k :: 0 <= k < |rows| && Kept(rows[k]) ==> rows[k] in KeptRows(rows)
  {
    if |rows| > 0 {
      var n := |rows| - 1;
      var init := rows[..n];
      KeptRowsComplete(init);
      var kept, r := KeptRows(init), KeptRows(rows);
      forall k | 0 <= k < |rows| && Kept(rows[k]) ensures rows[k] in r {
        if k < n {
          assert rows[k] == init[k];
          var j :| 0 <= j < |kept| && kept[j] == init[k];
          assert r[j] == kept[j];
        } else {
          assert r[|kept|] == rows[n];
        }
      }
    }
  }

  /** A log whose every row parses is kept whole. */
  lemma {:induction false} KeptRowsWhole(rows: seq<Row>)
    requires forall k :: 0 <= k < |rows| ==> Kept(rows[k])
    ensures KeptRows(rows) == rows
  {
    if |rows| > 0 {
      var n := |rows| - 1;
      var init := rows[..n];
      forall k | 0 <= k < n ensures Kept(init[k]) { assert init[k] == rows[k]; }
      KeptRowsWhole(init);
      assert rows == init + [rows[n]];
    }
  }

  /** The time of the first row whose time field parsed: the zero of the trajectory. */
  function FirstTime(rows: seq<Row>): Cell
  {
    if |rows| == 0 then None
    else
      var earlier := FirstTime(rows[..|rows| - 1]);
      if earlier.Some? then earlier else RowTime(rows[|rows| - 1])
  }

  /** The times of the kept rows relative to `start`, in order. */
  function Times(kept: seq<Row>, start: real): (ts: seq<real>)
    requires forall k :: 0 <= k < |kept| ==> RowTime(kept[k]).Some?
    ensures |ts| == |kept|
  {
    if |kept| == 0 then []
    else Times(kept[..|kept| - 1], start) + [RowTime(kept[|kept| - 1]).value - start]
  }

  /** The angle lists of the kept rows, in order. */
  function Angles(kept: seq<Row>): (ds: seq<seq<real>>)
    requires forall k :: 0 <= k < |kept| ==> RowAngles(kept[k]).Some?
    ensures |ds| == |kept|
  {
    if |kept| == 0 then []
    else Angles(kept[..|kept| - 1]) + [RowAngles(kept[|kept| - 1]).value]
  }

  /** The parsed trajectory: relative times and angle rows of the kept rows. */
  function Parsed(rows: seq<Row>): (seq<real>, seq<seq<real>>)
  {
    var kept := KeptRows(rows);
    if FirstTime(rows).None? then ([], []) else (Times(kept, FirstTime(rows).value), Angles(kept))
  }

  /** A kept row has a parsed time, so the zero point exists as soon as one row is kept. */
  lemma {:induction false} KeptImpliesStart(rows: seq<Row>)
    requires |KeptRows(rows)| > 0
    ensures FirstTime(rows).Some?
  {
    var init := rows[..|rows| - 1];
    if FirstTime(init).None? {
      if |KeptRows(init)| > 0 {
        KeptImpliesStart(init);
      }
    }
  }

  /** Entry `k` of the times is the time of kept row `k` minus the start. */
  lemma {:induction false} TimesAt(kept: seq<Row>, start: real, k: nat)
    requires forall j :: 0 <= j < |kept| ==> RowTime(kept[j]).Some?
    requires k < |kept|
    ensures Times(kept, start)[k] == RowTime(kept[k]).value - start
  {
    if k < |kept| - 1 {
      TimesAt(kept[..|kept| - 1], start, k);
    }
  }

  /** Entry `k` of the angle rows is the angle list of kept row `k`. */
  lemma {:induction false} AnglesAt(kept: seq<Row>, k: nat)
    requires forall j :: 0 <= j < |kept| ==> RowAngles(kept[j]).Some?
    requires k < |kept|
    ensures Angles(kept)[k] == RowAngles(kept[k]).value
  {
    if k < |kept| - 1 {
      AnglesAt(kept[..|kept| - 1], k);
    }
  }

  /** Each angle row holds at most six values: `row[1:7]` of a kept row. */
  lemma ParsedShape(rows: seq<Row>)
    ensures |Parsed(rows).0| == |Parsed(rows).1| == (if FirstTime(rows).Some? then |KeptRows(rows)| else 0)
    ensures forall k :: 0 <= k < |Parsed(rows).1| ==> |Parsed(rows).1[k]| <= 6
  {
    forall k | 0 <= k < |Parsed(rows).1| ensures |Parsed(rows).1[k]| <= 6 {
      AnglesAt(KeptRows(rows), k);
    }
  }

  /** Result entry `k` comes from kept row `k`: its angles, and its time less the first parsed time. */
  lemma ParsedAt(rows: seq<Row>, k: nat)
    requires FirstTime(rows).Some? && k < |KeptRows(rows)|
    ensures Parsed(rows).0[k] == RowTime(KeptRows(rows)[k]).value - FirstTime(rows).value
    ensures Parsed(rows).1[k] == RowAngles(KeptRows(rows)[k]).value
  {
    TimesAt(KeptRows(rows), FirstTime(rows).value, k);
    AnglesAt(KeptRows(rows), k);
  }

  /** Nothing parsed means nothing kept. */
  lemma NoStartNoRows(rows: seq<Row>)
    requires FirstTime(rows).None?
    ensures KeptRows(rows) == []
  {
    if |KeptRows(rows)| > 0 {
      KeptImpliesStart(rows);
    }
  }

  /**
   * The zero is the first parsed time even when that row is dropped for a bad
   * angle: here the row at t = 5 is dropped and the kept row at t = 7 gets 2.
   */
  lemma DroppedRowStillSetsStart()
    ensures var rows: seq<Row> := [[Some(5.0), None], [Some(7.0), Some(1.0)]];
            Parsed(rows) == ([2.0], [[1.0]])
  {
    var rows: seq<Row> := [[Some(5.0), None], [Some(7.0), Some(1.0)]];
    assert rows[..1] == [[Some(5.0), None]];
    assert |rows[..1][..0]| == 0;
    assert KeptRows(rows) == [[Some(7.0), Some(1.0)]];
    assert FirstTime(rows) == Some(5.0);
    assert Parsed(rows).0 == [2.0];
    var cells: seq<Cell> := [Some(1.0)];
    assert [Some(7.0), Some(1.0)][1..2] == cells;
    assert cells[0].Some?;
    assert ParseAll(cells).Some? && |ParseAll(cells).value| == 1 && ParseAll(cells).value[0] == 1.0;
    assert ParseAll(cells).value == [1.0];
    assert RowAngles([Some(7.0), Some(1.0)]) == Some([1.0]);
    assert Parsed(rows).1 == [[1.0]];
  }

  /** One more row: the kept rows gain it when it is kept, and the zero point is set by the first parsed time. */
  lemma PrefixStep(rows: seq<Row>, n: nat)
    requires n < |rows|
    ensures KeptRows(rows[..n + 1]) == KeptRows(rows[..n]) + (if Kept(rows[n]) then [rows[n]] else [])
    ensures FirstTime(rows[..n + 1]) == if FirstTime(rows[..n]).Some? then FirstTime(rows[..n]) else RowTime(rows[n])
  {
    assert rows[..n + 1][..n] == rows[..n];
    assert rows[..n + 1][n] == rows[n];
  }

  /** The loop's state: `start_time`, the relative times and the angle rows so far. */
  datatype LoopState = LoopState(startTime: Cell, timestamps: seq<real>, data: seq<seq<real>>)

  /** One pass of the row loop. */
  function Step(st: LoopState, row: Row): LoopState
  {
    match RowTime(row)
    case None => st
    case Some(t) =>
      var start := if st.startTime.None? then t else st.startTime.value;
      match RowAngles(row)
      case None => st.(startTime := Some(start))
      case Some(angles) => LoopState(Some(start), st.timestamps + [t - start], st.data + [angles])
  }

  /** The loop's state after the given rows. */
  function Run(rows: seq<Row>): LoopState
  {
    if |rows| == 0 then LoopState(None, [], []) else Step(Run(rows[..|rows| - 1]), rows[|rows| - 1])
  }

  /** One more kept row adds its relative time and its angles at the end. */
  lemma KeepRow(kept: seq<Row>, start: real, row: Row)
    requires forall k :: 0 <= k < |kept| ==> RowTime(kept[k]).Some? && RowAngles(kept[k]).Some?
    requires RowTime(row).Some? && RowAngles(row).Some?
    ensures Times(kept + [row], start) == Times(kept, start) + [RowTime(row).value - start]
    ensures Angles(kept + [row]) == Angles(kept) + [RowAngles(row).value]
  {
    assert (kept + [row])[..|kept|] == kept;
  }

  /** The loop's `start_time` is the first parsed time. */
  lemma {:induction false} RunStart(rows: seq<Row>)
    ensures Run(rows).startTime == FirstTime(rows)
  {
    if |rows| > 0 {
      RunStart(rows[..|rows| - 1]);
    }
  }

  /** The last row's contribution to the kept rows, the first parsed time and the loop's state. */
  lemma LastStep(rows: seq<Row>)
    requires |rows| > 0
    ensures var init, row := rows[..|rows| - 1], rows[|rows| - 1];
      && KeptRows(rows) == KeptRows(init) + (if Kept(row) then [row] else [])
      && FirstTime(rows) == (if FirstTime(init).Some? then FirstTime(init) else RowTime(row))
      && Run(rows) == Step(Run(init), row)
  {
  }

  /** A row that is not kept leaves both lists of the loop's state alone. */
  lemma StepSkips(st: LoopState, row: Row)
    requires !Kept(row)
    ensures Step(st, row).timestamps == st.timestamps && Step(st, row).data == st.data
  {
  }

  /** A kept row appends its time, relative to the (possibly just set) start, and its angles. */
  lemma StepKeeps(st: LoopState, row: Row)
    requires Kept(row)
    ensures var start := if st.startTime.None? then RowTime(row).value else st.startTime.value;
      && Step(st, row).timestamps == st.timestamps + [RowTime(row).value - start]
      && Step(st, row).data == st.data + [RowAngles(row).value]
  {
  }

  /** Against that start, the loop's lists are the times and angles of the kept rows. */
  lemma {:induction false} RunIsParsed(rows: seq<Row>)
    ensures Run(rows).data == Angles(KeptRows(rows))
    ensures Run(rows).timestamps == if FirstTime(rows).Some? then Times(KeptRows(rows), FirstTime(rows).value) else []
  {
    if |rows| > 0 {
      var init, row := rows[..|rows| - 1], rows[|rows| - 1];
      RunIsParsed(init);
      RunStart(init);
      var kept, st := KeptRows(init), Run(init);
      LastStep(rows);
      if FirstTime(init).None? {
        NoStartNoRows(init);
        assert kept == [] && st.timestamps == [];
      }
      if !Kept(row) {
        StepSkips(st, row);
        assert KeptRows(rows) == kept + [];
        assert kept + [] == kept;
        if FirstTime(rows).Some? {
          assert Times(KeptRows(rows), FirstTime(rows).value) == Times(kept, FirstTime(rows).value);
          if FirstTime(init).None? {
            assert Times(kept, FirstTime(rows).value) == [];
          }
        }
      } else {
        StepKeeps(st, row);
        KeepRow(kept, FirstTime(rows).value, row);
      }
    }
  }

  /** The row loop of `read_csv` after the header, with its mutable `start_time`. */
  method ReadRows(rows: seq<Row>) returns (timestamps: seq<real>, data: seq<seq<real>>)
    ensures (timestamps, data) == Parsed(rows)
    ensures |timestamps| == |data| == |KeptRows(rows)|
  {
    timestamps, data := [], [];
    var startTime: Option<real> := None;
    var n := 0;
    while n < |rows|
      invariant 0 <= n <= |rows|
      invariant LoopState(startTime, timestamps, data) == Run(rows[..n])
    {
      var row := rows[n];
      assert rows[..n + 1][..n] == rows[..n];
      assert rows[..n + 1][n] == row;
      var time := RowTime(row);
      if time.Some? {
        var t := time.value;
        if startTime.None? {
          startTime := Some(t);
        }
        var relT := t - startTime.value;
        var angles := RowAngles(row);
        if angles.Some? {
          timestamps := timestamps + [relT];
          data := data + [angles.value];
        }
      }
      n := n + 1;
    }
    assert rows[..n] == rows;
    RunStart(rows);
    RunIsParsed(rows);
    if FirstTime(rows).None? {
      NoStartNoRows(rows);
    }
  }
}
