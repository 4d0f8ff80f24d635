/**
 * The leader range monitor: seven minimum slots start at 999.0 and seven
 * maximum slots at -999.0; every reading of at least six values lowers the
 * minimums and raises the maximums of the slots it covers; on Ctrl+C a
 * report shows each slot, or "N/A" for a slot still holding its sentinel.
 * The port selection, the live terminal display and the serial close are not modelled.
 */
module RangeMonitor {
  import opened Wrappers

  const Slots: nat := 7
  const MinSentinel: real := 999.0
  const MaxSentinel: real := -999.0

  /** `angles and len(angles) >= 6`. */
  predicate Accepted(reading: Option<seq<real>>)
  {
    reading.Some? && |reading.value| >= 6
  }

  /** An accepted reading with more values than slots: the update loop indexes past slot 7. */
  predicate Overlong(reading: Option<seq<real>>)
  {
    Accepted(reading) && |reading.value| > Slots
  }

  predicate AnyOverlong(readings: seq<Option<seq<real>>>)
  {
    exists k :: 0 <= k < |readings| && Overlong(readings[k])
  }

  /** Whether `reading` moves slot `i`: accepted and long enough to reach it. */
  predicate Covers(reading: Option<seq<real>>, i: nat)
  {
    Accepted(reading) && i < |reading.value|
  }

  /** Slot `i` of `min_angles` after `readings`. */
  function Lowest(readings: seq<Option<seq<real>>>, i: nat): real
  {
    if |readings| == 0 then MinSentinel
    else
      var prev := Lowest(readings[..|readings| - 1], i);
      var last := readings[|readings| - 1];
      if Covers(last, i) && last.value[i] < prev then last.value[i] else prev
  }

  /** Slot `i` of `max_angles` after `readings`. */
  function Highest(readings: seq<Option<seq<real>>>, i: nat): real
  {
    if |readings| == 0 then MaxSentinel
    else
      var prev := Highest(readings[..|readings| - 1], i);
      var last := readings[|readings| - 1];
      if Covers(last, i) && last.value[i] > prev then last.value[i] else prev
  }

  /** The minimum slot is at most the sentinel and at most every value that reached it. */
  lemma {:induction false} LowestIsLowerBound(readings: seq<Option<seq<real>>>, i: nat)
    ensures Lowest(readings, i) <= MinSentinel
    ensures forall k :: 0 <= k < |readings| && Covers(readings[k], i) ==> Lowest(readings, i) <= readings[k].value[i]
  {
    if |readings| > 0 {
      var prefix := readings[..|readings| - 1];
      LowestIsLowerBound(prefix, i);
      assert forall k :: 0 <= k < |prefix| ==> prefix[k] == readings[k];
    }
  }

  /** The maximum slot is at least the sentinel and at least every value that reached it. */
  lemma {:induction false} HighestIsUpperBound(readings: seq<Option<seq<real>>>, i: nat)
    ensures MaxSentinel <= Highest(readings, i)
    ensures forall k :: 0 <= k < |readings| && Covers(readings[k], i) ==> readings[k].value[i] <= Highest(readings, i)
  {
    if |readings| > 0 {
      var prefix := readings[..|readings| - 1];
      HighestIsUpperBound(prefix, i);
      assert forall k :: 0 <= k < |prefix| ==> prefix[k] == readings[k];
    }
  }

  /** The minimum slot holds the sentinel or a value some reading put there. */
  lemma {:induction false} LowestIsAttained(readings: seq<Option<seq<real>>>, i: nat)
    ensures Lowest(readings, i) == MinSentinel
         || exists k :: 0 <= k < |readings| && Covers(readings[k], i) && Lowest(readings, i) == readings[k].value[i]
  {
    if |readings| > 0 {
      var prefix := readings[..|readings| - 1];
      LowestIsAttained(prefix, i);
      if Lowest(readings, i) != MinSentinel && Lowest(readings, i) == Lowest(prefix, i) {
        var k :| 0 <= k < |prefix| && Covers(prefix[k], i) && Lowest(prefix, i) == prefix[k].value[i];
        assert readings[k] == prefix[k];
      }
    }
  }

  /** The maximum slot holds the sentinel or a value some reading put there. */
  lemma {:induction false} HighestIsAttained(readings: seq<Option<seq<real>>>, i: nat)
    ensures Highest(readings, i) == MaxSentinel
         || exists k :: 0 <= k < |readings| && Covers(readings[k], i) && Highest(readings, i) == readings[k].value[i]
  {
    if |readings| > 0 {
      var prefix := readings[..|readings| - 1];
      HighestIsAttained(prefix, i);
      if Highest(readings, i) != MaxSentinel && Highest(readings, i) == Highest(prefix, i) {
        var k :| 0 <= k < |prefix| && Covers(prefix[k], i) && Highest(prefix, i) == prefix[k].value[i];
        assert readings[k] == prefix[k];
      }
    }
  }

  /** A slot no reading reached keeps both sentinels. */
  lemma {:induction false} UntouchedSlotKeepsSentinels(readings: seq<Option<seq<real>>>, i: nat)
    requires forall k :: 0 <= k < |readings| ==> !Covers(readings[k], i)
    ensures Lowest(readings, i) == MinSentinel && Highest(readings, i) == MaxSentinel
  {
    if |readings| > 0 {
      var prefix := readings[..|readings| - 1];
      assert forall k :: 0 <= k < |prefix| ==> prefix[k] == readings[k];
      UntouchedSlotKeepsSentinels(prefix, i);
    }
  }

  /**
   * One more reading: a short or missing one changes no slot; any reading
   * never raises a minimum nor lowers a maximum; a covering one lies between them afterwards.
   */
  lemma StepEffect(readings: seq<Option<seq<real>>>, next: Option<seq<real>>, i: nat)
    ensures !Accepted(next) ==> Lowest(readings + [next], i) == Lowest(readings, i) && Highest(readings + [next], i) == Highest(readings, i)
    ensures Lowest(readings + [next], i) <= Lowest(readings, i)
    ensures Highest(readings + [next], i) >= Highest(readings, i)
    ensures Covers(next, i) ==> Lowest(readings + [next], i) <= next.value[i] <= Highest(readings + [next], i)
  {
    assert (readings + [next])[..|readings|] == readings;
  }

  /** A report cell: the observed extreme, or "N/A". */
  datatype Cell = Value(x: real) | NotAvailable

  /** `count = len(angles) if 'angles' in locals() and angles else 6`: `angles` is the last value read. */
  function ReportCount(readings: seq<Option<seq<real>>>): nat
  {
    if |readings| == 0 then 6
    else
      var last := readings[|readings| - 1];
      if last.None? || |last.value| == 0 then 6 else |last.value|
  }

  function MinCell(readings: seq<Option<seq<real>>>, i: nat): Cell
  {
    var mn := Lowest(readings, i);
    if mn != MinSentinel then Value(mn) else NotAvailable
  }

  function MaxCell(readings: seq<Option<seq<real>>>, i: nat): Cell
  {
    var mx := Highest(readings, i);
    if mx != MaxSentinel then Value(mx) else NotAvailable
  }

  /** The final report: one (min, max) row per counted joint. */
  function Report(readings: seq<Option<seq<real>>>): (rows: seq<(Cell, Cell)>)
    ensures |rows| == ReportCount(readings)
    ensures forall i :: 0 <= i < |rows| ==> rows[i] == (MinCell(readings, i), MaxCell(readings, i))
  {
    seq(ReportCount(readings), i requires 0 <= i => (MinCell(readings, i), MaxCell(readings, i)))
  }

  datatype MonitorError = IndexError   // a reading of more than seven values

  /** The monitoring loop and the final report, over the readings taken before Ctrl+C. */
  method Monitor(readings: seq<Option<seq<real>>>) returns (r: Result<seq<(Cell, Cell)>, MonitorError>)
    ensures r.Failure? <==> AnyOverlong(readings)
    ensures r.Success? ==> r.value == Report(readings)
  {
    var minAngles := new real[Slots](_ => MinSentinel);
    var maxAngles := new real[Slots](_ => MaxSentinel);
    for n := 0 to |readings|
      invariant !AnyOverlong(readings[..n])
      invariant forall i :: 0 <= i < Slots ==>
        minAngles[i] == Lowest(readings[..n], i) && maxAngles[i] == Highest(readings[..n], i)
    {
      var angles := readings[n];
      if angles.Some? && |angles.value| > 0 && |angles.value| >= 6 {
        var fits := Widen(minAngles, maxAngles, angles.value);
        if !fits {
          assert Overlong(readings[n]);
          return Failure(IndexError);
        }
      }
      forall i | 0 <= i < Slots {
        SlotStep(readings, n, i);
      }
      assert !AnyOverlong(readings[..n + 1]) by {
        assert !Overlong(readings[n]);
        forall k | 0 <= k < n + 1 ensures !Overlong(readings[k]) {
          if k < n { assert readings[..n][k] == readings[k]; }
        }
      }
    }
    assert readings[..|readings|] == readings;
    ReportFitsSlots(readings);
    var report: seq<(Cell, Cell)> := [];
    var count := ReportCount(readings);
    for i := 0 to count
      invariant |report| == i
      invariant forall j :: 0 <= j < i ==> report[j] == (MinCell(readings, j), MaxCell(readings, j))
    {
      var mn := if minAngles[i] != MinSentinel then Value(minAngles[i]) else NotAvailable;
      var mx := if maxAngles[i] != MaxSentinel then Value(maxAngles[i]) else NotAvailable;
      report := report + [(mn, mx)];
    }
    return Success(report);
  }

  /** One more reading on the slots: Lowest and Highest of the longer prefix follow from the shorter one. */
  lemma SlotStep(readings: seq<Option<seq<real>>>, n: nat, i: nat)
    requires n < |readings|
    ensures var r := readings[n];
      && Lowest(readings[..n + 1], i) ==
         (if Covers(r, i) && r.value[i] < Lowest(readings[..n], i) then r.value[i] else Lowest(readings[..n], i))
      && Highest(readings[..n + 1], i) ==
         (if Covers(r, i) && r.value[i] > Highest(readings[..n], i) then r.value[i] else Highest(readings[..n], i))
  {
    assert readings[..n + 1][..n] == readings[..n];
    assert readings[..n + 1][n] == readings[n];
  }

  /**
   * The update loop over one accepted reading: it reports whether the reading
   * fits the seven slots and, when it does, lowers each covered minimum and raises each covered maximum.
   */
  method Widen(minAngles: array<real>, maxAngles: array<real>, angles: seq<real>) returns (fits: bool)
    requires minAngles != maxAngles && minAngles.Length == Slots == maxAngles.Length && |angles| >= 6
    modifies minAngles, maxAngles
    ensures fits <==> |angles| <= Slots
    ensures fits ==> forall j :: 0 <= j < Slots ==>
      && minAngles[j] == (if j < |angles| && angles[j] < old(minAngles[j]) then angles[j] else old(minAngles[j]))
      && maxAngles[j] == (if j < |angles| && angles[j] > old(maxAngles[j]) then angles[j] else old(maxAngles[j]))
  {
    for i := 0 to |angles|
      invariant i <= Slots
      invariant forall j :: 0 <= j < Slots ==>
        && minAngles[j] == (if j < i && angles[j] < old(minAngles[j]) then angles[j] else old(minAngles[j]))
        && maxAngles[j] == (if j < i && angles[j] > old(maxAngles[j]) then angles[j] else old(maxAngles[j]))
    {
      if i >= Slots {
        return false;
      }
      if angles[i] < minAngles[i] { minAngles[i] := angles[i]; }
      if angles[i] > maxAngles[i] { maxAngles[i] := angles[i]; }
    }
    return true;
  }

  /** Without an overlong reading the report never counts past the seventh slot. */
  lemma ReportFitsSlots(readings: seq<Option<seq<real>>>)
    requires !AnyOverlong(readings)
    ensures ReportCount(readings) <= Slots
  {
    if |readings| > 0 {
      assert !Overlong(readings[|readings| - 1]);
    }
  }

  /** A slot that no reading reached is reported as "N/A" on both sides. */
  lemma UnreachedSlotReportsNotAvailable(readings: seq<Option<seq<real>>>, i: nat)
    requires i < ReportCount(readings)
    requires forall k :: 0 <= k < |readings| ==> !Covers(readings[k], i)
    ensures Report(readings)[i] == (NotAvailable, NotAvailable)
  {
    UntouchedSlotKeepsSentinels(readings, i);
  }

  /** A slot some reading reached with a value below 999 shows a number, and it is the least such value. */
  lemma ReachedSlotReportsMinimum(readings: seq<Option<seq<real>>>, i: nat, k: nat)
    requires i < ReportCount(readings) && k < |readings|
    requires Covers(readings[k], i) && readings[k].value[i] < MinSentinel
    ensures Report(readings)[i].0.Value?
    ensures Report(readings)[i].0.x <= readings[k].value[i]
  {
    LowestIsLowerBound(readings, i);
  }

  /**
   * With only six-value readings the gripper slot (J7) is never reached, yet
   * a seven-value last reading would list it: it then shows "N/A" on both sides.
   */
  lemma SixValueReadingsLeaveSeventhSlot(readings: seq<Option<seq<real>>>)
    requires forall k :: 0 <= k < |readings| ==> readings[k].None? || |readings[k].value| <= 6
    ensures Lowest(readings, 6) == MinSentinel && Highest(readings, 6) == MaxSentinel
  {
    UntouchedSlotKeepsSentinels(readings, 6);
  }

  /** A reading of exactly 999.0 is indistinguishable from the sentinel and reported as "N/A". */
  lemma SentinelValueReadsAsNotAvailable()
    ensures Report([Some([999.0, 0.0, 0.0, 0.0, 0.0, 0.0])])[0].0 == NotAvailable
  {
    var readings := [Some([999.0, 0.0, 0.0, 0.0, 0.0, 0.0])];
    assert readings[..0] == [];
    assert Lowest(readings, 0) == MinSentinel;
  }
}
