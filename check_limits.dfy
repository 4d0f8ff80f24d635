/**
 * The configuration-versus-firmware check: each of the six configured
 * follower limit pairs is put in (min, max) order and compared with the
 * limits the robot reports, with one degree of tolerance on each side; a
 * joint whose firmware read fails is skipped. The port selection and the
 * coloured table are not modelled.
 */
module CheckLimits {
  import opened Wrappers
  import opened Numeric

  /** `min(v1, v2), max(v1, v2)`: the configured pair in ascending order. */
  function Canonical(p: (real, real)): (r: (real, real))
    ensures r.0 <= r.1
    ensures (r.0 == p.0 && r.1 == p.1) || (r.0 == p.1 && r.1 == p.0)
  {
    (Min(p.0, p.1), Max(p.0, p.1))
  }

  datatype Status = Ok | Mismatch | ReadFailed

  /** The status printed for one joint, given its configured pair and what the firmware read gave. */
  function JointStatus(cfgPair: (real, real), firmware: Option<(real, real)>): Status
  {
    if firmware.None? then ReadFailed
    else
      var c := Canonical(cfgPair);
      var f := firmware.value;
      if Abs(c.0 - f.0) <= 1.0 && Abs(c.1 - f.1) <= 1.0 then Ok else Mismatch
  }

  datatype JointRow = JointRow(jointId: int, status: Status)
  datatype Outcome = Outcome(rows: seq<JointRow>, allMatch: bool)
  datatype CheckError = IndexError   // fewer than six configured pairs

  /** The table: joints 1 to 6, joint `i + 1` checked against configured pair `i`. */
  function Rows(cfgLimits: seq<(real, real)>, readFirmware: int -> Option<(real, real)>): (rows: seq<JointRow>)
    requires |cfgLimits| >= 6
    ensures |rows| == 6
    ensures forall i :: 0 <= i < 6 ==> rows[i] == JointRow(i + 1, JointStatus(cfgLimits[i], readFirmware(i + 1)))
  {
    seq(6, i requires 0 <= i < 6 => JointRow(i + 1, JointStatus(cfgLimits[i], readFirmware(i + 1))))
  }

  predicate NoMismatch(rows: seq<JointRow>)
  {
    forall i :: 0 <= i < |rows| ==> rows[i].status != Mismatch
  }

  /** The verification loop of `main`: `all_match` starts true and is cleared by a mismatching joint. */
  method CheckLimitsMatch(cfgLimits: seq<(real, real)>, readFirmware: int -> Option<(real, real)>) returns (r: Result<Outcome, CheckError>)
    ensures r.Failure? <==> |cfgLimits| < 6
    ensures r.Success? ==> r.value.rows == Rows(cfgLimits, readFirmware)
    ensures r.Success? ==> (r.value.allMatch <==> NoMismatch(r.value.rows))
  {
    var allMatch := true;
    var rows: seq<JointRow> := [];
    for i := 0 to 6
      invariant |rows| == i && i <= |cfgLimits|
      invariant forall j :: 0 <= j < i ==> rows[j] == JointRow(j + 1, JointStatus(cfgLimits[j], readFirmware(j + 1)))
      invariant allMatch <==> NoMismatch(rows)
    {
      var jointId := i + 1;
      if i >= |cfgLimits| {
        return Failure(IndexError);
      }
      var (cVal1, cVal2) := cfgLimits[i];
      var cMin := Min(cVal1, cVal2);
      var cMax := Max(cVal1, cVal2);
      var firmware := readFirmware(jointId);
      if firmware.None? {
        rows := rows + [JointRow(jointId, ReadFailed)];
        continue;
      }
      var (fMin, fMax) := firmware.value;
      var matchMin := Abs(cMin - fMin) <= 1.0;
      var matchMax := Abs(cMax - fMax) <= 1.0;
      var status := if matchMin && matchMax then Ok else Mismatch;
      if status == Mismatch {
        allMatch := false;
      }
      rows := rows + [JointRow(jointId, status)];
    }
    return Success(Outcome(rows, allMatch));
  }

  /** The stored order of a configured pair does not change the verdict. */
  lemma StatusIgnoresStoredOrder(a: real, b: real, firmware: Option<(real, real)>)
    ensures JointStatus((a, b), firmware) == JointStatus((b, a), firmware)
  {
  }

  /** A joint is OK exactly when both firmware limits are within one degree of the ordered pair. */
  lemma OkIff(cfgPair: (real, real), f: (real, real))
    ensures JointStatus(cfgPair, Some(f)) == Ok <==>
      var lo, hi := Min(cfgPair.0, cfgPair.1), Max(cfgPair.0, cfgPair.1);
      lo - 1.0 <= f.0 <= lo + 1.0 && hi - 1.0 <= f.1 <= hi + 1.0
  {
  }

  /** Firmware that reports the ordered configured pairs, each within a degree, passes on every joint. */
  lemma FaithfulFirmwarePasses(cfgLimits: seq<(real, real)>, readFirmware: int -> Option<(real, real)>)
    requires |cfgLimits| >= 6
    requires forall i :: 0 <= i < 6 ==>
      (readFirmware(i + 1).Some? &&
       Abs(Canonical(cfgLimits[i]).0 - readFirmware(i + 1).value.0) <= 1.0 &&
       Abs(Canonical(cfgLimits[i]).1 - readFirmware(i + 1).value.1) <= 1.0)
    ensures forall i :: 0 <= i < 6 ==> Rows(cfgLimits, readFirmware)[i].status == Ok
  {
  }

  /** A robot whose every firmware read fails is still reported as matching: skipped joints never clear `all_match`. */
  lemma UnreadableFirmwareStillMatches(cfgLimits: seq<(real, real)>, readFirmware: int -> Option<(real, real)>)
    requires |cfgLimits| >= 6
    requires forall j :: readFirmware(j).None?
    ensures NoMismatch(Rows(cfgLimits, readFirmware))
    ensures forall i :: 0 <= i < 6 ==> Rows(cfgLimits, readFirmware)[i].status == ReadFailed
  {
  }
}
