/**
 * The older direct teleoperation script: a fixed gripper equation, a fixed
 * table of follower limits, a clamp-only joint conversion, and the test that
 * discards bad frames read from the leader.
 */
module Mimick {
  import opened Wrappers
  import opened Numeric

  /** The gripper equation of the vendor demo, rounded half to even by Python's `round`. */
  function GripperEquation(x: real): int
  {
    RoundHalfEven((x - 0.08) / (-95.27 - 0.08) * (-123.13 + 1.23) - 1.23)
  }

  /** The follower limit table: six arm joints and the gripper (index 6). */
  function LimitInfo(): (t: seq<(real, real)>)
    ensures |t| == 7 && forall i :: 0 <= i < 7 ==> t[i].0 < t[i].1
  {
    [(-170.0, 170.0), (-83.0, 83.0), (-90.0, 84.0), (-155.0, 153.0),
     (-91.0, 88.0), (-153.0, 153.0), (-118.0, 2.0)]
  }

  /** The equation's endpoints: -1 at 0.08, -123 at -95.27, which the gripper limit then clamps to -118. */
  lemma GripperEquationEndpoints()
    ensures GripperEquation(0.08) == -1
    ensures GripperEquation(-95.27) == -123
    ensures Clamp(GripperEquation(-95.27) as real, LimitInfo()[6].0, LimitInfo()[6].1) == -118.0
  {
    assert (0.08 - 0.08) / (-95.27 - 0.08) * (-123.13 + 1.23) - 1.23 == -1.23;
    assert (-95.27 - 0.08) / (-95.27 - 0.08) * (-123.13 + 1.23) - 1.23 == -123.13;
  }

  /** Entry `i` after the optional conversion and before the clamp. */
  function Converted(angles: seq<real>, rollback: bool, i: nat): real
    requires |angles| == 7 && i < 7
  {
    if rollback && i == 6 then GripperEquation(angles[6]) as real
    else if rollback && (i == 1 || i == 2) then -angles[i]
    else angles[i]
  }

  /** `flexible_parameters` as a value: inputs not of length 7 come back as they are. */
  function FlexibleSpec(angles: seq<real>, rollback: bool): seq<real>
  {
    if |angles| != 7 then angles
    else seq(7, i requires 0 <= i < 7 => Clamp(Converted(angles, rollback, i), LimitInfo()[i].0, LimitInfo()[i].1))
  }

  /**
   * Converts a 7-value frame on a private copy (gripper equation, J2 and J3
   * negated when `rollback`), then clamps every entry into its limit pair.
   */
  method FlexibleParameters(angles: seq<real>, rollback: bool) returns (r: seq<real>)
    ensures r == FlexibleSpec(angles, rollback)
    ensures |angles| != 7 ==> r == angles
    ensures |angles| == 7 ==> |r| == 7 && forall i :: 0 <= i < 7 ==> LimitInfo()[i].0 <= r[i] <= LimitInfo()[i].1
  {
    if |angles| != 7 {
      return angles;
    }
    var processed := new real[7](i requires 0 <= i < 7 => angles[i]);
    if rollback {
      processed[6] := GripperEquation(processed[6]) as real;
      processed[1] := processed[1] * -1.0;
      processed[2] := processed[2] * -1.0;
    }
    assert forall i :: 0 <= i < 7 ==> processed[i] == Converted(angles, rollback, i);

    var limits := LimitInfo();
    var finalPositions: seq<real> := [];
    for i := 0 to 7
      invariant |finalPositions| == i
      invariant forall j :: 0 <= j < i ==> finalPositions[j] == FlexibleSpec(angles, rollback)[j]
    {
      var angle := processed[i];
      var (minAngle, maxAngle) := limits[i];
      if angle < minAngle {
        finalPositions := finalPositions + [minAngle];
      } else if angle > maxAngle {
        finalPositions := finalPositions + [maxAngle];
      } else {
        finalPositions := finalPositions + [angle];
      }
    }
    return finalPositions;
  }

  /** An entry already inside its limits passes through unchanged. */
  lemma InsideLimitsUnchanged(angles: seq<real>, rollback: bool, i: nat)
    requires |angles| == 7 && i < 7
    requires LimitInfo()[i].0 <= Converted(angles, rollback, i) <= LimitInfo()[i].1
    ensures FlexibleSpec(angles, rollback)[i] == Converted(angles, rollback, i)
  {
  }

  /** Without rollback the conversion is the clamp alone. */
  lemma NoRollbackClampsOnly(angles: seq<real>, i: nat)
    requires |angles| == 7 && i < 7
    ensures FlexibleSpec(angles, false)[i] == Clamp(angles[i], LimitInfo()[i].0, LimitInfo()[i].1)
  {
  }

  /** With rollback: gripper equation at 6, negation at 1 and 2, the rest only clamped. */
  lemma RollbackConversion(angles: seq<real>)
    requires |angles| == 7
    ensures FlexibleSpec(angles, true)[6] == Clamp(GripperEquation(angles[6]) as real, -118.0, 2.0)
    ensures forall i :: i in {1, 2} ==> FlexibleSpec(angles, true)[i] == Clamp(-angles[i], LimitInfo()[i].0, LimitInfo()[i].1)
    ensures forall i :: i in {0, 3, 4, 5} ==> FlexibleSpec(angles, true)[i] == Clamp(angles[i], LimitInfo()[i].0, LimitInfo()[i].1)
  {
  }

  /** The teleop loop only forwards frames that exist, are non-empty and stay within +-200 degrees. */
  predicate AcceptFrame(frame: Option<seq<real>>)
  {
    frame.Some? && |frame.value| > 0 && !(SeqMax(frame.value) > 200.0 || SeqMin(frame.value) < -200.0)
  }

  /** A frame is accepted exactly when it is present, non-empty and every value lies in [-200, 200]. */
  lemma AcceptFrameIff(frame: Option<seq<real>>)
    ensures AcceptFrame(frame) <==>
      frame.Some? && |frame.value| > 0 && forall k :: 0 <= k < |frame.value| ==> -200.0 <= frame.value[k] <= 200.0
  {
    if frame.Some? && |frame.value| > 0 {
      var a := frame.value;
      if forall k :: 0 <= k < |a| ==> -200.0 <= a[k] <= 200.0 {
        assert SeqMax(a) in a && SeqMin(a) in a;
      }
    }
  }

  /** What the loop sends for a sequence of frames read from the leader: one command per accepted frame. */
  function Commands(frames: seq<Option<seq<real>>>): seq<seq<real>>
  {
    if |frames| == 0 then []
    else
      var last := frames[|frames| - 1];
      Commands(frames[..|frames| - 1]) + (if AcceptFrame(last) then [FlexibleSpec(last.value, true)] else [])
  }

  /** A 7-value command holds every joint inside its limit pair; other lengths are not constrained. */
  predicate WithinLimits(cmd: seq<real>)
  {
    |cmd| == 7 ==> forall i :: 0 <= i < 7 ==> LimitInfo()[i].0 <= cmd[i] <= LimitInfo()[i].1
  }

  /** One more frame read: a command is appended exactly when the frame is accepted. */
  lemma CommandsStep(frames: seq<Option<seq<real>>>, n: nat)
    requires n < |frames|
    ensures Commands(frames[..n + 1]) ==
      Commands(frames[..n]) + (if AcceptFrame(frames[n]) then [FlexibleSpec(frames[n].value, true)] else [])
  {
    assert frames[..n + 1][..n] == frames[..n];
    assert frames[..n + 1][n] == frames[n];
  }

  /**
   * The teleoperation loop over the frames read from the leader (the serial
   * reads and writes themselves are not modelled): bad frames are skipped,
   * every other frame is converted and forwarded.
   */
  method Teleop(frames: seq<Option<seq<real>>>) returns (sent: seq<seq<real>>)
    ensures sent == Commands(frames)
    ensures |sent| <= |frames|
    ensures forall k :: 0 <= k < |sent| ==> WithinLimits(sent[k])
  {
    sent := [];
    for n := 0 to |frames|
      invariant sent == Commands(frames[..n])
      invariant |sent| <= n
      invariant forall k :: 0 <= k < |sent| ==> WithinLimits(sent[k])
    {
      CommandsStep(frames, n);
      var angles := frames[n];
      if angles.None? || |angles.value| == 0 {
        continue;
      }
      if SeqMax(angles.value) > 200.0 || SeqMin(angles.value) < -200.0 {
        continue;
      }
      var targetAngles := FlexibleParameters(angles.value, true);
      assert WithinLimits(targetAngles);
      sent := sent + [targetAngles];
    }
    assert frames[..|frames|] == frames;
  }

  /** A frame of any length other than 7 is forwarded as read, with no joint limit applied. */
  lemma NonSevenFrameUnclamped(frame: seq<real>)
    requires |frame| > 0 && |frame| != 7
    requires forall k :: 0 <= k < |frame| ==> -200.0 <= frame[k] <= 200.0
    ensures Commands([Some(frame)]) == [frame]
  {
    var frames := [Some(frame)];
    assert frames[..0] == [];
    AcceptFrameIff(Some(frame));
  }

  /** A six-value frame (a leader without its gripper) reaches J2 at any angle beyond J2's limit of 83, up to 200. */
  lemma ShortFrameBypassesClamp(x: real)
    requires LimitInfo()[1].1 < x <= 200.0
    ensures Commands([Some([0.0, x, 0.0, 0.0, 0.0, 0.0])]) == [[0.0, x, 0.0, 0.0, 0.0, 0.0]]
  {
    var f := [0.0, x, 0.0, 0.0, 0.0, 0.0];
    assert forall k :: 0 <= k < |f| ==> -200.0 <= f[k] <= 200.0 by {
      forall k | 0 <= k < |f| ensures -200.0 <= f[k] <= 200.0 {
        assert f[k] == 0.0 || f[k] == x;
      }
    }
    NonSevenFrameUnclamped(f);
  }
}
