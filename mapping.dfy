/**
 * The leader-to-follower mapping engine: six C650 joint angles become six
 * M750 joint angles (offset, normalise against the leader range, choose a
 * direction, interpolate into the follower range, hard-clamp), and the leader
 * gripper angle becomes an integer opening from 0 to 100.
 */
module Mapping {
  import opened Config
  import opened Numeric

  /** Linear map of `x` from `[inMin, inMax]` onto `[outMin, outMax]`; Python raises on `inMin == inMax`. */
  function MapValue(x: real, inMin: real, inMax: real, outMin: real, outMax: real): real
    requires inMin != inMax
  {
    (x - inMin) * (outMax - outMin) / (inMax - inMin) + outMin
  }

  /** The input endpoints land on the output endpoints. */
  lemma MapValueEndpoints(inMin: real, inMax: real, outMin: real, outMax: real)
    requires inMin != inMax
    ensures MapValue(inMin, inMin, inMax, outMin, outMax) == outMin
    ensures MapValue(inMax, inMin, inMax, outMin, outMax) == outMax
  {
  }

  /** Mapping back with the ranges swapped recovers the input. */
  lemma MapValueRoundTrip(x: real, inMin: real, inMax: real, outMin: real, outMax: real)
    requires inMin != inMax && outMin != outMax
    ensures MapValue(MapValue(x, inMin, inMax, outMin, outMax), outMin, outMax, inMin, inMax) == x
  {
    var k := (x - inMin) / (inMax - inMin);
    assert MapValue(x, inMin, inMax, outMin, outMax) == k * (outMax - outMin) + outMin;
    var y := k * (outMax - outMin) + outMin;
    assert (y - outMin) * (inMax - inMin) / (outMax - outMin) == k * (inMax - inMin);
    assert k * (inMax - inMin) == x - inMin;
  }

  // ---------------------------------------------------------------------------
  // Per-joint configuration lookups, with the fallbacks used when a list is short.

  /** `C650_LIMITS[i]`, or (-180, 180) when the list has no entry `i`. */
  function LeaderLimit(cfg: Config, i: nat): Pair
  {
    if i < |cfg.leaderLimits| then cfg.leaderLimits[i] else (-180.0, 180.0)
  }

  /** `M750_LIMITS[i]`, or (-180, 180) when the list has no entry `i`. */
  function FollowerLimit(cfg: Config, i: nat): Pair
  {
    if i < |cfg.followerLimits| then cfg.followerLimits[i] else (-180.0, 180.0)
  }

  /** `C650_HOME_ANGLES[i]`, or 0 when the list has no entry `i`. */
  function HomeOffset(cfg: Config, i: nat): real
  {
    if i < |cfg.homeAngles| then cfg.homeAngles[i] else 0.0
  }

  /** A negative gain inverts the joint; without a gain entry, J1 and J6 are inverted. */
  predicate Inverted(cfg: Config, i: nat)
  {
    if i < |cfg.gains| then cfg.gains[i] < 0.0 else i == 0 || i == 5
  }

  /** Lower end of the follower clamp, whatever the order of the stored pair. */
  function SafeMin(cfg: Config, i: nat): real
  {
    Min(FollowerLimit(cfg, i).0, FollowerLimit(cfg, i).1)
  }

  /** Upper end of the follower clamp, whatever the order of the stored pair. */
  function SafeMax(cfg: Config, i: nat): real
  {
    Max(FollowerLimit(cfg, i).0, FollowerLimit(cfg, i).1)
  }

  /** Position of the offset angle within the leader range; 0.5 for a degenerate range; not clamped. */
  function Normalized(cfg: Config, i: nat, angle: real): real
  {
    var val := angle + HomeOffset(cfg, i);
    var (cMin, cMax) := LeaderLimit(cfg, i);
    if cMax != cMin then (val - cMin) / (cMax - cMin) else 0.5
  }

  /** The commanded follower angle for joint `i`. */
  function JointTarget(cfg: Config, i: nat, angle: real): real
  {
    var norm := Normalized(cfg, i, angle);
    var (mMin, mMax) := FollowerLimit(cfg, i);
    var (outStart, outEnd) := if Inverted(cfg, i) then (mMax, mMin) else (mMin, mMax);
    Clamp(norm * (outEnd - outStart) + outStart, SafeMin(cfg, i), SafeMax(cfg, i))
  }

  /** `process_arm_angles` as a value: positions and normalised values, or the input and [] when short. */
  function ArmAngles(cfg: Config, angles: seq<real>): (seq<real>, seq<real>)
  {
    if |angles| < 6 then (angles, [])
    else (seq(6, i requires 0 <= i < 6 => JointTarget(cfg, i, angles[i])),
          seq(6, i requires 0 <= i < 6 => Normalized(cfg, i, angles[i])))
  }

  /** One pass of the joint loop: the normalised value and the clamped target for leader angle `x` at joint `i`. */
  method MapJoint(cfg: Config, i: nat, x: real) returns (norm: real, targetAngle: real)
    ensures norm == Normalized(cfg, i, x)
    ensures targetAngle == JointTarget(cfg, i, x)
    ensures SafeMin(cfg, i) <= targetAngle <= SafeMax(cfg, i)
  {
    var (cMin, cMax) := LeaderLimit(cfg, i);
    var inputOffset := HomeOffset(cfg, i);
    var val := x + inputOffset;
    if cMax != cMin {
      norm := (val - cMin) / (cMax - cMin);
    } else {
      norm := 0.5;
    }

    var (mMin, mMax) := FollowerLimit(cfg, i);
    var inverted := Inverted(cfg, i);
    var outStart, outEnd := mMin, mMax;
    if inverted {
      outStart, outEnd := mMax, mMin;
    }
    targetAngle := norm * (outEnd - outStart) + outStart;

    var safeMin := Min(mMin, mMax);
    var safeMax := Max(mMin, mMax);
    if targetAngle < safeMin { targetAngle := safeMin; }
    if targetAngle > safeMax { targetAngle := safeMax; }
  }

  /**
   * Maps the first six leader angles joint by joint. The follower range is a
   * hard bound on every output, whatever the input.
   */
  method ProcessArmAngles(cfg: Config, angles: seq<real>) returns (positions: seq<real>, norms: seq<real>)
    ensures (positions, norms) == ArmAngles(cfg, angles)
    ensures |angles| < 6 ==> positions == angles && norms == []
    ensures |angles| >= 6 ==> |positions| == 6 && |norms| == 6
    ensures |angles| >= 6 ==> forall i :: 0 <= i < 6 ==> SafeMin(cfg, i) <= positions[i] <= SafeMax(cfg, i)
  {
    if |angles| < 6 {
      return angles, [];
    }
    var raw := angles[..6];
    positions, norms := [], [];
    var i := 0;
    while i < 6
      invariant 0 <= i <= 6
      invariant |positions| == i && |norms| == i
      invariant forall k :: 0 <= k < i ==> positions[k] == JointTarget(cfg, k, angles[k])
      invariant forall k :: 0 <= k < i ==> norms[k] == Normalized(cfg, k, angles[k])
      invariant forall k :: 0 <= k < i ==> SafeMin(cfg, k) <= positions[k] <= SafeMax(cfg, k)
    {
      var norm, targetAngle := MapJoint(cfg, i, raw[i]);
      norms := norms + [norm];
      positions := positions + [targetAngle];
      i := i + 1;
    }
    var spec := ArmAngles(cfg, angles);
    assert |spec.0| == 6 && forall k :: 0 <= k < 6 ==> spec.0[k] == positions[k];
    assert |spec.1| == 6 && forall k :: 0 <= k < 6 ==> spec.1[k] == norms[k];
    assert spec.0 == positions && spec.1 == norms;
  }

  // ---------------------------------------------------------------------------
  // Properties of the per-joint map.

  /** Safety: every joint output lies inside the follower range, for any real input. */
  lemma JointTargetSafe(cfg: Config, i: nat, angle: real)
    ensures SafeMin(cfg, i) <= JointTarget(cfg, i, angle) <= SafeMax(cfg, i)
    ensures JointTarget(cfg, i, angle) == FollowerLimit(cfg, i).0 || JointTarget(cfg, i, angle) == FollowerLimit(cfg, i).1
         || (SafeMin(cfg, i) < JointTarget(cfg, i, angle) < SafeMax(cfg, i))
  {
  }

  /** Short inputs come back unchanged with no normalised values. */
  lemma ShortInputUnchanged(cfg: Config, angles: seq<real>)
    requires |angles| < 6
    ensures ArmAngles(cfg, angles) == (angles, [])
  {
  }

  /** Entries past index 5 (the gripper, say) have no influence. */
  lemma ExtraEntriesIgnored(cfg: Config, angles: seq<real>, extra: seq<real>)
    requires |angles| == 6
    ensures ArmAngles(cfg, angles + extra) == ArmAngles(cfg, angles)
  {
    var longer, exact := ArmAngles(cfg, angles + extra), ArmAngles(cfg, angles);
    assert forall i :: 0 <= i < 6 ==> (angles + extra)[i] == angles[i];
    assert forall i :: 0 <= i < 6 ==> longer.0[i] == exact.0[i] && longer.1[i] == exact.1[i];
    assert longer.0 == exact.0 && longer.1 == exact.1;
  }

  /** The normalised value inverts back to the offset angle: it is the unclamped position in the leader range. */
  lemma NormalizedInverse(cfg: Config, i: nat, angle: real)
    requires LeaderLimit(cfg, i).0 != LeaderLimit(cfg, i).1
    ensures Normalized(cfg, i, angle) * (LeaderLimit(cfg, i).1 - LeaderLimit(cfg, i).0) + LeaderLimit(cfg, i).0
            == angle + HomeOffset(cfg, i)
  {
    var (cMin, cMax) := LeaderLimit(cfg, i);
    var d := angle + HomeOffset(cfg, i) - cMin;
    assert d / (cMax - cMin) * (cMax - cMin) == d;
  }

  /** Normalised values are not clamped: an input one range-width past the top gives 2. */
  lemma NormalizedNotClamped(cfg: Config, i: nat)
    requires LeaderLimit(cfg, i).0 != LeaderLimit(cfg, i).1
    ensures var (cMin, cMax) := LeaderLimit(cfg, i);
            Normalized(cfg, i, 2.0 * cMax - cMin - HomeOffset(cfg, i)) == 2.0
  {
    var (cMin, cMax) := LeaderLimit(cfg, i);
    assert 2.0 * cMax - cMin - HomeOffset(cfg, i) + HomeOffset(cfg, i) - cMin == 2.0 * (cMax - cMin);
    assert 2.0 * (cMax - cMin) / (cMax - cMin) == 2.0;
  }

  /** A degenerate leader range gives norm 0.5 and the midpoint of the follower range, for any input. */
  lemma DegenerateRangeMidpoint(cfg: Config, i: nat, angle: real)
    requires LeaderLimit(cfg, i).0 == LeaderLimit(cfg, i).1
    ensures Normalized(cfg, i, angle) == 0.5
    ensures JointTarget(cfg, i, angle) == (FollowerLimit(cfg, i).0 + FollowerLimit(cfg, i).1) / 2.0
  {
  }

  /** A non-inverted joint takes the leader minimum to the first follower value and the maximum to the second. */
  lemma DirectEndpoints(cfg: Config, i: nat, angle: real)
    requires !Inverted(cfg, i)
    requires LeaderLimit(cfg, i).0 != LeaderLimit(cfg, i).1
    ensures angle + HomeOffset(cfg, i) == LeaderLimit(cfg, i).0 ==> JointTarget(cfg, i, angle) == FollowerLimit(cfg, i).0
    ensures angle + HomeOffset(cfg, i) == LeaderLimit(cfg, i).1 ==> JointTarget(cfg, i, angle) == FollowerLimit(cfg, i).1
  {
    var (cMin, cMax) := LeaderLimit(cfg, i);
    assert (cMax - cMin) / (cMax - cMin) == 1.0;
    assert 0.0 / (cMax - cMin) == 0.0;
  }

  /** An inverted joint takes the leader minimum to the second follower value and the maximum to the first. */
  lemma InvertedEndpoints(cfg: Config, i: nat, angle: real)
    requires Inverted(cfg, i)
    requires LeaderLimit(cfg, i).0 != LeaderLimit(cfg, i).1
    ensures angle + HomeOffset(cfg, i) == LeaderLimit(cfg, i).0 ==> JointTarget(cfg, i, angle) == FollowerLimit(cfg, i).1
    ensures angle + HomeOffset(cfg, i) == LeaderLimit(cfg, i).1 ==> JointTarget(cfg, i, angle) == FollowerLimit(cfg, i).0
  {
    var (cMin, cMax) := LeaderLimit(cfg, i);
    assert (cMax - cMin) / (cMax - cMin) == 1.0;
    assert 0.0 / (cMax - cMin) == 0.0;
  }

  /** Inversion comes from a negative gain, or from the J1/J6 fallback when the gain is missing. */
  lemma InvertedCases(cfg: Config, i: nat)
    ensures Inverted(cfg, i) <==> (i < |cfg.gains| && cfg.gains[i] < 0.0) || (i >= |cfg.gains| && (i == 0 || i == 5))
  {
  }

  /** Inside the leader range the map is the unclamped interpolation between the directed endpoints. */
  lemma InRangeInterpolates(cfg: Config, i: nat, angle: real)
    requires LeaderLimit(cfg, i).0 != LeaderLimit(cfg, i).1
    requires 0.0 <= Normalized(cfg, i, angle) <= 1.0
    ensures var (mMin, mMax) := FollowerLimit(cfg, i);
            var n := Normalized(cfg, i, angle);
            JointTarget(cfg, i, angle) == if Inverted(cfg, i) then mMax + n * (mMin - mMax) else mMin + n * (mMax - mMin)
  {
    var (mMin, mMax) := FollowerLimit(cfg, i);
    var n := Normalized(cfg, i, angle);
    InterpolationWithin(n, mMin, mMax);
    InterpolationWithin(n, mMax, mMin);
  }

  lemma InterpolationWithin(n: real, s: real, e: real)
    requires 0.0 <= n <= 1.0
    ensures Min(s, e) <= n * (e - s) + s <= Max(s, e)
  {
    assert (1.0 - n) * (e - s) == (e - s) - n * (e - s);
    if s <= e {
      MulNonNegative(1.0 - n, e - s);
      MulNonNegative(n, e - s);
    } else {
      MulNonNegative(1.0 - n, s - e);
      MulNonNegative(n, s - e);
      assert n * (s - e) == -(n * (e - s));
    }
  }

  /**
   * J1 with leader [-160, 160], follower [-165, 165], inverted, no offset:
   * 0 maps to 0, -160 to 165, and 200 is clamped to -165.
   */
  lemma InvertedJ1Scenario()
    ensures var cfg := Config([(-160.0, 160.0)], [(-165.0, 165.0)], [-1.0], [0.0], 10.89, -88.76);
            JointTarget(cfg, 0, 0.0) == 0.0 && JointTarget(cfg, 0, -160.0) == 165.0
            && JointTarget(cfg, 0, 200.0) == -165.0
  {
  }

  // ---------------------------------------------------------------------------
  // Gripper.

  /** `process_gripper`: 0 at the closed angle, 100 at the open angle, clamped, truncated by `int`. */
  function ProcessGripper(cfg: Config, angle: real): (r: int)
    requires cfg.gripperClosed != cfg.gripperOpen
    ensures 0 <= r <= 100
  {
    var val := MapValue(angle, cfg.gripperClosed, cfg.gripperOpen, 0.0, 100.0);
    Trunc(Clamp(val, 0.0, 100.0))
  }

  /** The closed angle gives 0 and the open angle gives 100. */
  lemma GripperEndpoints(cfg: Config)
    requires cfg.gripperClosed != cfg.gripperOpen
    ensures ProcessGripper(cfg, cfg.gripperClosed) == 0
    ensures ProcessGripper(cfg, cfg.gripperOpen) == 100
  {
    MapValueEndpoints(cfg.gripperClosed, cfg.gripperOpen, 0.0, 100.0);
  }

  /** With closed above open (as configured), angles beyond either end saturate. */
  lemma GripperSaturates(cfg: Config, angle: real)
    requires cfg.gripperClosed > cfg.gripperOpen
    ensures angle >= cfg.gripperClosed ==> ProcessGripper(cfg, angle) == 0
    ensures angle <= cfg.gripperOpen ==> ProcessGripper(cfg, angle) == 100
  {
    var c, o := cfg.gripperClosed, cfg.gripperOpen;
    var val := MapValue(angle, c, o, 0.0, 100.0);
    assert val == (angle - c) * 100.0 / (o - c);
    var d := o - c;
    if angle >= c {
      DivideByNegative(0.0, (angle - c) * 100.0, d);
      assert 0.0 / d == 0.0;
    }
    if angle <= o {
      DivideByNegative((angle - c) * 100.0, d * 100.0, d);
      ScaleDivide(100.0, d);
    }
  }

  /** The result is the integer part of the clamped linear value: the fraction is dropped, not rounded. */
  lemma GripperTruncates(cfg: Config, angle: real)
    requires cfg.gripperClosed != cfg.gripperOpen
    ensures var v := Clamp(MapValue(angle, cfg.gripperClosed, cfg.gripperOpen, 0.0, 100.0), 0.0, 100.0);
            ProcessGripper(cfg, angle) == Floor(v)
  {
  }

  /** With the shipped constants, a linear value of 99.5 yields 99, where rounding would give 100. */
  lemma GripperTruncationExample()
    ensures MapValue(-88.26175, Default().gripperClosed, Default().gripperOpen, 0.0, 100.0) == 99.5
    ensures ProcessGripper(Default(), -88.26175) == 99
    ensures RoundHalfEven(99.5) == 100
  {
  }

  /** With closed above open, opening the gripper further never lowers the value. */
  lemma GripperMonotone(cfg: Config, a: real, b: real)
    requires cfg.gripperClosed > cfg.gripperOpen
    requires a <= b
    ensures ProcessGripper(cfg, b) <= ProcessGripper(cfg, a)
  {
    var c, o := cfg.gripperClosed, cfg.gripperOpen;
    assert (b - c) * 100.0 - (a - c) * 100.0 == (b - a) * 100.0;
    assert MapValue(b, c, o, 0.0, 100.0) <= MapValue(a, c, o, 0.0, 100.0) by {
      DivideByNegative((a - c) * 100.0, (b - c) * 100.0, o - c);
    }
  }

  lemma DivideByNegative(x: real, y: real, d: real)
    requires d < 0.0 && x <= y
    ensures y / d <= x / d
  {
    assert y / d - x / d == (y - x) / d;
  }
}
