/**
 * The calibration constants of the teleoperation bridge, as one immutable
 * value that every mapping and calibration operation takes as a parameter.
 * Limit pairs are (first, second) in degrees; nothing forces first < second.
 */
module Config {

  type Pair = (real, real)

  datatype Config = Config(
    leaderLimits: seq<Pair>,    // C650_LIMITS: leader input range per joint (7 pairs incl. gripper)
    followerLimits: seq<Pair>,  // M750_LIMITS: follower software clamps per joint
    gains: seq<real>,           // M750_GAINS: a negative entry inverts the joint
    homeAngles: seq<real>,      // C650_HOME_ANGLES: offset added to each raw leader angle
    gripperClosed: real,        // LEADER_GRIPPER_CLOSED
    gripperOpen: real           // LEADER_GRIPPER_OPEN
  )

  /** The values shipped in the repository's configuration file. */
  function Default(): Config
  {
    Config(
      [(-161.8, 152.49), (-198.2, 190.38), (-188.62, 183.2), (-164.61, 160.22),
       (-118.74, 75.41), (-145.28, 153.1), (-88.7, 10.89)],
      [(-165.0, 165.0), (-54.0, 100.0), (-100.0, 62.0), (-152.0, 155.0),
       (-90.0, 120.0), (-148.0, 162.0)],
      [-1.0, 1.0, 1.0, 1.0, 1.0, -1.0],
      [0.0, 0.0, 0.0, 0.0, -25.0, 23.0],
      10.89,
      -88.76)
  }

  /** Every pair of `ps` is stored in increasing order. */
  predicate Ascending(ps: seq<Pair>)
  {
    forall i :: 0 <= i < |ps| ==> ps[i].0 < ps[i].1
  }

  /** The follower clamps: six pairs, each first < second. */
  lemma DefaultFollowerLimits()
    ensures |Default().followerLimits| == 6 && Ascending(Default().followerLimits)
  {
  }

  /** Gains: -1 for J1 and J6 (inverted), +1 for the four joints between. */
  lemma DefaultGains()
    ensures |Default().gains| == 6
    ensures forall i :: 0 <= i < 6 ==>
      Default().gains[i] == (if i == 0 || i == 5 then -1.0 else 1.0)
  {
  }

  /** Home offsets: zero except J5 (-25) and J6 (+23). */
  lemma DefaultHomeAngles()
    ensures |Default().homeAngles| == 6
    ensures forall i :: 0 <= i < 4 ==> Default().homeAngles[i] == 0.0
    ensures Default().homeAngles[4] == -25.0 && Default().homeAngles[5] == 23.0
  {
  }

  /** Leader ranges: seven ascending pairs, so no joint has a degenerate range. */
  lemma DefaultLeaderLimits()
    ensures |Default().leaderLimits| == 7 && Ascending(Default().leaderLimits)
    ensures forall i :: 0 <= i < 7 ==> Default().leaderLimits[i].0 != Default().leaderLimits[i].1
  {
  }

  /** The closed gripper angle lies above the open one: the gripper map decreases. */
  lemma DefaultGripperEndpoints()
    ensures Default().gripperClosed > Default().gripperOpen
  {
  }
}
