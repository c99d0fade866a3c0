/**
 The message variants the publisher derives from its base pose and base joint
 configuration, as pure functions over message values: the second pose, the
 second configuration, the four-waypoint Cartesian trajectory and the floor
 obstacle. The heap behaviour of the same operations (deep copies, the
 trajectory mutating its argument) is in module Cells, which is proved to
 produce exactly these values.
 */
module Variants {
  import opened Messages

  /** Python's `math.pi`, as the decimal it prints. */
  const Pi: real := 3.141592653589793

  /** Offset, in length units, of every Cartesian step the node takes. */
  const Offset: real := 0.1

  /** Offset added to joint 5 by the second configuration: 45 degrees in radians. */
  const JointStep: real := 45.0 * Pi / 180.0

  /** Index of the joint that the second configuration perturbs. */
  const PerturbedJoint: nat := 5

  /** Frame every trajectory is expressed in. */
  const TrajectoryFrame: string := "base_link"

  /**
   create_pose: a deep copy of the pose moved 0.1 back along x. The argument is
   a value, so it cannot be changed; module Cells shows the copy is a new object.
   */
  function CreatePose(p: Pose): (r: Pose)
    ensures r.position.x == p.position.x - 0.1
    ensures r.position.y == p.position.y && r.position.z == p.position.z
    ensures r.orientation == p.orientation
  {
    Translate(p, -Offset, 0.0, 0.0)
  }

  /** Moving the second pose 0.1 forward along x gives back the base pose. */
  lemma CreatePoseInverse(p: Pose)
    ensures Translate(CreatePose(p), 0.1, 0.0, 0.0) == p
  {
  }

  /** Whether create_conf can index joint 5 of this configuration without an IndexError. */
  predicate HasPerturbedJoint(c: JointState) {
    |c.position| > PerturbedJoint
  }

  /**
   create_conf: a deep copy of the configuration with joint 5 turned by pi/4.
   A shorter position list raises IndexError in the node, so the length is a
   precondition here.
   */
  function CreateConf(c: JointState): (r: JointState)
    requires HasPerturbedJoint(c)
    ensures |r.position| == |c.position|
    ensures r.position[5] == c.position[5] + Pi / 4.0
    ensures forall i :: 0 <= i < |c.position| && i != 5 ==> r.position[i] == c.position[i]
    ensures r.header == c.header && r.name == c.name
    ensures r.velocity == c.velocity && r.effort == c.effort
  {
    c.(position := c.position[PerturbedJoint := c.position[PerturbedJoint] + JointStep])
  }

  /** Turning joint 5 of the second configuration back by pi/4 gives the base configuration. */
  lemma CreateConfInverse(c: JointState)
    requires HasPerturbedJoint(c)
    ensures var r := CreateConf(c);
            r.(position := r.position[5 := r.position[5] - Pi / 4.0]) == c
  {
    var r := CreateConf(c);
    var back := r.position[5 := r.position[5] - Pi / 4.0];
    assert back == c.position;
  }

  /**
   The four waypoints create_trajectory returns for a start pose s. The node
   mutates its argument through +0.1 x, +0.1 y and -0.1 z, snapshotting after
   each step; the first entry is the argument object itself, so by the time the
   list is returned it holds the final pose, like the last snapshot.
   */
  function Waypoints(s: Pose): (w: seq<Pose>)
    ensures |w| == 4
    ensures w[1].position == Point(s.position.x + 0.1, s.position.y, s.position.z)
    ensures w[2].position == Point(s.position.x + 0.1, s.position.y + 0.1, s.position.z)
    ensures w[3].position == Point(s.position.x + 0.1, s.position.y + 0.1, s.position.z - 0.1)
    ensures w[0] == w[3]
    ensures forall i :: 0 <= i < |w| ==> w[i].orientation == s.orientation
    ensures forall i :: 0 <= i < |w| ==> w[i] != s
  {
    var afterX := Translate(s, Offset, 0.0, 0.0);
    var afterY := Translate(afterX, 0.0, Offset, 0.0);
    var afterZ := Translate(afterY, 0.0, 0.0, -Offset);
    [afterZ, afterX, afterY, afterZ]
  }

  /** Each snapshot is the previous one moved by exactly one step of the sequence. */
  lemma WaypointsAreSuccessiveSteps(s: Pose)
    ensures Waypoints(s)[1] == Translate(s, 0.1, 0.0, 0.0)
    ensures Waypoints(s)[2] == Translate(Waypoints(s)[1], 0.0, 0.1, 0.0)
    ensures Waypoints(s)[3] == Translate(Waypoints(s)[2], 0.0, 0.0, -0.1)
    ensures Waypoints(s)[0] == Translate(s, 0.1, 0.1, -0.1)
  {
  }

  /** create_trajectory: the waypoints, stamped with the clock reading `now`, in frame base_link. */
  function CreateTrajectory(s: Pose, now: Time): (r: PoseArray)
    ensures r.header.frameId == "base_link" && r.header.stamp == now
    ensures |r.poses| == 4
    ensures forall i :: 0 <= i < 4 ==> r.poses[i].orientation == s.orientation
    ensures r.poses == Waypoints(s)
  {
    PoseArray(Header(now, TrajectoryFrame), Waypoints(s))
  }

  /** create_floor: the fixed floor obstacle. */
  function CreateFloor(): (f: Floor)
    ensures f.poseCaja.position == Point(0.0, 0.0, -0.026)
    ensures f.poseCaja.orientation == Quaternion(0.0, 0.0, 0.0, 0.0)
    ensures f.name == "suelo"
    ensures f.size == [2.0, 2.0, 0.05]
  {
    Floor(Pose(ZeroPoint.(z := -0.026), ZeroQuaternion), "suelo", [2.0, 2.0, 0.05])
  }
}
