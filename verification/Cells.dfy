/**
 The node's messages as mutable Python objects. A Pose or JointState lives on
 the heap; `copy.deepcopy` allocates a new object with the same contents, and
 create_trajectory mutates the object it is given. The nested Point,
 Quaternion and lists are held by value inside each object: the node never
 shares them between two messages other than through a whole-message alias.
 */
module Cells {
  import opened Messages
  import Variants

  /** A geometry_msgs/Pose object. */
  class PoseCell {
    var position: Point
    var orientation: Quaternion

    /** The message this object currently holds. */
    function Value(): Pose
      reads this
    {
      Pose(position, orientation)
    }

    /** A new object holding `p`. */
    constructor Of(p: Pose)
      ensures Value() == p
    {
      position := p.position;
      orientation := p.orientation;
    }
  }

  /** A sensor_msgs/JointState object. */
  class JointStateCell {
    var header: Header
    var name: seq<string>
    var position: seq<real>
    var velocity: seq<real>
    var effort: seq<real>

    /** The message this object currently holds. */
    function Value(): JointState
      reads this
    {
      JointState(header, name, position, velocity, effort)
    }

    /** A new object holding `c`. */
    constructor Of(c: JointState)
      ensures Value() == c
    {
      header := c.header;
      name := c.name;
      position := c.position;
      velocity := c.velocity;
      effort := c.effort;
    }
  }

  /** The message values a list of pose objects holds, in order. */
  function Snapshot(cells: seq<PoseCell>): (ps: seq<Pose>)
    reads cells
    ensures |ps| == |cells|
    ensures forall i :: 0 <= i < |cells| ==> ps[i] == cells[i].Value()
  {
    seq(|cells|, i reads cells requires 0 <= i < |cells| => cells[i].Value())
  }

  /** copy.deepcopy of a pose: a new object with equal contents. */
  method DeepCopyPose(p: PoseCell) returns (c: PoseCell)
    ensures fresh(c)
    ensures c.Value() == p.Value()
  {
    c := new PoseCell.Of(p.Value());
  }

  /** create_pose on objects: the base object is left as it was (no modifies clause). */
  method CreatePose(p: PoseCell) returns (r: PoseCell)
    ensures fresh(r)
    ensures r.Value() == Variants.CreatePose(p.Value())
  {
    r := DeepCopyPose(p);
    r.position := r.position.(x := r.position.x - Variants.Offset);
  }

  /** create_conf on objects: the base object is left as it was (no modifies clause). */
  method CreateConf(c: JointStateCell) returns (r: JointStateCell)
    requires Variants.HasPerturbedJoint(c.Value())
    ensures fresh(r)
    ensures r.Value() == Variants.CreateConf(c.Value())
  {
    r := new JointStateCell.Of(c.Value());
    r.position := r.position[5 := r.position[5] + Variants.JointStep];
  }

  /** A PoseArray whose poses are objects, as create_trajectory builds it. */
  datatype PoseArrayCells = PoseArrayCells(header: Header, poses: seq<PoseCell>)

  /**
   create_trajectory on objects. The argument itself is waypoint 0 and is
   moved by +0.1 x, +0.1 y, -0.1 z; a deep copy is appended after each move.
   On return waypoint 0 and the caller's object hold the final pose, waypoints
   1 to 3 are three new, distinct objects, and the values equal
   Variants.CreateTrajectory of the starting pose.
   */
  method CreateTrajectory(pose: PoseCell, now: Time) returns (t: PoseArrayCells)
    modifies pose
    ensures |t.poses| == 4
    ensures t.poses[0] == pose
    ensures fresh(t.poses[1]) && fresh(t.poses[2]) && fresh(t.poses[3])
    ensures t.poses[1] != t.poses[2] && t.poses[1] != t.poses[3] && t.poses[2] != t.poses[3]
    ensures t.header == Variants.CreateTrajectory(old(pose.Value()), now).header
    ensures Snapshot(t.poses) == Variants.CreateTrajectory(old(pose.Value()), now).poses
    ensures pose.Value() == Variants.Waypoints(old(pose.Value()))[3]
  {
    var waypoints := [pose];

    pose.position := pose.position.(x := pose.position.x + Variants.Offset);
    var afterX := DeepCopyPose(pose);
    waypoints := waypoints + [afterX];

    pose.position := pose.position.(y := pose.position.y + Variants.Offset);
    var afterY := DeepCopyPose(pose);
    waypoints := waypoints + [afterY];

    pose.position := pose.position.(z := pose.position.z - Variants.Offset);
    var afterZ := DeepCopyPose(pose);
    waypoints := waypoints + [afterZ];

    t := PoseArrayCells(Header(now, Variants.TrajectoryFrame), waypoints);
  }

  /** The PoseArray message a PoseArrayCells holds at this moment. */
  function Serialize(t: PoseArrayCells): (m: PoseArray)
    reads t.poses
    ensures m.header == t.header
    ensures |m.poses| == |t.poses|
  {
    PoseArray(t.header, Snapshot(t.poses))
  }
}
