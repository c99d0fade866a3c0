/**
 The ROS message types the publisher node works with, as immutable values.
 Every field that the node copies, reads or writes is present; coordinates and
 joint angles are `real` (the node's offsets are meant as exact additions).
 */
module Messages {

  /** A ROS time stamp. The node only copies stamps around, so it is opaque. */
  datatype Time = Time(secs: int, nsecs: int)

  /** std_msgs/Header without the sequence counter, which the node never sets. */
  datatype Header = Header(stamp: Time, frameId: string)

  /** geometry_msgs/Point */
  datatype Point = Point(x: real, y: real, z: real)

  /** geometry_msgs/Quaternion; nothing normalises it, values are copied verbatim. */
  datatype Quaternion = Quaternion(x: real, y: real, z: real, w: real)

  /** geometry_msgs/Pose */
  datatype Pose = Pose(position: Point, orientation: Quaternion)

  /** sensor_msgs/JointState */
  datatype JointState = JointState(
    header: Header,
    name: seq<string>,
    position: seq<real>,
    velocity: seq<real>,
    effort: seq<real>)

  /** geometry_msgs/PoseArray: an ordered list of waypoints in one frame. */
  datatype PoseArray = PoseArray(header: Header, poses: seq<Pose>)

  /** The package's own Floor message: a box placed at a pose, with a label and a size. */
  datatype Floor = Floor(poseCaja: Pose, name: string, size: seq<real>)

  /** The value a freshly constructed message field holds: every number 0.0. */
  const ZeroPoint: Point := Point(0.0, 0.0, 0.0)
  const ZeroQuaternion: Quaternion := Quaternion(0.0, 0.0, 0.0, 0.0)

  /** Moves a pose by (dx, dy, dz), keeping its orientation. */
  function Translate(p: Pose, dx: real, dy: real, dz: real): (r: Pose)
    ensures r.position.x - p.position.x == dx
    ensures r.position.y - p.position.y == dy
    ensures r.position.z - p.position.z == dz
    ensures r.orientation == p.orientation
  {
    Pose(Point(p.position.x + dx, p.position.y + dy, p.position.z + dz), p.orientation)
  }
}
