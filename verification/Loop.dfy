/**
 The `publish` loop on heap objects. The base configuration and base pose are
 objects read once before the loop; the method has no modifies clause, so
 nothing it does (including create_trajectory's mutation of its argument, which
 lands on a fresh second pose) can change their modelled fields. Header
 sequence numbers, which rospy stamps on publish, are not modelled. What it
 publishes, and how it ends, is exactly the fold Dispatch.Run over the base
 values.
 */
module Loop {
  import opened Messages
  import Variants
  import Cells
  import opened Dispatch

  /**
   One pass through the loop body on objects: order 2 and 4 deep-copy a base
   object, order 5 hands create_trajectory a fresh copy, so the base objects
   are never changed (no modifies clause). The action taken is Dispatch.StepOf
   on the base values.
   */
  method Iteration(confInit: Cells.JointStateCell, poseInit: Cells.PoseCell, floor: Floor, req: Request)
    returns (a: Action)
    requires floor == Variants.CreateFloor()
    ensures a == StepOf(Context(confInit.Value(), poseInit.Value()), req)
  {
    var order := req.order;
    if order == 0 {
      a := Publish(Publication(ObstacleChannel, FloorMsg(floor)));
    } else if order == 1 {
      a := Publish(Publication(ConfChannel, ConfMsg(confInit.Value())));
    } else if order == 2 {
      if !Variants.HasPerturbedJoint(confInit.Value()) {
        // create_conf indexes position[5] and raises IndexError.
        a := Fault;
        return;
      }
      var confMsg := Cells.CreateConf(confInit);
      a := Publish(Publication(ConfChannel, ConfMsg(confMsg.Value())));
    } else if order == 3 {
      a := Publish(Publication(PoseChannel, PoseMsg(poseInit.Value())));
    } else if order == 4 {
      var poseMsg := Cells.CreatePose(poseInit);
      a := Publish(Publication(PoseChannel, PoseMsg(poseMsg.Value())));
    } else if order == 5 {
      var pose := Cells.CreatePose(poseInit);
      var trajectoryMsg := Cells.CreateTrajectory(pose, req.now);
      a := Publish(Publication(TrajectoryChannel, TrajectoryMsg(Cells.Serialize(trajectoryMsg))));
    } else {
      a := Stop;
    }
  }

  /**
   The `while` loop of `publish` over the orders read before shutdown; each
   `publish` records the message's value at that moment, as ROS serialises it
   then. The floor is built once, before the loop.
   */
  method PublishLoop(confInit: Cells.JointStateCell, poseInit: Cells.PoseCell, reqs: seq<Request>)
    returns (published: seq<Publication>, exit: Exit)
    ensures LoopResult(published, exit) == Run(Context(confInit.Value(), poseInit.Value()), reqs)
  {
    ghost var ctx := Context(confInit.Value(), poseInit.Value());
    var floor := Variants.CreateFloor();
    published := [];
    var i := 0;
    while i < |reqs|
      invariant 0 <= i <= |reqs|
      invariant ctx == Context(confInit.Value(), poseInit.Value())
      invariant Run(ctx, reqs) == Prepend(published, Run(ctx, reqs[i..]))
      decreases |reqs| - i
    {
      assert reqs[i..][0] == reqs[i] && reqs[i..][1..] == reqs[i + 1..];
      var a := Iteration(confInit, poseInit, floor, reqs[i]);
      match a
      case Stop =>
        exit := Stopped;
        return;
      case Fault =>
        exit := Faulted;
        return;
      case Publish(pub) =>
        assert published + [pub] + Run(ctx, reqs[i + 1..]).published
            == published + ([pub] + Run(ctx, reqs[i + 1..]).published);
        published := published + [pub];
        i := i + 1;
    }
    exit := Shutdown;
  }
}
