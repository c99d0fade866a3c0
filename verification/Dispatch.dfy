/**
 The command loop of the publisher node: one iteration maps the order typed
 by the user to one publication on one of four topics, to the end of the loop,
 or to the IndexError create_conf raises on a short configuration. The loop
 itself is a fold over the orders read, which stops at the first order that
 does not publish.
 */
module Dispatch {
  import opened Messages
  import Variants

  /** The four topics the node advertises; each accepts one message type. */
  datatype Channel = ObstacleChannel | ConfChannel | PoseChannel | TrajectoryChannel {
    /** The topic name the channel's publisher is created with. */
    function Topic(): string {
      match this
      case ObstacleChannel => "/añadir_obstaculo"
      case ConfChannel => "/mover_configuracion"
      case PoseChannel => "/mover_pose"
      case TrajectoryChannel => "/trayectoria_cartesiana"
    }
  }

  /** The four publishers are on four different topics, so no two channels share a subscriber feed. */
  lemma TopicsDistinct(c: Channel, d: Channel)
    ensures c.Topic() == d.Topic() <==> c == d
  {
    if c != d {
      // The four topic names have four different lengths.
      assert |c.Topic()| != |d.Topic()|;
    }
  }

  /** A message of one of the four types the node publishes. */
  datatype Message =
    | FloorMsg(floor: Floor)
    | ConfMsg(conf: JointState)
    | PoseMsg(pose: Pose)
    | TrajectoryMsg(trajectory: PoseArray)

  /** Whether a topic's publisher accepts this message. */
  predicate Accepts(c: Channel, m: Message) {
    match c
    case ObstacleChannel => m.FloorMsg?
    case ConfChannel => m.ConfMsg?
    case PoseChannel => m.PoseMsg?
    case TrajectoryChannel => m.TrajectoryMsg?
  }

  /** One `publish` call: the message value handed to the topic at that moment. */
  datatype Publication = Publication(channel: Channel, msg: Message)

  /** One pass through the loop body: the order typed and the clock reading stamps use. */
  datatype Request = Request(order: int, now: Time)

  /** The outcome of one loop iteration. */
  datatype Action =
    | Publish(pub: Publication)
    | Stop   // an order the menu does not list: `break`
    | Fault  // create_conf's IndexError, which nothing catches

  /** The base values read at start-up, before the loop. */
  datatype Context = Context(conf: JointState, pose: Pose)

  /**
   The `if/elif` chain of the loop body. The stamp `now` is only read by
   create_trajectory; order 5 passes a fresh second pose to it.
   */
  function StepOf(ctx: Context, req: Request): (a: Action)
    ensures a.Publish? <==> 0 <= req.order <= 5 && (req.order == 2 ==> Variants.HasPerturbedJoint(ctx.conf))
    ensures a.Fault? <==> req.order == 2 && !Variants.HasPerturbedJoint(ctx.conf)
    ensures a.Publish? ==> Accepts(a.pub.channel, a.pub.msg)
    ensures req.order == 0 ==> a == Publish(Publication(ObstacleChannel, FloorMsg(Variants.CreateFloor())))
    ensures req.order == 1 ==> a == Publish(Publication(ConfChannel, ConfMsg(ctx.conf)))
    ensures req.order == 2 && Variants.HasPerturbedJoint(ctx.conf) ==>
              a == Publish(Publication(ConfChannel, ConfMsg(Variants.CreateConf(ctx.conf))))
    ensures req.order == 3 ==> a == Publish(Publication(PoseChannel, PoseMsg(ctx.pose)))
    ensures req.order == 4 ==> a == Publish(Publication(PoseChannel, PoseMsg(Variants.CreatePose(ctx.pose))))
    ensures req.order == 5 ==>
              a == Publish(Publication(TrajectoryChannel,
                                           TrajectoryMsg(Variants.CreateTrajectory(Variants.CreatePose(ctx.pose), req.now))))
    ensures a.Publish? && (req.order == 1 || req.order == 2) ==> a.pub.channel == ConfChannel
    ensures a.Publish? && (req.order == 3 || req.order == 4) ==> a.pub.channel == PoseChannel
    ensures a.Publish? && req.order == 5 ==> a.pub.channel == TrajectoryChannel
  {
    if req.order == 0 then
      Publish(Publication(ObstacleChannel, FloorMsg(Variants.CreateFloor())))
    else if req.order == 1 then
      Publish(Publication(ConfChannel, ConfMsg(ctx.conf)))
    else if req.order == 2 then
      if Variants.HasPerturbedJoint(ctx.conf) then
        Publish(Publication(ConfChannel, ConfMsg(Variants.CreateConf(ctx.conf))))
      else
        Fault
    else if req.order == 3 then
      Publish(Publication(PoseChannel, PoseMsg(ctx.pose)))
    else if req.order == 4 then
      Publish(Publication(PoseChannel, PoseMsg(Variants.CreatePose(ctx.pose))))
    else if req.order == 5 then
      Publish(Publication(TrajectoryChannel,
                          TrajectoryMsg(Variants.CreateTrajectory(Variants.CreatePose(ctx.pose), req.now))))
    else
      Stop
  }

  /** The menu's entries, as a finite table independent of the `if/elif` chain. */
  datatype Selection =
    | SendObstacle
    | SendBaseConf
    | SendSecondConf
    | SendBasePose
    | SendSecondPose
    | SendTrajectory

  const Menu: map<int, Selection> :=
    map[0 := SendObstacle, 1 := SendBaseConf, 2 := SendSecondConf,
        3 := SendBasePose, 4 := SendSecondPose, 5 := SendTrajectory]

  /** The topic a menu entry publishes on. */
  function ChannelOf(s: Selection): Channel {
    match s
    case SendObstacle => ObstacleChannel
    case SendBaseConf => ConfChannel
    case SendSecondConf => ConfChannel
    case SendBasePose => PoseChannel
    case SendSecondPose => PoseChannel
    case SendTrajectory => TrajectoryChannel
  }

  /** What a menu entry does, given the base values and the clock. */
  function Perform(ctx: Context, s: Selection, now: Time): Action {
    match s
    case SendObstacle => Publish(Publication(ChannelOf(s), FloorMsg(Variants.CreateFloor())))
    case SendBaseConf => Publish(Publication(ChannelOf(s), ConfMsg(ctx.conf)))
    case SendSecondConf =>
      if Variants.HasPerturbedJoint(ctx.conf)
      then Publish(Publication(ChannelOf(s), ConfMsg(Variants.CreateConf(ctx.conf))))
      else Fault
    case SendBasePose => Publish(Publication(ChannelOf(s), PoseMsg(ctx.pose)))
    case SendSecondPose => Publish(Publication(ChannelOf(s), PoseMsg(Variants.CreatePose(ctx.pose))))
    case SendTrajectory =>
      var t := Variants.CreateTrajectory(Variants.CreatePose(ctx.pose), now);
      Publish(Publication(ChannelOf(s), TrajectoryMsg(t)))
  }

  /** The `if/elif` chain is a lookup in the menu table; orders outside it stop the loop. */
  lemma StepIsMenuLookup(ctx: Context, req: Request)
    ensures StepOf(ctx, req) == if req.order in Menu then Perform(ctx, Menu[req.order], req.now) else Stop
  {
  }

  /**
   Order 5 on base pose b publishes, because the argument of create_trajectory
   is aliased by waypoint 0: b + (0, 0.1, -0.1), b, b + (0, 0.1, 0), b + (0, 0.1, -0.1),
   all with b's orientation.
   */
  lemma TrajectoryOrder(ctx: Context, now: Time)
    ensures var a := StepOf(ctx, Request(5, now));
            var b := ctx.pose;
            && a.Publish? && a.pub.msg.TrajectoryMsg?
            && a.pub.msg.trajectory.poses == [Translate(b, 0.0, 0.1, -0.1), b,
                                              Translate(b, 0.0, 0.1, 0.0), Translate(b, 0.0, 0.1, -0.1)]
  {
  }

  /**
   Order 5 on the base pose (1, 2, 3) with orientation (w = 1): waypoint 0 is
   (1.0, 2.1, 2.9), the final pose, and not the second pose (0.9, 2, 3).
   */
  lemma TrajectoryScenario(conf: JointState, now: Time)
    ensures var q := Quaternion(0.0, 0.0, 0.0, 1.0);
            var a := StepOf(Context(conf, Pose(Point(1.0, 2.0, 3.0), q)), Request(5, now));
            && a.Publish? && a.pub.channel == TrajectoryChannel
            && a.pub.msg.trajectory.poses == [Pose(Point(1.0, 2.1, 2.9), q), Pose(Point(1.0, 2.0, 3.0), q),
                                              Pose(Point(1.0, 2.1, 3.0), q), Pose(Point(1.0, 2.1, 2.9), q)]
            && a.pub.msg.trajectory.poses[0] != Pose(Point(0.9, 2.0, 3.0), q)
  {
  }

  /** How the loop ended. */
  datatype Exit =
    | Shutdown  // no more orders: rospy.is_shutdown() became true
    | Stopped   // an unlisted order was typed
    | Faulted   // create_conf raised

  /** Everything the loop published, in order, and how it ended. */
  datatype LoopResult = LoopResult(published: seq<Publication>, exit: Exit)

  /** `pre` published before the loop went on to produce `rest`. */
  function Prepend(pre: seq<Publication>, rest: LoopResult): (r: LoopResult)
    ensures r.exit == rest.exit
    ensures |r.published| == |pre| + |rest.published|
  {
    LoopResult(pre + rest.published, rest.exit)
  }

  /**
   The `while` loop of `publish` over the orders read before shutdown: each
   publishing order contributes its publication, and the first order that does
   not publish ends the loop without reading further.
   */
  function Run(ctx: Context, reqs: seq<Request>): (r: LoopResult)
    ensures |r.published| <= |reqs|
    ensures forall i {:trigger r.published[i]} :: 0 <= i < |r.published| ==> StepOf(ctx, reqs[i]) == Publish(r.published[i])
    ensures r.exit == Shutdown <==> |r.published| == |reqs|
    ensures r.exit == Stopped ==> StepOf(ctx, reqs[|r.published|]) == Stop
    ensures r.exit == Faulted ==> StepOf(ctx, reqs[|r.published|]) == Fault
    decreases |reqs|
  {
    if reqs == [] then
      LoopResult([], Shutdown)
    else
      match StepOf(ctx, reqs[0])
      case Stop => LoopResult([], Stopped)
      case Fault => LoopResult([], Faulted)
      case Publish(p) => Prepend([p], Run(ctx, reqs[1..]))
  }

  /** Once the loop has ended, orders typed afterwards are never read. */
  lemma {:induction false} RunIgnoresLaterOrders(ctx: Context, reqs: seq<Request>, later: seq<Request>)
    requires Run(ctx, reqs).exit != Shutdown
    ensures Run(ctx, reqs + later) == Run(ctx, reqs)
    decreases |reqs|
  {
    assert reqs != [];
    assert (reqs + later)[0] == reqs[0];
    if StepOf(ctx, reqs[0]).Publish? {
      assert (reqs + later)[1..] == reqs[1..] + later;
      RunIgnoresLaterOrders(ctx, reqs[1..], later);
    }
  }

  /** Running the loop over two batches of orders publishes the first batch's messages, then the second's. */
  lemma {:induction false} RunConcat(ctx: Context, first: seq<Request>, second: seq<Request>)
    requires Run(ctx, first).exit == Shutdown
    ensures Run(ctx, first + second) == Prepend(Run(ctx, first).published, Run(ctx, second))
    decreases |first|
  {
    if first == [] {
      assert first + second == second;
    } else {
      var p := StepOf(ctx, first[0]).pub;
      var rest := Run(ctx, first[1..]);
      assert Run(ctx, first) == Prepend([p], rest);
      assert (first + second)[1..] == first[1..] + second;
      RunConcat(ctx, first[1..], second);
      calc {
        Run(ctx, first + second);
        { assert (first + second)[0] == first[0]; }
        Prepend([p], Run(ctx, first[1..] + second));
        Prepend([p], Prepend(rest.published, Run(ctx, second)));
        { assert [p] + (rest.published + Run(ctx, second).published)
              == ([p] + rest.published) + Run(ctx, second).published; }
        Prepend([p] + rest.published, Run(ctx, second));
      }
    }
  }

  /**
   The six messages the menu can publish, each built from the base values:
   the floor, the base or second configuration, the base or second pose, and
   the trajectory derived from the second pose, on the topic for its type.
   */
  ghost predicate FromBase(ctx: Context, p: Publication) {
    || p == Publication(ObstacleChannel, FloorMsg(Variants.CreateFloor()))
    || p == Publication(ConfChannel, ConfMsg(ctx.conf))
    || (Variants.HasPerturbedJoint(ctx.conf) && p == Publication(ConfChannel, ConfMsg(Variants.CreateConf(ctx.conf))))
    || p == Publication(PoseChannel, PoseMsg(ctx.pose))
    || p == Publication(PoseChannel, PoseMsg(Variants.CreatePose(ctx.pose)))
    || exists now: Time :: p == Publication(TrajectoryChannel,
                             TrajectoryMsg(Variants.CreateTrajectory(Variants.CreatePose(ctx.pose), now)))
  }

  /**
   Whatever the orders, every publication is one of the six menu messages
   built from the same, untouched base values.
   */
  lemma {:induction false} RunPublishesFromBase(ctx: Context, reqs: seq<Request>)
    ensures forall i :: 0 <= i < |Run(ctx, reqs).published| ==> FromBase(ctx, Run(ctx, reqs).published[i])
  {
    var r := Run(ctx, reqs);
    forall i | 0 <= i < |r.published|
      ensures FromBase(ctx, r.published[i])
    {
      var req := reqs[i];
      assert StepOf(ctx, req) == Publish(r.published[i]);
      if req.order == 5 {
        assert r.published[i] == Publication(TrajectoryChannel,
          TrajectoryMsg(Variants.CreateTrajectory(Variants.CreatePose(ctx.pose), req.now)));
      }
    }
  }

  /** The run [1, 2, 6]: base configuration, then the second configuration, then the loop stops. */
  lemma ConfScenario(ctx: Context, t1: Time, t2: Time, t3: Time)
    requires Variants.HasPerturbedJoint(ctx.conf)
    ensures Run(ctx, [Request(1, t1), Request(2, t2), Request(6, t3)])
         == LoopResult([Publication(ConfChannel, ConfMsg(ctx.conf)),
                        Publication(ConfChannel, ConfMsg(Variants.CreateConf(ctx.conf)))],
                       Stopped)
  {
    var reqs := [Request(1, t1), Request(2, t2), Request(6, t3)];
    var base := Publication(ConfChannel, ConfMsg(ctx.conf));
    var second := Publication(ConfChannel, ConfMsg(Variants.CreateConf(ctx.conf)));
    assert reqs[1..] == [Request(2, t2), Request(6, t3)];
    assert reqs[1..][1..] == [Request(6, t3)];
    assert Run(ctx, [Request(6, t3)]) == LoopResult([], Stopped);
    assert Run(ctx, reqs[1..]) == LoopResult([second], Stopped);
    assert Run(ctx, reqs) == LoopResult([base, second], Stopped);
  }
}
