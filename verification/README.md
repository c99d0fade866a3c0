# Publisher node: message variants and command dispatch

A Dafny model of the core of the `practica_1` publisher node
(`src/actividad_1/src/practica_1/publisher.py`). At start-up the node reads a
base joint configuration and a base end-effector pose. It then loops. Each
pass reads an integer order and publishes one message on one of four topics:

- 0: the floor obstacle on `/añadir_obstaculo`
- 1: the base configuration on `/mover_configuracion`
- 2: the second configuration (joint 5 turned by 45°) on `/mover_configuracion`
- 3: the base pose on `/mover_pose`
- 4: the second pose (x − 0.1) on `/mover_pose`
- 5: a four-waypoint Cartesian trajectory built from the second pose, on `/trayectoria_cartesiana`

Any other order ends the loop.

Modules:

- `Messages` (Messages.dfy): the ROS messages as immutable values (Pose, JointState, PoseArray, Floor).
- `Variants` (Variants.dfy): `create_pose`, `create_conf`, `create_trajectory` and `create_floor` as pure functions.
- `Cells` (Cells.dfy): the same operations on mutable heap objects.
  - `copy.deepcopy` allocates a fresh object.
  - `create_trajectory` mutates its argument and stores that object as waypoint 0.
  - Each method is proved to produce exactly the values `Variants` computes.
- `Dispatch` (Dispatch.dfy): one loop pass (`StepOf`), the menu as a lookup table, and the loop as a fold (`Run`). The fold stops at the first order that does not publish.
- `Loop` (Loop.dfy): the loop on heap objects.
  - It has no `modifies` clause, so Dafny proves that none of the modelled fields of the base configuration and base pose objects ever change.
  - Its result is proved equal to `Dispatch.Run`.

Coordinates and angles are `real`, so the offsets are exact additions. π is
`3.141592653589793`, the printed value of Python's `math.pi`.

The trajectory is modelled as the code writes it. `create_trajectory` stores
its argument object as waypoint 0 and then keeps moving that object. So, once
the list is returned, waypoint 0 holds the final pose (start + (0.1, 0.1, −0.1)),
the same value as waypoint 3. No waypoint holds the unmoved start. For order 5 on
base pose (1, 2, 3), waypoint 0 is (1.0, 2.1, 2.9), not the second pose
(0.9, 2, 3). A reading of the function as "start, then three steps" would
expect the second pose there. The model follows the code
(`Variants.Waypoints`, `Cells.CreateTrajectory`, `Dispatch.TrajectoryScenario`).

A configuration with fewer than six joint positions makes `create_conf` raise
`IndexError`. Nothing catches it, so the node ends. `Variants.CreateConf` takes
the length as a precondition. The dispatch step turns order 2 on such a
configuration into a `Fault` that ends the loop. The other orders still work on
such a configuration, so `StepOf` and `Run` have no length precondition.

## Model

| member | source | states |
|---|---|---|
| Variants.CreatePose | src/actividad_1/src/practica_1/publisher.py:49-53 | the second pose has x decreased by 0.1; y, z and the orientation equal the base's |
| Variants.CreatePoseInverse | src/actividad_1/src/practica_1/publisher.py:49-53 | moving the second pose 0.1 forward along x gives back the base pose, so nothing else was changed |
| Cells.CreatePose | src/actividad_1/src/practica_1/publisher.py:49-53 | on objects: the result is a fresh object (a deep copy) holding the second pose; the base object is not modified |
| Variants.CreateConf | src/actividad_1/src/practica_1/publisher.py:56-60 | needs at least 6 joint positions; same length, position[5] increased by π/4, every other index and every other field unchanged |
| Variants.CreateConfInverse | src/actividad_1/src/practica_1/publisher.py:56-60 | turning joint 5 of the second configuration back by π/4 gives back the base configuration |
| Cells.CreateConf | src/actividad_1/src/practica_1/publisher.py:56-60 | on objects: a fresh object holding the second configuration; the base object is not modified |
| Variants.Waypoints | src/actividad_1/src/practica_1/publisher.py:64-73 | exactly four waypoints from start s: [1] = s + (0.1, 0, 0), [2] = s + (0.1, 0.1, 0), [3] = s + (0.1, 0.1, −0.1), [0] equal to [3]; all keep s's orientation; none equals s |
| Variants.WaypointsAreSuccessiveSteps | src/actividad_1/src/practica_1/publisher.py:66-73 | each snapshot is the previous one moved by one step (+x, then +y, then −z); waypoint 0 is the start moved by all three |
| Variants.CreateTrajectory | src/actividad_1/src/practica_1/publisher.py:63-80 | frame "base_link", stamped with the clock reading; the poses are exactly the four waypoints of Variants.Waypoints, every one keeping the argument's orientation |
| Cells.CreateTrajectory | src/actividad_1/src/practica_1/publisher.py:63-80 | on objects: waypoint 0 IS the argument object; waypoints 1-3 are fresh and pairwise distinct; the values are those of Variants.CreateTrajectory of the starting pose; the caller's object ends holding the final pose |
| Variants.CreateFloor | src/actividad_1/src/practica_1/publisher.py:83-94 | the obstacle is at (0, 0, −0.026) with all-zero orientation, named "suelo", size [2, 2, 0.05] |
| Dispatch.StepOf | src/actividad_1/src/practica_1/publisher.py:122-145 | the order publishes iff it is 0..5 (and 2 only with joint 5 present); a short configuration on order 2 faults; the channel always accepts the message; 0, 1 and 3 publish the floor, base configuration and base pose unchanged; 2 publishes create_conf(base), 4 create_pose(base), 5 create_trajectory(create_pose(base)) stamped with the clock reading; 1-2 go to the configuration topic, 3-4 to the pose topic, 5 to the trajectory topic |
| Dispatch.StepIsMenuLookup | src/actividad_1/src/practica_1/publisher.py:122-145 | the if/elif chain equals a lookup in the menu table {0..5}, with every order outside the table stopping the loop |
| Dispatch.TrajectoryOrder | src/actividad_1/src/practica_1/publisher.py:139-141 | order 5 on base pose b publishes [b + (0, 0.1, −0.1), b, b + (0, 0.1, 0), b + (0, 0.1, −0.1)] |
| Dispatch.TrajectoryScenario | src/actividad_1/src/practica_1/publisher.py:139-141 | order 5 on base pose (1, 2, 3) publishes waypoints (1.0, 2.1, 2.9), (1, 2, 3), (1, 2.1, 3), (1.0, 2.1, 2.9); waypoint 0 is not (0.9, 2, 3) |
| Dispatch.Run | src/actividad_1/src/practica_1/publisher.py:117-147 | the loop publishes, in order, the publication of each order read until the first that does not publish; it ends by shutdown iff every order published, and otherwise the next order is the one that stopped it or faulted |
| Dispatch.RunIgnoresLaterOrders | src/actividad_1/src/practica_1/publisher.py:144-145 | once an order has ended the loop, orders that would come after it change nothing |
| Dispatch.RunConcat | src/actividad_1/src/practica_1/publisher.py:117-147 | a batch of orders that all publish, followed by a second batch, publishes the first batch's messages and then what the second batch publishes on its own |
| Dispatch.RunPublishesFromBase | src/actividad_1/src/practica_1/publisher.py:106-145 | whatever the orders, every publication is one of six messages: the floor, the base configuration, create_conf(base), the base pose, create_pose(base), or a trajectory of create_pose(base), each on its own topic |
| Dispatch.TopicsDistinct | src/actividad_1/src/practica_1/publisher.py:99-102 | the four publishers use four different topic names, so two channels have the same topic only if they are the same channel |
| Dispatch.ConfScenario | src/actividad_1/src/practica_1/publisher.py:125-145 | orders [1, 2, 6] publish the base configuration, then the second configuration, then stop |
| Loop.Iteration | src/actividad_1/src/practica_1/publisher.py:122-145 | one pass on objects takes exactly the action StepOf gives for the base values, without modifying the base objects |
| Loop.PublishLoop | src/actividad_1/src/practica_1/publisher.py:106-147 | the loop on objects publishes exactly what Run gives for the base values; with no modifies clause, the base configuration and pose objects are never mutated |

## Left out

- `get_initial_conf` and `get_initial_pose` (lines 12-46) open YAML files at fixed absolute paths. This is file I/O. The base values are inputs (`Context`, or the two objects passed to `Loop.PublishLoop`).
- rospy plumbing is left out: node initialisation, `Publisher` objects, `Rate`/`sleep` and `ROSInterruptException` (lines 98-103, 147, 149-153). A publish is the recorded `Publication` value. `rospy.is_shutdown()` is the order sequence running out (exit `Shutdown`).
- `rospy.Time.now()` reads the clock. It is the `now` field of each `Request`. The configuration's stamp is copied along unchanged.
- `int(input(...))` and the menu `print`s (lines 110-115, 120) are console I/O. A non-integer input raises before the core runs, so orders are `int`.
- Python floats are IEEE-754 doubles. All offsets are stated over `real`, so float rounding (for example x − 0.1 + 0.1 ≠ x) is not modelled. π is the decimal 3.141592653589793 rather than the exact double.
- `Cells` holds the nested Point, Quaternion and position list of a message by value. So aliasing is modelled at whole-message level only. The node never shares those nested objects between two messages except through the whole-message alias of waypoint 0.
- Header sequence numbers (`header.seq`) are not modelled. The node's code never sets them, but rospy's `publish` writes `seq` into every published message that has a header, so order 1 does change `conf_init.header.seq`. The never-mutated claims of `Loop.Iteration` and `Loop.PublishLoop` cover the modelled fields only.
