# Planet Defender core, in Dafny

A model of the gameplay logic of Planet Defender, a small Unity game: a snake (or
a chain) steered round the Earth encloses falling fireballs before they hit the planet.
The model covers the bookkeeping and decision rules that sit around the engine calls:

- the chain that trails an anchor (`ChainFollowing`). It keeps three parallel lists
  (segments, target positions, rigid bodies). Its targets are back-propagated from the
  anchor. A segment then either eases toward its target or is pulled toward it by forces.
- the rope-clamped snake (`SnakeHeads`): a linked list of nodes headed by the head, each
  node pulled to within `segmentSpacing` of its freshly moved predecessor;
- the lerp-follow snake (`SnakeControllers`), with its head kept inside a rectangle;
- the fireball's encapsulation detector (`Fireballs`) and the per-segment distance test
  it calls (`SnakeSegments`);
- the fireball spawner's object-pool bookkeeping and spawn timer (`FireballSpawning`);
- the swipe and key classification of the input controller (`InputControl`).

`Geometry` holds vectors, poses and the engine's floating-point routines. Square roots
(`magnitude`, `normalize`) and quaternion operations (`Slerp`, `Lerp`, `LookRotation`,
`Euler`, `rotation * Vector3.up`) cannot be computed exactly over the reals. So they are
the function-typed fields of a datatype `Engine` that every operation receives.
`Lawful(e)` states the laws of length and direction the proofs rely on. Every threshold
test on a length is stated as a comparison of squared lengths, and the lemmas about it
cover both sides of the threshold.

The engine's side effects are recorded rather than simulated. These are forces, torques,
velocity writes, physics rotations, effects, a fireball's destruction of itself, pool
requests, launches and announced directions. Each is a value in a returned command list or in a log field that
the methods append to. Game objects whose fields the source updates in place are classes;
Unity lists and dictionaries are `seq` and `map` fields that the methods reassign.
Frame callbacks (`Start`, `Update`, `FixedUpdate`, `LateUpdate`) are methods the
environment calls, with the frame time as a parameter. Random draws are parameters too.

## Model

| member | source | states |
|---|---|---|
| SnakeSegments.CanBeEncapsulate | Assets/Scripts/Snake/SnakeSegment.cs:8-11 | never returns normally: every call throws |
| SnakeSegments.CheckEncapsulation | Assets/Scripts/Snake/SnakeSegment.cs:13-23 | the distance test itself: the object is encapsulated iff its distance from the segment is at most `encapsulateRadius`, boundary included (its properties are the lemmas below) |
| SnakeSegments.CheckEncapsulationSquared | Assets/Scripts/Snake/SnakeSegment.cs:13-23 | the object is encapsulated iff the radius is non-negative and the squared distance is at most the squared radius |
| SnakeSegments.BoundaryIncluded | Assets/Scripts/Snake/SnakeSegment.cs:15 | an object exactly one radius away is encapsulated |
| SnakeSegments.OutsideExcluded | Assets/Scripts/Snake/SnakeSegment.cs:15-22 | an object strictly beyond the radius is not |
| SnakeSegments.MonotoneInRadius | Assets/Scripts/Snake/SnakeSegment.cs:15 | an object encapsulated at one radius stays encapsulated at any larger one |
| SnakeSegments.NegativeRadiusNeverEncapsulates | Assets/Scripts/Snake/SnakeSegment.cs:15 | with a negative radius nothing is encapsulated |
| SnakeSegments.CheckEncapsulationSymmetric | Assets/Scripts/Snake/SnakeSegment.cs:15 | swapping the segment and the object gives the same answer |
| Fireballs.SurroundCount | Assets/Scripts/Fireballs/BaseFireball.cs:93-107 | the number of surrounding colliders never exceeds the number of hits |
| Fireballs.SurroundCountAppend | Assets/Scripts/Fireballs/BaseFireball.cs:93-107 | the count over two batches of hits is the sum of their counts |
| Fireballs.SurroundCountOrderFree | Assets/Scripts/Fireballs/BaseFireball.cs:91-107 | any two hit lists holding the same colliders, in whatever order, give the same count |
| Fireballs.ReachesThreshold | Assets/Scripts/Fireballs/BaseFireball.cs:99-104 | the threshold test after an increment: some counted hit brought the counter to at least `minEncapsulation` (tied to the loop by `GetNearbySnakeSegments`) |
| Fireballs.UntaggedNeverCounted | Assets/Scripts/Fireballs/BaseFireball.cs:95-99 | hits without the "SnakeSegment" tag never count, whatever their distance test says |
| Fireballs.BaseFireball.constructor | Assets/Scripts/Fireballs/BaseFireball.cs:9-23 | the fireball starts un-nullified, with a zero counter and no effects |
| Fireballs.BaseFireball.Initialize | Assets/Scripts/Fireballs/BaseFireball.cs:43-47 | records the target and sets the velocity to the up axis times `fallSpeed` |
| Fireballs.BaseFireball.OnEarthImpact | Assets/Scripts/Fireballs/BaseFireball.cs:49-57 | plays the impact effect and destroys the fireball unless it is nullified; never sets the flag itself |
| Fireballs.BaseFireball.OnEncapsulated | Assets/Scripts/Fireballs/BaseFireball.cs:59-66 | the flag is set afterwards; the effect and destruction happen on the first call only |
| Fireballs.BaseFireball.OnCollisionEnter | Assets/Scripts/Fireballs/BaseFireball.cs:80-86 | only a collision tagged "Earth" leads to an impact, and only for a fireball not nullified |
| Fireballs.BaseFireball.GetNearbySnakeSegments | Assets/Scripts/Fireballs/BaseFireball.cs:88-110 | the counter is zero again on exit; the fireball is nullified afterwards iff it was before or the hits' surround count reaches `minEncapsulation`; the nullification effect is issued once, only on that transition |
| SnakeHeads.ClampStep | Assets/Scripts/Snake/SnakeHead.cs:68-74 | the rope constraint for one node against its moved predecessor (its properties are `ClampStepWithin`, `ClampStepBeyond` and `ClampStepTaut`) |
| SnakeHeads.ClampStepWithin | Assets/Scripts/Snake/SnakeHead.cs:68-69 | a node already within `segmentSpacing` keeps its position and rotation |
| SnakeHeads.ClampStepBeyond | Assets/Scripts/Snake/SnakeHead.cs:68-74 | a node whose squared distance exceeds the squared spacing ends exactly `segmentSpacing` from its predecessor, on the straight segment between where it was and the predecessor |
| SnakeHeads.ClampStepTaut | Assets/Scripts/Snake/SnakeHead.cs:68-74 | after its step every node is within `segmentSpacing` of its predecessor |
| SnakeHeads.ClampPass | Assets/Scripts/Snake/SnakeHead.cs:61-77 | the front-to-back rope pass keeps the number of nodes |
| SnakeHeads.ClampPassTaut | Assets/Scripts/Snake/SnakeHead.cs:58-78 | after one front-to-back pass every pair of adjacent nodes is within `segmentSpacing` |
| SnakeHeads.ClampPassAt | Assets/Scripts/Snake/SnakeHead.cs:61-77 | node `i` of the pass is clamped against node `i - 1` as already updated (the head for the first) |
| SnakeHeads.SnakeHead.constructor | Assets/Scripts/Snake/SnakeHead.cs:11-21 | the node list starts empty |
| SnakeHeads.Behind | Assets/Scripts/Snake/SnakeHead.cs:87-89 | the pose of a new node: `segmentSpacing` behind the last node along its up axis, turned like it (used by the contracts of `SnakeHead.AddSegment` and `SnakeHead.Start`) |
| SnakeHeads.SnakeHead.AddSegment | Assets/Scripts/Snake/SnakeHead.cs:85-91 | appends one node, `segmentSpacing` behind the last along its up axis and turned like it, leaving earlier nodes unchanged; on an empty list nothing changes and failure is reported |
| SnakeHeads.SnakeHead.Start | Assets/Scripts/Snake/SnakeHead.cs:31-37 | the list holds the head first and `initialSegments` more nodes (none for a negative count), each one spacing behind its predecessor |
| SnakeHeads.SnakeHead.SetDirection | Assets/Scripts/Snake/SnakeHead.cs:80-83 | keeps only the input's x component |
| SnakeHeads.SnakeHead.MoveHead | Assets/Scripts/Snake/SnakeHead.cs:45-56 | the velocity is always set to the up axis times `moveSpeed`; a rotation follows iff the turn input is outside the 0.01 dead zone |
| SnakeHeads.SnakeHead.MoveSegments | Assets/Scripts/Snake/SnakeHead.cs:58-78 | the nodes after the head become the clamp pass of the old nodes against the head, which does not move; before `Start` nothing changes |
| SnakeHeads.SnakeHead.FixedUpdate | Assets/Scripts/Snake/SnakeHead.cs:39-43 | the head's commands, computed before the rope pass, then the pass |
| SnakeControllers.ClampToBounds | Assets/Scripts/Snake/SnakeController.cs:78-84 | z is unchanged, x and y lie in the bounds whenever these are ordered, and a position inside them is unchanged |
| SnakeControllers.ClampToBoundsIdempotent | Assets/Scripts/Snake/SnakeController.cs:80-83 | clamping twice is clamping once |
| SnakeControllers.FollowTarget | Assets/Scripts/Snake/SnakeController.cs:59-60 | the point a segment is drawn to: `segmentSpacing` behind its leader along the leader's up axis (its properties are `FollowPassSnaps` and `FollowPassOnSegment`) |
| SnakeControllers.FollowStep | Assets/Scripts/Snake/SnakeController.cs:62-66 | one segment eases toward its target and its leader's rotation by the same factor (its properties are `FollowPassAt`, `FollowPassOnSegment`, `FollowPassSnaps` and `FollowPassFrozen`) |
| SnakeControllers.FollowPass | Assets/Scripts/Snake/SnakeController.cs:50-71 | the front-to-back follow pass keeps the number of segments |
| SnakeControllers.FollowPassAt | Assets/Scripts/Snake/SnakeController.cs:50-71 | segment `i` follows the head when `i == 0` and segment `i - 1` as just updated otherwise |
| SnakeControllers.FollowPassOnSegment | Assets/Scripts/Snake/SnakeController.cs:60-63 | each segment ends on the straight segment between where it was and its target |
| SnakeControllers.FollowPassSnaps | Assets/Scripts/Snake/SnakeController.cs:60-63 | with a lerp factor of at least one every segment lands on its target |
| SnakeControllers.FollowPassFrozen | Assets/Scripts/Snake/SnakeController.cs:63 | with a lerp factor of at most zero no segment moves |
| SnakeControllers.SpawnPose | Assets/Scripts/Snake/SnakeController.cs:29-30 | segment `i` of the initial layout, `i + 1` spacings behind the head and unrotated (its properties are `SpawnEvenlySpaced` and the contract of `SnakeController.Start`) |
| SnakeControllers.SpawnEvenlySpaced | Assets/Scripts/Snake/SnakeController.cs:26-32 | consecutive spawned segments are exactly one spacing apart along the head's up axis |
| SnakeControllers.SnakeController.constructor | Assets/Scripts/Snake/SnakeController.cs:7-21 | no segments and no turn input at first |
| SnakeControllers.SnakeController.Start | Assets/Scripts/Snake/SnakeController.cs:23-33 | appends `segmentCount` segments (none for a negative count), segment `i` unrotated and `(i + 1)` spacings behind the head's start position |
| SnakeControllers.SnakeController.SetDirection | Assets/Scripts/Snake/SnakeController.cs:73-76 | keeps only the input's x component |
| SnakeControllers.MovedHead | Assets/Scripts/Snake/SnakeController.cs:44-47 | the head turned about z by `-turnInput * turnSpeed * dt`, then moved `moveSpeed * dt` along its new up axis (used by the contracts of `HandleHeadMovement` and `SnakeController.Update`) |
| SnakeControllers.SnakeController.HandleHeadMovement | Assets/Scripts/Snake/SnakeController.cs:42-48 | the head turns about z by the input, then moves along its new up axis |
| SnakeControllers.SnakeController.HandleBodyFollow | Assets/Scripts/Snake/SnakeController.cs:50-71 | the segments become the front-to-back follow pass behind the head |
| SnakeControllers.SnakeController.ClampHeadPosition | Assets/Scripts/Snake/SnakeController.cs:78-84 | the head's position is clamped to the bounds and its rotation kept |
| SnakeControllers.SnakeController.Update | Assets/Scripts/Snake/SnakeController.cs:35-40 | the body follows the moved but unclamped head; the head is clamped last |
| ChainFollowing.SegmentBody | Assets/Scripts/ChainFollow.cs:59-75 | the body a new segment gets: half the anchor's mass and its drag when physics is used for all segments, none otherwise (its property is `PushedParallel`) |
| ChainFollowing.Pushed | Assets/Scripts/ChainFollow.cs:54-57 | one segment appended, its target at its own position, with its body (its properties are `PopUndoesPush` and `PushedParallel`) |
| ChainFollowing.LayoutPose | Assets/Scripts/ChainFollow.cs:54 | segment `i` of a new chain, `(i + 1) * segmentDistance` behind the anchor along its up axis (used by the contracts of `CreateChain` and `Start`) |
| ChainFollowing.AddedPose | Assets/Scripts/ChainFollow.cs:235-236 | a segment added at runtime, `segmentDistance` behind the last one along its up axis (used by the contract of `ChainFollow.AddSegment`) |
| ChainFollowing.Popped | Assets/Scripts/ChainFollow.cs:269-271 | each of the three lists loses exactly one entry |
| ChainFollowing.PopUndoesPush | Assets/Scripts/ChainFollow.cs:229-272 | removing a segment right after adding one restores the lists exactly |
| ChainFollowing.PushedParallel | Assets/Scripts/ChainFollow.cs:238-256 | adding a segment keeps the lists equally long, with a body exactly when physics is used for all segments |
| ChainFollowing.PoppedParallel | Assets/Scripts/ChainFollow.cs:264-271 | removing the last segment keeps them so |
| ChainFollowing.TargetStep | Assets/Scripts/ChainFollow.cs:130-138 | one segment's target from its leader's target (its properties are `TargetStepSpacing`, `TargetStepCollinear` and `TargetStepDegenerate`) |
| ChainFollowing.Targets | Assets/Scripts/ChainFollow.cs:125-140 | there is one target per segment |
| ChainFollowing.TargetsAt | Assets/Scripts/ChainFollow.cs:130-139 | target `i` depends only on target `i - 1` (the anchor for the first) and segment `i`'s current position |
| ChainFollowing.TargetsPrefix | Assets/Scripts/ChainFollow.cs:135-139 | the first `k` targets do not depend on later segments |
| ChainFollowing.TargetStepSpacing | Assets/Scripts/ChainFollow.cs:130-138 | away from its leader, a target is exactly `segmentDistance` from its leader's target (the anchor for the first) |
| ChainFollowing.TargetStepCollinear | Assets/Scripts/ChainFollow.cs:130-138 | a target lies on the line through its leader's target and the segment |
| ChainFollowing.TargetStepDegenerate | Assets/Scripts/ChainFollow.cs:130-131 | a segment sitting on its leader's target gets that target |
| ChainFollowing.LookDirection | Assets/Scripts/ChainFollow.cs:187-198 | the normalized direction from a segment toward its leader (its property is `LookDirectionZero`) |
| ChainFollowing.Turned | Assets/Scripts/ChainFollow.cs:200-219 | a rotation eased toward facing a direction, kept when the direction is zero (its property is `SmoothStepKeepsRotation`) |
| ChainFollowing.SmoothStep | Assets/Scripts/ChainFollow.cs:146-154 | one segment's frame without physics: eased toward its target, then turned toward its leader (its properties are `SmoothStepOnSegment`, `SmoothStepKeepsRotation` and `SmoothPassAt`) |
| ChainFollowing.SmoothPass | Assets/Scripts/ChainFollow.cs:142-156 | the smoothing pass keeps the number of segments |
| ChainFollowing.SmoothPassAt | Assets/Scripts/ChainFollow.cs:144-156 | segment `i` eases toward target `i` and turns toward segment `i - 1` as just updated (the anchor for the first) |
| ChainFollowing.SmoothStepOnSegment | Assets/Scripts/ChainFollow.cs:150 | each segment ends on the straight segment between where it was and its target |
| ChainFollowing.LookDirectionZero | Assets/Scripts/ChainFollow.cs:187-200 | the look direction is zero exactly when the segment sits on its leader |
| ChainFollowing.SmoothStepKeepsRotation | Assets/Scripts/ChainFollow.cs:200-220 | a segment that lands on its leader keeps its rotation |
| ChainFollowing.PullForce | Assets/Scripts/ChainFollow.cs:168-175 | the force toward a segment's target, issued only beyond 0.1 (its property is `PullForceIs`) |
| ChainFollowing.PullForceIs | Assets/Scripts/ChainFollow.cs:168-175 | the pull is issued iff the squared distance exceeds 0.1 squared, and it is the offset times `followStrength` |
| ChainFollowing.SegmentCommands | Assets/Scripts/ChainFollow.cs:160-181 | one iteration of the physics loop as a command list: nothing for a segment without a body (its properties are `SegmentCommandsOrder`, `SegmentCommandsIndex` and `SegmentForces`) |
| ChainFollowing.SegmentCommandsOrder | Assets/Scripts/ChainFollow.cs:164-181 | a segment with a body is damped exactly once, with at most one force before the damping and at most one rotation after it; the rotation is issued iff the segment does not sit on its leader |
| ChainFollowing.SegmentCommandsIndex | Assets/Scripts/ChainFollow.cs:160-182 | a segment's commands all address that segment |
| ChainFollowing.PhysicsPlan | Assets/Scripts/ChainFollow.cs:158-183 | the physics loop over the first `k` segments, their commands in index order (its properties are the `PhysicsPlan` lemmas below) |
| ChainFollowing.PhysicsPlanSkipsMissingBodies | Assets/Scripts/ChainFollow.cs:160-162 | only segments with a body are ever addressed |
| ChainFollowing.PhysicsPlanDampsEveryBody | Assets/Scripts/ChainFollow.cs:177-178 | every segment with a body is damped by `damping` on every step, whatever its distance |
| ChainFollowing.SegmentForces | Assets/Scripts/ChainFollow.cs:171-175 | a segment gets a force command iff it has a body and its pull is issued |
| ChainFollowing.PhysicsPlanForces | Assets/Scripts/ChainFollow.cs:158-183 | segment `i` is pulled iff it has a body and lies more than 0.1 from its target, by its offset times `followStrength` |
| ChainFollowing.PhysicsPlanSlot | Assets/Scripts/ChainFollow.cs:158-183 | the step's commands addressing segment `i` are exactly segment `i`'s own |
| ChainFollowing.PhysicsPlanIndices | Assets/Scripts/ChainFollow.cs:158-183 | the commands for the first `k` segments address only those segments |
| ChainFollowing.ChainFollow.constructor | Assets/Scripts/ChainFollow.cs:22-28 | the three lists start empty and the anchor has no body |
| ChainFollowing.ChainFollow.Start | Assets/Scripts/ChainFollow.cs:30-45 | the anchor gets its body with `chainMass` and `chainDrag`, and the chain is created: `segmentCount` entries appended to each list, segment `i` `(i + 1) * segmentDistance` behind the anchor, its target at its position, its body present iff physics is used for all segments, earlier entries kept |
| ChainFollowing.ChainFollow.CreateChain | Assets/Scripts/ChainFollow.cs:47-77 | appends `segmentCount` entries to each list, segment `i` `(i + 1) * segmentDistance` behind the anchor, its target at its position, its body present iff physics is used for all segments; the lists stay parallel |
| ChainFollowing.ChainFollow.AddSegment | Assets/Scripts/ChainFollow.cs:229-258 | an empty chain is left alone; otherwise exactly one entry is appended to each list, `segmentDistance` behind the last segment |
| ChainFollowing.ChainFollow.RemoveSegment | Assets/Scripts/ChainFollow.cs:260-273 | an empty chain is left alone; otherwise only the last index is removed from each list |
| ChainFollowing.ChainFollow.SetDirection | Assets/Scripts/ChainFollow.cs:223-226 | keeps only the input's x component |
| ChainFollowing.ChainFollow.MoveAnchor | Assets/Scripts/ChainFollow.cs:95-113 | nothing without a body; otherwise first a force toward the target velocity (the up axis times `moveSpeed`) scaled by `followStrength`, then a torque of `-turnInput * turnSpeed` iff the input is outside the 0.01 dead zone |
| ChainFollowing.ChainFollow.UpdateTargetPositions | Assets/Scripts/ChainFollow.cs:125-140 | the targets become the back-propagated targets from the anchor |
| ChainFollowing.ChainFollow.UpdateChainWithoutPhysics | Assets/Scripts/ChainFollow.cs:142-156 | the segments become the front-to-back smoothing pass; it is called only when physics is not used for all segments, so the rotation is set directly |
| ChainFollowing.ChainFollow.UpdateChainWithPhysics | Assets/Scripts/ChainFollow.cs:158-183 | the commands issued are the physics plan for all segments, in index order |
| ChainFollowing.ChainFollow.PhysicsSegment | Assets/Scripts/ChainFollow.cs:164-181 | one segment's commands are its pull, damping and turn |
| ChainFollowing.ChainFollow.FixedUpdate | Assets/Scripts/ChainFollow.cs:79-87 | the anchor's commands always; the segments' only when physics is used for all segments |
| ChainFollowing.ChainFollow.Update | Assets/Scripts/ChainFollow.cs:89-93 | an empty chain is left alone; otherwise the targets are recomputed |
| ChainFollowing.ChainFollow.LateUpdate | Assets/Scripts/ChainFollow.cs:115-123 | the segments are smoothed unless the chain is empty or physics moves them |
| FireballSpawning.PoolsFor | Assets/Scripts/Fireballs/FireballSpawner.cs:29-49 | the pools the prefab loop leaves behind, a later entry for the same prefab replacing the earlier (its content is `PoolsForExact`) |
| FireballSpawning.PoolsForExact | Assets/Scripts/Fireballs/FireballSpawner.cs:29-49 | there is a pool for exactly the listed prefabs, each pool is its key's, with the configured sizes, made for the key's last entry in the list |
| FireballSpawning.AfterRelease | Assets/Scripts/Fireballs/FireballSpawner.cs:62-69 | the instance map after a release: a known instance's entry removed, anything else unchanged (its properties are `ReleaseTwice`, `SpawnThenRelease` and the contract of `ReleasePoolObject`) |
| FireballSpawning.ReleaseEvents | Assets/Scripts/Fireballs/FireballSpawner.cs:64-66 | the pool request a release makes: back to the recorded pool, if any (its properties are `ReleaseTwice` and `SpawnThenRelease`) |
| FireballSpawning.ReleaseTwice | Assets/Scripts/Fireballs/FireballSpawner.cs:62-69 | a second release of the same object changes nothing and releases nothing |
| FireballSpawning.SpawnThenRelease | Assets/Scripts/Fireballs/FireballSpawner.cs:62-69 | releasing a freshly spawned instance returns it to the pool it came from and removes only its entry |
| FireballSpawning.SpawnPosition | Assets/Scripts/Fireballs/FireballSpawner.cs:82-83 | the Earth moved `spawnRadius` along the drawn direction (its property is `SpawnOnCircle`) |
| FireballSpawning.TargetPosition | Assets/Scripts/Fireballs/FireballSpawner.cs:86 | the Earth moved by the drawn offset times 1.5 (its property is `TargetNearEarth`) |
| FireballSpawning.SpawnOnCircle | Assets/Scripts/Fireballs/FireballSpawner.cs:82-83 | a fireball starts exactly `spawnRadius` from the Earth, in its plane |
| FireballSpawning.TargetNearEarth | Assets/Scripts/Fireballs/FireballSpawner.cs:86 | a fireball aims within 1.5 of the Earth |
| FireballSpawning.FireballSpawner.constructor | Assets/Scripts/Fireballs/FireballSpawner.cs:8-24 | no pools, no instances, no requests at first |
| FireballSpawning.FireballSpawner.Awake | Assets/Scripts/Fireballs/FireballSpawner.cs:29-49 | the pools are those of the prefab list, one per distinct prefab |
| FireballSpawning.FireballSpawner.ScheduleNextSpawn | Assets/Scripts/Fireballs/FireballSpawner.cs:71-75 | the next spawn is `interval` from now, within the interval range from now |
| FireballSpawning.FireballSpawner.Start | Assets/Scripts/Fireballs/FireballSpawner.cs:51 | schedules the first spawn |
| FireballSpawning.FireballSpawner.ReleasePoolObject | Assets/Scripts/Fireballs/FireballSpawner.cs:62-69 | a known instance goes back to its recorded pool and is forgotten; an absent or unknown object changes nothing |
| FireballSpawning.FireballSpawner.SpawnRandomFireball | Assets/Scripts/Fireballs/FireballSpawner.cs:77-103 | nothing without prefabs or an Earth; otherwise one instance is taken from the drawn prefab's pool, recorded against that pool, and launched from exactly `spawnRadius` from the Earth toward a target within 1.5 of it, turned up along its direction |
| FireballSpawning.FireballSpawner.Update | Assets/Scripts/Fireballs/FireballSpawner.cs:53-60 | nothing before the spawn time; from then on the next spawn is `interval` ahead, and either nothing else changes (no prefabs or no Earth) or the drawn prefab's pool hands out the instance, which is recorded against that pool and launched from exactly `spawnRadius` from the Earth toward a target within 1.5 of it |
| FireballSpawning.RollInRange | Assets/Scripts/Fireballs/FireballSpawner.cs:79-86 | the random draws lie on the unit circle and inside the unit disc |
| InputControl.GetSwipeDirection | Assets/Scripts/InputController.cs:93-103 | an axis direction; horizontal iff the swipe is wider than tall, right iff also `x > 0`, up iff not wider and `y > 0` |
| InputControl.SwipeDirectionBest | Assets/Scripts/InputController.cs:93-103 | no axis direction has a larger component of the swipe than the chosen one |
| InputControl.SwipeDirectionUnique | Assets/Scripts/InputController.cs:95-101 | when the components differ in size, the chosen axis is the only best one |
| InputControl.SwipeDirectionReversed | Assets/Scripts/InputController.cs:95-101 | reversing a non-zero swipe reverses its direction |
| InputControl.KeyDirection | Assets/Scripts/InputController.cs:29-36 | the axis direction a key stands for (its property is `KeyboardDirectionPriority`) |
| InputControl.Priority | Assets/Scripts/InputController.cs:29-36 | a key's rank in the else-if chain: up, down, left, right (its property is `KeyboardDirectionPriority`) |
| InputControl.KeyboardDirection | Assets/Scripts/InputController.cs:27-36 | any direction found is an axis direction |
| InputControl.KeyboardDirectionPriority | Assets/Scripts/InputController.cs:29-39 | nothing is announced iff no key is pressed; otherwise the direction of a pressed key of the highest rank (up, down, left, right) |
| InputControl.SwipeEnd | Assets/Scripts/InputController.cs:57-66 | a gesture end announces something only when a gesture is under way, and then an axis direction |
| InputControl.SwipeEndFires | Assets/Scripts/InputController.cs:57-66 | a gesture end announces iff a gesture is under way and the squared swipe length reaches the squared minimum, and then announces the swipe's direction |
| InputControl.InputController.constructor | Assets/Scripts/InputController.cs:14-17 | no gesture under way and nothing announced |
| InputControl.InputController.HandleKeyboardInput | Assets/Scripts/InputController.cs:25-40 | announces the keyboard direction, if any |
| InputControl.InputController.HandleTouch | Assets/Scripts/InputController.cs:46-70 | the new gesture state and announcements are `TouchStep`'s: a beginning touch starts a gesture at its position; an ending or cancelled one announces the swipe if long enough and ends the gesture either way; other phases change nothing |
| InputControl.InputController.HandleMouse | Assets/Scripts/InputController.cs:73-90 | the new gesture state and announcements are `MouseStep`'s: a press starts a gesture at the pointer; a release during a gesture announces the swipe if long enough and ends it either way |
| InputControl.InputController.HandleTouchInput | Assets/Scripts/InputController.cs:42-91 | the gesture state and the announcements become those of `TouchInput`: the touch step, then the mouse step on the gesture it left |
| InputControl.InputController.Update | Assets/Scripts/InputController.cs:19-23 | the keyboard direction is announced first, then what `TouchInput` announces; the gesture state becomes `TouchInput`'s |
| InputControl.TouchStep | Assets/Scripts/InputController.cs:44-70 | the first touch as a step on the gesture state (its properties are `HandleTouch`'s per-phase ensures and `TouchInputAnnouncesOnce`) |
| InputControl.MouseStep | Assets/Scripts/InputController.cs:73-90 | the mouse as a step on the gesture state (its properties are `HandleMouse`'s per-case ensures and `TouchInputAnnouncesOnce`) |
| InputControl.TouchInput | Assets/Scripts/InputController.cs:42-91 | the touch step, when there is a touch, then the mouse step on the gesture it left |
| InputControl.TouchInputAnnouncesOnce | Assets/Scripts/InputController.cs:42-91 | a frame of touch and mouse input announces at most one swipe, an axis direction, and only when a gesture was under way or the touch just began one; a press leaves a gesture under way at the pointer, and a release or an ending touch without a press leaves none |

## Left out

- Physics integration belongs to the engine. This covers forces, torques, velocity integration, drag, the bouncy physic material, and the rigid-body constraints of `SnakeHead.Awake`. Only which commands are issued, with which arguments, is modelled.
- Floating point is not modelled: vectors are exact reals. Unity's `normalized` returns zero below a small length and `==` on vectors compares within an epsilon; the model uses exact zero and exact equality.
- Square roots, quaternion operations, the up axis of a rotation and the angle-to-orientation conversion of the spawner are engine routines. They are given by `Engine` and constrained only by `Lawful`.
- `Random.Range` and `Random.insideUnitCircle` are parameters (`SpawnRoll`, `interval`). The methods that take them require them to lie in their ranges: the interval within the interval range, the prefab index among the prefabs, the direction on the unit circle and the offset inside the unit disc (`RollInRange`). The instance an `ObjectPool.Get` hands out is a parameter too.
- The pools themselves are left out: the create, activate, deactivate and destroy callbacks and the capacity limits. A pool is the record of how it was configured.
- Device polling is left out: which keys, touches and mouse buttons changed this frame is a parameter of `InputController.Update`.
- `InputProvider`, `ParticleSpawner`, `ParticleEffect`, `Earth`, the event channel and the `OnEnable`/`OnDisable` subscriptions are not part of this model.
- Fireballs.BaseFireball.GetScore: modelled as the plain getter it is, with no contract of its own.
- Fireballs.BaseFireball.Initialize: the spawner calls a two-argument `Initialize(target, pool)` that the fireball interface does not declare. The model follows the one-argument method of the fireball.
- `ChainFollow.GetChainSegments` only returns the list, so it is not modelled.
- SnakeHeads.SnakeHead.AddSegment: new nodes are instantiated as children of the head. The engine would therefore carry them along with every move and turn of the head. The model keeps node poses in world space and does not model that parenting.
- SnakeHeads.SnakeHead.MoveHead: the rotation angle is computed from `turnInput`, `turnSpeed` and the frame time. What the engine then does with the velocity and the rotation is left out.
- ChainFollowing.ChainFollow.MoveAnchor: the torque is `-turnInput * turnSpeed`, with no frame time. What the engine then does with the force and the torque is left out.
- `Start` and `Awake` run once, before anything else, as the engine guarantees. The model states it as a precondition (`!started`, empty maps) where the result depends on it.
- ChainFollowing.ChainFollow.UpdateChainWithoutPhysics and ChainFollowing.ChainFollow.UpdateChainWithPhysics are given a lerp factor built from their own frame time. The chain reads `Time.deltaTime` in the first and `Time.fixedDeltaTime` in the second; both are parameters.
- Game object names (`Chain_Segment_{i}`) are not modelled.
- ChainFollowing.ChainFollow.RemoveSegment: the `DestroyImmediate` of the removed segment's game object is not recorded; only the removal from the three lists is modelled.
