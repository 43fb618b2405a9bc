/**
 * A chain of segments trailing an anchor. The anchor is pushed by forces; each
 * segment has a target position, back-propagated from the anchor down the chain,
 * and either eases toward it directly or is pulled toward it by forces on its own
 * rigid body. Mirrors Assets/Scripts/ChainFollow.cs.
 */
module ChainFollowing {
  import opened Geometry

  /** A rigid body as configured by the chain: its mass and drag. */
  datatype Body = Body(mass: real, drag: real)

  /** The component's inspector settings. */
  datatype Settings = Settings(
    moveSpeed: real,
    turnSpeed: real,
    segmentCount: int,
    segmentDistance: real,
    followStrength: real,
    damping: real,
    usePhysicsForAllSegments: bool,
    chainMass: real,
    chainDrag: real,
    /** The rotation a freshly instantiated segment prefab has. */
    prefabRotation: Quat)

  /** The three parallel lists: segment transforms, target positions and rigid bodies
      (`None` for a segment without one). */
  datatype Lists = Lists(segments: seq<Pose>, targets: seq<Vec3>, bodies: seq<Option<Body>>)

  /** What the anchor asks of its rigid body in one physics step. */
  datatype AnchorCommand =
    | AnchorForce(force: Vec3)
    | AnchorTorque(z: real)

  /** What the chain asks of segment `index`'s rigid body in one physics step. */
  datatype SegmentCommand =
    | AddForce(index: nat, force: Vec3)
    | DampVelocity(index: nat, factor: real)
    | MoveRotation(index: nat, rotation: Quat)

  /** The lists run in parallel, and a segment has a body exactly when the chain uses
      physics for all segments. */
  predicate Parallel(l: Lists, usePhysics: bool)
  {
    && |l.segments| == |l.targets| == |l.bodies|
    && forall i :: 0 <= i < |l.bodies| ==> (l.bodies[i].Some? <==> usePhysics)
  }

  /** The body given to every new segment: half the anchor's mass, when physics is used. */
  function SegmentBody(s: Settings): Option<Body>
  {
    if s.usePhysicsForAllSegments then Some(Body(s.chainMass * 0.5, s.chainDrag)) else None
  }

  /** Appending one segment, whose target starts at its own position. */
  function Pushed(l: Lists, segment: Pose, body: Option<Body>): Lists
  {
    Lists(l.segments + [segment], l.targets + [segment.position], l.bodies + [body])
  }

  /** Removing the last index from all three lists. */
  function Popped(l: Lists): (r: Lists)
    requires |l.segments| > 0 && |l.targets| > 0 && |l.bodies| > 0
    ensures |r.segments| == |l.segments| - 1 && |r.targets| == |l.targets| - 1 && |r.bodies| == |l.bodies| - 1
  {
    Lists(l.segments[..|l.segments| - 1], l.targets[..|l.targets| - 1], l.bodies[..|l.bodies| - 1])
  }

  /** Removal undoes addition exactly. */
  lemma PopUndoesPush(l: Lists, segment: Pose, body: Option<Body>)
    ensures Popped(Pushed(l, segment, body)) == l
  {
    assert (l.segments + [segment])[..|l.segments|] == l.segments;
    assert (l.targets + [segment.position])[..|l.targets|] == l.targets;
    assert (l.bodies + [body])[..|l.bodies|] == l.bodies;
  }

  /** Adding a segment with the configured body keeps the lists parallel. */
  lemma PushedParallel(l: Lists, s: Settings, segment: Pose)
    requires Parallel(l, s.usePhysicsForAllSegments)
    ensures Parallel(Pushed(l, segment, SegmentBody(s)), s.usePhysicsForAllSegments)
  {
    var r := Pushed(l, segment, SegmentBody(s));
    assert r.bodies[|l.bodies|] == SegmentBody(s);
  }

  /** Removing the last segment keeps the lists parallel. */
  lemma PoppedParallel(l: Lists, usePhysics: bool)
    requires Parallel(l, usePhysics) && |l.segments| > 0
    ensures Parallel(Popped(l), usePhysics)
  {
    var r := Popped(l);
    assert forall i :: 0 <= i < |r.bodies| ==> r.bodies[i] == l.bodies[i];
  }

  /** Segment `i` of a freshly created chain: `(i + 1) * segmentDistance` behind the
      anchor along its up axis, turned as the prefab is. */
  function LayoutPose(e: Engine, s: Settings, anchor: Pose, i: nat): Pose
  {
    Pose(Sub(anchor.position, Scale(e.up(anchor.rotation), ((i + 1) as real) * s.segmentDistance)), s.prefabRotation)
  }

  /** A segment added at runtime: `segmentDistance` behind the last one along its up axis. */
  function AddedPose(e: Engine, s: Settings, last: Pose): Pose
  {
    Pose(Sub(last.position, Scale(e.up(last.rotation), s.segmentDistance)), s.prefabRotation)
  }

  // ----- Target back-propagation -----

  /** The target of a segment at `p` whose leader's target is `lead`: `segmentDistance`
      from `lead`, back along the line toward `p`. */
  function TargetStep(e: Engine, d: real, lead: Vec3, p: Vec3): Vec3
  {
    Sub(lead, Scale(e.normalize(Sub(lead, p)), d))
  }

  /** The targets of `segs`, the first from the anchor at `lead`, each later one from the
      target just computed before it. */
  function Targets(e: Engine, d: real, lead: Vec3, segs: seq<Pose>): (r: seq<Vec3>)
    ensures |r| == |segs|
    decreases |segs|
  {
    if segs == [] then []
    else
      var t := TargetStep(e, d, lead, segs[0].position);
      [t] + Targets(e, d, t, segs[1..])
  }

  /** Target `i` depends only on target `i - 1` (the anchor for `i == 0`) and on
      segment `i`'s current position. */
  lemma {:induction false} TargetsAt(e: Engine, d: real, lead: Vec3, segs: seq<Pose>, i: nat)
    requires i < |segs|
    ensures Targets(e, d, lead, segs)[i]
         == TargetStep(e, d, if i == 0 then lead else Targets(e, d, lead, segs)[i - 1], segs[i].position)
    decreases |segs|
  {
    if i > 0 {
      TargetsAt(e, d, TargetStep(e, d, lead, segs[0].position), segs[1..], i - 1);
    }
  }

  /** The first `k` targets do not depend on the segments after the first `k`. */
  lemma {:induction false} TargetsPrefix(e: Engine, d: real, lead: Vec3, segs: seq<Pose>, k: nat)
    requires k <= |segs|
    ensures Targets(e, d, lead, segs)[..k] == Targets(e, d, lead, segs[..k])
    decreases |segs|
  {
    if k > 0 {
      var t := TargetStep(e, d, lead, segs[0].position);
      assert segs[..k][1..] == segs[1..][..k - 1];
      TargetsPrefix(e, d, t, segs[1..], k - 1);
    }
  }

  /** Away from the leader, a target is exactly `d` from its leader's target. */
  lemma TargetStepSpacing(e: Engine, d: real, lead: Vec3, p: Vec3)
    requires Lawful(e) && p != lead
    ensures SqrMag(Sub(lead, TargetStep(e, d, lead, p))) == d * d
  {
    var v := Sub(lead, p);
    assert v != Zero;
    var n := e.normalize(v);
    NormalizeUnit(e, v);
    assert Sub(lead, TargetStep(e, d, lead, p)) == Scale(n, d);
    UnitScaled(n, d);
  }

  /** A target lies on the line through its leader's target and the segment: the way
      back to the leader, scaled by the segment's distance `m`, is the way from the
      segment scaled by `d`. */
  lemma TargetStepCollinear(e: Engine, d: real, lead: Vec3, p: Vec3)
    requires Lawful(e)
    ensures var m := Distance(e, lead, p);
            Scale(Sub(lead, TargetStep(e, d, lead, p)), m) == Scale(Sub(lead, p), d)
  {
    var v := Sub(lead, p);
    var n := e.normalize(v);
    var m := e.magnitude(v);
    assert Sub(lead, TargetStep(e, d, lead, p)) == Scale(n, d);
    if v == Zero {
      assert Scale(n, m) == v;
    } else {
      assert Scale(n, m) == v;
    }
    ScaleCommute(n, d, m);
  }

  lemma ScaleCommute(v: Vec3, a: real, b: real)
    ensures Scale(Scale(v, a), b) == Scale(Scale(v, b), a)
  {
    assert v.x * a * b == v.x * b * a;
    assert v.y * a * b == v.y * b * a;
    assert v.z * a * b == v.z * b * a;
  }

  /** A segment sitting exactly on its leader's target gets that target itself. */
  lemma TargetStepDegenerate(e: Engine, d: real, lead: Vec3)
    requires Lawful(e)
    ensures TargetStep(e, d, lead, lead) == lead
  {
    assert Sub(lead, lead) == Zero;
  }

  // ----- Smoothing without physics -----

  /** The direction from `p` toward `lead`, zero when they coincide. */
  function LookDirection(e: Engine, lead: Vec3, p: Vec3): Vec3
  {
    e.normalize(Sub(lead, p))
  }

  /** A rotation eased toward facing `dir`, kept as it is when `dir` is zero. */
  function Turned(e: Engine, rotation: Quat, dir: Vec3, t: real): Quat
  {
    if dir != Zero then e.slerp(rotation, e.lookRotation(dir), t) else rotation
  }

  /** One segment's frame without physics: ease its position toward its target by `t`,
      then turn it toward its leader's position (`lead`, already updated). */
  function SmoothStep(e: Engine, t: real, lead: Vec3, seg: Pose, target: Vec3): Pose
  {
    var p := Lerp(seg.position, target, t);
    Pose(p, Turned(e, seg.rotation, LookDirection(e, lead, p), t))
  }

  /** The front-to-back smoothing pass, each segment turned toward its leader's new position. */
  function SmoothPass(e: Engine, t: real, lead: Vec3, segs: seq<Pose>, targets: seq<Vec3>): (r: seq<Pose>)
    requires |targets| == |segs|
    ensures |r| == |segs|
    decreases |segs|
  {
    if segs == [] then []
    else
      var first := SmoothStep(e, t, lead, segs[0], targets[0]);
      [first] + SmoothPass(e, t, first.position, segs[1..], targets[1..])
  }

  lemma {:induction false} SmoothPassAt(e: Engine, t: real, lead: Vec3, segs: seq<Pose>, targets: seq<Vec3>, i: nat)
    requires |targets| == |segs| && i < |segs|
    ensures SmoothPass(e, t, lead, segs, targets)[i]
         == SmoothStep(e, t, if i == 0 then lead else SmoothPass(e, t, lead, segs, targets)[i - 1].position, segs[i], targets[i])
    decreases |segs|
  {
    if i > 0 {
      var first := SmoothStep(e, t, lead, segs[0], targets[0]);
      SmoothPassAt(e, t, first.position, segs[1..], targets[1..], i - 1);
    }
  }

  /** Each segment ends on the straight segment between where it was and its target. */
  lemma SmoothStepOnSegment(e: Engine, t: real, lead: Vec3, seg: Pose, target: Vec3)
    ensures OnSegment(SmoothStep(e, t, lead, seg, target).position, seg.position, target)
  {
    LerpOnSegment(seg.position, target, t);
  }

  /** The look direction is zero exactly when the segment sits on its leader. */
  lemma LookDirectionZero(e: Engine, lead: Vec3, p: Vec3)
    requires Lawful(e)
    ensures LookDirection(e, lead, p) == Zero <==> p == lead
  {
    var v := Sub(lead, p);
    if v != Zero {
      assert Scale(e.normalize(v), e.magnitude(v)) == v;
    }
    assert v == Zero <==> p == lead;
  }

  /** A segment that lands on its leader keeps its rotation. */
  lemma SmoothStepKeepsRotation(e: Engine, t: real, lead: Vec3, seg: Pose, target: Vec3)
    requires Lawful(e) && Lerp(seg.position, target, t) == lead
    ensures SmoothStep(e, t, lead, seg, target).rotation == seg.rotation
  {
    LookDirectionZero(e, lead, Lerp(seg.position, target, t));
  }

  // ----- Physics steps -----

  /** The force toward a target: only beyond 0.1, along the offset, scaled by the distance. */
  function PullForce(e: Engine, s: Settings, target: Vec3, p: Vec3): Option<Vec3>
  {
    var offset := Sub(target, p);
    var distance := e.magnitude(offset);
    if distance > 0.1 then Some(Scale(Scale(e.normalize(offset), s.followStrength), distance)) else None
  }

  /** The pull is issued exactly when the squared distance exceeds 0.01, and it is the
      offset scaled by `followStrength`: its length is `followStrength * distance`. */
  lemma PullForceIs(e: Engine, s: Settings, target: Vec3, p: Vec3)
    requires Lawful(e)
    ensures PullForce(e, s, target, p).Some? <==> SqrMag(Sub(target, p)) > 0.1 * 0.1
    ensures PullForce(e, s, target, p).Some? ==>
              PullForce(e, s, target, p).value == Scale(Sub(target, p), s.followStrength)
  {
    var v := Sub(target, p);
    var m := e.magnitude(v);
    MagnitudeAtMost(e, v, 0.1);
    if m > 0.1 {
      MagnitudeZero(e, v);
      var n := e.normalize(v);
      assert Scale(n, m) == v;
      assert n.x * s.followStrength * m == n.x * m * s.followStrength;
      assert n.y * s.followStrength * m == n.y * m * s.followStrength;
      assert n.z * s.followStrength * m == n.z * m * s.followStrength;
    }
  }

  /** The pull on segment `i`, if it is issued. */
  function PullCommands(e: Engine, s: Settings, target: Vec3, p: Vec3, i: nat): seq<SegmentCommand>
  {
    var pull := PullForce(e, s, target, p);
    if pull.Some? then [AddForce(i, pull.value)] else []
  }

  /** The physics rotation of segment `i` toward `dir`, unless `dir` is zero. */
  function TurnCommands(e: Engine, rotation: Quat, dir: Vec3, t: real, i: nat): seq<SegmentCommand>
  {
    if dir != Zero then [MoveRotation(i, e.slerp(rotation, e.lookRotation(dir), t))] else []
  }

  /** The position segment `i` turns toward: the anchor for the first segment, the
      segment before it otherwise. */
  function Leader(anchor: Vec3, segments: seq<Pose>, i: nat): Vec3
    requires i < |segments|
  {
    if i == 0 then anchor else segments[i - 1].position
  }

  /** The commands for segment `i`: nothing without a body; otherwise the pull (if any),
      the damping, and a rotation toward its leader when the direction is not zero. */
  function SegmentCommands(e: Engine, s: Settings, anchor: Vec3, l: Lists, t: real, i: nat): (cmds: seq<SegmentCommand>)
    requires i < |l.segments| && i < |l.targets| && i < |l.bodies|
  {
    if l.bodies[i].None? then []
    else
      var p := l.segments[i].position;
      PullCommands(e, s, l.targets[i], p, i)
      + [DampVelocity(i, s.damping)]
      + TurnCommands(e, l.segments[i].rotation, LookDirection(e, Leader(anchor, l.segments, i), p), t, i)
  }

  /** The commands of a segment that has a body, in order. */
  lemma SegmentCommandsWithBody(e: Engine, s: Settings, anchor: Vec3, l: Lists, t: real, i: nat)
    requires i < |l.segments| && i < |l.targets| && i < |l.bodies| && l.bodies[i].Some?
    ensures SegmentCommands(e, s, anchor, l, t, i)
         == PullCommands(e, s, l.targets[i], l.segments[i].position, i)
            + [DampVelocity(i, s.damping)]
            + TurnCommands(e, l.segments[i].rotation, LookDirection(e, Leader(anchor, l.segments, i), l.segments[i].position), t, i)
  {
  }

  /** A segment with a body is damped exactly once; at most one force comes before the
      damping and at most one rotation after it, and the rotation is issued exactly when
      the segment does not sit on its leader. */
  lemma SegmentCommandsOrder(e: Engine, s: Settings, anchor: Vec3, l: Lists, t: real, i: nat)
    requires i < |l.segments| && i < |l.targets| && i < |l.bodies| && l.bodies[i].Some?
    ensures var cmds := SegmentCommands(e, s, anchor, l, t, i);
            exists j :: 0 <= j <= 1 && j < |cmds| && cmds[j] == DampVelocity(i, s.damping)
                        && |cmds| <= j + 2
                        && (forall m :: 0 <= m < j ==> cmds[m].AddForce?)
                        && (forall m :: j < m < |cmds| ==> cmds[m].MoveRotation?)
    ensures var cmds := SegmentCommands(e, s, anchor, l, t, i);
            (exists m :: 0 <= m < |cmds| && cmds[m].MoveRotation?)
            <==> LookDirection(e, Leader(anchor, l.segments, i), l.segments[i].position) != Zero
  {
    var cmds := SegmentCommands(e, s, anchor, l, t, i);
    var p := l.segments[i].position;
    var pull := PullCommands(e, s, l.targets[i], p, i);
    var turn := TurnCommands(e, l.segments[i].rotation, LookDirection(e, Leader(anchor, l.segments, i), p), t, i);
    SegmentCommandsWithBody(e, s, anchor, l, t, i);
    assert cmds == pull + [DampVelocity(i, s.damping)] + turn;
    var j := |pull|;
    assert cmds[j] == DampVelocity(i, s.damping);
    assert forall m :: j < m < |cmds| ==> cmds[m] == turn[m - j - 1];
    if turn != [] {
      assert cmds[j + 1].MoveRotation?;
    }
  }

  /** Segment `i`'s commands all address segment `i`. */
  lemma SegmentCommandsIndex(e: Engine, s: Settings, anchor: Vec3, l: Lists, t: real, i: nat)
    requires i < |l.segments| && i < |l.targets| && i < |l.bodies|
    ensures forall c :: c in SegmentCommands(e, s, anchor, l, t, i) ==> c.index == i
  {
  }

  /** The commands for the first `k` segments, in index order. */
  function PhysicsPlan(e: Engine, s: Settings, anchor: Vec3, l: Lists, t: real, k: nat): (cmds: seq<SegmentCommand>)
    requires k <= |l.segments| && k <= |l.targets| && k <= |l.bodies|
  {
    if k == 0 then [] else PhysicsPlan(e, s, anchor, l, t, k - 1) + SegmentCommands(e, s, anchor, l, t, k - 1)
  }

  /** Only segments with a body are ever addressed. */
  lemma {:induction false} PhysicsPlanSkipsMissingBodies(e: Engine, s: Settings, anchor: Vec3, l: Lists, t: real, k: nat)
    requires k <= |l.segments| && k <= |l.targets| && k <= |l.bodies|
    ensures forall c :: c in PhysicsPlan(e, s, anchor, l, t, k) ==> c.index < k && l.bodies[c.index].Some?
  {
    if k > 0 {
      PhysicsPlanSkipsMissingBodies(e, s, anchor, l, t, k - 1);
      SegmentCommandsIndex(e, s, anchor, l, t, k - 1);
    }
  }

  /** Every segment with a body is damped on every step, whatever its distance. */
  lemma {:induction false} PhysicsPlanDampsEveryBody(e: Engine, s: Settings, anchor: Vec3, l: Lists, t: real, k: nat, i: nat)
    requires k <= |l.segments| && k <= |l.targets| && k <= |l.bodies|
    requires i < k && l.bodies[i].Some?
    ensures DampVelocity(i, s.damping) in PhysicsPlan(e, s, anchor, l, t, k)
  {
    if i < k - 1 {
      PhysicsPlanDampsEveryBody(e, s, anchor, l, t, k - 1, i);
    } else {
      assert DampVelocity(i, s.damping) in SegmentCommands(e, s, anchor, l, t, i);
    }
  }

  /** A segment's own force commands are exactly its pull, when it has a body. */
  lemma SegmentForces(e: Engine, s: Settings, anchor: Vec3, l: Lists, t: real, i: nat, f: Vec3)
    requires i < |l.segments| && i < |l.targets| && i < |l.bodies|
    ensures AddForce(i, f) in SegmentCommands(e, s, anchor, l, t, i)
            <==> l.bodies[i].Some? && PullForce(e, s, l.targets[i], l.segments[i].position) == Some(f)
  {
    if l.bodies[i].Some? {
      SegmentCommandsWithBody(e, s, anchor, l, t, i);
      var dir := LookDirection(e, Leader(anchor, l.segments, i), l.segments[i].position);
      assert AddForce(i, f) !in [DampVelocity(i, s.damping)] + TurnCommands(e, l.segments[i].rotation, dir, t, i);
    }
  }

  /** A segment is pulled by a force exactly when it has a body and lies more than 0.1
      from its target; the force is its offset scaled by `followStrength`. */
  lemma PhysicsPlanForces(e: Engine, s: Settings, anchor: Vec3, l: Lists, t: real, k: nat, i: nat)
    requires Lawful(e)
    requires k <= |l.segments| && k <= |l.targets| && k <= |l.bodies| && i < k
    ensures (exists f :: AddForce(i, f) in PhysicsPlan(e, s, anchor, l, t, k))
            <==> (l.bodies[i].Some? && SqrMag(Sub(l.targets[i], l.segments[i].position)) > 0.1 * 0.1)
    ensures forall f :: AddForce(i, f) in PhysicsPlan(e, s, anchor, l, t, k) ==>
              f == Scale(Sub(l.targets[i], l.segments[i].position), s.followStrength)
  {
    var plan := PhysicsPlan(e, s, anchor, l, t, k);
    var offset := Sub(l.targets[i], l.segments[i].position);
    PhysicsPlanSlot(e, s, anchor, l, t, k, i);
    PullForceIs(e, s, l.targets[i], l.segments[i].position);
    forall f | AddForce(i, f) in plan
      ensures f == Scale(offset, s.followStrength)
    {
      SegmentForces(e, s, anchor, l, t, i, f);
    }
    if l.bodies[i].Some? && SqrMag(offset) > 0.1 * 0.1 {
      var f := Scale(offset, s.followStrength);
      SegmentForces(e, s, anchor, l, t, i, f);
      assert AddForce(i, f) in plan;
    }
  }
  /** The commands that address segment `i` are exactly segment `i`'s own. */
  lemma {:induction false} PhysicsPlanSlot(e: Engine, s: Settings, anchor: Vec3, l: Lists, t: real, k: nat, i: nat)
    requires k <= |l.segments| && k <= |l.targets| && k <= |l.bodies| && i < k
    ensures forall c :: c in PhysicsPlan(e, s, anchor, l, t, k) && c.index == i
                    <==> c in SegmentCommands(e, s, anchor, l, t, i)
  {
    var plan := PhysicsPlan(e, s, anchor, l, t, k);
    var prev := PhysicsPlan(e, s, anchor, l, t, k - 1);
    var last := SegmentCommands(e, s, anchor, l, t, k - 1);
    assert plan == prev + last;
    SegmentCommandsIndex(e, s, anchor, l, t, k - 1);
    PhysicsPlanIndices(e, s, anchor, l, t, k - 1);
    if i < k - 1 {
      PhysicsPlanSlot(e, s, anchor, l, t, k - 1, i);
    }
    forall c
      ensures c in plan && c.index == i <==> c in SegmentCommands(e, s, anchor, l, t, i)
    {
      assert c in plan <==> c in prev || c in last;
    }
  }

  lemma {:induction false} PhysicsPlanIndices(e: Engine, s: Settings, anchor: Vec3, l: Lists, t: real, k: nat)
    requires k <= |l.segments| && k <= |l.targets| && k <= |l.bodies|
    ensures forall c :: c in PhysicsPlan(e, s, anchor, l, t, k) ==> c.index < k
  {
    if k > 0 {
      PhysicsPlanIndices(e, s, anchor, l, t, k - 1);
      SegmentCommandsIndex(e, s, anchor, l, t, k - 1);
    }
  }

  class ChainFollow {
    const settings: Settings

    /** The anchor's transform (this game object). */
    var anchor: Pose
    var turnInput: real
    var anchorRb: Option<Body>
    var chainSegments: seq<Pose>
    var targetPositions: seq<Vec3>
    var chainRigidbodies: seq<Option<Body>>

    function Chain(): Lists
      reads this
    {
      Lists(chainSegments, targetPositions, chainRigidbodies)
    }

    ghost predicate Valid()
      reads this
    {
      Parallel(Chain(), settings.usePhysicsForAllSegments)
    }

    constructor (settings: Settings, pose: Pose)
      ensures Valid() && Chain() == Lists([], [], [])
      ensures this.settings == settings && anchor == pose && anchorRb == None && turnInput == 0.0
    {
      this.settings := settings;
      anchor := pose;
      turnInput := 0.0;
      anchorRb := None;
      chainSegments := [];
      targetPositions := [];
      chainRigidbodies := [];
    }

    /** Gives the anchor its body and builds the chain. */
    method Start(e: Engine)
      requires Valid()
      modifies this`anchorRb, this`chainSegments, this`targetPositions, this`chainRigidbodies
      ensures Valid()
      ensures anchorRb == Some(Body(settings.chainMass, settings.chainDrag))
      ensures var n := |old(chainSegments)|;
              && |chainSegments| == n + (if settings.segmentCount < 0 then 0 else settings.segmentCount)
              && chainSegments[..n] == old(chainSegments)
              && targetPositions[..n] == old(targetPositions)
              && chainRigidbodies[..n] == old(chainRigidbodies)
              && (forall j :: n <= j < |chainSegments| ==>
                    && chainSegments[j] == LayoutPose(e, settings, anchor, j - n)
                    && targetPositions[j] == chainSegments[j].position
                    && chainRigidbodies[j] == SegmentBody(settings))
    {
      anchorRb := Some(Body(settings.chainMass, settings.chainDrag));
      CreateChain(e);
    }

    /** Appends `segmentCount` segments to all three lists; each segment's target is its
        own starting position. */
    method CreateChain(e: Engine)
      requires Valid()
      modifies this`chainSegments, this`targetPositions, this`chainRigidbodies
      ensures Valid()
      ensures var n := |old(chainSegments)|;
              && |chainSegments| == n + (if settings.segmentCount < 0 then 0 else settings.segmentCount)
              && chainSegments[..n] == old(chainSegments)
              && targetPositions[..n] == old(targetPositions)
              && chainRigidbodies[..n] == old(chainRigidbodies)
              && (forall j :: n <= j < |chainSegments| ==>
                    && chainSegments[j] == LayoutPose(e, settings, anchor, j - n)
                    && targetPositions[j] == chainSegments[j].position
                    && chainRigidbodies[j] == SegmentBody(settings))
    {
      var n := |chainSegments|;
      var i := 0;
      while i < settings.segmentCount
        invariant Valid()
        invariant 0 <= i && (if settings.segmentCount < 0 then i == 0 else i <= settings.segmentCount)
        invariant |chainSegments| == n + i
        invariant chainSegments[..n] == old(chainSegments)
        invariant targetPositions[..n] == old(targetPositions)
        invariant chainRigidbodies[..n] == old(chainRigidbodies)
        invariant forall j :: n <= j < |chainSegments| ==>
                    && chainSegments[j] == LayoutPose(e, settings, anchor, j - n)
                    && targetPositions[j] == chainSegments[j].position
                    && chainRigidbodies[j] == SegmentBody(settings)
      {
        var segment := LayoutPose(e, settings, anchor, i);
        PushedParallel(Chain(), settings, segment);
        chainSegments := chainSegments + [segment];
        targetPositions := targetPositions + [segment.position];
        if settings.usePhysicsForAllSegments {
          chainRigidbodies := chainRigidbodies + [Some(Body(settings.chainMass * 0.5, settings.chainDrag))];
        } else {
          chainRigidbodies := chainRigidbodies + [None];
        }
        i := i + 1;
      }
    }

    /** Appends one segment behind the last; an empty chain is left as it is. */
    method AddSegment(e: Engine)
      requires Valid()
      modifies this`chainSegments, this`targetPositions, this`chainRigidbodies
      ensures Valid()
      ensures Chain() == if |old(chainSegments)| == 0 then old(Chain())
                         else Pushed(old(Chain()), AddedPose(e, settings, old(chainSegments)[|old(chainSegments)| - 1]),
                                     SegmentBody(settings))
    {
      if |chainSegments| > 0 {
        var last := chainSegments[|chainSegments| - 1];
        var segment := AddedPose(e, settings, last);
        PushedParallel(Chain(), settings, segment);
        chainSegments := chainSegments + [segment];
        targetPositions := targetPositions + [segment.position];
        chainRigidbodies := chainRigidbodies + [SegmentBody(settings)];
      }
    }

    /** Removes the last index from all three lists; an empty chain is left as it is. */
    method RemoveSegment()
      requires Valid()
      modifies this`chainSegments, this`targetPositions, this`chainRigidbodies
      ensures Valid()
      ensures Chain() == if |old(chainSegments)| == 0 then old(Chain()) else Popped(old(Chain()))
    {
      if |chainSegments| > 0 {
        PoppedParallel(Chain(), settings.usePhysicsForAllSegments);
        var lastIndex := |chainSegments| - 1;
        chainSegments := chainSegments[..lastIndex];
        targetPositions := targetPositions[..lastIndex];
        chainRigidbodies := chainRigidbodies[..lastIndex];
      }
    }

    method SetDirection(input: Vec2)
      modifies this`turnInput
      ensures turnInput == input.x
    {
      turnInput := input.x;
    }

    /** Recomputes every target from the anchor down the chain. */
    method UpdateTargetPositions(e: Engine)
      requires Valid()
      modifies this`targetPositions
      ensures Valid()
      ensures targetPositions == if chainSegments == [] then old(targetPositions)
                                 else Targets(e, settings.segmentDistance, anchor.position, chainSegments)
    {
      if |chainSegments| == 0 {
        return;
      }
      ghost var expected := Targets(e, settings.segmentDistance, anchor.position, chainSegments);
      var directionToAnchor := e.normalize(Sub(anchor.position, chainSegments[0].position));
      targetPositions := targetPositions[0 := Sub(anchor.position, Scale(directionToAnchor, settings.segmentDistance))];
      TargetsAt(e, settings.segmentDistance, anchor.position, chainSegments, 0);
      var i := 1;
      while i < |chainSegments|
        invariant Valid()
        invariant 1 <= i <= |chainSegments|
        invariant targetPositions[..i] == expected[..i]
      {
        var directionToPrevious := e.normalize(Sub(targetPositions[i - 1], chainSegments[i].position));
        TargetsAt(e, settings.segmentDistance, anchor.position, chainSegments, i);
        targetPositions := targetPositions[i := Sub(targetPositions[i - 1], Scale(directionToPrevious, settings.segmentDistance))];
        i := i + 1;
      }
      assert targetPositions == targetPositions[..i];
    }

    /** Eases every segment toward its target, and turns it toward its leader's new
        position unless it sits on it. Only reached when the segments have no bodies, so
        the rotation is always set directly. */
    method UpdateChainWithoutPhysics(e: Engine, deltaTime: real)
      requires Valid() && !settings.usePhysicsForAllSegments
      modifies this`chainSegments
      ensures Valid()
      ensures chainSegments == SmoothPass(e, settings.followStrength * deltaTime, anchor.position,
                                          old(chainSegments), targetPositions)
    {
      ghost var original := chainSegments;
      var t := settings.followStrength * deltaTime;
      var i := 0;
      while i < |chainSegments|
        invariant |chainSegments| == |original|
        invariant 0 <= i <= |chainSegments|
        invariant chainSegments[..i] == SmoothPass(e, t, anchor.position, original, targetPositions)[..i]
        invariant chainSegments[i..] == original[i..]
      {
        var segment := chainSegments[i];
        var newPos := Lerp(segment.position, targetPositions[i], t);
        // rotation toward the leader, as just updated
        var lead := if i == 0 then anchor.position else chainSegments[i - 1].position;
        var direction := e.normalize(Sub(lead, newPos));
        var rotation := segment.rotation;
        if direction != Zero {
          var targetRotation := e.lookRotation(direction);
          rotation := e.slerp(rotation, targetRotation, t);
        }
        SmoothPassAt(e, t, anchor.position, original, targetPositions, i);
        assert segment == original[i] by { assert original[i..][0] == original[i]; }
        assert i > 0 ==> chainSegments[i - 1] == chainSegments[..i][i - 1];
        assert Pose(newPos, rotation) == SmoothStep(e, t, lead, original[i], targetPositions[i]);
        chainSegments := chainSegments[i := Pose(newPos, rotation)];
        i := i + 1;
      }
    }

    /** The per-segment physics commands, in index order; segments without a body are
        skipped. The positions themselves are moved by the engine. */
    method UpdateChainWithPhysics(e: Engine, fixedDeltaTime: real) returns (cmds: seq<SegmentCommand>)
      requires Valid()
      ensures cmds == PhysicsPlan(e, settings, anchor.position, Chain(), settings.followStrength * fixedDeltaTime, |chainSegments|)
    {
      ghost var l := Chain();
      ghost var t := settings.followStrength * fixedDeltaTime;
      cmds := [];
      var i := 0;
      while i < |chainSegments|
        invariant 0 <= i <= |chainSegments|
        invariant cmds == PhysicsPlan(e, settings, anchor.position, l, t, i)
      {
        if chainRigidbodies[i] == None {
          assert SegmentCommands(e, settings, anchor.position, l, t, i) == [];
          i := i + 1;
          continue;
        }
        var own := PhysicsSegment(e, i, fixedDeltaTime);
        cmds := cmds + own;
        i := i + 1;
      }
    }

    /** One segment with a body: pull it toward its target when it is more than 0.1 away,
        damp its velocity, and turn it toward its leader unless it sits on it. */
    method PhysicsSegment(e: Engine, i: nat, fixedDeltaTime: real) returns (own: seq<SegmentCommand>)
      requires Valid() && i < |chainSegments| && chainRigidbodies[i].Some?
      ensures own == SegmentCommands(e, settings, anchor.position, Chain(), settings.followStrength * fixedDeltaTime, i)
    {
      var targetPos := targetPositions[i];
      var currentPos := chainSegments[i].position;
      var forceDirection := Sub(targetPos, currentPos);
      var distance := e.magnitude(forceDirection);
      var forceCmds: seq<SegmentCommand> := [];
      if distance > 0.1 {
        var force := Scale(Scale(e.normalize(forceDirection), settings.followStrength), distance);
        forceCmds := [AddForce(i, force)];
      }
      // rotation toward the leader
      var lead := if i == 0 then anchor.position else chainSegments[i - 1].position;
      var direction := e.normalize(Sub(lead, currentPos));
      var rotateCmds: seq<SegmentCommand> := [];
      var t := settings.followStrength * fixedDeltaTime;
      if direction != Zero {
        var targetRotation := e.lookRotation(direction);
        rotateCmds := [MoveRotation(i, e.slerp(chainSegments[i].rotation, targetRotation, t))];
      }
      assert direction == LookDirection(e, Leader(anchor.position, chainSegments, i), currentPos);
      SegmentCommandsWithBody(e, settings, anchor.position, Chain(), t, i);
      own := forceCmds + [DampVelocity(i, settings.damping)] + rotateCmds;
    }

    /** The anchor's commands: a force toward the target velocity, and a torque only when
        the turn input leaves the dead zone. Nothing before `Start` has given it a body. */
    function MoveAnchor(e: Engine, anchorVelocity: Vec3): (cmds: seq<AnchorCommand>)
      reads this
      ensures anchorRb.None? ==> cmds == []
      ensures anchorRb.Some? ==>
                && 1 <= |cmds| <= 2
                && cmds[0] == AnchorForce(Scale(Sub(Scale(e.up(anchor.rotation), settings.moveSpeed), anchorVelocity),
                                                settings.followStrength))
                && (|cmds| == 2 <==> Abs(turnInput) > 0.01)
                && (|cmds| == 2 ==> cmds[1] == AnchorTorque(-turnInput * settings.turnSpeed))
    {
      if anchorRb.None? then []
      else
        var targetVelocity := Scale(e.up(anchor.rotation), settings.moveSpeed);
        [AnchorForce(Scale(Sub(targetVelocity, anchorVelocity), settings.followStrength))]
        + (if Abs(turnInput) > 0.01 then [AnchorTorque(-turnInput * settings.turnSpeed)] else [])
    }

    /** One physics step: the anchor always, the segments only when they have bodies. */
    method FixedUpdate(e: Engine, anchorVelocity: Vec3, fixedDeltaTime: real)
      returns (anchorCmds: seq<AnchorCommand>, segmentCmds: seq<SegmentCommand>)
      requires Valid()
      ensures anchorCmds == MoveAnchor(e, anchorVelocity)
      ensures segmentCmds == if settings.usePhysicsForAllSegments
                             then PhysicsPlan(e, settings, anchor.position, Chain(), settings.followStrength * fixedDeltaTime, |chainSegments|)
                             else []
    {
      anchorCmds := MoveAnchor(e, anchorVelocity);
      segmentCmds := [];
      if settings.usePhysicsForAllSegments {
        segmentCmds := UpdateChainWithPhysics(e, fixedDeltaTime);
      }
    }

    /** Per frame: the targets, unless the chain is empty. */
    method Update(e: Engine)
      requires Valid()
      modifies this`targetPositions
      ensures Valid()
      ensures targetPositions == if chainSegments == [] then old(targetPositions)
                                 else Targets(e, settings.segmentDistance, anchor.position, chainSegments)
    {
      if |chainSegments| == 0 {
        return;
      }
      UpdateTargetPositions(e);
    }

    /** After the frame: the direct smoothing, unless the chain is empty or physics moves it. */
    method LateUpdate(e: Engine, deltaTime: real)
      requires Valid()
      modifies this`chainSegments
      ensures Valid()
      ensures chainSegments == if old(chainSegments) == [] || settings.usePhysicsForAllSegments then old(chainSegments)
                               else SmoothPass(e, settings.followStrength * deltaTime, anchor.position,
                                               old(chainSegments), targetPositions)
    {
      if |chainSegments| == 0 {
        return;
      }
      if !settings.usePhysicsForAllSegments {
        UpdateChainWithoutPhysics(e, deltaTime);
      }
    }
  }
}
