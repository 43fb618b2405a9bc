/**
 * The physics-driven snake: a head whose rigid body is steered by forces, and a
 * list of body nodes each pulled to within `segmentSpacing` of the node before
 * it (a rope constraint). Mirrors Assets/Scripts/Snake/SnakeHead.cs.
 */
module SnakeHeads {
  import opened Geometry

  /** What the head asks of its rigid body in one physics step. */
  datatype HeadCommand =
    | SetVelocity(velocity: Vec3)
    | MoveRotation(rotation: Quat)

  /** The pose a new node takes: `spacing` behind `last` along its up axis, turned like it. */
  function Behind(e: Engine, last: Pose, spacing: real): Pose
  {
    Pose(Sub(last.position, Scale(e.up(last.rotation), spacing)), last.rotation)
  }

  /** The rope constraint for one node against its (already moved) predecessor at
      `lead`: a node farther than `spacing` is moved toward it by the excess and turned
      to face it; a node within `spacing` is left alone. */
  function ClampStep(e: Engine, spacing: real, lead: Vec3, node: Pose): Pose
  {
    var dist := Distance(e, node.position, lead);
    if dist > spacing then
      var dir := e.normalize(Sub(lead, node.position));
      Pose(Add(node.position, Scale(dir, dist - spacing)), e.lookRotation(dir))
    else node
  }

  /** One front-to-back pass over `nodes`, each clamped against its freshly moved predecessor. */
  function ClampPass(e: Engine, spacing: real, lead: Vec3, nodes: seq<Pose>): (r: seq<Pose>)
    ensures |r| == |nodes|
    decreases |nodes|
  {
    if nodes == [] then []
    else
      var first := ClampStep(e, spacing, lead, nodes[0]);
      [first] + ClampPass(e, spacing, first.position, nodes[1..])
  }

  /** Every node of `nodes` lies within `spacing` of the one before it (`lead` before the first). */
  ghost predicate Taut(spacing: real, lead: Vec3, nodes: seq<Pose>)
  {
    && (|nodes| > 0 ==> SqrMag(Sub(lead, nodes[0].position)) <= spacing * spacing)
    && forall i :: 0 < i < |nodes| ==> SqrMag(Sub(nodes[i - 1].position, nodes[i].position)) <= spacing * spacing
  }

  /** A node already within `spacing` keeps its position and rotation. */
  lemma ClampStepWithin(e: Engine, spacing: real, lead: Vec3, node: Pose)
    requires Lawful(e) && 0.0 <= spacing
    requires SqrMag(Sub(node.position, lead)) <= spacing * spacing
    ensures ClampStep(e, spacing, lead, node) == node
  {
    MagnitudeAtMost(e, Sub(node.position, lead), spacing);
  }

  /** Moving from `p` toward `lead` by `d - s`, where `n * d` is the way to `lead`,
      leaves the way `n * s` still to go. */
  lemma StepRemainder(p: Vec3, lead: Vec3, n: Vec3, d: real, s: real)
    requires Scale(n, d) == Sub(lead, p)
    ensures Sub(lead, Add(p, Scale(n, d - s))) == Scale(n, s)
  {
    assert n.x * (d - s) == n.x * d - n.x * s;
    assert n.y * (d - s) == n.y * d - n.y * s;
    assert n.z * (d - s) == n.z * d - n.z * s;
  }

  /** That move stops on the segment from `p` to `lead`. */
  lemma StepOnSegment(p: Vec3, lead: Vec3, n: Vec3, d: real, s: real)
    requires 0.0 <= s < d && Scale(n, d) == Sub(lead, p)
    ensures OnSegment(Add(p, Scale(n, d - s)), p, lead)
  {
    var v := Sub(lead, p);
    var t := (d - s) / d;
    assert 0.0 <= t <= 1.0;
    assert n.x * (d - s) == v.x * t by { assert v.x == n.x * d; }
    assert n.y * (d - s) == v.y * t by { assert v.y == n.y * d; }
    assert n.z * (d - s) == v.z * t by { assert v.z == n.z * d; }
    assert Add(p, Scale(n, d - s)) == Add(p, Scale(v, t));
  }

  /** A node farther than `spacing` ends exactly `spacing` from its predecessor, on the
      straight segment between where it was and the predecessor. */
  lemma ClampStepBeyond(e: Engine, spacing: real, lead: Vec3, node: Pose)
    requires Lawful(e) && 0.0 <= spacing
    requires SqrMag(Sub(node.position, lead)) > spacing * spacing
    ensures SqrMag(Sub(lead, ClampStep(e, spacing, lead, node).position)) == spacing * spacing
    ensures OnSegment(ClampStep(e, spacing, lead, node).position, node.position, lead)
  {
    MagnitudeAtMost(e, Sub(node.position, lead), spacing);
    var p := node.position;
    var v := Sub(lead, p);
    var d := Distance(e, p, lead);
    DistanceSymmetric(e, p, lead);
    MagnitudeZero(e, v);
    var n := e.normalize(v);
    NormalizeUnit(e, v);
    assert ClampStep(e, spacing, lead, node).position == Add(p, Scale(n, d - spacing));
    StepRemainder(p, lead, n, d, spacing);
    UnitScaled(n, spacing);
    StepOnSegment(p, lead, n, d, spacing);
  }

  /** Whatever the node's distance, after its step it is within `spacing` of its predecessor. */
  lemma ClampStepTaut(e: Engine, spacing: real, lead: Vec3, node: Pose)
    requires Lawful(e) && 0.0 <= spacing
    ensures SqrMag(Sub(lead, ClampStep(e, spacing, lead, node).position)) <= spacing * spacing
  {
    if SqrMag(Sub(node.position, lead)) > spacing * spacing {
      ClampStepBeyond(e, spacing, lead, node);
    } else {
      ClampStepWithin(e, spacing, lead, node);
      assert SqrMag(Sub(lead, node.position)) == SqrMag(Sub(node.position, lead));
    }
  }

  /** After one pass every node is within `spacing` of its predecessor. */
  lemma {:induction false} ClampPassTaut(e: Engine, spacing: real, lead: Vec3, nodes: seq<Pose>)
    requires Lawful(e) && 0.0 <= spacing
    ensures Taut(spacing, lead, ClampPass(e, spacing, lead, nodes))
    decreases |nodes|
  {
    if nodes != [] {
      var first := ClampStep(e, spacing, lead, nodes[0]);
      var rest := ClampPass(e, spacing, first.position, nodes[1..]);
      ClampStepTaut(e, spacing, lead, nodes[0]);
      ClampPassTaut(e, spacing, first.position, nodes[1..]);
      var r := [first] + rest;
      forall i | 0 < i < |r|
        ensures SqrMag(Sub(r[i - 1].position, r[i].position)) <= spacing * spacing
      {
        if i > 1 {
          assert r[i - 1] == rest[i - 2] && r[i] == rest[i - 1];
        }
      }
    }
  }

  /** Node `i` of the pass is the step of input node `i` against output node `i - 1`. */
  lemma {:induction false} ClampPassAt(e: Engine, spacing: real, lead: Vec3, nodes: seq<Pose>, i: nat)
    requires i < |nodes|
    ensures ClampPass(e, spacing, lead, nodes)[i]
         == ClampStep(e, spacing, if i == 0 then lead else ClampPass(e, spacing, lead, nodes)[i - 1].position, nodes[i])
    decreases |nodes|
  {
    if i > 0 {
      var first := ClampStep(e, spacing, lead, nodes[0]);
      ClampPassAt(e, spacing, first.position, nodes[1..], i - 1);
    }
  }

  class SnakeHead {
    const moveSpeed: real
    const turnSpeed: real
    const initialSegments: int
    const segmentSpacing: real

    /** The head's own transform (moved by the engine from the forces it is given). */
    var transform: Pose
    /** Whether `Start` has put the head at the front of the node list. */
    var started: bool
    /** The nodes after the head, front to back. */
    var body: seq<Pose>
    var turnInput: real

    /** The linked list of nodes: the head first once started, empty before. */
    function Nodes(): seq<Pose>
      reads this
    {
      if started then [transform] + body else []
    }

    ghost predicate Valid()
      reads this
    {
      !started ==> body == []
    }

    constructor (moveSpeed: real, turnSpeed: real, initialSegments: int, segmentSpacing: real, pose: Pose)
      ensures Valid() && Nodes() == []
      ensures this.moveSpeed == moveSpeed && this.turnSpeed == turnSpeed
      ensures this.initialSegments == initialSegments && this.segmentSpacing == segmentSpacing
      ensures transform == pose && turnInput == 0.0
    {
      this.moveSpeed := moveSpeed;
      this.turnSpeed := turnSpeed;
      this.initialSegments := initialSegments;
      this.segmentSpacing := segmentSpacing;
      transform := pose;
      started := false;
      body := [];
      turnInput := 0.0;
    }

    /** Appends one node behind the last one. On an empty list the engine throws before
        anything changes; that is reported as `ok == false`. */
    method AddSegment(e: Engine) returns (ok: bool)
      requires Valid()
      modifies this`body
      ensures Valid()
      ensures ok == (old(Nodes()) != [])
      ensures Nodes() == if ok then old(Nodes()) + [Behind(e, old(Nodes())[|old(Nodes())| - 1], segmentSpacing)]
                         else old(Nodes())
    {
      if !started {
        return false;
      }
      var nodes := [transform] + body;
      var last := nodes[|nodes| - 1];
      body := body + [Behind(e, last, segmentSpacing)];
      ok := true;
    }

    /** Puts the head at the front of the list and appends `initialSegments` nodes, each
        `segmentSpacing` behind the previous one. The engine runs it once, first. */
    method Start(e: Engine)
      requires Valid() && !started
      modifies this`started, this`body
      ensures Valid() && started
      ensures |Nodes()| == 1 + (if initialSegments < 0 then 0 else initialSegments)
      ensures Nodes()[0] == transform
      ensures forall i :: 0 < i < |Nodes()| ==> Nodes()[i] == Behind(e, Nodes()[i - 1], segmentSpacing)
    {
      started := true;
      var i := 0;
      while i < initialSegments
        invariant Valid() && started
        invariant 0 <= i == |body|
        invariant if initialSegments < 0 then i == 0 else i <= initialSegments
        invariant forall k :: 0 < k < |Nodes()| ==> Nodes()[k] == Behind(e, Nodes()[k - 1], segmentSpacing)
      {
        var ok := AddSegment(e);
        i := i + 1;
      }
    }

    method SetDirection(input: Vec2)
      modifies this`turnInput
      ensures turnInput == input.x
    {
      turnInput := input.x;
    }

    /** The head always drives forward at `moveSpeed` along its up axis, and turns only
        when the turn input leaves the dead zone. */
    function MoveHead(e: Engine, fixedDeltaTime: real): (cmds: seq<HeadCommand>)
      reads this
      ensures |cmds| >= 1 && cmds[0] == SetVelocity(Scale(e.up(transform.rotation), moveSpeed))
      ensures |cmds| == 2 <==> Abs(turnInput) > 0.01
      ensures |cmds| <= 2
    {
      [SetVelocity(Scale(e.up(transform.rotation), moveSpeed))]
      + if Abs(turnInput) > 0.01
        then [MoveRotation(e.rotateZ(transform.rotation, -turnInput * turnSpeed * fixedDeltaTime))]
        else []
    }

    /** The rope pass: walks the list from the second node, clamping each node against
        its predecessor's new position. The head itself never moves here. Before `Start`
        the list is empty and the engine throws; nothing changes. */
    method MoveSegments(e: Engine)
      requires Valid()
      modifies this`body
      ensures Valid()
      ensures started ==> body == ClampPass(e, segmentSpacing, transform.position, old(body))
      ensures !started ==> body == old(body)
    {
      if !started {
        return;
      }
      ghost var original := body;
      var i := 0;
      while i < |body|
        invariant |body| == |original| && 0 <= i <= |body|
        invariant body[..i] == ClampPass(e, segmentSpacing, transform.position, original)[..i]
        invariant body[i..] == original[i..]
      {
        var lead := if i == 0 then transform.position else body[i - 1].position;
        var node := body[i];
        var dist := Distance(e, node.position, lead);
        if dist > segmentSpacing {
          var dir := e.normalize(Sub(lead, node.position));
          node := Pose(Add(node.position, Scale(dir, dist - segmentSpacing)), e.lookRotation(dir));
        }
        ClampPassAt(e, segmentSpacing, transform.position, original, i);
        body := body[i := node];
        i := i + 1;
      }
    }

    /** One physics step: the head's commands, then the rope pass. */
    method FixedUpdate(e: Engine, fixedDeltaTime: real) returns (cmds: seq<HeadCommand>)
      requires Valid()
      modifies this`body
      ensures Valid()
      ensures cmds == old(MoveHead(e, fixedDeltaTime))
      ensures started ==> body == ClampPass(e, segmentSpacing, transform.position, old(body))
      ensures !started ==> body == old(body)
    {
      cmds := MoveHead(e, fixedDeltaTime);
      MoveSegments(e);
    }
  }
}
