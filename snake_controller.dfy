/**
 * The kinematic snake: a head moved and turned directly each frame, body segments
 * that ease toward a spot one spacing behind the segment before them, and a head
 * kept inside a rectangle of the XY plane.
 * Mirrors Assets/Scripts/Snake/SnakeController.cs.
 */
module SnakeControllers {
  import opened Geometry

  /** The per-axis clamp of a position to the rectangle `[lo, hi]`; `z` is left alone. */
  function ClampToBounds(p: Vec3, lo: Vec2, hi: Vec2): (r: Vec3)
    ensures r.z == p.z
    ensures lo.x <= hi.x ==> lo.x <= r.x <= hi.x
    ensures lo.y <= hi.y ==> lo.y <= r.y <= hi.y
    ensures lo.x <= p.x <= hi.x && lo.y <= p.y <= hi.y ==> r == p
  {
    Vec3(Clamp(p.x, lo.x, hi.x), Clamp(p.y, lo.y, hi.y), p.z)
  }

  /** Clamping twice is clamping once, whenever the bounds are ordered. */
  lemma ClampToBoundsIdempotent(p: Vec3, lo: Vec2, hi: Vec2)
    requires lo.x <= hi.x && lo.y <= hi.y
    ensures ClampToBounds(ClampToBounds(p, lo, hi), lo, hi) == ClampToBounds(p, lo, hi)
  {
    var r := ClampToBounds(p, lo, hi);
    assert lo.x <= r.x <= hi.x && lo.y <= r.y <= hi.y;
  }

  /** Where a segment is drawn to: `spacing` behind its leader along the leader's up axis. */
  function FollowTarget(e: Engine, spacing: real, leader: Pose): Vec3
  {
    Sub(leader.position, Scale(e.up(leader.rotation), spacing))
  }

  /** One segment's frame: its position eases toward its target and its rotation toward
      the leader's, both by factor `t`. */
  function FollowStep(e: Engine, spacing: real, t: real, leader: Pose, seg: Pose): Pose
  {
    Pose(Lerp(seg.position, FollowTarget(e, spacing, leader), t), e.lerpRotation(seg.rotation, leader.rotation, t))
  }

  /** The front-to-back pass: the first segment follows `leader` (the head), each later
      one follows the segment before it as just updated. */
  function FollowPass(e: Engine, spacing: real, t: real, leader: Pose, segs: seq<Pose>): (r: seq<Pose>)
    ensures |r| == |segs|
    decreases |segs|
  {
    if segs == [] then []
    else
      var first := FollowStep(e, spacing, t, leader, segs[0]);
      [first] + FollowPass(e, spacing, t, first, segs[1..])
  }

  /** Segment `i` of the pass follows the head when `i == 0` and the updated segment
      `i - 1` otherwise. */
  lemma {:induction false} FollowPassAt(e: Engine, spacing: real, t: real, leader: Pose, segs: seq<Pose>, i: nat)
    requires i < |segs|
    ensures FollowPass(e, spacing, t, leader, segs)[i]
         == FollowStep(e, spacing, t, if i == 0 then leader else FollowPass(e, spacing, t, leader, segs)[i - 1], segs[i])
    decreases |segs|
  {
    if i > 0 {
      FollowPassAt(e, spacing, t, FollowStep(e, spacing, t, leader, segs[0]), segs[1..], i - 1);
    }
  }

  /** Each segment ends on the straight segment between where it was and its target. */
  lemma FollowPassOnSegment(e: Engine, spacing: real, t: real, leader: Pose, segs: seq<Pose>, i: nat)
    requires i < |segs|
    ensures var r := FollowPass(e, spacing, t, leader, segs);
            OnSegment(r[i].position, segs[i].position,
                      FollowTarget(e, spacing, if i == 0 then leader else r[i - 1]))
  {
    var r := FollowPass(e, spacing, t, leader, segs);
    FollowPassAt(e, spacing, t, leader, segs, i);
    LerpOnSegment(segs[i].position, FollowTarget(e, spacing, if i == 0 then leader else r[i - 1]), t);
  }

  /** With a factor of at least one (a long frame), every segment lands exactly on its
      target: `spacing` behind its just-updated leader. */
  lemma FollowPassSnaps(e: Engine, spacing: real, t: real, leader: Pose, segs: seq<Pose>, i: nat)
    requires 1.0 <= t && i < |segs|
    ensures var r := FollowPass(e, spacing, t, leader, segs);
            r[i].position == FollowTarget(e, spacing, if i == 0 then leader else r[i - 1])
  {
    var r := FollowPass(e, spacing, t, leader, segs);
    FollowPassAt(e, spacing, t, leader, segs, i);
    LerpFull(segs[i].position, FollowTarget(e, spacing, if i == 0 then leader else r[i - 1]), t);
  }

  lemma LerpFull(a: Vec3, b: Vec3, t: real)
    requires 1.0 <= t
    ensures Lerp(a, b, t) == b
  {
    assert Clamp01(t) == 1.0;
  }

  /** With a factor of zero or less (a paused frame) no segment moves. */
  lemma FollowPassFrozen(e: Engine, spacing: real, t: real, leader: Pose, segs: seq<Pose>, i: nat)
    requires t <= 0.0 && i < |segs|
    ensures FollowPass(e, spacing, t, leader, segs)[i].position == segs[i].position
  {
    FollowPassAt(e, spacing, t, leader, segs, i);
  }

  /** The head's pose after one frame of turning and moving forward. */
  function MovedHead(e: Engine, head: Pose, moveSpeed: real, turnSpeed: real, turnInput: real, dt: real): Pose
  {
    var rotation := e.rotateZ(head.rotation, -turnInput * turnSpeed * dt);
    Pose(Add(head.position, Scale(Scale(e.up(rotation), moveSpeed), dt)), rotation)
  }

  /** Segment `i` of the initial layout: `i + 1` spacings behind the head, unrotated. */
  function SpawnPose(e: Engine, head: Pose, spacing: real, i: nat): Pose
  {
    Pose(Sub(head.position, Scale(Scale(e.up(head.rotation), (i + 1) as real), spacing)), Identity)
  }

  /** The layout spaces the segments evenly along the head's down axis: every two
      consecutive segments are exactly one spacing apart. */
  lemma SpawnEvenlySpaced(e: Engine, head: Pose, spacing: real, i: nat)
    ensures Sub(SpawnPose(e, head, spacing, i).position, SpawnPose(e, head, spacing, i + 1).position)
         == Scale(e.up(head.rotation), spacing)
  {
    var u := e.up(head.rotation);
    var k := (i + 1) as real;
    assert u.x * (k + 1.0) * spacing - u.x * k * spacing == u.x * spacing;
    assert u.y * (k + 1.0) * spacing - u.y * k * spacing == u.y * spacing;
    assert u.z * (k + 1.0) * spacing - u.z * k * spacing == u.z * spacing;
  }

  class SnakeController {
    const moveSpeed: real
    const turnSpeed: real
    const segmentCount: int
    const segmentSpacing: real
    const followSmoothness: real
    const minBounds: Vec2
    const maxBounds: Vec2

    var transform: Pose
    var segments: seq<Pose>
    var turnInput: real

    constructor (moveSpeed: real, turnSpeed: real, segmentCount: int, segmentSpacing: real,
                 followSmoothness: real, minBounds: Vec2, maxBounds: Vec2, pose: Pose)
      ensures this.moveSpeed == moveSpeed && this.turnSpeed == turnSpeed
      ensures this.segmentCount == segmentCount && this.segmentSpacing == segmentSpacing
      ensures this.followSmoothness == followSmoothness
      ensures this.minBounds == minBounds && this.maxBounds == maxBounds
      ensures transform == pose && segments == [] && turnInput == 0.0
    {
      this.moveSpeed := moveSpeed;
      this.turnSpeed := turnSpeed;
      this.segmentCount := segmentCount;
      this.segmentSpacing := segmentSpacing;
      this.followSmoothness := followSmoothness;
      this.minBounds := minBounds;
      this.maxBounds := maxBounds;
      transform := pose;
      segments := [];
      turnInput := 0.0;
    }

    /** Spawns `segmentCount` segments behind the head; the reference point is the
        head's start position for all of them. */
    method Start(e: Engine)
      modifies this`segments
      ensures |segments| == |old(segments)| + (if segmentCount < 0 then 0 else segmentCount)
      ensures segments[..|old(segments)|] == old(segments)
      ensures forall i :: 0 <= i < |segments| - |old(segments)| ==>
                segments[|old(segments)| + i] == SpawnPose(e, transform, segmentSpacing, i)
    {
      var prevPos := transform.position;
      var i := 0;
      while i < segmentCount
        invariant 0 <= i && (if segmentCount < 0 then i == 0 else i <= segmentCount)
        invariant |segments| == |old(segments)| + i
        invariant segments[..|old(segments)|] == old(segments)
        invariant forall k :: 0 <= k < i ==> segments[|old(segments)| + k] == SpawnPose(e, transform, segmentSpacing, k)
      {
        var spawnPos := Sub(prevPos, Scale(Scale(e.up(transform.rotation), (i + 1) as real), segmentSpacing));
        segments := segments + [Pose(spawnPos, Identity)];
        i := i + 1;
      }
    }

    method SetDirection(input: Vec2)
      modifies this`turnInput
      ensures turnInput == input.x
    {
      turnInput := input.x;
    }

    /** Turns the head about its z axis, then moves it forward along its new up axis. */
    method HandleHeadMovement(e: Engine, deltaTime: real)
      modifies this`transform
      ensures transform == MovedHead(e, old(transform), moveSpeed, turnSpeed, old(turnInput), deltaTime)
    {
      var rotation := e.rotateZ(transform.rotation, -turnInput * turnSpeed * deltaTime);
      transform := Pose(transform.position, rotation);
      transform := Pose(Add(transform.position, Scale(Scale(e.up(transform.rotation), moveSpeed), deltaTime)), rotation);
    }

    /** Walks the segments front to back, each following the pose its leader has now. */
    method HandleBodyFollow(e: Engine, deltaTime: real)
      modifies this`segments
      ensures segments == FollowPass(e, segmentSpacing, followSmoothness * deltaTime, transform, old(segments))
    {
      ghost var original := segments;
      ghost var t := followSmoothness * deltaTime;
      var prevPos := transform.position;
      var prevRot := transform.rotation;
      var i := 0;
      while i < |segments|
        invariant |segments| == |original| && 0 <= i <= |segments|
        invariant segments[..i] == FollowPass(e, segmentSpacing, t, transform, original)[..i]
        invariant segments[i..] == original[i..]
        invariant Pose(prevPos, prevRot) == if i == 0 then transform else segments[i - 1]
      {
        var seg := segments[i];
        var targetPos := Sub(prevPos, Scale(e.up(prevRot), segmentSpacing));
        seg := seg.(position := Lerp(seg.position, targetPos, followSmoothness * deltaTime));
        seg := seg.(rotation := e.lerpRotation(seg.rotation, prevRot, followSmoothness * deltaTime));
        FollowPassAt(e, segmentSpacing, t, transform, original, i);
        segments := segments[i := seg];
        prevPos := seg.position;
        prevRot := seg.rotation;
        i := i + 1;
      }
    }

    /** Keeps the head's x and y inside the bounds. */
    method ClampHeadPosition()
      modifies this`transform
      ensures transform == old(transform).(position := ClampToBounds(old(transform).position, minBounds, maxBounds))
    {
      var pos := transform.position;
      pos := pos.(x := Clamp(pos.x, minBounds.x, maxBounds.x));
      pos := pos.(y := Clamp(pos.y, minBounds.y, maxBounds.y));
      transform := transform.(position := pos);
    }

    /** One frame: move the head, let the body follow it, and only then clamp the head,
        so the body follows the unclamped position. */
    method Update(e: Engine, deltaTime: real)
      modifies this`transform, this`segments
      ensures var moved := MovedHead(e, old(transform), moveSpeed, turnSpeed, old(turnInput), deltaTime);
              && segments == FollowPass(e, segmentSpacing, followSmoothness * deltaTime, moved, old(segments))
              && transform == moved.(position := ClampToBounds(moved.position, minBounds, maxBounds))
    {
      HandleHeadMovement(e, deltaTime);
      HandleBodyFollow(e, deltaTime);
      ClampHeadPosition();
    }
  }
}
