/**
 * A falling fireball: its encapsulation detector and the two ways it ends,
 * surrounded by snake segments or hitting the Earth.
 * Mirrors Assets/Scripts/Fireballs/BaseFireball.cs.
 */
module Fireballs {
  import opened Geometry
  import opened SnakeSegments

  const SnakeSegmentTag := "SnakeSegment"
  const EarthTag := "Earth"

  /** A collider returned by the engine's sphere-overlap query: its tag and the
      segment component attached to it. */
  datatype Collider = Collider(tag: string, segment: SnakeSegment)

  /** What the fireball asks of the engine: an impact or a nullification effect,
      and destruction of its own game object. */
  datatype Effect = ImpactEffect | NullificationEffect | DestroySelf

  /** Whether one collider counts toward surrounding a fireball at `center`. */
  predicate Surrounds(e: Engine, c: Collider, center: Vec3)
  {
    c.tag == SnakeSegmentTag && CheckEncapsulation(e, c.segment, center)
  }

  /** How many of `hits` surround a fireball at `center`. */
  function SurroundCount(e: Engine, hits: seq<Collider>, center: Vec3): (n: nat)
    ensures n <= |hits|
  {
    if hits == [] then 0
    else SurroundCount(e, hits[..|hits| - 1], center)
         + (if Surrounds(e, hits[|hits| - 1], center) then 1 else 0)
  }

  /** Counting splits over a concatenation of query results. */
  lemma {:induction false} SurroundCountAppend(e: Engine, a: seq<Collider>, b: seq<Collider>, center: Vec3)
    ensures SurroundCount(e, a + b, center) == SurroundCount(e, a, center) + SurroundCount(e, b, center)
    decreases |b|
  {
    if b == [] {
      assert a + b == a;
    } else {
      var b' := b[..|b| - 1];
      assert (a + b)[..|a + b| - 1] == a + b';
      assert (a + b)[|a + b| - 1] == b[|b| - 1];
      SurroundCountAppend(e, a, b', center);
    }
  }

  /** Taking one element out of two equal multisets of colliders leaves equal multisets. */
  lemma MultisetRemove(rest: seq<Collider>, x: Collider, lo: seq<Collider>, hi: seq<Collider>)
    requires multiset(rest + [x]) == multiset(lo + [x] + hi)
    ensures multiset(rest) == multiset(lo + hi)
  {
    assert multiset(rest + [x]) == multiset(rest) + multiset{x};
    assert multiset(lo + [x] + hi) == multiset(lo + hi) + multiset{x} by {
      assert multiset(lo + [x] + hi) == multiset(lo) + multiset{x} + multiset(hi);
    }
    assert multiset(rest) == multiset(rest + [x]) - multiset{x};
  }

  /** The count of a result with one hit in the middle is that hit's plus the rest's. */
  lemma SurroundCountSplit(e: Engine, lo: seq<Collider>, x: Collider, hi: seq<Collider>, center: Vec3)
    ensures SurroundCount(e, lo + [x] + hi, center) == SurroundCount(e, lo + hi, center) + SurroundCount(e, [x], center)
  {
    SurroundCountAppend(e, lo + [x], hi, center);
    SurroundCountAppend(e, lo, [x], center);
    SurroundCountAppend(e, lo, hi, center);
  }

  /** The query's results are unordered: any reordering of them gives the same count. */
  lemma {:induction false} SurroundCountOrderFree(e: Engine, a: seq<Collider>, b: seq<Collider>, center: Vec3)
    requires multiset(a) == multiset(b)
    ensures SurroundCount(e, a, center) == SurroundCount(e, b, center)
    decreases |a|
  {
    if a == [] {
      assert |multiset(b)| == 0;
    } else {
      var rest, x := a[..|a| - 1], a[|a| - 1];
      assert a == rest + [x];
      assert x in multiset(b);
      var j :| 0 <= j < |b| && b[j] == x;
      var lo, hi := b[..j], b[j + 1..];
      assert b == lo + [x] + hi;
      MultisetRemove(rest, x, lo, hi);
      SurroundCountOrderFree(e, rest, lo + hi, center);
      SurroundCountAppend(e, rest, [x], center);
      SurroundCountSplit(e, lo, x, hi, center);
    }
  }

  /** A collider without the segment tag is never counted, whatever its component says. */
  lemma {:induction false} UntaggedNeverCounted(e: Engine, hits: seq<Collider>, center: Vec3)
    requires forall i :: 0 <= i < |hits| ==> hits[i].tag != SnakeSegmentTag
    ensures SurroundCount(e, hits, center) == 0
  {
    if hits != [] {
      UntaggedNeverCounted(e, hits[..|hits| - 1], center);
    }
  }

  /** Whether a query whose results hold `count` surrounding colliders reaches the
      threshold at one of them (the count is checked after each increment). */
  predicate ReachesThreshold(count: nat, minEncapsulation: int)
  {
    count >= 1 && count >= minEncapsulation
  }

  class BaseFireball {
    const scoreValue: int
    const earthDamage: int
    const fallSpeed: real
    const minEncapsulation: int
    const canBeEncapsulated: bool
    const detectionRadius: real

    /** The transform's position and rotation, and the rigid body's velocity. */
    var position: Vec3
    var rotation: Quat
    var velocity: Vec3

    var isNullified: bool
    var targetPosition: Vec3
    var surroundCount: int
    /** Effects and destruction requests issued so far, oldest first. */
    var effects: seq<Effect>

    /** Between calls the per-query counter is back at zero. */
    ghost predicate Valid()
      reads this
    {
      surroundCount == 0
    }

    constructor (scoreValue: int, earthDamage: int, fallSpeed: real, minEncapsulation: int,
                 detectionRadius: real, pose: Pose)
      ensures Valid()
      ensures this.scoreValue == scoreValue && this.earthDamage == earthDamage
      ensures this.fallSpeed == fallSpeed && this.minEncapsulation == minEncapsulation
      ensures this.detectionRadius == detectionRadius && canBeEncapsulated
      ensures position == pose.position && rotation == pose.rotation && velocity == Zero
      ensures !isNullified && targetPosition == Zero && effects == []
    {
      this.scoreValue := scoreValue;
      this.earthDamage := earthDamage;
      this.fallSpeed := fallSpeed;
      this.minEncapsulation := minEncapsulation;
      this.canBeEncapsulated := true;
      this.detectionRadius := detectionRadius;
      position := pose.position;
      rotation := pose.rotation;
      velocity := Zero;
      isNullified := false;
      targetPosition := Zero;
      surroundCount := 0;
      effects := [];
    }

    /** Aims the fireball: records the target and launches it along its own up axis. */
    method Initialize(e: Engine, target: Vec3)
      modifies this`targetPosition, this`velocity
      ensures targetPosition == target
      ensures velocity == Scale(e.up(rotation), fallSpeed)
    {
      targetPosition := target;
      velocity := Scale(e.up(rotation), fallSpeed);
    }

    function GetScore(): int
      reads this
    {
      scoreValue
    }

    /** Hitting the Earth plays the impact effect and destroys the fireball, unless it
        was already nullified; it does not itself mark the fireball nullified. */
    method OnEarthImpact()
      modifies this`effects
      ensures effects == if old(isNullified) then old(effects)
                         else old(effects) + [ImpactEffect, DestroySelf]
    {
      if isNullified {
        return;
      }
      effects := effects + [ImpactEffect, DestroySelf];
    }

    /** The terminal transition: the first call nullifies, plays the effect and
        destroys the fireball; every later call does nothing. */
    method OnEncapsulated()
      modifies this`isNullified, this`effects
      ensures isNullified
      ensures effects == if old(isNullified) then old(effects)
                         else old(effects) + [NullificationEffect, DestroySelf]
    {
      if isNullified {
        return;
      }
      isNullified := true;
      effects := effects + [NullificationEffect, DestroySelf];
    }

    /** Only a collision with something tagged "Earth" counts as an impact. */
    method OnCollisionEnter(otherTag: string)
      modifies this`effects
      ensures effects == if otherTag != EarthTag || old(isNullified) then old(effects)
                         else old(effects) + [ImpactEffect, DestroySelf]
    {
      if otherTag == EarthTag {
        OnEarthImpact();
      }
    }

    /**
     * One evaluation of the detector over the colliders the overlap query returned:
     * count the surrounding segments, nullify as soon as the count reaches
     * `minEncapsulation`, and reset the counter so nothing carries over.
     */
    method GetNearbySnakeSegments(e: Engine, hits: seq<Collider>)
      requires Valid()
      modifies this`surroundCount, this`isNullified, this`effects
      ensures Valid()
      ensures isNullified == (old(isNullified) || ReachesThreshold(SurroundCount(e, hits, position), minEncapsulation))
      ensures effects ==
        if !old(isNullified) && isNullified then old(effects) + [NullificationEffect, DestroySelf]
        else old(effects)
    {
      var i := 0;
      while i < |hits|
        invariant 0 <= i <= |hits|
        invariant surroundCount == SurroundCount(e, hits[..i], position)
        invariant isNullified == (old(isNullified) || ReachesThreshold(surroundCount, minEncapsulation))
        invariant effects ==
          if !old(isNullified) && isNullified then old(effects) + [NullificationEffect, DestroySelf]
          else old(effects)
      {
        assert hits[..i + 1][..i] == hits[..i];
        var collider := hits[i];
        if collider.tag == SnakeSegmentTag {
          if CheckEncapsulation(e, collider.segment, position) {
            surroundCount := surroundCount + 1;
            if surroundCount >= minEncapsulation {
              OnEncapsulated();
            }
          }
        }
        i := i + 1;
      }
      assert hits[..i] == hits;
      surroundCount := 0;
    }
  }
}
