/**
 * A snake body segment as seen by a fireball: it says whether a point lies
 * within its encapsulation radius. Mirrors Assets/Scripts/Snake/SnakeSegment.cs.
 */
module SnakeSegments {
  import opened Geometry

  /** A segment's position and its configured encapsulation radius. */
  datatype SnakeSegment = SnakeSegment(position: Vec3, encapsulateRadius: real)

  datatype Exception = NotImplemented

  /** The outcome of a call that may throw instead of returning. */
  datatype Outcome<T> = Returned(value: T) | Threw(exception: Exception)

  /** `CanBeEncapsulate` has no implementation: every call throws. */
  function CanBeEncapsulate(s: SnakeSegment): (r: Outcome<bool>)
    ensures !r.Returned?
  {
    Threw(NotImplemented)
  }

  /** Whether the object at `obj` lies within the segment's radius, the boundary included. */
  predicate CheckEncapsulation(e: Engine, s: SnakeSegment, obj: Vec3)
  {
    Distance(e, s.position, obj) <= s.encapsulateRadius
  }

  /** The test is a comparison of squared lengths: a non-negative radius whose square
      bounds the squared distance. */
  lemma CheckEncapsulationSquared(e: Engine, s: SnakeSegment, obj: Vec3)
    requires Lawful(e)
    ensures CheckEncapsulation(e, s, obj)
      <==> 0.0 <= s.encapsulateRadius
           && SqrMag(Sub(s.position, obj)) <= s.encapsulateRadius * s.encapsulateRadius
  {
    MagnitudeAtMost(e, Sub(s.position, obj), s.encapsulateRadius);
  }

  /** An object exactly one radius away is encapsulated. */
  lemma BoundaryIncluded(e: Engine, s: SnakeSegment, obj: Vec3)
    requires Lawful(e)
    requires 0.0 <= s.encapsulateRadius
    requires SqrMag(Sub(s.position, obj)) == s.encapsulateRadius * s.encapsulateRadius
    ensures CheckEncapsulation(e, s, obj)
  {
    CheckEncapsulationSquared(e, s, obj);
  }

  /** Strictly beyond the radius, the object is not encapsulated. */
  lemma OutsideExcluded(e: Engine, s: SnakeSegment, obj: Vec3)
    requires Lawful(e)
    requires SqrMag(Sub(s.position, obj)) > s.encapsulateRadius * s.encapsulateRadius
    ensures !CheckEncapsulation(e, s, obj)
  {
    CheckEncapsulationSquared(e, s, obj);
  }

  /** Growing the radius never loses an encapsulated object. */
  lemma MonotoneInRadius(e: Engine, s: SnakeSegment, obj: Vec3, wider: real)
    requires CheckEncapsulation(e, s, obj) && s.encapsulateRadius <= wider
    ensures CheckEncapsulation(e, s.(encapsulateRadius := wider), obj)
  {
  }

  /** With a negative radius nothing is ever encapsulated. */
  lemma NegativeRadiusNeverEncapsulates(e: Engine, s: SnakeSegment, obj: Vec3)
    requires Lawful(e) && s.encapsulateRadius < 0.0
    ensures !CheckEncapsulation(e, s, obj)
  {
    assert e.magnitude(Sub(s.position, obj)) >= 0.0;
  }

  /** Only the distance matters: swapping the segment and the object gives the same answer. */
  lemma CheckEncapsulationSymmetric(e: Engine, s: SnakeSegment, obj: Vec3)
    requires Lawful(e)
    ensures CheckEncapsulation(e, s, obj)
        <==> CheckEncapsulation(e, SnakeSegment(obj, s.encapsulateRadius), s.position)
  {
    DistanceSymmetric(e, s.position, obj);
  }
}
