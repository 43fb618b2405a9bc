/**
 * Direction input: keys pressed this frame and swipes (a touch, or the mouse in the
 * editor) become one of the four axis directions, announced to listeners.
 * Mirrors Assets/Scripts/InputController.cs.
 *
 * What the input devices report in a frame arrives as parameters; what the listeners
 * are told is recorded in `events`.
 */
module InputControl {
  import opened Geometry

  const Up := Vec2(0.0, 1.0)
  const Down := Vec2(0.0, -1.0)
  const Left := Vec2(-1.0, 0.0)
  const Right := Vec2(1.0, 0.0)

  predicate IsAxis(d: Vec2) { d == Up || d == Down || d == Left || d == Right }

  function Dot(a: Vec2, b: Vec2): real { a.x * b.x + a.y * b.y }

  /** The direction of a swipe: horizontal when it moves further sideways than up or
      down, vertical otherwise (ties included), with the sign of that component. */
  function GetSwipeDirection(swipe: Vec2): (r: Vec2)
    ensures IsAxis(r)
    ensures r == Left || r == Right <==> Abs(swipe.x) > Abs(swipe.y)
    ensures r == Right <==> Abs(swipe.x) > Abs(swipe.y) && swipe.x > 0.0
    ensures r == Up <==> Abs(swipe.x) <= Abs(swipe.y) && swipe.y > 0.0
  {
    if Abs(swipe.x) > Abs(swipe.y) then
      (if swipe.x > 0.0 then Right else Left)
    else
      (if swipe.y > 0.0 then Up else Down)
  }

  /** The chosen direction is an axis the swipe points along best: no axis has a
      larger component of the swipe. */
  lemma SwipeDirectionBest(swipe: Vec2, d: Vec2)
    requires IsAxis(d)
    ensures Dot(d, swipe) <= Dot(GetSwipeDirection(swipe), swipe)
  {
  }

  /** It is the only such axis whenever the swipe's two components differ in size and
      its larger component is not zero. */
  lemma SwipeDirectionUnique(swipe: Vec2, d: Vec2)
    requires IsAxis(d) && Abs(swipe.x) != Abs(swipe.y)
    requires Dot(d, swipe) == Dot(GetSwipeDirection(swipe), swipe)
    ensures d == GetSwipeDirection(swipe)
  {
  }

  /** Reversing a non-zero swipe reverses its direction. */
  lemma SwipeDirectionReversed(swipe: Vec2)
    requires swipe.x != 0.0 || swipe.y != 0.0
    ensures var r := GetSwipeDirection(swipe);
            GetSwipeDirection(Vec2(-swipe.x, -swipe.y)) == Vec2(-r.x, -r.y)
  {
  }

  /** The keys that steer. */
  datatype Key = W | UpArrow | S | DownArrow | A | LeftArrow | D | RightArrow

  /** The direction a key stands for. */
  function KeyDirection(k: Key): Vec2
  {
    match k
    case W | UpArrow => Up
    case S | DownArrow => Down
    case A | LeftArrow => Left
    case D | RightArrow => Right
  }

  /** A key's rank when several are pressed in one frame: up first, then down, left, right. */
  function Priority(k: Key): nat
  {
    match k
    case W | UpArrow => 0
    case S | DownArrow => 1
    case A | LeftArrow => 2
    case D | RightArrow => 3
  }

  /** The direction announced for the keys pressed this frame, if any. */
  function KeyboardDirection(pressed: set<Key>): (r: Option<Vec2>)
    ensures r.Some? ==> IsAxis(r.value)
  {
    if W in pressed || UpArrow in pressed then Some(Up)
    else if S in pressed || DownArrow in pressed then Some(Down)
    else if A in pressed || LeftArrow in pressed then Some(Left)
    else if D in pressed || RightArrow in pressed then Some(Right)
    else None
  }

  /** Nothing is announced exactly when no key is pressed; otherwise the direction is
      that of a pressed key of the highest rank. */
  lemma KeyboardDirectionPriority(pressed: set<Key>)
    ensures KeyboardDirection(pressed).None? <==> pressed == {}
    ensures KeyboardDirection(pressed).Some? ==>
              exists k :: k in pressed && KeyDirection(k) == KeyboardDirection(pressed).value
                          && forall k' :: k' in pressed ==> Priority(k) <= Priority(k')
  {
    if pressed != {} {
      var k :| k in pressed;
      if W in pressed { k := W; } else if UpArrow in pressed { k := UpArrow; }
      else if S in pressed { k := S; } else if DownArrow in pressed { k := DownArrow; }
      else if A in pressed { k := A; } else if LeftArrow in pressed { k := LeftArrow; }
      else if D in pressed { k := D; } else if RightArrow in pressed { k := RightArrow; }
      assert KeyDirection(k) == KeyboardDirection(pressed).value;
      assert forall k' :: k' in pressed ==> Priority(k) <= Priority(k');
    }
  }

  /** What the end of a gesture announces: the swipe's direction, if a gesture was under
      way and the swipe is at least `minSwipeDistance` long. */
  function SwipeEnd(e: Engine, minSwipeDistance: real, start: Vec2, isSwiping: bool, end: Vec2): (r: Option<Vec2>)
    ensures r.Some? ==> isSwiping && IsAxis(r.value)
  {
    var swipe := Sub2(end, start);
    if isSwiping && e.magnitude(Lift(swipe)) >= minSwipeDistance then Some(GetSwipeDirection(swipe)) else None
  }

  /** With a lawful engine and a non-negative threshold, a gesture under way announces
      exactly when the squared swipe length reaches the squared threshold; one not
      under way never does. */
  lemma SwipeEndFires(e: Engine, minSwipeDistance: real, start: Vec2, isSwiping: bool, end: Vec2)
    requires Lawful(e) && 0.0 <= minSwipeDistance
    ensures var swipe := Sub2(end, start);
            SwipeEnd(e, minSwipeDistance, start, isSwiping, end).Some?
            <==> isSwiping && minSwipeDistance * minSwipeDistance <= swipe.x * swipe.x + swipe.y * swipe.y
    ensures SwipeEnd(e, minSwipeDistance, start, isSwiping, end).Some? ==>
              SwipeEnd(e, minSwipeDistance, start, isSwiping, end).value == GetSwipeDirection(Sub2(end, start))
  {
    var v := Lift(Sub2(end, start));
    var m := e.magnitude(v);
    assert m >= 0.0 && m * m == SqrMag(v);
    SquareMonotone(minSwipeDistance, m, minSwipeDistance * minSwipeDistance, m * m);
  }

  function Announced(d: Option<Vec2>): seq<Vec2>
  {
    if d.Some? then [d.value] else []
  }

  datatype TouchPhase = Began | Moved | Stationary | Ended | Canceled

  /** The first touch of a frame. */
  datatype Touch = Touch(phase: TouchPhase, position: Vec2)

  /** The gesture state: where the current gesture started and whether one is under way. */
  datatype Gesture = Gesture(start: Vec2, swiping: bool)

  /** The gesture state after one input step, and the directions that step announced. */
  datatype Step = Step(gesture: Gesture, announced: seq<Vec2>)

  /** The first touch of a frame: a touch that begins starts a gesture where it is; one
      that ends or is cancelled finishes it, announcing the swipe if it was long enough;
      other phases leave everything as it was. */
  function TouchStep(e: Engine, minSwipeDistance: real, g: Gesture, touch: Touch): Step
  {
    match touch.phase
    case Began => Step(Gesture(touch.position, true), [])
    case Ended | Canceled =>
      Step(Gesture(g.start, false), Announced(SwipeEnd(e, minSwipeDistance, g.start, g.swiping, touch.position)))
    case Moved | Stationary => Step(g, [])
  }

  /** The mouse in the editor: a press starts a gesture at the pointer; a release during a
      gesture finishes it, announcing the swipe if it was long enough. */
  function MouseStep(e: Engine, minSwipeDistance: real, g: Gesture, buttonDown: bool, buttonUp: bool, mousePosition: Vec2): Step
  {
    if buttonDown then Step(Gesture(mousePosition, true), [])
    else if buttonUp && g.swiping then
      Step(Gesture(g.start, false), Announced(SwipeEnd(e, minSwipeDistance, g.start, true, mousePosition)))
    else Step(g, [])
  }

  /** The touch step (when there is a touch) and then the mouse step, on the gesture the
      touch left behind. */
  function TouchInput(e: Engine, minSwipeDistance: real, g: Gesture, touch: Option<Touch>,
                      buttonDown: bool, buttonUp: bool, mousePosition: Vec2): Step
  {
    var t := if touch.Some? then TouchStep(e, minSwipeDistance, g, touch.value) else Step(g, []);
    var m := MouseStep(e, minSwipeDistance, t.gesture, buttonDown, buttonUp, mousePosition);
    Step(m.gesture, t.announced + m.announced)
  }

  /** One frame of touch and mouse input announces at most one swipe, and it is an axis
      direction. Something is announced only when a gesture was under way or the touch
      just began one. A press always leaves a gesture under way at the pointer; a
      release, or a touch that ends, without a press leaves none under way. */
  lemma TouchInputAnnouncesOnce(e: Engine, minSwipeDistance: real, g: Gesture, touch: Option<Touch>,
                                buttonDown: bool, buttonUp: bool, mousePosition: Vec2)
    ensures var r := TouchInput(e, minSwipeDistance, g, touch, buttonDown, buttonUp, mousePosition);
            && |r.announced| <= 1
            && (forall i :: 0 <= i < |r.announced| ==> IsAxis(r.announced[i]))
            && (r.announced != [] ==> g.swiping || (touch.Some? && touch.value.phase == Began))
            && (buttonDown ==> r.gesture == Gesture(mousePosition, true))
            && (!buttonDown && buttonUp ==> !r.gesture.swiping)
            && (!buttonDown && touch.Some? && touch.value.phase in {Ended, Canceled} ==> !r.gesture.swiping)
  {
  }

  class InputController {
    const minSwipeDistance: real

    var startTouchPosition: Vec2
    var isSwiping: bool
    /** Directions announced so far, oldest first. */
    var events: seq<Vec2>

    constructor (minSwipeDistance: real)
      ensures this.minSwipeDistance == minSwipeDistance
      ensures startTouchPosition == Vec2(0.0, 0.0) && !isSwiping && events == []
    {
      this.minSwipeDistance := minSwipeDistance;
      startTouchPosition := Vec2(0.0, 0.0);
      isSwiping := false;
      events := [];
    }

    /** Announces the highest-ranked direction among the keys pressed this frame. */
    method HandleKeyboardInput(pressed: set<Key>)
      modifies this`events
      ensures events == old(events) + Announced(KeyboardDirection(pressed))
    {
      var direction := Vec2(0.0, 0.0);
      if W in pressed || UpArrow in pressed {
        direction := Up;
      } else if S in pressed || DownArrow in pressed {
        direction := Down;
      } else if A in pressed || LeftArrow in pressed {
        direction := Left;
      } else if D in pressed || RightArrow in pressed {
        direction := Right;
      }
      if direction != Vec2(0.0, 0.0) {
        events := events + [direction];
      }
    }

    /** A touch that begins starts a gesture; one that ends or is cancelled finishes it,
        announcing the swipe if it was long enough; other phases change nothing. */
    method HandleTouch(e: Engine, touch: Touch)
      modifies this`startTouchPosition, this`isSwiping, this`events
      ensures var r := TouchStep(e, minSwipeDistance, Gesture(old(startTouchPosition), old(isSwiping)), touch);
              Gesture(startTouchPosition, isSwiping) == r.gesture && events == old(events) + r.announced
      ensures touch.phase == Began ==>
                startTouchPosition == touch.position && isSwiping && events == old(events)
      ensures touch.phase == Ended || touch.phase == Canceled ==>
                && startTouchPosition == old(startTouchPosition) && !isSwiping
                && events == old(events) + Announced(SwipeEnd(e, minSwipeDistance, old(startTouchPosition), old(isSwiping), touch.position))
      ensures touch.phase == Moved || touch.phase == Stationary ==>
                startTouchPosition == old(startTouchPosition) && isSwiping == old(isSwiping) && events == old(events)
    {
      match touch.phase
      case Began =>
        startTouchPosition := touch.position;
        isSwiping := true;
      case Ended | Canceled =>
        if isSwiping {
          var swipeVector := Sub2(touch.position, startTouchPosition);
          if e.magnitude(Lift(swipeVector)) >= minSwipeDistance {
            events := events + [GetSwipeDirection(swipeVector)];
          }
        }
        isSwiping := false;
      case Moved | Stationary =>
    }

    /** The mouse in the editor: pressing starts a gesture; releasing finishes one under
        way, announcing the swipe if it was long enough. */
    method HandleMouse(e: Engine, buttonDown: bool, buttonUp: bool, mousePosition: Vec2)
      modifies this`startTouchPosition, this`isSwiping, this`events
      ensures var r := MouseStep(e, minSwipeDistance, Gesture(old(startTouchPosition), old(isSwiping)), buttonDown, buttonUp, mousePosition);
              Gesture(startTouchPosition, isSwiping) == r.gesture && events == old(events) + r.announced
      ensures buttonDown ==>
                startTouchPosition == mousePosition && isSwiping && events == old(events)
      ensures !buttonDown && buttonUp && old(isSwiping) ==>
                && startTouchPosition == old(startTouchPosition) && !isSwiping
                && events == old(events) + Announced(SwipeEnd(e, minSwipeDistance, old(startTouchPosition), true, mousePosition))
      ensures !buttonDown && !(buttonUp && old(isSwiping)) ==>
                startTouchPosition == old(startTouchPosition) && isSwiping == old(isSwiping) && events == old(events)
    {
      if buttonDown {
        startTouchPosition := mousePosition;
        isSwiping := true;
      } else if buttonUp && isSwiping {
        var swipeVector := Sub2(mousePosition, startTouchPosition);
        if e.magnitude(Lift(swipeVector)) >= minSwipeDistance {
          events := events + [GetSwipeDirection(swipeVector)];
        }
        isSwiping := false;
      }
    }

    /** The first touch, if any, then the mouse. */
    method HandleTouchInput(e: Engine, touch: Option<Touch>, buttonDown: bool, buttonUp: bool, mousePosition: Vec2)
      modifies this`startTouchPosition, this`isSwiping, this`events
      ensures var r := TouchInput(e, minSwipeDistance, Gesture(old(startTouchPosition), old(isSwiping)),
                                  touch, buttonDown, buttonUp, mousePosition);
              Gesture(startTouchPosition, isSwiping) == r.gesture && events == old(events) + r.announced
    {
      if touch.Some? {
        HandleTouch(e, touch.value);
      }
      HandleMouse(e, buttonDown, buttonUp, mousePosition);
    }

    /** One frame: the keys' direction first, then whatever touch and mouse announce. */
    method Update(e: Engine, pressed: set<Key>, touch: Option<Touch>, buttonDown: bool, buttonUp: bool, mousePosition: Vec2)
      modifies this`startTouchPosition, this`isSwiping, this`events
      ensures var r := TouchInput(e, minSwipeDistance, Gesture(old(startTouchPosition), old(isSwiping)),
                                  touch, buttonDown, buttonUp, mousePosition);
              && Gesture(startTouchPosition, isSwiping) == r.gesture
              && events == old(events) + Announced(KeyboardDirection(pressed)) + r.announced
    {
      HandleKeyboardInput(pressed);
      HandleTouchInput(e, touch, buttonDown, buttonUp, mousePosition);
    }
  }
}
