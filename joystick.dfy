/** The on-screen joystick: a touch inside its disc arms it, a drag sets a
    direction of length at most one, lifting the finger disarms it. */
module Joystick {
  import opened Geometry

  /** How far, in screen units, the knob may travel from the centre. */
  const TRAVEL: real := 30.0

  /** The container's bounding box, as `getBoundingClientRect` reports it. */
  datatype Rect = Rect(left: real, top: real, width: real, height: real)

  /** Where the knob sits for a touch at `offset` from the centre: the
      offset itself inside the travel radius, otherwise the point on the
      rim in the same direction. This is what the source computes with
      `sqrt`, `atan2`, `cos` and `sin`. */
  ghost predicate KnobPlacement(offset: Vec2, knob: Vec2)
    ensures KnobPlacement(offset, knob) ==> knob.Norm2() <= TRAVEL * TRAVEL
  {
    if offset.Norm2() <= TRAVEL * TRAVEL then
      knob == offset
    else
      knob.Norm2() == TRAVEL * TRAVEL
      && knob.x * offset.y == knob.y * offset.x
      && knob.Dot(offset) > 0.0
  }

  /** The direction reported for a knob position: the knob offset divided
      by the travel radius. */
  function Direction(knob: Vec2): (d: Vec2)
    ensures d.x * TRAVEL == knob.x && d.y * TRAVEL == knob.y
  {
    Vec2(knob.x / TRAVEL, knob.y / TRAVEL)
  }

  /** The reported direction never leaves the unit disc. */
  lemma DirectionWithinUnitDisc(offset: Vec2, knob: Vec2)
    requires KnobPlacement(offset, knob)
    ensures Direction(knob).Norm2() <= 1.0
  {
    var d := Direction(knob);
    assert knob.Norm2() <= TRAVEL * TRAVEL;
    calc {
      d.Norm2();
      (knob.x / TRAVEL) * (knob.x / TRAVEL) + (knob.y / TRAVEL) * (knob.y / TRAVEL);
      knob.Norm2() / (TRAVEL * TRAVEL);
    }
  }

  /** Inside the travel radius the direction is the touch offset scaled
      down exactly, so it keeps the drag's heading and proportion. */
  lemma DirectionTracksOffsetInsideRadius(offset: Vec2, knob: Vec2)
    requires KnobPlacement(offset, knob)
    requires offset.Norm2() <= TRAVEL * TRAVEL
    ensures Direction(knob).x * TRAVEL == offset.x
    ensures Direction(knob).y * TRAVEL == offset.y
  {
  }

  /** Outside the travel radius the direction has length exactly one and
      points the way of the drag. */
  lemma DirectionSaturatesOutsideRadius(offset: Vec2, knob: Vec2)
    requires KnobPlacement(offset, knob)
    requires offset.Norm2() > TRAVEL * TRAVEL
    ensures Direction(knob).Norm2() == 1.0
    ensures Direction(knob).x * offset.y == Direction(knob).y * offset.x
    ensures Direction(knob).Dot(offset) > 0.0
  {
    var d := Direction(knob);
    calc {
      d.Norm2();
      (knob.x / TRAVEL) * (knob.x / TRAVEL) + (knob.y / TRAVEL) * (knob.y / TRAVEL);
      knob.Norm2() / (TRAVEL * TRAVEL);
    }
    assert d.Dot(offset) == knob.Dot(offset) / TRAVEL;
  }

  /** `VirtualJoystick`: the widget's DOM nodes are reduced to a
      visibility flag. */
  class VirtualJoystick {
    var isActive: bool
    var direction: Vec2
    var center: Vec2
    var visible: bool
    /** Touch support and a mobile user agent or a small screen. */
    const isMobile: bool

    /** The reported direction stays in the unit disc. */
    predicate Valid()
      reads this`direction
    {
      direction.Norm2() <= 1.0
    }

    constructor (isMobile: bool)
      ensures Valid()
      ensures !isActive && direction == Origin2 && !visible
      ensures this.isMobile == isMobile
    {
      isActive := false;
      direction := Origin2;
      center := Origin2;
      visible := false;
      this.isMobile := isMobile;
    }

    /** A touch on the container arms the stick and records the centre of
        the container. */
    method HandleTouchStart(rect: Rect)
      modifies this`isActive, this`center
      ensures isActive && direction == old(direction)
      ensures center == Vec2(rect.left + rect.width / 2.0, rect.top + rect.height / 2.0)
    {
      isActive := true;
      center := Vec2(rect.left + rect.width / 2.0, rect.top + rect.height / 2.0);
    }

    /** A drag to `touch` moves the knob to `knob` (see `KnobPlacement`,
        taken relative to the recorded centre) and reports its direction,
        but only while the stick is armed. */
    method HandleTouchMove(touch: Vec2, knob: Vec2)
      requires Valid()
      requires KnobPlacement(touch.Minus(center), knob)
      modifies this`direction
      ensures Valid()
      ensures !old(isActive) ==> direction == old(direction)
      ensures old(isActive) ==> direction == Direction(knob)
    {
      if !isActive {
        return;
      }
      DirectionWithinUnitDisc(touch.Minus(center), knob);
      direction := Direction(knob);
    }

    /** Lifting any finger disarms the stick and recentres the direction. */
    method HandleTouchEnd()
      modifies this`isActive, this`direction
      ensures Valid()
      ensures !isActive && direction == Origin2
    {
      isActive := false;
      direction := Origin2;
    }

    method Show()
      modifies this`visible
      ensures visible
    {
      visible := true;
    }

    method Hide()
      modifies this`visible
      ensures !visible
    {
      visible := false;
    }
  }
}
