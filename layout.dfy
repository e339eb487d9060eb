/**
 * Geometry of the switch: the frames and corner radii of its child views as
 * functions of the control's width and height.  Lengths are exact reals;
 * the formulas are the linear ones the control uses.
 */
module Layout {

  /** A rectangle given by its origin and its size. */
  datatype Rect = Rect(x: real, y: real, width: real, height: real)
  {
    function MaxX(): real { x + width }
    function MaxY(): real { y + height }
  }

  /** The frame used when none, or an empty one, is given. */
  const DefaultFrame: Rect := Rect(0.0, 0.0, 50.0, 30.0)

  /** A rectangle with no area: zero width or zero height. */
  predicate IsEmpty(r: Rect)
  {
    r.width == 0.0 || r.height == 0.0
  }

  /** The frame the control is created with, given the requested frame. */
  function InitialFrame(requested: Rect): (r: Rect)
    ensures !IsEmpty(r)
    ensures IsEmpty(requested) ==> r == DefaultFrame
    ensures !IsEmpty(requested) ==> r == requested
  {
    if IsEmpty(requested) then DefaultFrame else requested
  }

  /** Side of the thumb at rest: the height less one unit above and below. */
  function NormalKnobWidth(h: real): real
  {
    h - 2.0
  }

  /** Width of the thumb while a finger is down: five units wider than at rest. */
  function ActiveKnobWidth(h: real): real
  {
    NormalKnobWidth(h) + 5.0
  }

  /** The thumb's frame after a layout pass, for a control of size w by h. */
  function RestThumbFrame(w: real, h: real, on: bool): (r: Rect)
    // a square ...
    ensures r.width == r.height == NormalKnobWidth(h)
    // ... inset by one unit from the top and the bottom ...
    ensures r.y == 1.0 && r.MaxY() == h - 1.0
    // ... flush right (one unit inside) when on, flush left when off
    ensures on ==> r.MaxX() == w - 1.0
    ensures !on ==> r.x == 1.0
  {
    var knob := NormalKnobWidth(h);
    if on then Rect(w - (knob + 1.0), 1.0, h - 2.0, knob)
    else Rect(1.0, 1.0, knob, knob)
  }

  /** Frame of the on-image: the part of the track left of the thumb when on. */
  function OnIconFrame(w: real, h: real): (r: Rect)
    ensures r.x == 0.0 && r.y == 0.0 && r.height == h
    // it ends one unit before the thumb of the on state starts
    ensures r.MaxX() + 1.0 == RestThumbFrame(w, h, true).x
  {
    Rect(0.0, 0.0, w - h, h)
  }

  /** Frame of the off-image: the part of the track right of the thumb when off. */
  function OffIconFrame(w: real, h: real): (r: Rect)
    ensures r.y == 0.0 && r.height == h && r.MaxX() == w
    // it starts one unit after the thumb of the off state ends
    ensures r.x == RestThumbFrame(w, h, false).MaxX() + 1.0
    // both images have the same size
    ensures r.width == OnIconFrame(w, h).width
  {
    Rect(h, 0.0, w - h, h)
  }

  /** Corner radius of the track: a capsule when rounded, 2 otherwise. */
  function TrackCornerRadius(h: real, rounded: bool): (r: real)
    ensures rounded ==> 2.0 * r == h
    ensures !rounded ==> r == 2.0
  {
    if rounded then h * 0.5 else 2.0
  }

  /** Corner radius of the thumb: a circle when rounded, 2 otherwise. */
  function ThumbCornerRadius(h: real, rounded: bool): (r: real)
    ensures rounded ==> 2.0 * r == NormalKnobWidth(h)
    ensures rounded ==> r == TrackCornerRadius(h, true) - 1.0
    ensures !rounded ==> r == TrackCornerRadius(h, false)
  {
    if rounded then (h * 0.5) - 1.0 else 2.0
  }
}
