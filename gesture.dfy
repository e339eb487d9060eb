/**
 * The switch's value and its touch-tracking bookkeeping, abstracted from
 * the views: what the framework delivers to the control (the four tracking
 * callbacks and a programmatic assignment of the value) as a pure state
 * machine, and what every sequence of deliveries does to the value and to
 * the number of ValueChanged events sent.
 */
module Gesture {

  /** What the control receives.  `Move(x)` carries the touch's x coordinate
      in the control's own coordinates; `Assign(on)` is the host setting the
      value (the `on` property or setOn). */
  datatype Touch = Begin | Move(x: real) | End | Cancel | Assign(on: bool)

  /** The committed value, the side shown, the per-gesture bookkeeping, the
      framework's tracking flag and the number of ValueChanged events sent. */
  datatype Core = Core(value: bool, visual: bool, startValue: bool,
                       changed: bool, tracking: bool, sent: nat)

  /** Outside a gesture the side shown is the committed value. */
  predicate AtRest(c: Core)
  {
    !c.tracking ==> c.visual == c.value
  }

  /** The side a touch at x falls on: on for the right half. */
  predicate Side(x: real, width: real)
  {
    x > width * 0.5
  }

  /** One delivery.  The framework calls the move, end and cancel handlers
      only while tracking, so outside a gesture they leave the state alone. */
  function Dispatch(c: Core, t: Touch, width: real): (r: Core)
    // ValueChanged goes out exactly when a release commits a different value
    ensures r.sent == c.sent + (if t.End? && r.value != c.value then 1 else 0)
    // only a release or the host changes the value
    ensures r.value != c.value ==> (t.End? && c.tracking) || t.Assign?
    ensures AtRest(c) ==> AtRest(r)
    ensures t.Begin? ==> r.tracking && r.startValue == c.value && !r.changed
    ensures t.Move? && c.tracking ==>
              r.tracking && r.visual == Side(t.x, width) && r.startValue == c.startValue
              && r.changed == (c.changed || Side(t.x, width) != c.startValue)
    ensures t.End? && c.tracking ==>
              r.value == (if c.changed then c.visual else !c.value)
    ensures t.Cancel? && c.tracking ==> r.visual == c.value
    ensures (t.End? || t.Cancel?) ==> !r.tracking
  {
    match t
    case Begin =>
      c.(startValue := c.value, changed := false, tracking := true)
    case Move(x) =>
      if !c.tracking then c
      else if Side(x, width) then
        c.(visual := true, changed := c.changed || !c.startValue)
      else
        c.(visual := false, changed := c.changed || c.startValue)
    case End =>
      if !c.tracking then c
      else
        var previous := c.value;
        var v := if c.changed then c.visual else !c.value;
        c.(value := v, visual := v, tracking := false,
           sent := if previous != v then c.sent + 1 else c.sent)
    case Cancel =>
      if !c.tracking then c
      else c.(visual := c.value, tracking := false)
    case Assign(on) =>
      c.(value := on, visual := on)
  }

  /** Number of releases in a sequence of deliveries. */
  function Releases(ts: seq<Touch>): nat
  {
    if ts == [] then 0 else (if ts[0].End? then 1 else 0) + Releases(ts[1..])
  }

  /** A sequence of deliveries, in order. */
  function Run(c: Core, ts: seq<Touch>, width: real): (r: Core)
    ensures AtRest(c) ==> AtRest(r)
    // at most one event per release, and events are never taken back
    ensures c.sent <= r.sent <= c.sent + Releases(ts)
    decreases |ts|
  {
    if ts == [] then c else Run(Dispatch(c, ts[0], width), ts[1..], width)
  }

  /** The moves of a drag through the given x coordinates. */
  function Drag(xs: seq<real>): seq<Touch>
  {
    if xs == [] then [] else [Move(xs[0])] + Drag(xs[1..])
  }

  /** Some touch of the drag fell on the side opposite to `start`. */
  predicate Crossed(xs: seq<real>, start: bool, width: real)
  {
    exists i :: 0 <= i < |xs| && Side(xs[i], width) != start
  }

  /** A whole gesture: touch down, the drag, release. */
  function WholeGesture(xs: seq<real>): seq<Touch>
  {
    [Begin] + Drag(xs) + [End]
  }

  /** A gesture the system interrupts after the drag. */
  function CancelledGesture(xs: seq<real>): seq<Touch>
  {
    [Begin] + Drag(xs) + [Cancel]
  }

  lemma {:induction false} RunAppend(c: Core, a: seq<Touch>, b: seq<Touch>, width: real)
    ensures Run(c, a + b, width) == Run(Run(c, a, width), b, width)
    decreases |a|
  {
    if a == [] {
      assert a + b == b;
    } else {
      assert (a + b)[0] == a[0];
      assert (a + b)[1..] == a[1..] + b;
      RunAppend(Dispatch(c, a[0], width), a[1..], b, width);
    }
  }

  /** During a drag the value, the start value and the event count stay put;
      the side shown is that of the last touch; `changed` records whether
      any touch fell on the other side from the start, and is never reset. */
  lemma {:induction false} DragEffect(c: Core, xs: seq<real>, width: real)
    requires c.tracking
    ensures var r := Run(c, Drag(xs), width);
            r.tracking && r.value == c.value && r.startValue == c.startValue
            && r.sent == c.sent
            && r.changed == (c.changed || Crossed(xs, c.startValue, width))
            && r.visual == (if xs == [] then c.visual else Side(xs[|xs| - 1], width))
    decreases |xs|
  {
    if xs != [] {
      var ts := Drag(xs);
      assert ts[0] == Move(xs[0]) && ts[1..] == Drag(xs[1..]);
      var next := Dispatch(c, Move(xs[0]), width);
      DragEffect(next, xs[1..], width);
      var tail := xs[1..];
      if Crossed(tail, c.startValue, width) {
        var i :| 0 <= i < |tail| && Side(tail[i], width) != c.startValue;
        assert xs[i + 1] == tail[i];
      }
      if Crossed(xs, c.startValue, width) && Side(xs[0], width) == c.startValue {
        var i :| 0 <= i < |xs| && Side(xs[i], width) != c.startValue;
        assert tail[i - 1] == xs[i];
      }
      if |xs| > 1 {
        assert tail[|tail| - 1] == xs[|xs| - 1];
      }
    }
  }

  /** What a whole gesture does: a drag that crossed commits the side of its
      last touch; otherwise the release toggles the value (a tap, or a drag
      that stayed on its starting side).  One ValueChanged event is sent when
      the committed value differs from the value before the gesture, and none
      otherwise. */
  lemma GestureOutcome(c: Core, xs: seq<real>, width: real)
    ensures var r := Run(c, WholeGesture(xs), width);
            !r.tracking && r.visual == r.value
            && r.value == (if Crossed(xs, c.value, width) then Side(xs[|xs| - 1], width)
                           else !c.value)
            && r.sent == c.sent + (if r.value != c.value then 1 else 0)
  {
    var begun := Dispatch(c, Begin, width);
    assert Run(c, [Begin], width) == begun by {
      assert [Begin][1..] == [];
    }
    RunAppend(c, [Begin], Drag(xs), width);
    RunAppend(c, [Begin] + Drag(xs), [End], width);
    DragEffect(begun, xs, width);
    var dragged := Run(begun, Drag(xs), width);
    assert Run(dragged, [End], width) == Dispatch(dragged, End, width) by {
      assert [End][1..] == [];
    }
  }

  /** A tap with no drag toggles the value and sends exactly one event. */
  lemma TapToggles(c: Core, width: real)
    ensures var r := Run(c, WholeGesture([]), width);
            r.value == !c.value && r.sent == c.sent + 1
  {
    GestureOutcome(c, [], width);
  }

  /** A drag that never left its starting side also toggles on release. */
  lemma StayingDragToggles(c: Core, xs: seq<real>, width: real)
    requires forall i :: 0 <= i < |xs| ==> Side(xs[i], width) == c.value
    ensures var r := Run(c, WholeGesture(xs), width);
            r.value == !c.value && r.sent == c.sent + 1
  {
    GestureOutcome(c, xs, width);
  }

  /** A drag that crossed commits the last side shown; it sends one event
      when that side differs from the starting value (dragging over and back
      sends none). */
  lemma DragCommitsLastSide(c: Core, xs: seq<real>, width: real)
    requires Crossed(xs, c.value, width)
    ensures var r := Run(c, WholeGesture(xs), width);
            r.value == Side(xs[|xs| - 1], width)
            && r.sent == c.sent + (if Side(xs[|xs| - 1], width) != c.value then 1 else 0)
  {
    GestureOutcome(c, xs, width);
  }

  /** A cancelled gesture keeps the value, shows it again and sends nothing. */
  lemma CancelKeepsValue(c: Core, xs: seq<real>, width: real)
    ensures var r := Run(c, CancelledGesture(xs), width);
            r.value == c.value && r.visual == c.value && !r.tracking && r.sent == c.sent
  {
    var begun := Dispatch(c, Begin, width);
    assert Run(c, [Begin], width) == begun by {
      assert [Begin][1..] == [];
    }
    RunAppend(c, [Begin], Drag(xs), width);
    RunAppend(c, [Begin] + Drag(xs), [Cancel], width);
    DragEffect(begun, xs, width);
    var dragged := Run(begun, Drag(xs), width);
    assert Run(dragged, [Cancel], width) == Dispatch(dragged, Cancel, width) by {
      assert [Cancel][1..] == [];
    }
  }

  /** Without a release or an assignment by the host, no sequence of
      deliveries changes the value or sends an event. */
  lemma {:induction false} ValueHeldBetweenCommits(c: Core, ts: seq<Touch>, width: real)
    requires forall i :: 0 <= i < |ts| ==> !ts[i].End? && !ts[i].Assign?
    ensures Run(c, ts, width).value == c.value
    ensures Run(c, ts, width).sent == c.sent
    decreases |ts|
  {
    if ts != [] {
      ValueHeldBetweenCommits(Dispatch(c, ts[0], width), ts[1..], width);
    }
  }
}
