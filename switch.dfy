/**
 * The DWSwitch control: a toggle made of a track (the background view), a
 * sliding thumb, an on-image and an off-image inside the track, and an image
 * inside the thumb.  The class keeps the control's own fields and updates
 * them in place; each child view is owned by the control alone, so it is
 * held as a value that the methods replace.  An animation block is applied
 * at once as its end state; its completion is the separate method
 * AnimationCompleted.
 */
module Switch {
  import opened Appearance
  import opened Layout
  import Gesture

  /** The background view: the track. */
  datatype TrackView = TrackView(frame: Rect, backgroundColor: Color, borderColor: Color,
                                 cornerRadius: real)

  /** The thumb view. */
  datatype ThumbView = ThumbView(frame: Rect, backgroundColor: Color, cornerRadius: real,
                                 shadowColor: Color)

  /** An image view: the on-image, the off-image or the thumb's image. */
  datatype ImageView = ImageView(frame: Rect, alpha: real, image: Option<Image>)

  /** All child views together. */
  datatype Subviews = Subviews(background: TrackView, thumb: ThumbView,
                               onImage: ImageView, offImage: ImageView, thumbImage: ImageView)

  /** The views once the on state is shown: the end state of showOn. */
  function ShownOn(v: Subviews, w: real, h: real, onTintColor: Color, onThumbTintColor: Color,
                   tracking: bool): Subviews
  {
    var normalKnobWidth := NormalKnobWidth(h);
    var activeKnobWidth := normalKnobWidth + 5.0;
    var knob := if tracking then activeKnobWidth else normalKnobWidth;
    var f := v.thumb.frame;
    v.(thumb := v.thumb.(frame := Rect(w - (knob + 1.0), f.y, knob, f.height),
                         backgroundColor := onThumbTintColor),
       background := v.background.(backgroundColor := onTintColor, borderColor := onTintColor),
       onImage := v.onImage.(alpha := 1.0),
       offImage := v.offImage.(alpha := 0.0))
  }

  /** The views once the off state is shown: the end state of showOff. */
  function ShownOff(v: Subviews, w: real, h: real, activeColor: Color, inactiveColor: Color,
                    borderColor: Color, thumbTintColor: Color, tracking: bool): Subviews
  {
    var normalKnobWidth := NormalKnobWidth(h);
    var activeKnobWidth := normalKnobWidth + 5.0;
    var knob := if tracking then activeKnobWidth else normalKnobWidth;
    var f := v.thumb.frame;
    v.(thumb := v.thumb.(frame := Rect(1.0, f.y, knob, f.height),
                         backgroundColor := thumbTintColor),
       background := v.background.(backgroundColor := if tracking then activeColor else inactiveColor,
                                   borderColor := borderColor),
       onImage := v.onImage.(alpha := 0.0),
       offImage := v.offImage.(alpha := 1.0))
  }

  /** Where showOn leaves the views. */
  lemma ShownOnEffect(v: Subviews, w: real, h: real, onTintColor: Color, onThumbTintColor: Color,
                      tracking: bool, r: Subviews)
    requires r == ShownOn(v, w, h, onTintColor, onThumbTintColor, tracking)
    // the thumb sits flush right, wide while a finger is down and square otherwise
    ensures r.thumb.frame.MaxX() == w - 1.0
    ensures r.thumb.frame.width
            == if tracking then ActiveKnobWidth(h) else NormalKnobWidth(h)
    ensures r.thumb.frame.y == v.thumb.frame.y && r.thumb.frame.height == v.thumb.frame.height
    // at rest it is exactly where a layout pass puts the thumb of the on state
    ensures !tracking && v.thumb.frame.y == 1.0 && v.thumb.frame.height == NormalKnobWidth(h)
            ==> r.thumb.frame == RestThumbFrame(w, h, true)
    // the on palette, and only the on-image is visible
    ensures r.background.backgroundColor == onTintColor && r.background.borderColor == onTintColor
    ensures r.thumb.backgroundColor == onThumbTintColor
    ensures r.onImage.alpha == 1.0 && r.offImage.alpha == 0.0
    // nothing else about the views changes
    ensures r.background.frame == v.background.frame
    ensures r.background.cornerRadius == v.background.cornerRadius
    ensures r.thumb.cornerRadius == v.thumb.cornerRadius && r.thumb.shadowColor == v.thumb.shadowColor
    ensures r.onImage == v.onImage.(alpha := 1.0) && r.offImage == v.offImage.(alpha := 0.0)
    ensures r.thumbImage == v.thumbImage
  {
  }

  /** Where showOff leaves the views. */
  lemma ShownOffEffect(v: Subviews, w: real, h: real, activeColor: Color, inactiveColor: Color,
                       borderColor: Color, thumbTintColor: Color, tracking: bool, r: Subviews)
    requires r == ShownOff(v, w, h, activeColor, inactiveColor, borderColor, thumbTintColor, tracking)
    // the thumb sits flush left, wide while a finger is down and square otherwise
    ensures r.thumb.frame.x == 1.0
    ensures r.thumb.frame.width
            == if tracking then ActiveKnobWidth(h) else NormalKnobWidth(h)
    ensures r.thumb.frame.y == v.thumb.frame.y && r.thumb.frame.height == v.thumb.frame.height
    // at rest it is exactly where a layout pass puts the thumb of the off state
    ensures !tracking && v.thumb.frame.y == 1.0 && v.thumb.frame.height == NormalKnobWidth(h)
            ==> r.thumb.frame == RestThumbFrame(w, h, false)
    // the track shows the drag palette while a finger is down, the off palette otherwise
    ensures r.background.backgroundColor == if tracking then activeColor else inactiveColor
    ensures r.background.borderColor == borderColor
    ensures r.thumb.backgroundColor == thumbTintColor
    // only the off-image is visible
    ensures r.onImage.alpha == 0.0 && r.offImage.alpha == 1.0
    // nothing else about the views changes
    ensures r.background.frame == v.background.frame
    ensures r.background.cornerRadius == v.background.cornerRadius
    ensures r.thumb.cornerRadius == v.thumb.cornerRadius && r.thumb.shadowColor == v.thumb.shadowColor
    ensures r.onImage == v.onImage.(alpha := 0.0) && r.offImage == v.offImage.(alpha := 1.0)
    ensures r.thumbImage == v.thumbImage
  {
  }

  /** The views setup builds for a control of size w by h, once it has shown
      the off state. */
  function InitialViews(w: real, h: real, inactiveColor: Color, borderColor: Color,
                        thumbTintColor: Color, shadowColor: Color): Subviews
  {
    Subviews(TrackView(Rect(0.0, 0.0, w, h), inactiveColor, borderColor, h * 0.5),
             ThumbView(Rect(1.0, 1.0, h - 2.0, h - 2.0), thumbTintColor, h * 0.5 - 1.0, shadowColor),
             ImageView(Rect(0.0, 0.0, w - h, h), 0.0, None),
             ImageView(Rect(h, 0.0, w - h, h), 1.0, None),
             ImageView(Rect(0.0, 0.0, h - 2.0, h - 2.0), 1.0, None))
  }

  /** After setup the views are where a layout pass puts them for the off
      state, with the off palette and only the off-image visible; the track
      and the thumb are rounded whatever isRounded says. */
  lemma InitialViewsLayout(w: real, h: real, inactiveColor: Color, borderColor: Color,
                           thumbTintColor: Color, shadowColor: Color, v: Subviews)
    requires v == InitialViews(w, h, inactiveColor, borderColor, thumbTintColor, shadowColor)
    ensures v.background.frame == Rect(0.0, 0.0, w, h)
    ensures v.background.cornerRadius == TrackCornerRadius(h, true)
    ensures v.thumb.frame == RestThumbFrame(w, h, false)
    ensures v.thumb.cornerRadius == ThumbCornerRadius(h, true)
    ensures v.onImage.frame == OnIconFrame(w, h) && v.offImage.frame == OffIconFrame(w, h)
    ensures v.thumbImage.frame == Rect(0.0, 0.0, v.thumb.frame.width, v.thumb.frame.height)
    ensures v.background.backgroundColor == inactiveColor && v.background.borderColor == borderColor
    ensures v.thumb.backgroundColor == thumbTintColor && v.thumb.shadowColor == shadowColor
    ensures v.onImage.alpha == 0.0 && v.offImage.alpha == 1.0
    ensures v.onImage.image == v.offImage.image == v.thumbImage.image == None
  {
  }

  class DWSwitch {
    // the control's frame; its bounds have the same size
    var frame: Rect

    // style properties
    var activeColor: Color
    var inactiveColor: Color
    var onTintColor: Color
    var borderColor: Color
    var thumbTintColor: Color
    var onThumbTintColor: Color
    var shadowColor: Color
    var isRounded: bool
    var thumbImage: Option<Image>
    var onImage: Option<Image>
    var offImage: Option<Image>

    // child views
    var backgroundView: TrackView
    var thumbView: ThumbView
    var onImageView: ImageView
    var offImageView: ImageView
    var thumbImageView: ImageView

    // value and tracking state
    var currentVisualValue: bool
    var startTrackingValue: bool
    var didChangeWhileTracking: bool
    var isAnimating: bool
    var userDidSpecifyOnThumbTintColor: bool
    var switchValue: bool
    // the framework's flag: a gesture is in progress
    var tracking: bool
    // number of ValueChanged events sent to the control's targets
    var sentValueChangedEvents: nat

    /** The `on` property and isOn(): the committed value. */
    function IsOn(): (r: bool)
      reads this`switchValue
      ensures r == Core().value
    {
      switchValue
    }

    function Width(): real
      reads this`frame
    {
      frame.width
    }

    function Height(): real
      reads this`frame
    {
      frame.height
    }

    /** The state the gesture handlers work on. */
    ghost function Core(): Gesture.Core
      reads this`switchValue, this`currentVisualValue, this`startTrackingValue,
            this`didChangeWhileTracking, this`tracking, this`sentValueChangedEvents
    {
      Gesture.Core(switchValue, currentVisualValue, startTrackingValue,
                   didChangeWhileTracking, tracking, sentValueChangedEvents)
    }

    ghost function Views(): Subviews
      reads this`backgroundView, this`thumbView, this`onImageView, this`offImageView,
            this`thumbImageView
    {
      Subviews(backgroundView, thumbView, onImageView, offImageView, thumbImageView)
    }

    /** The control's own invariant: its frame is never empty; outside a
        gesture the side shown is the committed value; until the host sets
        the on-thumb tint, it follows the thumb tint. */
    ghost predicate StateValid()
      reads this`frame, this`switchValue, this`currentVisualValue, this`startTrackingValue,
            this`didChangeWhileTracking, this`tracking, this`sentValueChangedEvents,
            this`userDidSpecifyOnThumbTintColor, this`onThumbTintColor, this`thumbTintColor
    {
      !IsEmpty(frame)
      && Gesture.AtRest(Core())
      && (!userDidSpecifyOnThumbTintColor ==> onThumbTintColor == thumbTintColor)
    }

    /** The thumb spans the track's height less one unit above and below;
        only its x and its width ever change. */
    ghost predicate ThumbInTrack()
      reads this`frame, this`thumbView
    {
      thumbView.frame.y == 1.0 && thumbView.frame.height == NormalKnobWidth(frame.height)
    }

    /** Exactly one of the two icons is opaque: the one of the side shown. */
    ghost predicate IconsShowSide()
      reads this`currentVisualValue, this`onImageView, this`offImageView
    {
      onImageView.alpha == (if currentVisualValue then 1.0 else 0.0)
      && offImageView.alpha == (if currentVisualValue then 0.0 else 1.0)
    }

    /** The invariant of the control and its views. */
    ghost predicate Valid()
      reads this`frame, this`switchValue, this`currentVisualValue, this`startTrackingValue,
            this`didChangeWhileTracking, this`tracking, this`sentValueChangedEvents,
            this`userDidSpecifyOnThumbTintColor, this`onThumbTintColor, this`thumbTintColor,
            this`thumbView, this`onImageView, this`offImageView
    {
      StateValid() && ThumbInTrack() && IconsShowSide()
    }

    /** The style and the bookkeeping a new control starts with. */
    ghost predicate Defaults()
      reads this`activeColor, this`inactiveColor, this`onTintColor, this`borderColor,
            this`thumbTintColor, this`onThumbTintColor, this`shadowColor, this`isRounded,
            this`thumbImage, this`onImage, this`offImage, this`startTrackingValue,
            this`didChangeWhileTracking, this`tracking, this`sentValueChangedEvents,
            this`userDidSpecifyOnThumbTintColor
    {
      (activeColor, inactiveColor, onTintColor, borderColor, thumbTintColor, onThumbTintColor,
       shadowColor, isRounded, thumbImage, onImage, offImage, startTrackingValue,
       didChangeWhileTracking, tracking, sentValueChangedEvents, userDidSpecifyOnThumbTintColor)
      == (DefaultActiveColor, DefaultInactiveColor, DefaultOnTintColor, DefaultBorderColor,
          DefaultThumbTintColor, DefaultOnThumbTintColor, DefaultShadowColor, true, None, None, None,
          false, false, false, 0, false)
    }

    /** The state right after construction: the defaults, off, not animating,
        and the views setup builds. */
    ghost predicate JustSetUp()
      reads this
    {
      && Defaults()
      && !switchValue && !currentVisualValue && !isAnimating
      && Views() == InitialViews(Width(), Height(), inactiveColor, borderColor, thumbTintColor, shadowColor)
    }

    /** init() when no frame is given, init(frame:) otherwise: the stored
        properties take their initial values, an empty frame is replaced by
        the default 50 by 30 one, and setup builds the child views. */
    constructor (requested: Option<Rect>)
      ensures Valid() && JustSetUp()
      ensures requested.None? ==> frame == DefaultFrame
      ensures requested.Some? ==> frame == InitialFrame(requested.value)
    {
      frame := match requested
        case None => DefaultFrame
        case Some(f) => if IsEmpty(f) then DefaultFrame else f;
      activeColor := DefaultActiveColor;
      inactiveColor := DefaultInactiveColor;
      onTintColor := DefaultOnTintColor;
      borderColor := DefaultBorderColor;
      thumbTintColor := DefaultThumbTintColor;
      onThumbTintColor := DefaultOnThumbTintColor;
      shadowColor := DefaultShadowColor;
      isRounded := true;
      thumbImage, onImage, offImage := None, None, None;
      currentVisualValue, startTrackingValue, didChangeWhileTracking := false, false, false;
      isAnimating, userDidSpecifyOnThumbTintColor, switchValue := false, false, false;
      tracking := false;
      sentValueChangedEvents := 0;
      new;
      assert Defaults();
      Setup();
    }

    /** setup(): build the child views for the current frame, then show off. */
    method Setup()
      requires StateValid() && !tracking
      modifies this`backgroundView, this`thumbView, this`onImageView, this`offImageView,
               this`thumbImageView, this`isAnimating, this`switchValue, this`currentVisualValue
      ensures Valid()
      ensures !switchValue && !currentVisualValue && isAnimating == old(isAnimating)
      ensures Views() == InitialViews(Width(), Height(), inactiveColor, borderColor, thumbTintColor, shadowColor)
    {
      var w, h := frame.width, frame.height;
      backgroundView := TrackView(Rect(0.0, 0.0, w, h), Clear, borderColor, h * 0.5);
      onImageView := ImageView(Rect(0.0, 0.0, w - h, h), 1.0, None);
      offImageView := ImageView(Rect(h, 0.0, w - h, h), 1.0, None);
      thumbView := ThumbView(Rect(1.0, 1.0, h - 2.0, h - 2.0), thumbTintColor, (h * 0.5) - 1.0, shadowColor);
      thumbImageView := ImageView(Rect(0.0, 0.0, thumbView.frame.width, thumbView.frame.height), 1.0, None);
      AssignOn(false);
    }

    /** The setter of the `on` property. */
    method AssignOn(newValue: bool)
      requires StateValid() && ThumbInTrack()
      modifies this`backgroundView, this`thumbView, this`onImageView, this`offImageView,
               this`isAnimating, this`switchValue, this`currentVisualValue
      ensures Valid()
      ensures isAnimating == old(isAnimating)
      ensures switchValue == newValue && currentVisualValue == newValue
      ensures Core() == Gesture.Dispatch(old(Core()), Gesture.Assign(newValue), Width())
      ensures Views() == if newValue then ShownOn(old(Views()), Width(), Height(), onTintColor, onThumbTintColor, tracking)
                         else ShownOff(old(Views()), Width(), Height(), activeColor, inactiveColor, borderColor,
                                  thumbTintColor, tracking)
    {
      switchValue := newValue;
      SetOn(newValue, false);
    }

    /** setOn(_:animated:): commit a value and show it; sends no event. */
    method SetOn(isOn: bool, animated: bool)
      modifies this`backgroundView, this`thumbView, this`onImageView, this`offImageView,
               this`isAnimating, this`switchValue, this`currentVisualValue
      ensures switchValue == isOn && currentVisualValue == isOn
      ensures Core() == Gesture.Dispatch(old(Core()), Gesture.Assign(isOn), Width())
      ensures Views() == if isOn then ShownOn(old(Views()), Width(), Height(), onTintColor, onThumbTintColor, tracking)
                         else ShownOff(old(Views()), Width(), Height(), activeColor, inactiveColor, borderColor,
                                  thumbTintColor, tracking)
      ensures isAnimating == (animated || old(isAnimating))
    {
      switchValue := isOn;
      if IsOn() {
        ShowOn(animated);
      } else {
        ShowOff(animated);
      }
    }

    /** showOn(_:): show the on state, leaving the committed value alone.
        An animated change also plays the on-image's bounce, not modelled. */
    method ShowOn(animated: bool)
      modifies this`backgroundView, this`thumbView, this`onImageView, this`offImageView,
               this`isAnimating, this`currentVisualValue
      ensures currentVisualValue
      ensures Views() == ShownOn(old(Views()), Width(), Height(), onTintColor, onThumbTintColor, tracking)
      ensures isAnimating == (animated || old(isAnimating))
    {
      var normalKnobWidth := Height() - 2.0;
      var activeKnobWidth := normalKnobWidth + 5.0;
      var knob := if tracking then activeKnobWidth else normalKnobWidth;
      thumbView := thumbView.(frame := Rect(Width() - (knob + 1.0), thumbView.frame.y, knob, thumbView.frame.height),
                              backgroundColor := onThumbTintColor);
      backgroundView := backgroundView.(backgroundColor := onTintColor, borderColor := onTintColor);
      onImageView := onImageView.(alpha := 1.0);
      offImageView := offImageView.(alpha := 0.0);
      if animated {
        isAnimating := true;
      }
      currentVisualValue := true;
    }

    /** showOff(_:): show the off state, leaving the committed value alone.
        An animated change also plays the off-image's rotation, not modelled. */
    method ShowOff(animated: bool)
      modifies this`backgroundView, this`thumbView, this`onImageView, this`offImageView,
               this`isAnimating, this`currentVisualValue
      ensures !currentVisualValue
      ensures Views() == ShownOff(old(Views()), Width(), Height(), activeColor, inactiveColor, borderColor,
                                  thumbTintColor, tracking)
      ensures isAnimating == (animated || old(isAnimating))
    {
      var normalKnobWidth := Height() - 2.0;
      var activeKnobWidth := normalKnobWidth + 5.0;
      var knob := if tracking then activeKnobWidth else normalKnobWidth;
      thumbView := thumbView.(frame := Rect(1.0, thumbView.frame.y, knob, thumbView.frame.height),
                              backgroundColor := thumbTintColor);
      backgroundView := backgroundView.(backgroundColor := if tracking then activeColor else inactiveColor,
                                        borderColor := borderColor);
      onImageView := onImageView.(alpha := 0.0);
      offImageView := offImageView.(alpha := 1.0);
      if animated {
        isAnimating := true;
      }
      currentVisualValue := false;
    }

    /** beginTracking(with:): a finger touches down.  Records the value at
        the start of the gesture, widens the thumb towards the middle and
        shows the drag palette; always accepts the gesture, after which the
        framework is tracking. */
    method BeginTracking() returns (accepted: bool)
      requires Valid()
      modifies this`startTrackingValue, this`didChangeWhileTracking, this`isAnimating,
               this`thumbView, this`backgroundView, this`tracking
      ensures Valid()
      ensures accepted && tracking
      ensures startTrackingValue == switchValue && !didChangeWhileTracking
      ensures Core() == Gesture.Dispatch(old(Core()), Gesture.Begin, Width())
      ensures isAnimating
      // the thumb widens: to the left when on (staying flush right), to the right when off
      ensures thumbView.frame.width == ActiveKnobWidth(Height())
      ensures thumbView.frame.y == old(thumbView.frame.y)
      ensures thumbView.frame.height == old(thumbView.frame.height)
      ensures switchValue ==> thumbView.frame.MaxX() == Width() - 1.0
      ensures !switchValue ==> thumbView.frame.x == old(thumbView.frame.x)
      // the drag palette: the on colours when on, the active colour when off
      ensures backgroundView == old(backgroundView).(backgroundColor :=
                                 if switchValue then onTintColor else activeColor)
      ensures thumbView == old(thumbView).(frame := thumbView.frame, backgroundColor :=
                             if switchValue then onThumbTintColor else thumbTintColor)
    {
      startTrackingValue := IsOn();
      didChangeWhileTracking := false;
      var activeKnobWidth := Height() - 2.0 + 5.0;
      isAnimating := true;
      if IsOn() {
        thumbView := thumbView.(frame := Rect(Width() - (activeKnobWidth + 1.0), thumbView.frame.y,
                                              activeKnobWidth, thumbView.frame.height),
                                backgroundColor := onThumbTintColor);
        backgroundView := backgroundView.(backgroundColor := onTintColor);
      } else {
        thumbView := thumbView.(frame := Rect(thumbView.frame.x, thumbView.frame.y,
                                              activeKnobWidth, thumbView.frame.height),
                                backgroundColor := thumbTintColor);
        backgroundView := backgroundView.(backgroundColor := activeColor);
      }
      accepted := true;
      // the framework starts tracking with the handler's answer
      tracking := accepted;
    }

    /** continueTracking(_:with:): the finger moved to x.  Shows the side of
        the control x falls on; notes when that side differs from the side
        the gesture started on; never touches the committed value. */
    method ContinueTracking(x: real) returns (keepTracking: bool)
      requires Valid() && tracking
      modifies this`backgroundView, this`thumbView, this`onImageView, this`offImageView,
               this`isAnimating, this`currentVisualValue, this`didChangeWhileTracking
      ensures Valid()
      ensures keepTracking
      ensures currentVisualValue == Gesture.Side(x, Width())
      ensures didChangeWhileTracking
              == (old(didChangeWhileTracking) || currentVisualValue != startTrackingValue)
      ensures Core() == Gesture.Dispatch(old(Core()), Gesture.Move(x), Width())
      ensures Views() == if currentVisualValue then ShownOn(old(Views()), Width(), Height(), onTintColor, onThumbTintColor, true)
                         else ShownOff(old(Views()), Width(), Height(), activeColor, inactiveColor, borderColor,
                                  thumbTintColor, true)
      ensures isAnimating
    {
      if x > Width() * 0.5 {
        ShowOn(true);
        if !startTrackingValue {
          didChangeWhileTracking := true;
        }
      } else {
        ShowOff(true);
        if startTrackingValue {
          didChangeWhileTracking := true;
        }
      }
      keepTracking := true;
    }

    /** endTracking(_:with:): the finger lifted.  A drag that changed sides
        commits the side shown; otherwise the release toggles the value.
        ValueChanged is sent once when the committed value differs from the
        value before the release, and not at all otherwise. */
    method EndTracking()
      requires Valid() && tracking
      modifies this`backgroundView, this`thumbView, this`onImageView, this`offImageView,
               this`isAnimating, this`switchValue, this`currentVisualValue, this`tracking,
               this`sentValueChangedEvents
      ensures Valid()
      ensures !tracking
      ensures switchValue == if didChangeWhileTracking then old(currentVisualValue)
                             else !old(switchValue)
      ensures currentVisualValue == switchValue
      ensures sentValueChangedEvents
              == old(sentValueChangedEvents) + (if switchValue != old(switchValue) then 1 else 0)
      ensures Core() == Gesture.Dispatch(old(Core()), Gesture.End, Width())
      ensures Views() == if switchValue then ShownOn(old(Views()), Width(), Height(), onTintColor, onThumbTintColor, false)
                         else ShownOff(old(Views()), Width(), Height(), activeColor, inactiveColor, borderColor,
                                  thumbTintColor, false)
      ensures isAnimating
      // released at rest: the thumb is back at its layout-pass frame, and
      // only the icon of the committed value is visible
      ensures thumbView.frame == RestThumbFrame(Width(), Height(), switchValue)
      ensures onImageView.alpha == (if switchValue then 1.0 else 0.0)
      ensures offImageView.alpha == (if switchValue then 0.0 else 1.0)
    {
      // the framework is no longer tracking when it delivers the release
      tracking := false;
      var previousValue := IsOn();
      if didChangeWhileTracking {
        SetOn(currentVisualValue, true);
      } else {
        SetOn(!IsOn(), true);
      }
      if previousValue != IsOn() {
        sentValueChangedEvents := sentValueChangedEvents + 1;
      }
    }

    /** cancelTracking(with:): the system interrupted the gesture.  Shows the
        committed value again, without changing it and without an event. */
    method CancelTracking()
      requires Valid() && tracking
      modifies this`backgroundView, this`thumbView, this`onImageView, this`offImageView,
               this`isAnimating, this`currentVisualValue, this`tracking
      ensures Valid()
      ensures !tracking
      ensures currentVisualValue == switchValue
      ensures Core() == Gesture.Dispatch(old(Core()), Gesture.Cancel, Width())
      ensures Views() == if switchValue then ShownOn(old(Views()), Width(), Height(), onTintColor, onThumbTintColor, false)
                         else ShownOff(old(Views()), Width(), Height(), activeColor, inactiveColor, borderColor,
                                  thumbTintColor, false)
      ensures isAnimating
      // released at rest: the thumb is back at its layout-pass frame, and
      // only the icon of the committed value is visible
      ensures thumbView.frame == RestThumbFrame(Width(), Height(), switchValue)
      ensures onImageView.alpha == (if switchValue then 1.0 else 0.0)
      ensures offImageView.alpha == (if switchValue then 0.0 else 1.0)
    {
      // the framework is no longer tracking when it delivers the cancellation
      tracking := false;
      if IsOn() {
        ShowOn(true);
      } else {
        ShowOff(true);
      }
    }

    /** layoutSubviews(): unless an animation is in flight, put every child
        view where the frame, the value and isRounded say it belongs. */
    method LayoutSubviews()
      modifies this`backgroundView, this`thumbView, this`onImageView, this`offImageView
      ensures old(Valid()) ==> Valid()
      ensures isAnimating ==> Views() == old(Views())
      ensures !isAnimating ==>
                var w, h := Width(), Height();
                && backgroundView == old(backgroundView).(frame := Rect(0.0, 0.0, w, h),
                                                          cornerRadius := TrackCornerRadius(h, isRounded))
                && onImageView == old(onImageView).(frame := OnIconFrame(w, h))
                && offImageView == old(offImageView).(frame := OffIconFrame(w, h))
                && thumbView == old(thumbView).(frame := RestThumbFrame(w, h, switchValue),
                                                cornerRadius := ThumbCornerRadius(h, isRounded))
    {
      if !isAnimating {
        var f := frame;
        backgroundView := backgroundView.(frame := Rect(0.0, 0.0, f.width, f.height),
                                          cornerRadius := if isRounded then f.height * 0.5 else 2.0);
        onImageView := onImageView.(frame := Rect(0.0, 0.0, f.width - f.height, f.height));
        offImageView := offImageView.(frame := Rect(f.height, 0.0, f.width - f.height, f.height));
        var normalKnobWidth := f.height - 2.0;
        var thumbFrame := if IsOn() then Rect(f.width - (normalKnobWidth + 1.0), 1.0, f.height - 2.0, normalKnobWidth)
                          else Rect(1.0, 1.0, normalKnobWidth, normalKnobWidth);
        thumbView := thumbView.(frame := thumbFrame,
                                cornerRadius := if isRounded then (f.height * 0.5) - 1.0 else 2.0);
      }
    }

    /** The completion of any animation: layout passes apply again. */
    method AnimationCompleted()
      modifies this`isAnimating
      ensures !isAnimating
    {
      isAnimating := false;
    }

    /** activeColor: repaints the track at once only when on and not tracking. */
    method SetActiveColor(newValue: Color)
      modifies this`activeColor, this`backgroundView
      ensures activeColor == newValue
      ensures backgroundView == if switchValue && !tracking
                                then old(backgroundView).(backgroundColor := newValue)
                                else old(backgroundView)
    {
      if IsOn() && !tracking {
        backgroundView := backgroundView.(backgroundColor := newValue);
      }
      activeColor := newValue;
    }

    /** inactiveColor: repaints the track at once only when off and not tracking. */
    method SetInactiveColor(newValue: Color)
      modifies this`inactiveColor, this`backgroundView
      ensures inactiveColor == newValue
      ensures backgroundView == if !switchValue && !tracking
                                then old(backgroundView).(backgroundColor := newValue)
                                else old(backgroundView)
    {
      if !IsOn() && !tracking {
        backgroundView := backgroundView.(backgroundColor := newValue);
      }
      inactiveColor := newValue;
    }

    /** onTintColor: repaints the track and its border at once only when on
        and not tracking. */
    method SetOnTintColor(newValue: Color)
      modifies this`onTintColor, this`backgroundView
      ensures onTintColor == newValue
      ensures backgroundView == if switchValue && !tracking
                                then old(backgroundView).(backgroundColor := newValue, borderColor := newValue)
                                else old(backgroundView)
    {
      if IsOn() && !tracking {
        backgroundView := backgroundView.(backgroundColor := newValue);
        backgroundView := backgroundView.(borderColor := newValue);
      }
      onTintColor := newValue;
    }

    /** borderColor: repaints the border at once whenever off, even while tracking. */
    method SetBorderColor(newValue: Color)
      modifies this`borderColor, this`backgroundView
      ensures borderColor == newValue
      ensures backgroundView == if !switchValue
                                then old(backgroundView).(borderColor := newValue)
                                else old(backgroundView)
    {
      if !IsOn() {
        backgroundView := backgroundView.(borderColor := newValue);
      }
      borderColor := newValue;
    }

    /** thumbTintColor, as written: unless the on-thumb tint was specified,
        the new colour is assigned through the onThumbTintColor property,
        whose observer then marks the on-thumb tint as specified.  So after
        the first call the on-thumb tint no longer follows the thumb tint. */
    method SetThumbTintColor(newValue: Color)
      requires Valid()
      modifies this`thumbTintColor, this`onThumbTintColor, this`userDidSpecifyOnThumbTintColor,
               this`thumbView
      ensures Valid()
      ensures thumbTintColor == newValue
      ensures userDidSpecifyOnThumbTintColor
      ensures onThumbTintColor == if old(userDidSpecifyOnThumbTintColor) then old(onThumbTintColor)
                                  else newValue
      ensures thumbView == if !tracking && (!old(userDidSpecifyOnThumbTintColor) || !switchValue)
                           then old(thumbView).(backgroundColor := newValue)
                           else old(thumbView)
    {
      if !userDidSpecifyOnThumbTintColor {
        SetOnThumbTintColor(newValue);
      }
      if (!userDidSpecifyOnThumbTintColor || !IsOn()) && !tracking {
        thumbView := thumbView.(backgroundColor := newValue);
      }
      thumbTintColor := newValue;
    }

    /** thumbTintColor, corrected: the on-thumb tint follows the thumb tint
        until the host sets it, and only the host's own assignment marks it
        as specified. */
    method SetThumbTintColorFixed(newValue: Color)
      requires Valid()
      modifies this`thumbTintColor, this`onThumbTintColor, this`thumbView
      ensures Valid()
      ensures thumbTintColor == newValue
      ensures onThumbTintColor == if userDidSpecifyOnThumbTintColor then old(onThumbTintColor)
                                  else newValue
      ensures thumbView == if !tracking && (!userDidSpecifyOnThumbTintColor || !switchValue)
                           then old(thumbView).(backgroundColor := newValue)
                           else old(thumbView)
    {
      if !userDidSpecifyOnThumbTintColor {
        // the stored value only, without running its observer
        onThumbTintColor := newValue;
      }
      if (!userDidSpecifyOnThumbTintColor || !IsOn()) && !tracking {
        thumbView := thumbView.(backgroundColor := newValue);
      }
      thumbTintColor := newValue;
    }

    /** onThumbTintColor: marks the on-thumb tint as specified and repaints
        the thumb at once only when on and not tracking. */
    method SetOnThumbTintColor(newValue: Color)
      requires Valid()
      modifies this`onThumbTintColor, this`userDidSpecifyOnThumbTintColor, this`thumbView
      ensures Valid()
      ensures onThumbTintColor == newValue && userDidSpecifyOnThumbTintColor
      ensures thumbView == if switchValue && !tracking
                           then old(thumbView).(backgroundColor := newValue)
                           else old(thumbView)
    {
      userDidSpecifyOnThumbTintColor := true;
      if IsOn() && !tracking {
        thumbView := thumbView.(backgroundColor := newValue);
      }
      onThumbTintColor := newValue;
    }

    /** shadowColor: always applied to the thumb's shadow. */
    method SetShadowColor(newValue: Color)
      modifies this`shadowColor, this`thumbView
      ensures old(Valid()) ==> Valid()
      ensures shadowColor == newValue
      ensures thumbView == old(thumbView).(shadowColor := newValue)
    {
      thumbView := thumbView.(shadowColor := newValue);
      shadowColor := newValue;
    }

    /** isRounded: always reshapes the track and the thumb at once. */
    method SetIsRounded(newValue: bool)
      modifies this`isRounded, this`backgroundView, this`thumbView
      ensures old(Valid()) ==> Valid()
      ensures isRounded == newValue
      ensures backgroundView == old(backgroundView).(cornerRadius := TrackCornerRadius(Height(), newValue))
      ensures thumbView == old(thumbView).(cornerRadius := ThumbCornerRadius(Height(), newValue))
    {
      if newValue {
        backgroundView := backgroundView.(cornerRadius := frame.height * 0.5);
        thumbView := thumbView.(cornerRadius := (frame.height * 0.5) - 1.0);
      } else {
        backgroundView := backgroundView.(cornerRadius := 2.0);
        thumbView := thumbView.(cornerRadius := 2.0);
      }
      isRounded := newValue;
    }

    /** thumbImage: always shown in the thumb's image view. */
    method SetThumbImage(newValue: Option<Image>)
      modifies this`thumbImage, this`thumbImageView
      ensures thumbImage == newValue
      ensures thumbImageView == old(thumbImageView).(image := newValue)
    {
      thumbImageView := thumbImageView.(image := newValue);
      thumbImage := newValue;
    }

    /** onImage: always shown in the on-image view. */
    method SetOnImage(newValue: Option<Image>)
      modifies this`onImage, this`onImageView
      ensures old(Valid()) ==> Valid()
      ensures onImage == newValue
      ensures onImageView == old(onImageView).(image := newValue)
    {
      onImageView := onImageView.(image := newValue);
      onImage := newValue;
    }

    /** offImage: always shown in the off-image view. */
    method SetOffImage(newValue: Option<Image>)
      modifies this`offImage, this`offImageView
      ensures old(Valid()) ==> Valid()
      ensures offImage == newValue
      ensures offImageView == old(offImageView).(image := newValue)
    {
      offImageView := offImageView.(image := newValue);
      offImage := newValue;
    }
  }

  /** Setting the thumb tint twice on a new switch, as written: the second
      colour does not reach the on-thumb tint, although the host never set
      the on-thumb tint itself. */
  method ThumbTintTwiceAsWritten(first: Color, second: Color)
    returns (thumbTint: Color, onThumbTint: Color)
    requires first != second
    ensures thumbTint == second && onThumbTint == first
    ensures onThumbTint != thumbTint
  {
    var s := new DWSwitch(None);
    s.SetThumbTintColor(first);
    s.SetThumbTintColor(second);
    thumbTint, onThumbTint := s.thumbTintColor, s.onThumbTintColor;
  }

  /** The same with the corrected setter: the on-thumb tint follows. */
  method ThumbTintTwiceFixed(first: Color, second: Color)
    returns (thumbTint: Color, onThumbTint: Color)
    ensures thumbTint == second && onThumbTint == second
  {
    var s := new DWSwitch(None);
    s.SetThumbTintColorFixed(first);
    s.SetThumbTintColorFixed(second);
    thumbTint, onThumbTint := s.thumbTintColor, s.onThumbTintColor;
  }
}
