# DWSwitch in Dafny

A model of `DWSwitch`, an iOS toggle control. It is a `UIControl` made of these parts:

- a track (the background view);
- a thumb that slides inside the track;
- an on-image and an off-image inside the track;
- an image inside the thumb.

The host gets and sets the value through the `on` property or `setOn(_:animated:)`. The user toggles it with a tap, or drags the thumb to the side they want. The control sends `ValueChanged` when a release commits a different value.

The model has four modules:

- `Appearance`: colours and images, as opaque tokens, plus the control's default style values.
- `Layout`: where the control puts its child views, as exact linear formulas over `real` in the control's width `w` and height `h`. This covers the at-rest thumb frame, the two icon frames and the corner radii.
- `Gesture`: the value and touch-tracking bookkeeping as a pure state machine.
  - `Dispatch` delivers one touch (begin, move to x, release, cancel) or one assignment by the host.
  - `Run` delivers a sequence of them.
  - Lemmas over `Run` state what a whole gesture does: a tap toggles; a drag that crossed commits its last side; a cancel keeps the value. They also state when exactly one event is sent.
- `Switch`: the class `DWSwitch`, whose methods update its fields in place.
  - Each property observer (`willSet`) becomes a setter method. Each handler and helper of the control becomes a method.
  - Every tracking handler and value setter ensures `Core() == Gesture.Dispatch(old(Core()), …)`. So the trace lemmas of `Gesture` hold of the class.
  - Each child view belongs to the control alone, so it is a datatype value held in a field and replaced by the methods.
  - `IsOn` is the getter of `on` and `isOn()`.
  - The class invariant `Valid` says that the frame is not empty and that outside a gesture the side shown is the value. It also says the on-thumb tint follows the thumb tint until the host sets it, the thumb keeps y = 1 and height h−2, and exactly one icon is opaque: the one of the side shown. Every handler keeps it.

How the framework and the animations are modelled:

- The framework's `tracking` flag is a field.
  - It becomes true once `beginTrackingWithTouch` has returned true.
  - It is false again when the release or the cancellation is delivered. The handlers' `showOn`/`showOff` calls therefore draw the resting, not the widened, thumb.
  - `UIControl` calls the continue, end and cancel handlers only while tracking, so those methods require `tracking`.
- `ValueChanged` is the counter field `sentValueChangedEvents`.
- An animation block is applied at once, as its end state, and sets `isAnimating`. Its completion handler is the method `AnimationCompleted`.

The event test is modelled exactly as the code writes it:

- `endTrackingWithTouch` sends `ValueChanged` when the value after the release differs from the value just before it (`previousValue`). It does not compare with the value at the start of the gesture.
- The two differ only when the host assigns `on` in the middle of a gesture.

One oddity is kept as written and not treated as a defect:

- The `activeColor` observer repaints the track when the switch is on and not tracking.
- Yet `activeColor` is the colour the track shows while a finger is down on the off state (`showOff` and `beginTrackingWithTouch`).

## Model

| member | source | states |
|---|---|---|
| Layout.InitialFrame | Pod/Classes/DWSwitch.swift:136-138 | The frame used is never empty. An empty requested frame gives the 0,0,50,30 default; any other is used as given. |
| Layout.RestThumbFrame | Pod/Classes/DWSwitch.swift:284-290 | The thumb at rest is a square of side h−2, one unit from the top and bottom. When on it sits one unit from the right edge; when off, one unit from the left. |
| Layout.OnIconFrame | Pod/Classes/DWSwitch.swift:280 | The on-image fills the track's height from the left edge. It ends one unit before the at-rest thumb of the on state. |
| Layout.OffIconFrame | Pod/Classes/DWSwitch.swift:281 | The off-image fills the track's height up to the right edge. It starts one unit after the at-rest thumb of the off state and has the on-image's width. |
| Layout.TrackCornerRadius | Pod/Classes/DWSwitch.swift:277 | When rounded, the track is a capsule (radius h/2). Otherwise the radius is 2. |
| Layout.ThumbCornerRadius | Pod/Classes/DWSwitch.swift:292 | When rounded, the thumb is a circle (radius half its side, one less than the track's). Otherwise the radius is 2, like the track's. |
| Gesture.Dispatch | Pod/Classes/DWSwitch.swift:189-267 | One delivery. An event is counted exactly when a release commits a different value. Only a release or the host changes the value. Outside a gesture the side shown stays the value. A begin records the value and clears `changed`. A move shows the touch's side and sets `changed` once it differs from the start. A release commits the side shown if `changed`, and the toggled value otherwise. A cancel shows the value again. |
| Gesture.Run | Pod/Classes/DWSwitch.swift:240-255 | Any sequence of deliveries keeps the side shown at rest equal to the value. It sends at most one event per release and never takes one back. |
| Gesture.DragEffect | Pod/Classes/DWSwitch.swift:216-238 | During a drag, the value, the start value and the event count stay the same. The side shown is that of the last touch. `changed` becomes true once any touch fell on the other side from the start, and is never reset. |
| Gesture.GestureOutcome | Pod/Classes/DWSwitch.swift:189-255 | A whole gesture: a drag that crossed commits the side of its last touch; otherwise the release toggles. One event is sent when the value changed, none otherwise. The side shown is the value afterwards. |
| Gesture.TapToggles | Pod/Classes/DWSwitch.swift:248-254 | A tap with no drag toggles the value and sends exactly one event. |
| Gesture.StayingDragToggles | Pod/Classes/DWSwitch.swift:224-235 | A drag that never left its starting side toggles on release and sends one event. |
| Gesture.DragCommitsLastSide | Pod/Classes/DWSwitch.swift:245-254 | A drag that crossed commits the last side shown. Dragging over and back sends no event. |
| Gesture.CancelKeepsValue | Pod/Classes/DWSwitch.swift:257-267 | A cancelled gesture keeps the value, shows it again, ends tracking and sends no event. |
| Gesture.ValueHeldBetweenCommits | Pod/Classes/DWSwitch.swift:216-238 | Without a release or a host assignment, no sequence of deliveries changes the value or sends an event. |
| Switch.ShownOnEffect | Pod/Classes/DWSwitch.swift:311-352 | showOn's end state: the thumb is flush right, widened while tracking and square otherwise, at the at-rest frame when at rest. The track and its border take the on tint and the thumb the on-thumb tint. Only the on-image is visible. Nothing else changes. |
| Switch.ShownOffEffect | Pod/Classes/DWSwitch.swift:354-396 | showOff's end state: the thumb is flush left, widened while tracking, at the at-rest frame when at rest. The track takes the active colour while tracking and the inactive colour otherwise. The border takes the border colour. Only the off-image is visible. Nothing else changes. |
| Switch.InitialViewsLayout | Pod/Classes/DWSwitch.swift:144-187 | After setup the views sit where a layout pass puts them for the off state, with the off palette and only the off-image visible. The track and the thumb are rounded. |
| Switch.DWSwitch.constructor | Pod/Classes/DWSwitch.swift:124-141 | Without a frame, and with an empty frame, the control is 50 by 30. Otherwise it keeps the frame given. It starts with the default style, off, not tracking, no event sent, and the views setup builds. |
| Switch.DWSwitch.IsOn | Pod/Classes/DWSwitch.swift:307-309 | The `on` getter and isOn() return the committed value, the value of the gesture model's state. |
| Switch.DWSwitch.Setup | Pod/Classes/DWSwitch.swift:144-187 | Builds the child views for the frame and shows the off state. The value becomes off. |
| Switch.DWSwitch.AssignOn | Pod/Classes/DWSwitch.swift:6-14 | Setting `on` commits the value, shows it without animation and sends no event. This is the host assignment of `Gesture.Dispatch`. |
| Switch.DWSwitch.SetOn | Pod/Classes/DWSwitch.swift:296-305 | After setOn(v, animated), both the value and the side shown are v, animated or not. The views are showOn's or showOff's end state. No event is sent. |
| Switch.DWSwitch.ShowOn | Pod/Classes/DWSwitch.swift:311-352 | Shows the on state, leaving the value alone. Only an animated call starts an animation. |
| Switch.DWSwitch.ShowOff | Pod/Classes/DWSwitch.swift:354-396 | Shows the off state, leaving the value alone. Only an animated call starts an animation. |
| Switch.DWSwitch.BeginTracking | Pod/Classes/DWSwitch.swift:189-214 | Records the value as the start value, clears the change flag, leaves the value alone and always accepts. The thumb widens to the active width, staying flush right when on. It shows the drag palette: the on colours when on, the active colour and thumb tint when off. |
| Switch.DWSwitch.ContinueTracking | Pod/Classes/DWSwitch.swift:216-238 | The side shown becomes (x > w/2). The change flag is set when that side differs from the start value and is never cleared. The value does not change. It always continues. |
| Switch.DWSwitch.EndTracking | Pod/Classes/DWSwitch.swift:240-255 | Commits the side shown if the gesture changed sides, and the toggled value otherwise. It sends one event exactly when the value changed. It ends tracking and shows the value at rest. |
| Switch.DWSwitch.CancelTracking | Pod/Classes/DWSwitch.swift:257-267 | Leaves the value alone and sends no event. It ends tracking and shows the value again at rest: the thumb at its layout-pass frame, only the value's icon visible. |
| Switch.DWSwitch.LayoutSubviews | Pod/Classes/DWSwitch.swift:269-294 | Does nothing while animating. Otherwise it puts the track, the icons and the thumb at their at-rest frames, with the corner radii isRounded calls for. The control's invariant is kept. |
| Switch.DWSwitch.AnimationCompleted | Pod/Classes/DWSwitch.swift:209-211 | An animation's completion clears isAnimating. |
| Switch.DWSwitch.SetActiveColor | Pod/Classes/DWSwitch.swift:16-22 | Repaints the track only when on and not tracking. |
| Switch.DWSwitch.SetInactiveColor | Pod/Classes/DWSwitch.swift:24-30 | Repaints the track only when off and not tracking. |
| Switch.DWSwitch.SetOnTintColor | Pod/Classes/DWSwitch.swift:32-39 | Repaints the track and its border only when on and not tracking. |
| Switch.DWSwitch.SetBorderColor | Pod/Classes/DWSwitch.swift:41-47 | Repaints the border whenever off, even while tracking. |
| Switch.DWSwitch.SetThumbTintColor | Pod/Classes/DWSwitch.swift:49-58 | As written: copies the colour into the on-thumb tint unless that was specified, but through the property, so the flag is always set afterwards. It repaints the thumb when not tracking and either the on-thumb tint was unspecified or the switch is off. |
| Switch.DWSwitch.SetThumbTintColorFixed | Pod/Classes/DWSwitch.swift:49-58 | Corrected: the on-thumb tint follows the thumb tint for as long as the host has not set it, and the flag is left alone. The thumb is repainted as in the original. |
| Switch.DWSwitch.SetOnThumbTintColor | Pod/Classes/DWSwitch.swift:60-67 | Marks the on-thumb tint as specified. Repaints the thumb only when on and not tracking. |
| Switch.DWSwitch.SetShadowColor | Pod/Classes/DWSwitch.swift:69-73 | Always applied to the thumb's shadow. |
| Switch.DWSwitch.SetIsRounded | Pod/Classes/DWSwitch.swift:75-88 | Reshapes the track and the thumb at once: radii h/2 and h/2−1 when rounded, 2 and 2 when not. |
| Switch.DWSwitch.SetThumbImage | Pod/Classes/DWSwitch.swift:90-94 | Always shown in the thumb's image view. |
| Switch.DWSwitch.SetOnImage | Pod/Classes/DWSwitch.swift:96-100 | Always shown in the on-image view. |
| Switch.DWSwitch.SetOffImage | Pod/Classes/DWSwitch.swift:102-106 | Always shown in the off-image view. |
| Switch.ThumbTintTwiceAsWritten | Pod/Classes/DWSwitch.swift:49-67 | On a new switch, setting the thumb tint to two different colours in turn leaves the on-thumb tint at the first. |
| Switch.ThumbTintTwiceFixed | Pod/Classes/DWSwitch.swift:49-67 | With the corrected setter, the on-thumb tint follows both assignments. |

## Left out

- Animation timing, easing and interruption are not modelled. Each animation block takes effect at once, and `AnimationCompleted` stands for its completion handler whenever the host calls it. The gesture handlers and setOn are modelled; only the time between an animation's start and its end is lost.
- The bounce animation of the on-image and the rotation animation of the off-image are not modelled: they are Core Animation calls with no state of the control behind them. So is the template rendering mode they give the image, with a white tint for the on-image and a gray one for the off-image.
- The thumb's shadow path, shadow radius, opacity and offset, and the track's border width are not modelled. They are fixed drawing constants or Core Graphics paths.
- The thumb image view's autoresizing is not modelled. Its frame is the one setup gives it.
- `init(coder:)` is not modelled. It runs setup on a frame from an archive, which is not part of this model.
- The frame is fixed after construction: a host resizing the control is not modelled. Layout and the setters read the frame given at creation.
- Lengths are exact reals. `CGFloat` rounding and the standardisation of rectangles with negative sizes are not modelled.
- Target/action dispatch is not modelled. Sending `ValueChanged` is counted, not delivered.
- `Switch.DWSwitch.Setup` rounds the track and the thumb whatever `isRounded` says, as the source does. Its contract states this, and no correction is made.
- The demo view controllers are not part of this model.

## Findings

| source | as written | input that shows it | evidently intended | confidence | as-written member | corrected member |
|---|---|---|---|---|---|---|
| Pod/Classes/DWSwitch.swift:49-67 | The thumbTintColor observer copies the colour into onThumbTintColor by assigning the property. That property's own observer then sets userDidSpecifyOnThumbTintColor. | On a new switch, set thumbTintColor to A, then to B (A ≠ B). onThumbTintColor stays A, although the host never set it. | The on-thumb tint follows the thumb tint until the host sets the on-thumb tint itself. | not executed | Switch.ThumbTintTwiceAsWritten | Switch.ThumbTintTwiceFixed |
