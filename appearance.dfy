/**
 * Opaque style tokens of the switch: colours and images.  A colour is kept
 * as its four components so that the defaults of the control can be written
 * out; nothing in the model computes with them.
 */
module Appearance {

  datatype Option<+T> = None | Some(value: T)

  /** A colour as red, green, blue and alpha components in [0, 1]. */
  datatype Color = Rgba(red: real, green: real, blue: real, alpha: real)

  /** An image asset, identified by its name. */
  datatype Image = Image(name: string)

  const Clear: Color := Rgba(0.0, 0.0, 0.0, 0.0)
  const White: Color := Rgba(1.0, 1.0, 1.0, 1.0)
  const Gray: Color := Rgba(0.5, 0.5, 0.5, 1.0)

  /** Default values of the style properties of the control. */
  const DefaultActiveColor: Color := Rgba(0.89, 0.89, 0.89, 1.0)
  const DefaultInactiveColor: Color := Clear
  const DefaultOnTintColor: Color := Rgba(0.3, 0.85, 0.39, 1.0)
  const DefaultBorderColor: Color := Rgba(0.78, 0.78, 0.8, 1.0)
  const DefaultThumbTintColor: Color := White
  const DefaultOnThumbTintColor: Color := White
  const DefaultShadowColor: Color := Gray
}
