/**
 * Value types shared by the renderers: the parts of the XAML layout vocabulary
 * that the render plans mention (thickness, grid lengths, alignments), the
 * fixed-width integers of the host configuration, and an Option type.
 */
module Xaml {

  datatype Option<+T> = None | Some(value: T)

  /** Unsigned 32-bit integer (UINT32 in the UWP host configuration). */
  type UInt32 = x: int | 0 <= x < 0x1_0000_0000

  /** Signed 32-bit integer (C# int). */
  type Int32 = x: int | -0x8000_0000 <= x < 0x8000_0000

  /** An unsigned byte (C# byte). */
  type Byte = x: int | 0 <= x < 256

  /** A XAML Thickness; its four sides are doubles, modelled as reals. */
  datatype Thickness = Thickness(left: real, top: real, right: real, bottom: real)

  /** The thickness with every side negated. */
  function Negate(t: Thickness): (r: Thickness)
    ensures r.left + t.left == 0.0 && r.top + t.top == 0.0
    ensures r.right + t.right == 0.0 && r.bottom + t.bottom == 0.0
  {
    Thickness(-t.left, -t.top, -t.right, -t.bottom)
  }

  /** A grid column width: proportional (star) or sized to content (auto). */
  datatype GridLength = Star(weight: real) | Auto

  datatype HorizontalAlignment = AlignLeft | AlignCenter | AlignRight | AlignStretch

  datatype Orientation = Horizontal | Vertical
}
