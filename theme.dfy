/**
 * The UI theme: the fixed virtual canvas size and the two-tone bevelled
 * border used by every panel and button.
 */
module Theme {
  /** The virtual UI canvas, in logical pixels. */
  const UiWidth: real := 900.0
  const UiHeight: real := 520.0

  datatype Color = Srgb(red: real, green: real, blue: real)

  const BorderLight: Color := Srgb(0.92, 0.92, 0.88)
  const BorderDark: Color := Srgb(0.18, 0.18, 0.18)

  datatype BorderColor = BorderColor(top: Color, left: Color, right: Color, bottom: Color)

  /**
   * `border`: a raised border is lit from the top left and shaded at the
   * bottom right; a sunken one the other way round.
   */
  function Border(raised: bool): (r: BorderColor)
    ensures raised ==> r.top == BorderLight && r.left == BorderLight && r.right == BorderDark && r.bottom == BorderDark
    ensures !raised ==> r.top == BorderDark && r.left == BorderDark && r.right == BorderLight && r.bottom == BorderLight
    ensures r.top == r.left && r.right == r.bottom
  {
    var (topLeft, bottomRight) := if raised then (BorderLight, BorderDark) else (BorderDark, BorderLight);
    BorderColor(topLeft, topLeft, bottomRight, bottomRight)
  }

  /** A sunken border is a raised one with its two colours swapped, and the two differ. */
  lemma SunkenIsRaisedSwapped()
    ensures Border(false) == BorderColor(Border(true).right, Border(true).bottom, Border(true).top, Border(true).left)
    ensures Border(false) != Border(true)
  {
  }
}
