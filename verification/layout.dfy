/**
 * Text layout: turning a line's symbolic or literal x/y directive into the
 * top-left pixel at which its text is drawn, given the canvas size and the
 * text's measured bounding box.
 */
module Layout {

  /** Horizontal directive: the codes l, c, r, or a literal pixel offset. */
  datatype XPos = Left | Center | Right | AtX(px: int)

  /** Vertical directive: the codes t, m, b, or a literal pixel offset. */
  datatype YPos = Top | Middle | Bottom | AtY(py: int)

  /** A measured text box (left, top, right, bottom), as measured with the text drawn at the origin. */
  datatype BBox = BBox(left: int, top: int, right: int, bottom: int) {
    function Width(): int { right - left }
    function Height(): int { bottom - top }
  }

  /** Floor division by two, the meaning of `n // 2` for every sign of n. */
  function FloorHalf(n: int): (q: int)
    ensures 2 * q <= n <= 2 * q + 1
  {
    n / 2
  }

  /**
   * The x coordinate for a text of width textW on a canvas of the given width:
   * 0, the centring offset (rounding down), the offset at which the box's
   * width ends at the canvas width, or the literal offset. The text is drawn
   * with its anchor at this point, so its ink is offset by the box's left.
   * Nothing is clamped: a text wider than the canvas centres to a negative x.
   */
  function ResolveX(x: XPos, width: int, textW: int): (px: int)
    ensures x == Left ==> px == 0
    ensures x == Center ==> 2 * px <= width - textW <= 2 * px + 1
    ensures x == Right ==> px + textW == width
    ensures x.AtX? ==> px == x.px
  {
    match x
    case Center => FloorHalf(width - textW)
    case Right => width - textW
    case Left => 0
    case AtX(p) => p
  }

  /**
   * The y coordinate for a text of height textH on a canvas of the given width
   * and height: 0, "middle", the offset at which the box's height ends at the
   * canvas height, or the literal offset; as for x, the ink is further offset
   * by the box's top. "Middle" centres
   * the text against the canvas WIDTH, not its height, as the program does.
   */
  function ResolveY(y: YPos, width: int, height: int, textH: int): (py: int)
    ensures y == Top ==> py == 0
    ensures y == Middle ==> 2 * py <= width - textH <= 2 * py + 1
    ensures y == Bottom ==> py + textH == height
    ensures y.AtY? ==> py == y.py
  {
    match y
    case Middle => FloorHalf(width - textH)
    case Bottom => height - textH
    case Top => 0
    case AtY(p) => p
  }

  /** Where a text measured as box is drawn on a width x height canvas. */
  function Place(x: XPos, y: YPos, width: int, height: int, box: BBox): (int, int) {
    (ResolveX(x, width, box.Width()), ResolveY(y, width, height, box.Height()))
  }

  /** Centring a text wider than the canvas gives a negative x; it is not clamped. */
  lemma CenterOverflowsLeft(width: int, textW: int)
    requires textW > width
    ensures ResolveX(Center, width, textW) < 0
  {
  }

  /** On a square canvas "middle" is true vertical centring. */
  lemma MiddleCentresOnSquare(side: int, textH: int)
    ensures var py := ResolveY(Middle, side, side, textH);
      2 * py <= side - textH <= 2 * py + 1
  {
  }

  /**
   * On a canvas at least two pixels wider than tall, "middle" puts the text
   * strictly lower than vertical centring would.
   */
  lemma MiddleSinksOnWide(width: int, height: int, textH: int)
    requires width >= height + 2
    ensures ResolveY(Middle, width, height, textH) > FloorHalf(height - textH)
  {
  }

  /**
   * On the 296x128 panel a "middle" line whose text is at most 40 pixels tall
   * gets a draw point at or below the bottom edge.
   */
  lemma MiddleOffCanvasOn296x128(textH: int)
    requires textH <= 40
    ensures ResolveY(Middle, 296, 128, textH) >= 128
  {
  }
}
