/**
 * Composition: drawing every line directive, in input order, onto one
 * paletted canvas. Font loading, text measurement and glyph rasterisation
 * belong to an external text capability and enter as a Renderer.
 */
module Composition {
  import opened Wrappers
  import opened PaletteCanvas
  import opened Layout

  /**
   * One input record: text, font reference, font size, fill colour, x and y
   * directives, and the per-line angle, which is carried but never applied.
   */
  datatype Line = Line(text: string, font: string, size: int, color: ColorIndex, x: XPos, y: YPos, angle: int)

  /**
   * The text capability: whether a font reference loads at a size; the box of
   * a text drawn at the origin; and the ink pixels of a text, relative to the
   * point it is drawn at.
   */
  datatype Renderer = Renderer(
    loads: (string, int) -> bool,
    measure: (string, string, int) -> BBox,
    ink: (string, string, int) -> set<(int, int)>)

  /** The error a line raises when its font cannot be loaded. */
  datatype FontLoadError = FontLoadError(font: string, size: int)

  /**
   * The measured box bounds the ink: every ink pixel of a text, relative to
   * its draw point, lies in [left, right) x [top, bottom) of its box.
   */
  ghost predicate InkInBox(r: Renderer, line: Line) {
    var box := r.measure(line.text, line.font, line.size);
    forall p :: p in r.ink(line.text, line.font, line.size) ==>
      box.left <= p.0 < box.right && box.top <= p.1 < box.bottom
  }

  /** Whether a line's font loads. */
  predicate Loads(r: Renderer, line: Line) {
    r.loads(line.font, line.size)
  }

  /** Where a line is drawn on a width x height canvas. */
  function Origin(width: int, height: int, line: Line, r: Renderer): (int, int) {
    Place(line.x, line.y, width, height, r.measure(line.text, line.font, line.size))
  }

  /** Whether drawing a line on a width x height canvas inks the pixel (x, y). */
  predicate Covers(width: int, height: int, line: Line, r: Renderer, x: int, y: int) {
    var o := Origin(width, height, line, r);
    (x - o.0, y - o.1) in r.ink(line.text, line.font, line.size)
  }

  /**
   * Draws one line: every canvas pixel its ink covers takes its colour, every
   * other pixel keeps its colour, and ink off the canvas is clipped.
   */
  function Draw(c: Canvas, line: Line, r: Renderer): (d: Canvas)
    requires Wf(c)
    ensures Wf(d) && d.width == c.width && d.height == c.height
    ensures forall y, x :: 0 <= y < c.height && 0 <= x < c.width ==>
      d.px[y][x] == (if Covers(c.width, c.height, line, r, x, y) then line.color else c.px[y][x])
  {
    Canvas(c.width, c.height,
      seq(c.height, y requires 0 <= y < c.height =>
        seq(c.width, x requires 0 <= x < c.width =>
          if Covers(c.width, c.height, line, r, x, y) then line.color else c.px[y][x])))
  }

  /** The error is raised by the first line whose font does not load. */
  ghost predicate FailsAt(lines: seq<Line>, r: Renderer, e: FontLoadError) {
    exists i :: FirstUnloadable(lines, r, i) && e == FontLoadError(lines[i].font, lines[i].size)
  }

  /** Line i is the first line whose font does not load. */
  ghost predicate FirstUnloadable(lines: seq<Line>, r: Renderer, i: int) {
    && 0 <= i < |lines|
    && !Loads(r, lines[i])
    && (forall j :: 0 <= j < i ==> Loads(r, lines[j]))
  }

  /**
   * Draws the lines one after another onto base. The first line whose font
   * does not load aborts the whole composition with that font's error.
   * Otherwise the result is a well-formed canvas of the same size.
   */
  function Compose(base: Canvas, lines: seq<Line>, r: Renderer): (res: Result<Canvas, FontLoadError>)
    requires Wf(base)
    ensures res.Ok? <==> forall i :: 0 <= i < |lines| ==> Loads(r, lines[i])
    ensures res.Ok? ==> Wf(res.value) && res.value.width == base.width && res.value.height == base.height
    ensures res.Err? ==> FailsAt(lines, r, res.error)
    decreases |lines|
  {
    if |lines| == 0 then Ok(base)
    else
      var last := lines[|lines| - 1];
      match Compose(base, lines[..|lines| - 1], r)
      case Err(e) =>
        assert forall i :: FirstUnloadable(lines[..|lines| - 1], r, i) ==> FirstUnloadable(lines, r, i);
        Err(e)
      case Ok(c) =>
        if Loads(r, last) then Ok(Draw(c, last, r))
        else
          assert FirstUnloadable(lines, r, |lines| - 1);
          Err(FontLoadError(last.font, last.size))
  }

  /**
   * The last of the lines that inks the pixel (x, y), if any: no later line
   * covers it, and when there is none, no line covers it at all.
   */
  function LastCover(width: int, height: int, lines: seq<Line>, r: Renderer, x: int, y: int): (k: Option<nat>)
    ensures k.Some? ==>
      && k.value < |lines|
      && Covers(width, height, lines[k.value], r, x, y)
      && (forall j :: k.value < j < |lines| ==> !Covers(width, height, lines[j], r, x, y))
    ensures k.None? ==> forall j :: 0 <= j < |lines| ==> !Covers(width, height, lines[j], r, x, y)
    decreases |lines|
  {
    if |lines| == 0 then None
    else if Covers(width, height, lines[|lines| - 1], r, x, y) then Some(|lines| - 1)
    else LastCover(width, height, lines[..|lines| - 1], r, x, y)
  }

  /**
   * Last write wins: after a successful composition every pixel shows the
   * colour of the last line that inks it, or keeps its base colour when no
   * line does.
   */
  lemma {:induction false} ComposeLastWriteWins(base: Canvas, lines: seq<Line>, r: Renderer, x: int, y: int)
    requires Wf(base)
    requires Compose(base, lines, r).Ok?
    requires 0 <= x < base.width && 0 <= y < base.height
    ensures Compose(base, lines, r).value.px[y][x] ==
      match LastCover(base.width, base.height, lines, r, x, y)
      case Some(i) => lines[i].color
      case None => base.px[y][x]
    decreases |lines|
  {
    if |lines| > 0 {
      var prefix := lines[..|lines| - 1];
      ComposeLastWriteWins(base, prefix, r, x, y);
      var c := Compose(base, prefix, r).value;
      assert Compose(base, lines, r).value == Draw(c, lines[|lines| - 1], r);
    }
  }

  /**
   * On a 296x128 canvas, a "middle" line whose box is at most 40 pixels tall
   * and does not reach above its draw point inks nothing: drawing it leaves
   * the canvas unchanged, because "middle" centres against the width and so
   * puts the draw point at or below the bottom edge.
   */
  lemma MiddleInvisibleOn296x128(c: Canvas, line: Line, r: Renderer)
    requires Wf(c) && c.width == 296 && c.height == 128
    requires line.y == Middle
    requires InkInBox(r, line)
    requires r.measure(line.text, line.font, line.size).top >= 0
    requires r.measure(line.text, line.font, line.size).Height() <= 40
    ensures Draw(c, line, r) == c
  {
    var box := r.measure(line.text, line.font, line.size);
    var o := Origin(c.width, c.height, line, r);
    assert o.1 >= 128 by {
      assert o.1 == ResolveY(Middle, 296, 128, box.Height());
    }
    var d := Draw(c, line, r);
    forall y, x | 0 <= y < c.height && 0 <= x < c.width
      ensures d.px[y][x] == c.px[y][x]
    {
      if Covers(c.width, c.height, line, r, x, y) {
        assert false;
      }
    }
    forall y | 0 <= y < c.height
      ensures d.px[y] == c.px[y]
    {
    }
    assert d.px == c.px;
  }

  /**
   * Alignment lines up the measured box, not the ink: a right-aligned line
   * inks only columns left of width + box.left, and a bottom-aligned line
   * only rows above height + box.top. A box measured with a positive left or
   * top therefore pushes the ink that far past the canvas edge, where it is
   * clipped.
   */
  lemma AlignedInkEdges(width: int, height: int, line: Line, r: Renderer, x: int, y: int)
    requires InkInBox(r, line)
    requires Covers(width, height, line, r, x, y)
    ensures var box := r.measure(line.text, line.font, line.size);
      && (line.x == Right ==> width - box.Width() + box.left <= x < width + box.left)
      && (line.y == Bottom ==> height - box.Height() + box.top <= y < height + box.top)
  {
    var box := r.measure(line.text, line.font, line.size);
    var o := Origin(width, height, line, r);
    var p := (x - o.0, y - o.1);
    assert p in r.ink(line.text, line.font, line.size);
    assert box.left <= p.0 < box.right && box.top <= p.1 < box.bottom;
  }
}
