/**
 * The paletted canvas: the fixed three-entry palette (white, black, red)
 * installed on every image, and the indexed raster the text is drawn on.
 */
module PaletteCanvas {

  /** A palette index that a line may use as its fill: 0 white, 1 black, 2 red. */
  type ColorIndex = c: int | 0 <= c <= 2

  /** A 24-bit colour. */
  datatype Rgb = Rgb(r: int, g: int, b: int)

  /** The flat palette handed to the image: consecutive RGB triples, in index order. */
  const Palette: seq<int> := [255, 255, 255, 0, 0, 0, 255, 0, 0]

  /**
   * The colour that a palette index shows, read from the flat palette the way
   * a paletted image lays it out (entry i occupies bytes 3i, 3i+1, 3i+2).
   */
  function ColorOf(i: ColorIndex): (c: Rgb)
    ensures c == Rgb(255, 255, 255) <==> i == 0
    ensures c == Rgb(0, 0, 0) <==> i == 1
    ensures c == Rgb(255, 0, 0) <==> i == 2
  {
    Rgb(Palette[3 * i], Palette[3 * i + 1], Palette[3 * i + 2])
  }

  /** The palette as a list of entries. */
  function Entries(): (es: seq<Rgb>)
    ensures |es| == 3
  {
    [ColorOf(0), ColorOf(1), ColorOf(2)]
  }

  /** Lays a list of entries out as consecutive bytes. */
  function Flatten(es: seq<Rgb>): (bytes: seq<int>)
    ensures |bytes| == 3 * |es|
  {
    if |es| == 0 then [] else [es[0].r, es[0].g, es[0].b] + Flatten(es[1..])
  }

  /**
   * The flat palette is exactly its three entries laid out in order: it holds
   * nine bytes, and reading entries back out of it and flattening them again
   * gives the same bytes.
   */
  lemma PaletteRoundTrip()
    ensures |Palette| == 9
    ensures Flatten(Entries()) == Palette
    ensures forall k :: 0 <= k < |Palette| ==> 0 <= Palette[k] <= 255
  {
    assert Entries() == [Rgb(255, 255, 255), Rgb(0, 0, 0), Rgb(255, 0, 0)];
  }

  /** An indexed raster; px holds one row of palette indices per line, top to bottom. */
  datatype Canvas = Canvas(width: int, height: int, px: seq<seq<int>>)

  /** The canvas invariant: positive dimensions, rows of the right length, every pixel a palette index. */
  ghost predicate Wf(c: Canvas) {
    && c.width > 0
    && c.height > 0
    && |c.px| == c.height
    && (forall y :: 0 <= y < |c.px| ==> |c.px[y]| == c.width)
    && (forall y, x :: 0 <= y < |c.px| && 0 <= x < |c.px[y]| ==> 0 <= c.px[y][x] <= 2)
  }

  /** A fresh paletted image of the given size; a new image is zero-filled, and index 0 is white. */
  function New(width: int, height: int): (c: Canvas)
    requires width > 0 && height > 0
    ensures Wf(c)
    ensures c.width == width && c.height == height
    ensures forall y, x :: 0 <= y < height && 0 <= x < width ==> ColorOf(c.px[y][x]) == Rgb(255, 255, 255)
  {
    Canvas(width, height, seq(height, _ => seq(width, _ => 0)))
  }
}
