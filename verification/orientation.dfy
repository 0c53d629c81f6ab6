/**
 * Orientation: the display expects wide images, so a tall canvas gets a
 * quarter turn on top of the whole-image rotation the user asked for, and the
 * image is rotated (with its bounds expanded) only when the total is non-zero.
 */
module Orientation {
  import opened Wrappers

  /**
   * The rotation applied after composition: the user's rotation, plus 90
   * degrees for a tall canvas. Starting from a half-turn multiple, the total
   * is an odd number of quarter turns exactly when the canvas is tall, that
   * is, exactly when the rotation will exchange width and height.
   */
  function TotalRotation(rotation: int, width: int, height: int): (t: int)
    requires rotation % 180 == 0
    ensures t % 90 == 0
    ensures t % 180 == 90 <==> height > width
    ensures height > width ==> t == rotation + 90
    ensures height <= width ==> t == rotation
  {
    var k := rotation / 180;
    assert rotation == 180 * k;
    if height > width then
      assert (rotation + 90) / 180 == k;
      rotation + 90
    else
      assert rotation / 90 == 2 * k;
      rotation
  }

  /** A multiple of 90 degrees, reduced to a whole turn, is its count of quarter turns modulo four. */
  lemma QuarterTurns(angle: int)
    requires angle % 90 == 0
    ensures angle % 360 == 90 * ((angle / 90) % 4)
  {
    var q := angle / 90;
    var k, m := q / 4, q % 4;
    assert q == 4 * k + m;
    assert angle == 360 * k + 90 * m;
    assert 0 <= 90 * m < 360;
    assert angle / 360 == k;
  }

  /**
   * The size of an image after an expanding rotation by a multiple of 90
   * degrees: a quarter or three-quarter turn exchanges width and height, a
   * half or whole turn keeps them.
   */
  function RotatedDims(width: int, height: int, angle: int): (d: (int, int))
    requires angle % 90 == 0
    ensures (angle / 90) % 2 == 1 ==> d == (height, width)
    ensures (angle / 90) % 2 == 0 ==> d == (width, height)
  {
    QuarterTurns(angle);
    var a := angle % 360;
    if a == 90 || a == 270 then (height, width) else (width, height)
  }

  /** Quarter turns add up: the sum of two multiples of 90 has the summed quarter-turn count. */
  lemma QuarterSum(a: int, b: int)
    requires a % 90 == 0 && b % 90 == 0
    ensures (a + b) % 90 == 0
    ensures (a + b) / 90 == a / 90 + b / 90
  {
    var qa, qb := a / 90, b / 90;
    assert a + b == 90 * (qa + qb);
  }

  /** Two expanding rotations in a row size the image as one rotation by their sum. */
  lemma RotationsCompose(width: int, height: int, a: int, b: int)
    requires a % 90 == 0 && b % 90 == 0
    ensures (a + b) % 90 == 0
    ensures var d := RotatedDims(width, height, a);
      RotatedDims(d.0, d.1, b) == RotatedDims(width, height, a + b)
  {
    QuarterSum(a, b);
    var qa, qb := a / 90, b / 90;
    assert (qa + qb) % 2 == (qa % 2 + qb % 2) % 2;
  }

  /** The outcome of normalisation: the rotation actually applied, if any, and the final size. */
  datatype Normalized = Normalized(applied: Option<int>, width: int, height: int)

  /**
   * Normalises a width x height canvas under a requested rotation of 0 or 180
   * degrees. A rotation is applied exactly when the canvas is tall or 180 was
   * requested, it is always a multiple of 90 between 90 and 270, and the
   * result is wide or square, with the same two side lengths.
   */
  function Normalize(rotation: int, width: int, height: int): (n: Normalized)
    requires rotation == 0 || rotation == 180
    ensures n.applied.None? <==> rotation == 0 && height <= width
    ensures n.applied.Some? ==> n.applied.value == TotalRotation(rotation, width, height)
    ensures n.applied.Some? ==> n.applied.value in {90, 180, 270}
    ensures n.width >= n.height
    ensures (n.width, n.height) == (width, height) || (n.width, n.height) == (height, width)
  {
    var total := TotalRotation(rotation, width, height);
    if total != 0 then
      var d := RotatedDims(width, height, total);
      Normalized(Some(total), d.0, d.1)
    else Normalized(None, width, height)
  }

  /** A wide or square canvas is never corrected: the total is the requested rotation. */
  lemma NoCorrectionWhenLandscape(rotation: int, width: int, height: int)
    requires rotation % 180 == 0
    requires width >= height
    ensures TotalRotation(rotation, width, height) == rotation
  {
  }

  /** A half turn requested on a tall canvas becomes a three-quarter turn, and the sides are exchanged. */
  lemma TallWithHalfTurn(width: int, height: int)
    requires height > width
    ensures Normalize(180, width, height) == Normalized(Some(270), height, width)
  {
  }
}
