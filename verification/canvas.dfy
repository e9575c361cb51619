/** Canvas sizing: the bilevel mask reports its shape as (rows, columns), while the
    drawing is sized as (width, height), so the two entries change places. */
module Canvas {

  /** A bilevel mask: `cells[y][x]` is the pixel in row y, column x; every row has `cols` cells. */
  datatype Mask = Mask(cells: seq<seq<bool>>, cols: nat)

  ghost predicate Valid(m: Mask)
  {
    forall y :: 0 <= y < |m.cells| ==> |m.cells[y]| == m.cols
  }

  /** The mask's shape in (height, width) order: row count, then column count. */
  function Shape(m: Mask): (nat, nat) { (|m.cells|, m.cols) }

  /** The canvas size (width, height) for a (height, width) shape. */
  function CanvasSize(shape: (nat, nat)): (nat, nat)
  {
    var (height, width) := shape;
    (width, height)
  }

  /** (x, y) addresses a pixel of the mask: row y exists and has a column x. */
  predicate InMask(m: Mask, x: int, y: int)
  {
    0 <= y < |m.cells| && 0 <= x < |m.cells[y]|
  }

  /** (x, y) lies on a canvas of the given (width, height). */
  predicate OnCanvas(size: (nat, nat), x: int, y: int)
  {
    0 <= x < size.0 && 0 <= y < size.1
  }

  /** The canvas covers the mask exactly: a point (x, y), as contour points are given,
      lies on the canvas if and only if it is a pixel of the mask. */
  lemma CanvasCoversMask(m: Mask)
    requires Valid(m)
    ensures CanvasSize(Shape(m)).0 == m.cols && CanvasSize(Shape(m)).1 == |m.cells|
    ensures forall x, y :: OnCanvas(CanvasSize(Shape(m)), x, y) <==> InMask(m, x, y)
  {
  }
}
