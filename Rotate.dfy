/**
 * The coordinate maps of the three RenderScript kernels in rotate.rs.
 *
 * Each kernel runs once per pixel (x, y) of the input allocation, whose
 * X size is the script global `width` and whose Y size is `height`, and
 * stores that pixel into one cell of `output_allocation`. The model keeps
 * only the target cell: each kernel is a function from (x, y, width,
 * height) to the cell it writes.
 */
module Rotate {

  /** A cell of an allocation: `x` along its X dimension, `y` along Y. */
  datatype Cell = Cell(x: int, y: int)

  /** `c` lies in an allocation whose X size is `xs` and Y size is `ys`. */
  predicate InGrid(c: Cell, xs: int, ys: int) {
    0 <= c.x < xs && 0 <= c.y < ys
  }

  /** Every cell of an `xs` by `ys` allocation. */
  function Grid(xs: nat, ys: nat): set<Cell> {
    set x: int, y: int | 0 <= x < xs && 0 <= y < ys :: Cell(x, y)
  }

  /**
   * rotate90: the pixel at (x, y) goes to ((height - 1) - y, x), a
   * clockwise quarter turn. Its target lies in the height by width output
   * grid, and `Unrotate90` recovers the input pixel, so distinct pixels
   * write distinct cells.
   */
  function Rotate90(x: int, y: int, width: int, height: int): (r: Cell)
    ensures InGrid(Cell(x, y), width, height) ==> InGrid(r, height, width)
    ensures Unrotate90(r, width, height) == Cell(x, y)
  {
    Cell((height - 1) - y, x)
  }

  /** The input pixel that `Rotate90` sends to output cell `c`. */
  function Unrotate90(c: Cell, width: int, height: int): (r: Cell)
    ensures InGrid(c, height, width) ==> InGrid(r, width, height)
  {
    Cell(c.y, (height - 1) - c.x)
  }

  /** Every output cell is written by the input pixel `Unrotate90` names. */
  lemma Rotate90Onto(c: Cell, width: int, height: int)
    ensures var p := Unrotate90(c, width, height); Rotate90(p.x, p.y, width, height) == c
  {
  }

  /**
   * rotate180: the pixel at (x, y) goes to ((width - 1) - x, (height - 1) - y).
   * It maps the width by height grid onto itself and is its own inverse.
   */
  function Rotate180(x: int, y: int, width: int, height: int): (r: Cell)
    ensures InGrid(Cell(x, y), width, height) ==> InGrid(r, width, height)
  {
    Cell((width - 1) - x, (height - 1) - y)
  }

  /** Applying rotate180 twice gives back the original pixel. */
  lemma Rotate180Involution(x: int, y: int, width: int, height: int)
    ensures var c := Rotate180(x, y, width, height); Rotate180(c.x, c.y, width, height) == Cell(x, y)
  {
  }

  /**
   * rotate270: the pixel at (x, y) goes to ((height - 1) - y, (width - 1) - x).
   * Its target lies in the height by width output grid, and `Unrotate270`
   * recovers the input pixel.
   */
  function Rotate270(x: int, y: int, width: int, height: int): (r: Cell)
    ensures InGrid(Cell(x, y), width, height) ==> InGrid(r, height, width)
    ensures Unrotate270(r, width, height) == Cell(x, y)
  {
    Cell((height - 1) - y, (width - 1) - x)
  }

  /** The input pixel that `Rotate270` sends to output cell `c`. */
  function Unrotate270(c: Cell, width: int, height: int): (r: Cell)
    ensures InGrid(c, height, width) ==> InGrid(r, width, height)
  {
    Cell((width - 1) - c.y, (height - 1) - c.x)
  }

  /** Every output cell is written by the input pixel `Unrotate270` names. */
  lemma Rotate270Onto(c: Cell, width: int, height: int)
    ensures var p := Unrotate270(c, width, height); Rotate270(p.x, p.y, width, height) == c
  {
  }

  /** rotate90 is a bijection from the width by height grid onto the height by width grid. */
  lemma Rotate90Bijective(width: nat, height: nat)
    ensures (set c | c in Grid(width, height) :: Rotate90(c.x, c.y, width, height)) == Grid(height, width)
  {
    var image := set c | c in Grid(width, height) :: Rotate90(c.x, c.y, width, height);
    forall d | d in Grid(height, width)
      ensures d in image
    {
      var c := Unrotate90(d, width, height);
      Rotate90Onto(d, width, height);
      assert c in Grid(width, height);
    }
  }

  /** rotate270 is a bijection from the width by height grid onto the height by width grid. */
  lemma Rotate270Bijective(width: nat, height: nat)
    ensures (set c | c in Grid(width, height) :: Rotate270(c.x, c.y, width, height)) == Grid(height, width)
  {
    var image := set c | c in Grid(width, height) :: Rotate270(c.x, c.y, width, height);
    forall d | d in Grid(height, width)
      ensures d in image
    {
      var c := Unrotate270(d, width, height);
      Rotate270Onto(d, width, height);
      assert c in Grid(width, height);
    }
  }

  /** rotate180 is a bijection of the width by height grid onto itself. */
  lemma Rotate180Bijective(width: nat, height: nat)
    ensures (set c | c in Grid(width, height) :: Rotate180(c.x, c.y, width, height)) == Grid(width, height)
  {
    var image := set c | c in Grid(width, height) :: Rotate180(c.x, c.y, width, height);
    forall d | d in Grid(width, height)
      ensures d in image
    {
      var c := Rotate180(d.x, d.y, width, height);
      Rotate180Involution(d.x, d.y, width, height);
      assert c in Grid(width, height);
    }
  }

  /**
   * The output allocation is height by width (X size `height`), so
   * rotate180's target fits it for every input pixel only on a square grid.
   */
  lemma Rotate180FitsOutputWhenSquare(x: int, y: int, width: int, height: int)
    requires width == height
    requires InGrid(Cell(x, y), width, height)
    ensures InGrid(Rotate180(x, y, width, height), height, width)
  {
  }

  /** On a non-square grid the first input pixel already lands outside the height by width output. */
  lemma Rotate180EscapesOutputWhenNotSquare(width: nat, height: nat)
    requires width > 0 && height > 0 && width != height
    ensures InGrid(Cell(0, 0), width, height)
    ensures !InGrid(Rotate180(0, 0, width, height), height, width)
  {
  }

  /**
   * rotate270 is rotate90 followed by a mirror along the output's Y axis,
   * that is, a reflection rather than the inverse quarter turn.
   */
  lemma Rotate270MirrorsRotate90(x: int, y: int, width: int, height: int)
    ensures Rotate270(x, y, width, height).x == Rotate90(x, y, width, height).x
    ensures Rotate270(x, y, width, height).y == (width - 1) - Rotate90(x, y, width, height).y
  {
  }

  /**
   * The allocations of the camera preview: the input allocation is X = width,
   * Y = height, the output allocation X = height, Y = width, and the script
   * globals are `width` and `height`, where width is the configured video
   * height and height the configured video width.
   */
  datatype PreviewShape = PreviewShape(inX: int, inY: int, outX: int, outY: int, width: int, height: int)

  function PreviewShapes(videoWidth: int, videoHeight: int): (r: PreviewShape)
    ensures r.inX == r.width && r.inY == r.height
    ensures r.outX == r.inY && r.outY == r.inX
    ensures r.outX == videoWidth && r.outY == videoHeight
  {
    var height := videoWidth;
    var width := videoHeight;
    PreviewShape(width, height, height, width, width, height)
  }

  /**
   * With the preview's allocations, every input pixel that rotate90 or
   * rotate270 visits is written inside the output allocation.
   */
  lemma PreviewRotationsStayInOutput(videoWidth: int, videoHeight: int, x: int, y: int)
    requires InGrid(Cell(x, y), PreviewShapes(videoWidth, videoHeight).inX, PreviewShapes(videoWidth, videoHeight).inY)
    ensures var s := PreviewShapes(videoWidth, videoHeight);
      InGrid(Rotate90(x, y, s.width, s.height), s.outX, s.outY) &&
      InGrid(Rotate270(x, y, s.width, s.height), s.outX, s.outY)
  {
  }
}
