/**
 * The arithmetic of a pointer drag: where a press warps the pointer, where a
 * move puts the window and what size a resize gives it.
 */
module Drag {
  import opened Protocol
  import opened Config

  /**
   * The drag mode the dispatcher keeps between notifications. In the C code
   * it is an integer slot that holds 1 for a move and 3 for a resize and is
   * never initialised; `Idle` stands for any value that is neither.
   */
  datatype Mode = Idle | Move | Resize

  /** The mode a press of button `detail` starts: button 1 moves, any other resizes. */
  function ModeFor(detail: nat): (m: Mode)
    ensures m != Idle
    ensures m == Move <==> detail == 1
  {
    if detail == 1 then Move else Resize
  }

  /**
   * Where a press of button `detail` warps the pointer, relative to the
   * window: its centre for a move, its bottom-right corner for a resize.
   */
  function WarpTarget(detail: nat, g: Geometry): (r: Point)
    ensures 0 <= r.x <= g.width && 0 <= r.y <= g.height
    ensures detail == 1 ==> 2 * r.x <= g.width < 2 * r.x + 2 && 2 * r.y <= g.height < 2 * r.y + 2
    ensures detail != 1 ==> r == Point(g.width, g.height)
  {
    if detail == 1 then Point(g.width / 2, g.height / 2) else Point(g.width, g.height)
  }

  /**
   * The move clamp along one axis: the new origin of a window of `size`
   * pixels dragged by its centre to pointer coordinate `p` on a screen
   * `extent` pixels long.
   */
  function ClampAxis(p: int, size: nat, extent: int): (r: int)
    // pointer short of half the window: pinned to the near edge
    ensures p < size / 2 ==> r == 0
    // far edge reached: the window, with both borders, ends at the far edge
    ensures p >= size / 2 && p + size / 2 > extent - 2 * BORDERWIDTH ==> r + size + 2 * BORDERWIDTH == extent
    // otherwise the window's centre follows the pointer
    ensures p >= size / 2 && p + size / 2 <= extent - 2 * BORDERWIDTH ==> r + size / 2 == p
    // a window that fits on the screen starts on it and ends at most one pixel past it
    ensures size + 2 * BORDERWIDTH <= extent ==> 0 <= r <= extent - 2 * BORDERWIDTH - 2 * (size / 2)
  {
    var candidate :=
      if p + size / 2 > extent - 2 * BORDERWIDTH then extent - size - 2 * BORDERWIDTH else p - size / 2;
    if p < size / 2 then 0 else candidate
  }

  /**
   * The new size of a window resized with the pointer at `p`: the pointer's
   * offset from the window's outer origin (the geometry reply's x and y,
   * outside the border), with no clamping. The size is taken as the inside
   * size, which excludes the border, so the inside corner lands one border
   * width past the pointer.
   */
  function ResizeExtent(p: Point, g: Geometry): (r: Point)
    ensures g.x + r.x == p.x && g.y + r.y == p.y
    ensures p.x <= g.x ==> r.x <= 0
    ensures p.y <= g.y ==> r.y <= 0
  {
    Point(p.x - g.x, p.y - g.y)
  }

  /**
   * The first resize step after a press: the pointer sits where the press
   * warped it, at the inside bottom-right corner, and the window still
   * grows by one border width in each direction.
   */
  lemma ResizeAtWarpPoint(g: Geometry)
    ensures var at := WarpTarget(3, g);
      var p := Point(g.x + g.borderWidth + at.x, g.y + g.borderWidth + at.y);
      ResizeExtent(p, g) == Point(g.width + g.borderWidth, g.height + g.borderWidth)
  {
  }

  /** An even-width window that fits stays wholly on the screen. */
  lemma ClampEvenWidthOnScreen(p: int, size: nat, extent: int)
    requires size % 2 == 0 && size + 2 * BORDERWIDTH <= extent
    ensures 0 <= ClampAxis(p, size, extent)
    ensures ClampAxis(p, size, extent) + size + 2 * BORDERWIDTH <= extent
  {
  }

  /**
   * An odd-width window whose centre follows the pointer to the last
   * unclamped position ends one pixel past the screen edge.
   */
  lemma ClampOddWidthOverhang(size: nat, extent: int)
    requires size % 2 == 1 && size + 2 * BORDERWIDTH <= extent
    ensures var p := extent - 2 * BORDERWIDTH - size / 2;
      ClampAxis(p, size, extent) + size + 2 * BORDERWIDTH == extent + 1
  {
  }
}
