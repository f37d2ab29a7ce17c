/**
 * The cell buffer the tui widgets draw into: a rectangle of cells, each a
 * symbol with a style. `get_mut(x, y)` addresses the cell at absolute
 * coordinates, which must lie inside the buffer's area.
 */
module Buffers {
  import opened Layout

  /** A colour code; 0 stands for `Color::Reset`. */
  type Color = nat

  datatype Style = Style(fg: Color, bg: Color, modifier: nat)

  /** `Style::default()`: reset colours, no modifier. */
  const DefaultStyle: Style := Style(0, 0, 0)

  datatype Cell = Cell(symbol: string, style: Style)

  function Min(a: int, b: int): int { if a <= b then a else b }

  /** `Cell::set_bg`: only the background colour changes. */
  function WithBg(c: Cell, bg: Color): (r: Cell)
    ensures r.style.bg == bg
    ensures r.(style := r.style.(bg := c.style.bg)) == c
  {
    c.(style := c.style.(bg := bg))
  }

  /**
   * The cell at (x, y) after the cells of [x0, x1) x [y0, y1) are
   * overwritten with `cell`, provided `paint` holds; `c` is the cell before.
   */
  function Stroke(paint: bool, x0: int, x1: int, y0: int, y1: int, cell: Cell, x: int, y: int, c: Cell): Cell {
    if paint && x0 <= x < x1 && y0 <= y < y1 then cell else c
  }

  /** The cell at (x, y) after `set_background(r, bg)`. */
  function Backgrounded(r: Rect, bg: Color, x: int, y: int, c: Cell): Cell {
    if r.Holds(x, y) then WithBg(c, bg) else c
  }

  /**
   * How many cells `set_stringn(x, _, s, width, _)` writes when every
   * character of `s` is one grapheme of display width 1: it stops at the end
   * of `s`, after `width` cells, or at the buffer's right edge.
   */
  function StringnCount(area: Rect, x: int, s: string, width: nat): (n: nat)
    requires area.Left() <= x < area.Right()
    ensures n <= |s| && n <= width && x + n <= area.Right()
    ensures n == |s| || n == width || x + n == area.Right()
  {
    Min(|s|, Min(width, area.Right() - x))
  }

  /** The cell at (x, y) after the first `n` characters of `s` were written from (x0, y0). */
  function Stringed(x0: int, y0: int, s: string, n: nat, style: Style, x: int, y: int, c: Cell): Cell
    requires n <= |s|
  {
    if y == y0 && x0 <= x < x0 + n then Cell([s[x - x0]], style) else c
  }

  class Buffer {
    const area: Rect
    /** Row `y - area.y`, column `x - area.x` holds the cell at (x, y). */
    const content: array2<Cell>

    ghost predicate Valid()
      reads this
    {
      area.Fits() && content.Length0 == area.height as int && content.Length1 == area.width as int
    }

    /** `get_mut(x, y).set_symbol(cell.symbol).set_style(cell.style)`. */
    method Set(x: int, y: int, cell: Cell)
      requires Valid() && area.Holds(x, y)
      modifies content
      ensures forall i, j :: 0 <= i < content.Length0 && 0 <= j < content.Length1 ==>
        content[i, j] == Stroke(true, x, x + 1, y, y + 1, cell, area.Left() + j, area.Top() + i, old(content[i, j]))
    {
      content[y - area.Top(), x - area.Left()] := cell;
    }

    /** `set_background(r, bg)`: every cell of `r` gets background `bg`. */
    method SetBackground(r: Rect, bg: Color)
      requires Valid() && area.Encloses(r)
      modifies content
      ensures forall i, j :: 0 <= i < content.Length0 && 0 <= j < content.Length1 ==>
        content[i, j] == Backgrounded(r, bg, area.Left() + j, area.Top() + i, old(content[i, j]))
    {
      for y := r.Top() to r.Bottom()
        invariant forall i, j :: 0 <= i < content.Length0 && 0 <= j < content.Length1 ==>
          content[i, j] == if area.Top() + i < y
                           then Backgrounded(r, bg, area.Left() + j, area.Top() + i, old(content[i, j]))
                           else old(content[i, j])
      {
        for x := r.Left() to r.Right()
          invariant forall i, j :: 0 <= i < content.Length0 && 0 <= j < content.Length1 ==>
            content[i, j] == if area.Top() + i < y || (area.Top() + i == y && area.Left() + j < x)
                             then Backgrounded(r, bg, area.Left() + j, area.Top() + i, old(content[i, j]))
                             else old(content[i, j])
        {
          content[y - area.Top(), x - area.Left()] := WithBg(content[y - area.Top(), x - area.Left()], bg);
        }
      }
    }

    /**
     * `set_stringn(x, y, s, width, style)`, one cell per character: writes
     * the characters of `s` from (x, y) rightwards, at most `width` of them
     * and no further than the buffer's right edge.
     */
    method SetStringn(x: int, y: int, s: string, width: nat, style: Style)
      requires Valid() && area.Holds(x, y)
      modifies content
      ensures forall i, j :: 0 <= i < content.Length0 && 0 <= j < content.Length1 ==>
        content[i, j] == Stringed(x, y, s, StringnCount(area, x, s, width), style, area.Left() + j, area.Top() + i, old(content[i, j]))
    {
      var n := StringnCount(area, x, s, width);
      for k := 0 to n
        invariant forall i, j :: 0 <= i < content.Length0 && 0 <= j < content.Length1 ==>
          content[i, j] == Stringed(x, y, s, k, style, area.Left() + j, area.Top() + i, old(content[i, j]))
      {
        content[y - area.Top(), x + k - area.Left()] := Cell([s[k]], style);
      }
    }
  }
}
