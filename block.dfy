/**
 * `Block` of the tui crate (rumatui-tui/src/widgets/block.rs): a box with
 * optional borders on each of its four sides and an optional title on its
 * top row. `Inner` computes the area left inside the borders; `Render` draws
 * the borders, corners and title into a cell buffer.
 */
module BlockWidget {
  import opened Wrappers
  import opened Layout
  import opened Buffers

  /** One flag of the `Borders` bitflags. */
  datatype Border = Top | Right | Bottom | Left

  /** `Borders`: the set of visible sides. */
  type Borders = set<Border>

  const NoBorders: Borders := {}

  const AllBorders: Borders := {Top, Right, Bottom, Left}

  datatype BorderType = Plain | Rounded | Double | Thick

  /** The glyphs of one `line::Set` that a block draws. */
  datatype LineSet = LineSet(
    vertical: string, horizontal: string,
    topRight: string, topLeft: string, bottomRight: string, bottomLeft: string)

  const NormalLines: LineSet := LineSet("\U{2502}", "\U{2500}", "\U{2510}", "\U{250C}", "\U{2518}", "\U{2514}")
  const RoundedLines: LineSet := LineSet("\U{2502}", "\U{2500}", "\U{256E}", "\U{256D}", "\U{256F}", "\U{2570}")
  const DoubleLines: LineSet := LineSet("\U{2551}", "\U{2550}", "\U{2557}", "\U{2554}", "\U{255D}", "\U{255A}")
  const ThickLines: LineSet := LineSet("\U{2503}", "\U{2501}", "\U{2513}", "\U{250F}", "\U{251B}", "\U{2517}")

  /** Every glyph fills one cell and the six glyphs are told apart on screen. */
  predicate Drawable(s: LineSet) {
    |s.vertical| == 1 && |s.horizontal| == 1 && |s.topRight| == 1 &&
    |s.topLeft| == 1 && |s.bottomRight| == 1 && |s.bottomLeft| == 1 &&
    s.vertical != s.horizontal &&
    var corners := [s.topRight, s.topLeft, s.bottomRight, s.bottomLeft];
    (forall k :: 0 <= k < 4 ==> corners[k] != s.vertical && corners[k] != s.horizontal) &&
    (forall k, l :: 0 <= k < l < 4 ==> corners[k] != corners[l])
  }

  /** `BorderType::line_symbols`. */
  function LineSymbols(t: BorderType): (r: LineSet)
    ensures Drawable(r)
    ensures t == Plain || t == Rounded <==> r.vertical == NormalLines.vertical
    ensures t == Plain || t == Rounded <==> r.horizontal == NormalLines.horizontal
  {
    match t
    case Plain => NormalLines
    case Rounded => RoundedLines
    case Double => DoubleLines
    case Thick => ThickLines
  }

  /** Different border types draw different glyph sets. */
  lemma LineSymbolsInjective(t: BorderType, u: BorderType)
    ensures LineSymbols(t) == LineSymbols(u) <==> t == u
  {
  }

  datatype Block = Block(
    title: Option<string>,
    titleStyle: Style,
    borders: Borders,
    borderStyle: Style,
    borderType: BorderType,
    style: Style)

  /** `Block::default()`. */
  function Default(): (b: Block)
    ensures b.title == None && b.borders == NoBorders && b.borderType == Plain
    ensures b.titleStyle == DefaultStyle && b.borderStyle == DefaultStyle && b.style == DefaultStyle
  {
    Block(None, DefaultStyle, NoBorders, DefaultStyle, Plain, DefaultStyle)
  }

  // The builders: each sets one field and keeps the others.

  function WithTitle(b: Block, title: string): (r: Block)
    ensures r.title == Some(title) && r.(title := b.title) == b
  {
    b.(title := Some(title))
  }

  function WithTitleStyle(b: Block, style: Style): (r: Block)
    ensures r.titleStyle == style && r.(titleStyle := b.titleStyle) == b
  {
    b.(titleStyle := style)
  }

  function WithBorderStyle(b: Block, style: Style): (r: Block)
    ensures r.borderStyle == style && r.(borderStyle := b.borderStyle) == b
  {
    b.(borderStyle := style)
  }

  function WithStyle(b: Block, style: Style): (r: Block)
    ensures r.style == style && r.(style := b.style) == b
  {
    b.(style := style)
  }

  function WithBorders(b: Block, flags: Borders): (r: Block)
    ensures r.borders == flags && r.(borders := b.borders) == b
  {
    b.(borders := flags)
  }

  function WithBorderType(b: Block, borderType: BorderType): (r: Block)
    ensures r.borderType == borderType && r.(borderType := b.borderType) == b
  {
    b.(borderType := borderType)
  }

  /** Setters of different fields commute: a builder chain may name its fields in any order. */
  lemma BuildersCommute(b: Block, title: string, titleStyle: Style, borderStyle: Style, style: Style,
                        flags: Borders, borderType: BorderType)
    ensures WithTitle(WithTitleStyle(b, titleStyle), title) == WithTitleStyle(WithTitle(b, title), titleStyle)
    ensures WithTitle(WithBorderStyle(b, borderStyle), title) == WithBorderStyle(WithTitle(b, title), borderStyle)
    ensures WithTitle(WithStyle(b, style), title) == WithStyle(WithTitle(b, title), style)
    ensures WithTitle(WithBorders(b, flags), title) == WithBorders(WithTitle(b, title), flags)
    ensures WithTitle(WithBorderType(b, borderType), title) == WithBorderType(WithTitle(b, title), borderType)
    ensures WithTitleStyle(WithBorderStyle(b, borderStyle), titleStyle) == WithBorderStyle(WithTitleStyle(b, titleStyle), borderStyle)
    ensures WithTitleStyle(WithStyle(b, style), titleStyle) == WithStyle(WithTitleStyle(b, titleStyle), style)
    ensures WithTitleStyle(WithBorders(b, flags), titleStyle) == WithBorders(WithTitleStyle(b, titleStyle), flags)
    ensures WithTitleStyle(WithBorderType(b, borderType), titleStyle) == WithBorderType(WithTitleStyle(b, titleStyle), borderType)
    ensures WithBorderStyle(WithStyle(b, style), borderStyle) == WithStyle(WithBorderStyle(b, borderStyle), style)
    ensures WithBorderStyle(WithBorders(b, flags), borderStyle) == WithBorders(WithBorderStyle(b, borderStyle), flags)
    ensures WithBorderStyle(WithBorderType(b, borderType), borderStyle) == WithBorderType(WithBorderStyle(b, borderStyle), borderType)
    ensures WithStyle(WithBorders(b, flags), style) == WithBorders(WithStyle(b, style), flags)
    ensures WithStyle(WithBorderType(b, borderType), style) == WithBorderType(WithStyle(b, style), borderType)
    ensures WithBorders(WithBorderType(b, borderType), flags) == WithBorderType(WithBorders(b, flags), borderType)
  {
  }

  /** Of two setters of the same field the last one wins. */
  lemma BuildersLastWins(b: Block, title: string, title': string, s: Style, s': Style,
                         flags: Borders, flags': Borders, t: BorderType, t': BorderType)
    ensures WithTitle(WithTitle(b, title), title') == WithTitle(b, title')
    ensures WithTitleStyle(WithTitleStyle(b, s), s') == WithTitleStyle(b, s')
    ensures WithBorderStyle(WithBorderStyle(b, s), s') == WithBorderStyle(b, s')
    ensures WithStyle(WithStyle(b, s), s') == WithStyle(b, s')
    ensures WithBorders(WithBorders(b, flags), flags') == WithBorders(b, flags')
    ensures WithBorderType(WithBorderType(b, t), t') == WithBorderType(b, t')
  {
  }

  /** Columns taken by the left border: `lx` in `render`. */
  function Lx(b: Block): nat { if Left in b.borders then 1 else 0 }

  /** Columns taken by the right border: `rx` in `render`. */
  function Rx(b: Block): nat { if Right in b.borders then 1 else 0 }

  /** Rows taken at the top, by the top border or by the title. */
  function Ty(b: Block): nat { if Top in b.borders || b.title.Some? then 1 else 0 }

  /** Rows taken by the bottom border. */
  function By(b: Block): nat { if Bottom in b.borders then 1 else 0 }

  /** `area` is too small for a block: `inner` and `render` give up on it. */
  predicate TooSmall(area: Rect) { area.width < 2 || area.height < 2 }

  /** `+= 1` on a `u16` as a release build runs it: 0xFFFF wraps round to 0. */
  function Inc(v: u16): (r: u16)
    ensures r as int == (v as int + 1) % 0x1_0000
  {
    if v as int == U16Max then 0 else v + 1
  }

  /**
   * `Block::inner`: the area left inside the visible borders. The decrements
   * never underflow, since past the size guard both sizes are at least 2;
   * the increments wrap only on a rectangle whose far edge is not
   * representable.
   */
  function Inner(b: Block, area: Rect): (r: Rect)
    ensures TooSmall(area) ==> r == ZeroRect
    ensures !TooSmall(area) ==>
      r.x as int == (area.x as int + Lx(b)) % 0x1_0000 && r.width as int == area.width as int - Lx(b) - Rx(b) &&
      r.y as int == (area.y as int + Ty(b)) % 0x1_0000 && r.height as int == area.height as int - Ty(b) - By(b)
  {
    if TooSmall(area) then ZeroRect
    else
      var inner := area;
      var inner := if Left in b.borders then inner.(x := Inc(inner.x), width := inner.width - 1) else inner;
      var inner := if Top in b.borders || b.title.Some? then inner.(y := Inc(inner.y), height := inner.height - 1) else inner;
      var inner := if Right in b.borders then inner.(width := inner.width - 1) else inner;
      if Bottom in b.borders then inner.(height := inner.height - 1) else inner
  }

  /**
   * Past the size guard the inner area of a representable rectangle lies
   * inside it, shifted by the left border and the top row; below the guard
   * the result is the empty rectangle at the origin.
   */
  lemma InnerWithin(b: Block, area: Rect)
    requires area.Fits()
    ensures !TooSmall(area) ==> area.Encloses(Inner(b, area))
    ensures !TooSmall(area) ==> Inner(b, area).Left() == area.Left() + Lx(b) && Inner(b, area).Top() == area.Top() + Ty(b)
    ensures TooSmall(area) ==> Inner(b, area).width == 0 && Inner(b, area).height == 0
  {
  }

  /** Without borders and title the inner area is the whole area. */
  lemma InnerWithoutDecoration(b: Block, area: Rect)
    requires b.borders == NoBorders && b.title == None
    ensures Inner(b, area) == if TooSmall(area) then ZeroRect else area
  {
  }

  /** With all borders the inner area of a representable rectangle loses one cell on every side. */
  lemma InnerAllBorders(b: Block, area: Rect)
    requires area.Fits() && b.borders == AllBorders && !TooSmall(area)
    ensures Inner(b, area) == Rect(area.x + 1, area.y + 1, area.width - 2, area.height - 2)
  {
  }

  /** `area.width - lx - rx`, the room `render` gives the title. */
  function TitleWidth(b: Block, area: Rect): (w: u16)
    requires !TooSmall(area)
    ensures area.Left() + Lx(b) + w as int + Rx(b) == area.Right()
  {
    area.width - Lx(b) as u16 - Rx(b) as u16
  }

  /** The title gets exactly the columns of the inner area. */
  lemma TitleSpansInner(b: Block, area: Rect)
    requires area.Fits() && !TooSmall(area)
    ensures TitleWidth(b, area) == Inner(b, area).width
    ensures b.title.Some? ==> Inner(b, area).Left() == area.Left() + Lx(b)
  {
  }

  /** How many title characters `render` writes. */
  function TitleCount(b: Block, area: Rect): nat
    requires !TooSmall(area) && b.title.Some?
  {
    Min(|b.title.value|, TitleWidth(b, area) as int)
  }

  /** The cell at (x, y) after the four side loops of `render`. */
  function AfterSides(b: Block, area: Rect, x: int, y: int, c: Cell): Cell {
    var s := LineSymbols(b.borderType);
    var vertical := Cell(s.vertical, b.borderStyle);
    var horizontal := Cell(s.horizontal, b.borderStyle);
    var (l, r, t, bt) := (area.Left(), area.Right(), area.Top(), area.Bottom());
    var c := Stroke(Left in b.borders, l, l + 1, t, bt, vertical, x, y, c);
    var c := Stroke(Top in b.borders, l, r, t, t + 1, horizontal, x, y, c);
    var c := Stroke(Right in b.borders, r - 1, r, t, bt, vertical, x, y, c);
    Stroke(Bottom in b.borders, l, r, bt - 1, bt, horizontal, x, y, c)
  }

  /** The cell at (x, y) after the four corner writes of `render`. */
  function AfterCorners(b: Block, area: Rect, x: int, y: int, c: Cell): Cell {
    var s := LineSymbols(b.borderType);
    var (l, r, t, bt) := (area.Left(), area.Right(), area.Top(), area.Bottom());
    var c := Stroke({Left, Top} <= b.borders, l, l + 1, t, t + 1, Cell(s.topLeft, b.borderStyle), x, y, c);
    var c := Stroke({Right, Top} <= b.borders, r - 1, r, t, t + 1, Cell(s.topRight, b.borderStyle), x, y, c);
    var c := Stroke({Left, Bottom} <= b.borders, l, l + 1, bt - 1, bt, Cell(s.bottomLeft, b.borderStyle), x, y, c);
    Stroke({Right, Bottom} <= b.borders, r - 1, r, bt - 1, bt, Cell(s.bottomRight, b.borderStyle), x, y, c)
  }

  /** The cell at (x, y) after the title is written. */
  function AfterTitle(b: Block, area: Rect, x: int, y: int, c: Cell): Cell
    requires !TooSmall(area)
  {
    if b.title.Some? then
      Stringed(area.Left() + Lx(b), area.Top(), b.title.value, TitleCount(b, area), b.titleStyle, x, y, c)
    else c
  }

  /** The title occupies the cell at (x, y). */
  predicate InTitle(b: Block, area: Rect, x: int, y: int)
    requires !TooSmall(area)
  {
    b.title.Some? && y == area.Top() &&
    area.Left() + Lx(b) <= x < area.Left() + Lx(b) + TitleCount(b, area)
  }

  /** The cell at (x, y) after `render(area)`, given the cell `c` there before. */
  function Rendered(b: Block, area: Rect, x: int, y: int, c: Cell): Cell {
    if TooSmall(area) then c
    else
      var c := Backgrounded(area, b.style.bg, x, y, c);
      AfterTitle(b, area, x, y, AfterCorners(b, area, x, y, AfterSides(b, area, x, y, c)))
  }

  /** `render` writes nothing outside `area`, and nothing at all below the size guard. */
  lemma RenderedConfined(b: Block, area: Rect, x: int, y: int, c: Cell)
    requires area.Fits()
    requires TooSmall(area) || !area.Holds(x, y)
    ensures Rendered(b, area, x, y, c) == c
  {
  }

  /** The left edge shows the vertical glyph, or a corner where the adjacent side is drawn too. */
  lemma RenderedLeftEdge(b: Block, area: Rect, y: int, c: Cell)
    requires area.Fits() && !TooSmall(area) && Left in b.borders
    requires area.Top() <= y < area.Bottom()
    ensures var s := LineSymbols(b.borderType);
      Rendered(b, area, area.Left(), y, c) == Cell(
        if y == area.Top() && Top in b.borders then s.topLeft
        else if y == area.Bottom() - 1 && Bottom in b.borders then s.bottomLeft
        else s.vertical,
        b.borderStyle)
  {
  }

  /** The right edge shows the vertical glyph, or a corner where the adjacent side is drawn too. */
  lemma RenderedRightEdge(b: Block, area: Rect, y: int, c: Cell)
    requires area.Fits() && !TooSmall(area) && Right in b.borders
    requires area.Top() <= y < area.Bottom()
    ensures var s := LineSymbols(b.borderType);
      Rendered(b, area, area.Right() - 1, y, c) == Cell(
        if y == area.Top() && Top in b.borders then s.topRight
        else if y == area.Bottom() - 1 && Bottom in b.borders then s.bottomRight
        else s.vertical,
        b.borderStyle)
  {
  }

  /** The top edge shows the title where it is written, else the horizontal glyph or a corner. */
  lemma RenderedTopEdge(b: Block, area: Rect, x: int, c: Cell)
    requires area.Fits() && !TooSmall(area) && Top in b.borders
    requires area.Left() <= x < area.Right()
    ensures var s := LineSymbols(b.borderType);
      Rendered(b, area, x, area.Top(), c) ==
        if InTitle(b, area, x, area.Top()) then Cell([b.title.value[x - area.Left() - Lx(b)]], b.titleStyle)
        else Cell(
          if x == area.Left() && Left in b.borders then s.topLeft
          else if x == area.Right() - 1 && Right in b.borders then s.topRight
          else s.horizontal,
          b.borderStyle)
  {
  }

  /** The bottom edge shows the horizontal glyph, or a corner where the adjacent side is drawn too. */
  lemma RenderedBottomEdge(b: Block, area: Rect, x: int, c: Cell)
    requires area.Fits() && !TooSmall(area) && Bottom in b.borders
    requires area.Left() <= x < area.Right()
    ensures var s := LineSymbols(b.borderType);
      Rendered(b, area, x, area.Bottom() - 1, c) == Cell(
        if x == area.Left() && Left in b.borders then s.bottomLeft
        else if x == area.Right() - 1 && Right in b.borders then s.bottomRight
        else s.horizontal,
        b.borderStyle)
  {
  }

  /** Wherever the title is written it shows its own character in the title style, whatever the borders. */
  lemma RenderedTitle(b: Block, area: Rect, x: int, c: Cell)
    requires !TooSmall(area) && InTitle(b, area, x, area.Top())
    ensures Rendered(b, area, x, area.Top(), c) == Cell([b.title.value[x - area.Left() - Lx(b)]], b.titleStyle)
  {
  }

  /** The title never covers a corner whose two sides are both drawn. */
  lemma TitleSparesCorners(b: Block, area: Rect)
    requires area.Fits() && !TooSmall(area)
    ensures Left in b.borders ==> !InTitle(b, area, area.Left(), area.Top())
    ensures Right in b.borders ==> !InTitle(b, area, area.Right() - 1, area.Top())
  {
  }

  /** A cell of `area` on no drawn side and outside the title only gets the block's background. */
  lemma RenderedInterior(b: Block, area: Rect, x: int, y: int, c: Cell)
    requires area.Fits() && !TooSmall(area) && area.Holds(x, y)
    requires !InTitle(b, area, x, y)
    requires Left in b.borders ==> x != area.Left()
    requires Right in b.borders ==> x != area.Right() - 1
    requires Top in b.borders ==> y != area.Top()
    requires Bottom in b.borders ==> y != area.Bottom() - 1
    ensures Rendered(b, area, x, y, c) == WithBg(c, b.style.bg)
  {
  }

  /** The loop of `render` that draws a left or right side. */
  method DrawColumn(buf: Buffer, x: int, top: int, bottom: int, cell: Cell)
    requires buf.Valid() && buf.area.Left() <= x < buf.area.Right()
    requires buf.area.Top() <= top <= bottom <= buf.area.Bottom()
    modifies buf.content
    ensures forall i, j :: 0 <= i < buf.content.Length0 && 0 <= j < buf.content.Length1 ==>
      buf.content[i, j] == Stroke(true, x, x + 1, top, bottom, cell, buf.area.Left() + j, buf.area.Top() + i, old(buf.content[i, j]))
  {
    for y := top to bottom
      invariant forall i, j :: 0 <= i < buf.content.Length0 && 0 <= j < buf.content.Length1 ==>
        buf.content[i, j] == Stroke(true, x, x + 1, top, y, cell, buf.area.Left() + j, buf.area.Top() + i, old(buf.content[i, j]))
    {
      buf.Set(x, y, cell);
    }
  }

  /** The loop of `render` that draws the top or bottom side. */
  method DrawRow(buf: Buffer, y: int, left: int, right: int, cell: Cell)
    requires buf.Valid() && buf.area.Top() <= y < buf.area.Bottom()
    requires buf.area.Left() <= left <= right <= buf.area.Right()
    modifies buf.content
    ensures forall i, j :: 0 <= i < buf.content.Length0 && 0 <= j < buf.content.Length1 ==>
      buf.content[i, j] == Stroke(true, left, right, y, y + 1, cell, buf.area.Left() + j, buf.area.Top() + i, old(buf.content[i, j]))
  {
    for x := left to right
      invariant forall i, j :: 0 <= i < buf.content.Length0 && 0 <= j < buf.content.Length1 ==>
        buf.content[i, j] == Stroke(true, left, x, y, y + 1, cell, buf.area.Left() + j, buf.area.Top() + i, old(buf.content[i, j]))
    {
      buf.Set(x, y, cell);
    }
  }

  /** The four side loops of `render`. */
  method DrawSides(b: Block, area: Rect, buf: Buffer)
    requires buf.Valid() && !TooSmall(area) && buf.area.Encloses(area)
    modifies buf.content
    ensures forall i, j :: 0 <= i < buf.content.Length0 && 0 <= j < buf.content.Length1 ==>
      buf.content[i, j] == AfterSides(b, area, buf.area.Left() + j, buf.area.Top() + i, old(buf.content[i, j]))
  {
    var symbols := LineSymbols(b.borderType);
    var vertical := Cell(symbols.vertical, b.borderStyle);
    var horizontal := Cell(symbols.horizontal, b.borderStyle);
    if Left in b.borders {
      DrawColumn(buf, area.Left(), area.Top(), area.Bottom(), vertical);
    }
    if Top in b.borders {
      DrawRow(buf, area.Top(), area.Left(), area.Right(), horizontal);
    }
    if Right in b.borders {
      DrawColumn(buf, area.Right() - 1, area.Top(), area.Bottom(), vertical);
    }
    if Bottom in b.borders {
      DrawRow(buf, area.Bottom() - 1, area.Left(), area.Right(), horizontal);
    }
  }

  /** The four corner writes of `render`, each where both adjacent sides are drawn. */
  method DrawCorners(b: Block, area: Rect, buf: Buffer)
    requires buf.Valid() && !TooSmall(area) && buf.area.Encloses(area)
    modifies buf.content
    ensures forall i, j :: 0 <= i < buf.content.Length0 && 0 <= j < buf.content.Length1 ==>
      buf.content[i, j] == AfterCorners(b, area, buf.area.Left() + j, buf.area.Top() + i, old(buf.content[i, j]))
  {
    var symbols := LineSymbols(b.borderType);
    if {Left, Top} <= b.borders {
      buf.Set(area.Left(), area.Top(), Cell(symbols.topLeft, b.borderStyle));
    }
    if {Right, Top} <= b.borders {
      buf.Set(area.Right() - 1, area.Top(), Cell(symbols.topRight, b.borderStyle));
    }
    if {Left, Bottom} <= b.borders {
      buf.Set(area.Left(), area.Bottom() - 1, Cell(symbols.bottomLeft, b.borderStyle));
    }
    if {Right, Bottom} <= b.borders {
      buf.Set(area.Right() - 1, area.Bottom() - 1, Cell(symbols.bottomRight, b.borderStyle));
    }
  }

  /**
   * `Widget::render` for a block: background, the four sides, the corners,
   * then the title, each cell ending as `Rendered` says. Outside a 2x2 area
   * the buffer must hold `area` (`get_mut` panics otherwise).
   */
  method Render(b: Block, area: Rect, buf: Buffer)
    requires buf.Valid()
    requires !TooSmall(area) ==> buf.area.Encloses(area)
    modifies buf.content
    ensures forall i, j :: 0 <= i < buf.content.Length0 && 0 <= j < buf.content.Length1 ==>
      buf.content[i, j] == Rendered(b, area, buf.area.Left() + j, buf.area.Top() + i, old(buf.content[i, j]))
  {
    if area.width < 2 || area.height < 2 {
      return;
    }
    buf.SetBackground(area, b.style.bg);
    label background:

    DrawSides(b, area, buf);
    DrawCorners(b, area, buf);
    assert forall i, j :: 0 <= i < buf.content.Length0 && 0 <= j < buf.content.Length1 ==>
      buf.content[i, j] == AfterCorners(b, area, buf.area.Left() + j, buf.area.Top() + i,
        AfterSides(b, area, buf.area.Left() + j, buf.area.Top() + i, old@background(buf.content[i, j])));

    if b.title.Some? {
      var lx: u16 := if Left in b.borders then 1 else 0;
      var rx: u16 := if Right in b.borders then 1 else 0;
      var width := area.width - lx - rx;
      assert width == TitleWidth(b, area);
      buf.SetStringn(area.Left() + lx as int, area.Top(), b.title.value, width as nat, b.titleStyle);
      assert StringnCount(buf.area, area.Left() + lx as int, b.title.value, width as nat) == TitleCount(b, area);
    }
  }
}
