/**
 * Terminal geometry of the tui crate: coordinates and sizes are `u16`, and a
 * `Rect` is a rectangle of cells given by its top-left corner and its size.
 */
module Layout {

  /** Rust's `u16`: every coordinate and size of a `Rect`. */
  newtype u16 = i: int | 0 <= i < 0x1_0000

  const U16Max: int := 0xFFFF

  datatype Rect = Rect(x: u16, y: u16, width: u16, height: u16) {

    /**
     * `right()` and `bottom()` are computed as `x + width` and `y + height`
     * in `u16`; a rectangle whose far edges are representable.
     */
    predicate Fits() {
      x as int + width as int <= U16Max && y as int + height as int <= U16Max
    }

    function Left(): int { x as int }

    function Right(): int { x as int + width as int }

    function Top(): int { y as int }

    function Bottom(): int { y as int + height as int }

    /** The cell at column `px`, row `py` lies inside this rectangle. */
    predicate Holds(px: int, py: int) {
      Left() <= px < Right() && Top() <= py < Bottom()
    }

    /** Every cell of `r` lies inside this rectangle. */
    predicate Encloses(r: Rect) {
      Left() <= r.Left() && r.Right() <= Right() && Top() <= r.Top() && r.Bottom() <= Bottom()
    }
  }

  /** `Rect::default()`: the empty rectangle at the origin. */
  const ZeroRect: Rect := Rect(0, 0, 0, 0)
}
