// The terminal as the game sees it: a grid of cells, each holding a glyph
// drawn with a colour pair. Only the controller thread writes to it.

module Screen {

  /** A cell position: row first, as `mvaddch` takes it. */
  datatype Pos = Pos(row: int, col: int)

  /** The colour pair a glyph is drawn with. */
  datatype Style = Plain | PaddlePair | BallPair | AiPair

  datatype Cell = Cell(glyph: char, style: Style)

  /** What an erase writes: a space with no colour pair. */
  const BLANK: Cell := Cell(' ', Plain)

  class Terminal {
    /** Cells written since the last clear; every other cell shows as blank. */
    var cells: map<Pos, Cell>

    constructor ()
      ensures cells == map[]
    {
      cells := map[];
    }

    /** `clear`: every cell blank again. */
    method Clear()
      modifies this
      ensures cells == map[]
    {
      cells := map[];
    }

    /** `mvaddch` between `attron` and `attroff` of `style`. */
    method Put(row: int, col: int, glyph: char, style: Style)
      modifies this
      ensures cells == old(cells)[Pos(row, col) := Cell(glyph, style)]
    {
      cells := cells[Pos(row, col) := Cell(glyph, style)];
    }
  }
}
