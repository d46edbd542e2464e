/** The pixel buffer (screen.rs): 160 x 144 four-shade pixels in one flat
    array, addressed row by row. */
module Screen {
  import opened Util

  datatype Pixel = Black | DarkGray | LightGray | White

  const HORIZONTAL_SCREEN_PIXELS: u8 := 160
  const VERTICAL_SCREEN_PIXELS: u8 := 144
  const SCREEN_CELLS: nat := HORIZONTAL_SCREEN_PIXELS as nat * VERTICAL_SCREEN_PIXELS as nat

  /** The cell `(x, y)` addresses. Only this combined index is bounds-checked,
      not x and y separately. */
  function Index(x: u8, y: u8): nat {
    y * HORIZONTAL_SCREEN_PIXELS + x
  }

  /** Every on-screen coordinate addresses a cell of the buffer. */
  lemma IndexInBounds(x: u8, y: u8)
    requires x < HORIZONTAL_SCREEN_PIXELS && y < VERTICAL_SCREEN_PIXELS
    ensures Index(x, y) < SCREEN_CELLS
  {
  }

  /** Distinct on-screen coordinates address distinct cells. */
  lemma IndexInjective(x1: u8, y1: u8, x2: u8, y2: u8)
    requires x1 < HORIZONTAL_SCREEN_PIXELS && x2 < HORIZONTAL_SCREEN_PIXELS
    requires Index(x1, y1) == Index(x2, y2)
    ensures x1 == x2 && y1 == y2
  {
  }

  /** An x past the right edge wraps onto the start of the next row. */
  lemma IndexAliasesNextRow(x: u8, y: u8)
    requires x >= HORIZONTAL_SCREEN_PIXELS && y < 0xFF
    ensures Index(x, y) == Index(x - HORIZONTAL_SCREEN_PIXELS, y + 1)
  {
  }

  class Screen {
    const cells: array<Pixel>

    ghost predicate Valid() {
      cells.Length == SCREEN_CELLS
    }

    /** `Screen::new`: every pixel white. */
    constructor ()
      ensures Valid() && fresh(cells)
      ensures forall i :: 0 <= i < cells.Length ==> cells[i] == White
      ensures forall x: u8, y: u8 :: x < HORIZONTAL_SCREEN_PIXELS && y < VERTICAL_SCREEN_PIXELS ==> GetPixel(x, y) == White
    {
      cells := new Pixel[SCREEN_CELLS](_ => White);
    }

    function GetPixel(x: u8, y: u8): Pixel
      reads cells
      requires Valid() && Index(x, y) < SCREEN_CELLS
    {
      cells[Index(x, y)]
    }

    /** Overwrites the one cell `(x, y)` addresses; for an on-screen x that is
        the pixel at (x, y) and no other. */
    method SetPixel(x: u8, y: u8, p: Pixel)
      requires Valid() && Index(x, y) < SCREEN_CELLS
      modifies cells
      ensures cells[..] == old(cells[..])[Index(x, y) := p]
      ensures GetPixel(x, y) == p
      ensures x < HORIZONTAL_SCREEN_PIXELS ==>
                forall x': u8, y': u8 ::
                  x' < HORIZONTAL_SCREEN_PIXELS && y' < VERTICAL_SCREEN_PIXELS && (x' != x || y' != y) ==>
                    GetPixel(x', y') == old(GetPixel(x', y'))
    {
      cells[Index(x, y)] := p;
    }
  }
}
