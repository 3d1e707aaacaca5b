/** The board as the move generator sees it: a bounds test and, for each
    square, whether a piece stands there and of which colour. Only these three
    queries are used; how the board is built and updated is outside the model. */
module Boards {
  import opened Geometry

  /** The board is Size by Size, indexed from 0. */
  const Size: nat := 8

  /** The occupied squares and the colour of the piece on each; every square
      not in the map is empty. */
  type Grid = map<Pos, Color>

  /** What `piece_at` answers: a piece of some colour, or the empty sentinel
      whose `piece?` is false. */
  datatype Occupant = Empty | Occupied(color: Color)

  /** `in_bounds?` */
  predicate OnBoard(p: Pos)
  {
    0 <= p.x < Size && 0 <= p.y < Size
  }

  /** `piece_at` */
  function OccupantAt(g: Grid, p: Pos): Occupant
  {
    if p in g then Occupied(g[p]) else Empty
  }

  /** `color_at`: the colour of the piece on `p`, none for an empty square. */
  function ColorOf(g: Grid, p: Pos): Option<Color>
  {
    if p in g then Some(g[p]) else None
  }

  datatype Option<T> = None | Some(value: T)

  /** The board object the pieces refer to. Other code replaces its contents
      between queries; a piece only ever asks the three questions below. */
  class Board {
    var cells: Grid

    constructor (cells: Grid)
      ensures this.cells == cells
    {
      this.cells := cells;
    }

    predicate InBounds(p: Pos)
    {
      OnBoard(p)
    }

    function PieceAt(p: Pos): Occupant
      reads this
    {
      OccupantAt(cells, p)
    }

    function ColorAt(p: Pos): Option<Color>
      reads this
    {
      ColorOf(cells, p)
    }
  }
}
