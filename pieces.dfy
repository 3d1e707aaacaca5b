/** The piece objects: their state, the one mutator, duplication onto
    another board, and the move-generation methods, each proved to return
    what the functions of `MoveGen` describe. */
module Pieces {
  import opened Geometry
  import opened Boards
  import opened Tables
  import opened MoveGen

  /** A piece of any of the six classes; `kind` stands for the Ruby class
      (`SlidingPiece` for Queen, Rook and Bishop, `SteppingPiece` for King,
      Knight and Pawn). */
  class Piece {
    const kind: Kind
    const color: Color
    const board: Board
    var position: Pos
    var captured: bool
    var moved: bool

    /** `initialize`: a piece that has not moved and is not captured. */
    constructor (kind: Kind, position: Pos, color: Color, board: Board)
      ensures this.kind == kind && this.color == color && this.board == board
      ensures this.position == position
      ensures !captured && !moved
    {
      this.kind := kind;
      this.color := color;
      this.board := board;
      this.position := position;
      this.captured := false;
      this.moved := false;
    }

    /** `vectors`: the table each class's constructor stores. */
    function Vectors(): seq<Vec>
    {
      VectorTable(kind, color)
    }

    /** `dup`: a new piece of the same class, colour and position on another
      board, with `moved` and `captured` back to false. */
    method Dup(dupedBoard: Board) returns (d: Piece)
      ensures fresh(d)
      ensures d.kind == kind && d.color == color && d.position == position
      ensures d.board == dupedBoard
      ensures !d.moved && !d.captured
    {
      d := new Piece(kind, position, color, dupedBoard);
    }

    /** `update_position`: moves the piece and marks it as moved; colour,
      capture flag, board and vectors are untouched. */
    method UpdatePosition(newPosition: Pos)
      modifies this`position, this`moved
      ensures position == newPosition && moved
      ensures captured == old(captured)
    {
      position := newPosition;
      moved := true;
    }

    /** `SteppingPiece#moves_from_vector`: exactly one square, one vector
      away. */
    function SteppingMovesFromVector(v: Vec): (moves: seq<Pos>)
      reads this
      ensures |moves| == 1 && Offset(position, moves[0]) == v
    {
      [Step(position, v)]
    }

    /** `SlidingPiece#moves_from_vector`: multiplies `v` by 1, 2, ... and
      stops at the board edge or after the first occupied square. */
    method SlidingMovesFromVector(v: Vec) returns (moves: seq<Pos>)
      requires Slides(kind) && v != Zero
      ensures moves == Ray(board.cells, position, v)
      ensures |moves| <= Size
    {
      ghost var ray := Ray(board.cells, position, v);
      moves := [];
      var i := 1;
      while true
        invariant 1 <= i
        invariant moves + RayFrom(board.cells, position, v, i) == ray
        decreases RayBound(position) + 1 - i
      {
        var move := Step(position, Scale(v, i));
        i := i + 1;
        if !board.InBounds(move) {
          break;
        }
        RayBoundHolds(position, v, i - 1);
        moves := moves + [move];
        if board.PieceAt(move).Occupied? {
          break;
        }
      }
      RayLength(board.cells, position, v);
    }

    /** The class's `moves_from_vector`, chosen by whether the piece slides. */
    method MovesFromVector(v: Vec) returns (moves: seq<Pos>)
      requires v != Zero
      ensures moves == VectorMoves(board.cells, kind, position, v)
    {
      if Slides(kind) {
        moves := SlidingMovesFromVector(v);
      } else {
        moves := SteppingMovesFromVector(v);
      }
    }

    /** `moves_in_range` as dispatched on the class: the pawn overrides the
      base method. */
    method MovesInRange() returns (moves: seq<Pos>)
      ensures moves == InRange(board.cells, kind, color, position, moved)
    {
      if kind == Pawn {
        moves := PawnMovesInRange();
      } else {
        moves := VectorMovesInRange();
      }
    }

    /** `Piece#moves_in_range`: the squares of every vector of the table,
      concatenated in table order. */
    method VectorMovesInRange() returns (moves: seq<Pos>)
      ensures moves == RangeMoves(board.cells, kind, position, Vectors())
    {
      var vs := Vectors();
      moves := [];
      for j := 0 to |vs|
        invariant moves == RangeMoves(board.cells, kind, position, vs[..j])
      {
        var more := MovesFromVector(vs[j]);
        assert vs[..j + 1] == vs[..j] + [vs[j]];
        RangeMovesAppend(board.cells, kind, position, vs[..j], [vs[j]]);
        moves := moves + more;
      }
      assert vs[..|vs|] == vs;
    }

    /** `Pawn#moves_in_range`: the forward squares that are not captures,
      then the capture squares that are. */
    method PawnMovesInRange() returns (moves: seq<Pos>)
      requires kind == Pawn
      ensures moves == PawnRange(board.cells, color, position, moved)
    {
      moves := [];
      var current := if moved then Vectors() else Vectors() + [PawnDouble(color)];
      for j := 0 to |current|
        invariant moves == Advances(board.cells, color, position, current[..j])
      {
        var pos := Step(position, current[j]);
        assert current[..j + 1] == current[..j] + [current[j]];
        AdvancesAppend(board.cells, color, position, current[..j], [current[j]]);
        if !IsCapture(board.cells, color, pos) {
          moves := moves + [pos];
        }
      }
      assert current[..|current|] == current;
      var captures := CaptureMoves();
      moves := moves + captures;
    }

    /** `capture_moves`: the diagonal squares that are captures. */
    method CaptureMoves() returns (captures: seq<Pos>)
      requires kind == Pawn
      ensures captures == Captures(board.cells, color, position, PawnCaptures(color))
      ensures forall m :: m in captures ==> OnBoard(m) && OccupantAt(board.cells, m) == Occupied(Opponent(color))
    {
      var vs := PawnCaptures(color);
      captures := [];
      for j := 0 to |vs|
        invariant captures == Captures(board.cells, color, position, vs[..j])
      {
        var pos := Step(position, vs[j]);
        assert vs[..j + 1] == vs[..j] + [vs[j]];
        CapturesAppend(board.cells, color, position, vs[..j], [vs[j]]);
        if IsCapture(board.cells, color, pos) {
          captures := captures + [pos];
        }
      }
      assert vs[..|vs|] == vs;
      forall m | m in captures {
        CapturesMembership(board.cells, color, position, vs, m);
      }
    }

    /** `possible_moves`: the raw candidates that are on the board and not
      held by a piece of the mover's colour. */
    method PossibleMoves() returns (moves: seq<Pos>)
      ensures moves == Possible(board.cells, kind, color, position, moved)
      ensures forall m :: m in moves ==> OnBoard(m) && OccupantAt(board.cells, m) != Occupied(color)
    {
      var raw := MovesInRange();
      moves := Legal(board.cells, color, raw);
      forall m | m in moves {
        LegalMembership(board.cells, color, raw, m);
      }
    }
  }

  /** A pawn that has been moved by `update_position` is never again offered
      its double step, wherever it now stands and whatever the board holds. */
  method MovedPawnMoves(p: Piece, newPosition: Pos) returns (moves: seq<Pos>)
    requires p.kind == Pawn
    modifies p`position, p`moved
    ensures p.position == newPosition && p.moved
    ensures moves == Possible(p.board.cells, Pawn, p.color, newPosition, true)
    ensures Step(newPosition, PawnDouble(p.color)) !in moves
  {
    p.UpdatePosition(newPosition);
    moves := p.PossibleMoves();
    MovedPawnHasNoDoubleStep(p.board.cells, p.color, newPosition);
  }
}
