# Chess piece move generation, modelled in Dafny

This project models the move generator of a small Ruby chess program
(`piece.rb`). A piece knows its colour, its square, whether it has moved and
the board it stands on. Asked for its `possible_moves`, it does two things:

1. It gathers raw candidate squares with `moves_in_range`. That method walks
   the piece's table of direction vectors:
   - a sliding piece (queen, rook, bishop) casts a ray along each vector;
   - a stepping piece (king, knight) takes one step along each vector;
   - the pawn overrides the whole method. It tries its forward step (plus the
     double step while it has not moved) unless that square is a capture,
     and then each diagonal square that is a capture.
2. It keeps the candidates that are on the board and not held by a piece of
   its own colour (`self_blocking?`).

The model is split along the program's own structure:

- `geometry.dfy` (`Geometry`): squares `[x, y]`, offsets, the two colours,
  `opponent_color` and `step`.
- `boards.dfy` (`Boards`): the board as the pieces see it. It is an 8×8
  bounds test plus a map from occupied squares to colours, from which
  `piece_at` and `color_at` are derived. `Board` is the object a piece holds.
- `tables.dfy` (`Tables`): the piece kinds and the constant vector tables,
  including the pawn's colour-dependent tables.
- `movegen.dfy` (`MoveGen`): the move generator as functions of the board
  contents and the piece's state, with the properties proved about them.
  The sliding ray comes with a non-recursive characterisation (`IsRayFrom`)
  and proofs that the recursive definition meets it and is the only sequence
  that does. Its termination rests on the board being bounded (`RayBound`).
- `pieces.dfy` (`Pieces`): the `Piece` class with its mutable `position`,
  `moved` and `captured` fields.
  - `UpdatePosition` mutates the piece, and `Dup` rebuilds it on another
    board.
  - The source's loops are methods with loop invariants:
    - the sliding `loop` with its counter `i`;
    - the `each` loops of `moves_in_range`, `Pawn#moves_in_range` and
      `capture_moves`.
  - Each method is proved to return exactly the corresponding `MoveGen`
    function.
- `scenarios.dfy` (`Scenarios`): concrete positions derived from the model:
  - a rook on an empty board and a rook blocked by a friend;
  - a knight in the corner;
  - a pawn's opening moves, a pawn capture, and a pawn double-stepping over
    a blocker.

As written, `dup` resets `moved`. So a duplicated pawn that has already moved
is offered its double step again. `Pieces.Piece.Dup` states this reset
(`!d.moved`), and `MoveGen.PawnDoubleStep` shows what follows from it.

## Model

| member | source | states |
|---|---|---|
| Geometry.Opponent | piece.rb:25-27 | the opponent colour differs from the piece's colour, so with two colours white and black are swapped |
| Geometry.OpponentInvolution | piece.rb:25-27 | `opponent_color` applied twice gives back the original colour |
| Geometry.Step | piece.rb:71-75 | `step`: the square reached by adding the vector to the position, with no bounds check; the pawn's `move_from_vector` (piece.rb:200-202) is the same sum. Described by `Geometry.StepOffsetInverse` |
| Geometry.StepOffsetInverse | piece.rb:71-75 | `step(v)` lands on the square whose offset from the piece is `v`, and stepping by the offset between two squares leads from the first to the second; the pawn's `move_from_vector` (piece.rb:200-202) is the same sum |
| Tables.VectorTable | piece.rb:108-187 | each class's `vectors` table has no zero vector; rook and bishop tables have 4 entries, queen, king and knight tables 8; the pawn's table is its single forward vector |
| Tables.PawnForward | piece.rb:183 | the pawn's single forward vector, `[1,0]` for white and `[-1,0]` for black. Described by `Tables.PawnVectorsMirror` |
| Tables.PawnDouble | piece.rb:185 | the pawn's `double_vector`, `[2,0]` for white and `[-2,0]` for black. Described by `Tables.PawnVectorsMirror` |
| Tables.PawnCaptures | piece.rb:184 | the pawn's two `capture_vectors`, in table order. Described by `Tables.PawnVectorsMirror` |
| Tables.VectorTableDirections | piece.rb:4-172 | the rook moves by exactly the four orthogonal unit vectors, the bishop by the four diagonal unit vectors, queen and king by all eight, the knight by the eight (±1,±2)/(±2,±1) offsets |
| Tables.PawnVectorsMirror | piece.rb:182-187 | white pawns step +1 in the first coordinate and black pawns −1; black's step is white's negated; the double vector is twice the step; the two capture vectors are the step shifted one square sideways, and nothing else |
| MoveGen.SelfBlocking | piece.rb:29-33 | a square is self-blocking iff it holds a piece of the mover's colour; an empty square never is |
| MoveGen.Legal | piece.rb:56-60 | the `select` of `possible_moves`: keeps, in order, the squares that are in bounds and not self-blocking. Described by `MoveGen.LegalMembership`, `MoveGen.LegalAppend` and `MoveGen.LegalKeepsAll` |
| MoveGen.LegalMembership | piece.rb:56-60 | a square survives the `possible_moves` filter iff it is a raw candidate, is in bounds and is not self-blocking; the filter never adds squares |
| MoveGen.LegalAppend | piece.rb:56-60 | the filter decides square by square, so filtering a concatenation is concatenating the filtered parts (order kept) |
| MoveGen.LegalKeepsAll | piece.rb:56-60 | a candidate list all in bounds and free of own pieces passes the filter unchanged |
| MoveGen.RayBoundHolds | piece.rb:85-93 | for a non-zero vector, an in-bounds square of the ray has a multiplier of at most `RayBound`, fixed by the origin and the board size, which is why the sliding loop stops |
| MoveGen.RayFrom | piece.rb:85-93 | the sliding `loop` from multiplier `i` on: stops at the first out-of-bounds square, otherwise takes the square and stops after it if it is occupied. Described by `MoveGen.RayFromShape` and `MoveGen.RayFromUnique` |
| MoveGen.Ray | piece.rb:81-96 | `SlidingPiece#moves_from_vector`: the loop started at `i = 1`. Described by `MoveGen.RayExact`, `MoveGen.RayLength` and `MoveGen.RayFiltered` |
| MoveGen.RayFromShape | piece.rb:85-93 | the ray from multiplier `i` consists of origin + (i+j)·vector in increasing order, all in bounds, every square but the last empty, and it ends at an occupied square or before an out-of-bounds one |
| MoveGen.RayFromUnique | piece.rb:85-93 | any sequence with that shape is the ray the loop computes |
| MoveGen.RayExact | piece.rb:81-96 | a sequence is `moves_from_vector`'s result iff it has the ray shape: origin + i·vector for i = 1..k, empty before the last square, ending at the edge or at the first occupied square (of either colour), which is included |
| MoveGen.RayLength | piece.rb:85-93 | a ray has at most 8 squares, and fewer than 8 from a square on the board |
| MoveGen.RayFiltered | piece.rb:81-96 | after the base filter a ray loses exactly its last square when that square holds a piece of the mover's colour, and nothing otherwise: a slider captures the first piece it meets only if it is an enemy |
| MoveGen.VectorMoves | piece.rb:79-106 | the class's `moves_from_vector`: the ray for sliding pieces, the single step for stepping pieces. Described by `MoveGen.SteppingRange` and `MoveGen.SlidingPiecesRange` |
| MoveGen.RangeMoves | piece.rb:62-69 | the base `moves_in_range`: the concatenation of `moves_from_vector` over the vector list, in order. Described by `MoveGen.RangeMovesAppend` and `MoveGen.RangeMembership` |
| MoveGen.RangeMovesAppend | piece.rb:62-69 | `moves_in_range` over a concatenated vector list is the concatenation of the results for each part |
| MoveGen.RangeMembership | piece.rb:62-69 | a square is a raw candidate iff some vector's `moves_from_vector` yields it |
| MoveGen.SteppingRange | piece.rb:102-104 | a stepping piece yields exactly one raw candidate per vector, `position + vector`, in table order |
| MoveGen.SlidingRangeLength | piece.rb:62-69 | a sliding piece yields at most 8 raw candidates per vector |
| MoveGen.IsCapture | piece.rb:213-215 | `is_capture` holds iff the square is in bounds and holds a piece of the opponent's colour |
| MoveGen.AdvanceVectors | piece.rb:191 | `current_vectors`: the forward vector, followed by the double vector while the pawn has not moved. Described by `MoveGen.PawnDoubleStep` |
| MoveGen.Advances | piece.rb:192-195 | the pawn's forward loop: `position + v` for each vector, in order, unless it is a capture. Described by `MoveGen.AdvancesMembership`, `MoveGen.AdvancesAppend` and `MoveGen.PawnAdvancesInOrder` |
| MoveGen.AdvancesMembership | piece.rb:191-195 | the pawn's forward loop yields a square iff it is `position + v` for a current forward vector and is not a capture |
| MoveGen.AdvancesAppend | piece.rb:192-195 | the forward loop treats vectors independently: its result over a concatenation is the concatenation of results |
| MoveGen.Captures | piece.rb:204-211 | `capture_moves`: `position + v` for each capture vector, in order, only if it is a capture. Described by `MoveGen.CapturesMembership`, `MoveGen.CapturesAppend` and `MoveGen.PawnCapturesInOrder` |
| MoveGen.CapturesMembership | piece.rb:204-211 | `capture_moves` yields a square iff it is `position + v` for a capture vector and is a capture |
| MoveGen.CapturesAppend | piece.rb:205-209 | the capture loop treats vectors independently: its result over a concatenation is the concatenation of results |
| MoveGen.PawnAdvancesInOrder | piece.rb:189-195 | the forward loop returns the single step unless it is a capture, then (only while unmoved) the double step unless it is a capture |
| MoveGen.PawnCapturesInOrder | piece.rb:204-211 | `capture_moves` returns the first then the second diagonal square, each only if it is a capture |
| MoveGen.PawnRangeInOrder | piece.rb:189-198 | the pawn's `moves_in_range` as an exact sequence: forward squares first, then capture squares, in table order |
| MoveGen.PawnRange | piece.rb:189-198 | the pawn's `moves_in_range`: the forward loop's squares followed by `capture_moves`. Described by `MoveGen.PawnRangeInOrder` and `MoveGen.PawnRangeExact` |
| MoveGen.InRange | piece.rb:62-69 | `moves_in_range` as dispatched on the class: the pawn's override for pawns, the base fan-out over the vector table otherwise. Described by `MoveGen.SteppingPiecesRange`, `MoveGen.SlidingPiecesRange` and `MoveGen.PawnRangeExact` |
| MoveGen.Possible | piece.rb:56-60 | `possible_moves`: the base filter applied to the raw candidates. Described by `MoveGen.PossibleExact` |
| MoveGen.PossibleExact | piece.rb:56-60 | a square is a possible move iff it is a raw candidate, on the board and not occupied by a piece of the mover's colour |
| MoveGen.SteppingPiecesRange | piece.rb:102-104 | King and Knight produce exactly 8 raw candidates, the j-th being `position + vectors[j]` |
| MoveGen.SlidingPiecesRange | piece.rb:62-69 | a sliding piece's raw candidates are exactly the squares on the rays of its vectors, at most 8 per vector |
| MoveGen.PawnRangeExact | piece.rb:189-198 | a pawn's raw candidate is the single step if not a capture, the double step if unmoved and not a capture, or a diagonal square that is a capture, and nothing else |
| MoveGen.PawnDoubleStep | piece.rb:191 | the double vector is tried iff the pawn has not moved, and its square is a raw candidate iff unmoved and not a capture |
| MoveGen.MovedPawnHasNoDoubleStep | piece.rb:191-195 | once `moved` is set, the double-step square is never a possible move, whatever the board holds |
| MoveGen.PawnAdvanceLandsEmpty | piece.rb:192-195 | a pawn's forward possible move always lands on an empty square (an enemy there is a capture and dropped, a friend is filtered) |
| MoveGen.PawnCaptureExact | piece.rb:204-215 | a diagonal square is a pawn's possible move iff it is in bounds and holds an opponent piece |
| Pieces.Piece.constructor | piece.rb:18-23 | a new piece has the given position, colour and board, and is neither moved nor captured |
| Pieces.Piece.Dup | piece.rb:47-49 | `dup` yields a fresh piece of the same kind, colour and position on the other board, with `moved` and `captured` reset to false |
| Pieces.Piece.UpdatePosition | piece.rb:51-54 | `update_position` sets the position and `moved`; `captured`, colour, kind and board are unchanged |
| Pieces.Piece.Vectors | piece.rb:16 | the `vectors` reader: the table the piece's class stores. Described by `Tables.VectorTable` and `Tables.VectorTableDirections` |
| Pieces.MovedPawnMoves | piece.rb:51-60 | after `update_position`, the pawn's `possible_moves` from its new square never include the double step |
| Pieces.Piece.SteppingMovesFromVector | piece.rb:102-104 | a stepping piece's `moves_from_vector` is one square, exactly `v` away |
| Pieces.Piece.SlidingMovesFromVector | piece.rb:81-96 | the sliding loop terminates and returns exactly the ray (see `MoveGen.RayExact`), of length at most 8 |
| Pieces.Piece.MovesFromVector | piece.rb:79-106 | the class's `moves_from_vector` is the ray for sliding pieces and the single step for stepping pieces |
| Pieces.Piece.VectorMovesInRange | piece.rb:62-69 | the `each` loop concatenates `moves_from_vector` over the vector table in order |
| Pieces.Piece.MovesInRange | piece.rb:62-69 | `moves_in_range` returns the raw candidates, by the pawn's override for pawns |
| Pieces.Piece.PawnMovesInRange | piece.rb:189-198 | the pawn's loop returns the non-capture forward squares, then `capture_moves` |
| Pieces.Piece.CaptureMoves | piece.rb:204-211 | `capture_moves` returns the capture squares in order, each in bounds and holding an opponent piece |
| Pieces.Piece.PossibleMoves | piece.rb:56-60 | `possible_moves` is the filtered candidate list; every square in it is on the board and not occupied by the mover's colour |
| Scenarios.RookRangeIsFourRays | piece.rb:134-139 | a rook's raw candidates are its four rays in `HV_VECTORS` order: up, right, down, left |
| Scenarios.RookPossibleIsFourFilteredRays | piece.rb:56-69 | a rook's possible moves are the filtered rays, concatenated in table order |
| Scenarios.RookOnEmptyBoard | piece.rb:81-96 | a white rook on (3,3) of an empty board reaches the 14 other squares of its rank and file, nearest first per direction |
| Scenarios.RookBlockedByFriend | piece.rb:90-92 | with a friend on (3,5), the upward ray is (3,4),(3,5) and the filter leaves (3,4): the rook stops before its own piece and goes no further |
| Scenarios.KnightInCorner | piece.rb:159-172 | a knight on (0,0) of an empty board has exactly the possible moves (2,1) and (1,2) |
| Scenarios.PawnOpening | piece.rb:189-198 | an unmoved white pawn on (1,4) of an empty board may go to (2,4) and (3,4) |
| Scenarios.PawnCapturesDiagonally | piece.rb:204-215 | a black piece on (2,5) adds that square after the forward moves |
| Scenarios.PawnJumpsOverEnemy | piece.rb:191-195 | with an enemy directly ahead the forward step is dropped, yet the double step (3,4) is still offered |
| Scenarios.PawnJumpsOverFriend | piece.rb:191-195 | with a friend directly ahead the forward step is a raw candidate that the filter drops, yet the double step (3,4) is still offered |

## Left out

- `board.rb` is not part of this model. The board is abstract: an 8×8 bounds test (`in_bounds?`) and a map from occupied squares to colours. `piece_at` and `color_at` are both derived from that map, so they always agree. How the board is set up and updated is outside the model.
- `symbol` and `to_s` (piece.rb:35-37 and each class's `symbol`) render pieces as text. They have no bearing on moves.
- `empty?` and `piece?` (piece.rb:39-45) exist in Ruby so that pieces and the empty-square sentinel can be told apart by duck typing. They are replaced by the `Occupant` datatype.
- Colours are Ruby symbols in the source, and `opponent_color` answers `:white` for any value other than `:white`. The model has exactly the two colours, so other symbols do not arise.
- The `attr_accessor` writers for `vectors`, `double_vector` and `capture_vectors` (piece.rb:16) are not modelled. A piece's tables are always the ones its constructor stores, and they are read from `Tables`.
- The Ruby objects are modelled as one `Piece` class with a `kind` field, not as a class hierarchy. Method overriding (`SlidingPiece`/`SteppingPiece#moves_from_vector`, `Pawn#moves_in_range`) becomes a dispatch on `kind`.
- Pieces.Piece.SlidingMovesFromVector: requires a non-zero vector, which the termination argument needs. With a zero vector the Ruby loop tests the piece's own square on every turn. If that square is off the board, it returns `[]` at once (piece.rb:90). If the square is on the board and holds a piece, it returns that square alone (piece.rb:91-92). If the board holds no piece there, it never ends and keeps appending the same square. No table contains a zero vector (`Tables.VectorTable`), so the precondition excludes no call the program makes.
- Pieces.Piece.MovesFromVector, MoveGen.VectorMoves and MoveGen.RangeMoves: carry the same requirement (`v != Zero`, or `Zero !in vs` for a vector list), for stepping pieces too, although the Ruby `[step(vector)]` (piece.rb:102-104) needs no such condition. The requirement comes from the shared dispatch to the sliding loop. As above, no table contains a zero vector, so it excludes no call the program makes.
- The pawn's double step does not check the square it passes over (piece.rb:191-195). The model keeps this behaviour as written; `Scenarios.PawnJumpsOverEnemy` and `Scenarios.PawnJumpsOverFriend` exhibit it.
- Check, castling, en passant and promotion are not implemented by the source and are not modelled.
- The `captured` flag is initialised to false, also by `dup`, which rebuilds the piece through `new` (piece.rb:22 and 47-49). Nothing in the move generator reads it; the model states only that the constructor and `Dup` set it to false and that `UpdatePosition` leaves it unchanged.
- `dup` shares the `position` array between the original and the copy. `update_position` replaces that array rather than mutating it, so the sharing is not observable and positions are modelled as values.
