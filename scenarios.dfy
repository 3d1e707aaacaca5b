/** Concrete positions on an 8×8 board, worked out from the model. Each
    scenario is proved for a board and a square given as parameters, so that
    the solver unfolds the definitions step by step. */
module Scenarios {
  import opened Geometry
  import opened Boards
  import opened Tables
  import opened MoveGen

  /** The filter drops a list whose squares are all off the board. */
  lemma {:induction false} LegalDropsOffBoard(g: Grid, c: Color, ms: seq<Pos>)
    requires forall j :: 0 <= j < |ms| ==> !OnBoard(ms[j])
    ensures Legal(g, c, ms) == []
  {
    if ms != [] {
      LegalDropsOffBoard(g, c, ms[1..]);
    }
  }

  /** The candidates of four vectors, unrolled. */
  lemma RangeOfFour(g: Grid, k: Kind, o: Pos, vs: seq<Vec>)
    requires |vs| == 4 && Zero !in vs
    ensures RangeMoves(g, k, o, vs) ==
              VectorMoves(g, k, o, vs[0]) + VectorMoves(g, k, o, vs[1]) +
              VectorMoves(g, k, o, vs[2]) + VectorMoves(g, k, o, vs[3])
  {
    var t1, t2, t3 := vs[1..], vs[2..], vs[3..];
    assert t3[0] == vs[3] && t3[1..] == [];
    assert RangeMoves(g, k, o, t3) == VectorMoves(g, k, o, vs[3]);
    assert t2[0] == vs[2] && t2[1..] == t3;
    assert RangeMoves(g, k, o, t2) == VectorMoves(g, k, o, vs[2]) + RangeMoves(g, k, o, t3);
    assert t1[0] == vs[1] && t1[1..] == t2;
    assert RangeMoves(g, k, o, t1) == VectorMoves(g, k, o, vs[1]) + RangeMoves(g, k, o, t2);
  }

  // The four rays from (3,3), on a board whose only pieces (if any) are
  // off the squares each ray passes: each ray runs to the edge, and the
  // filter keeps all of it.

  lemma RookRayUp(g: Grid, c: Color)
    requires Pos(3, 4) !in g && Pos(3, 5) !in g && Pos(3, 6) !in g && Pos(3, 7) !in g
    ensures Ray(g, Pos(3, 3), Vec(0, 1)) == [Pos(3, 4), Pos(3, 5), Pos(3, 6), Pos(3, 7)]
    ensures Legal(g, c, Ray(g, Pos(3, 3), Vec(0, 1))) == [Pos(3, 4), Pos(3, 5), Pos(3, 6), Pos(3, 7)]
  {
    var s := [Pos(3, 4), Pos(3, 5), Pos(3, 6), Pos(3, 7)];
    RayFromUnique(g, Pos(3, 3), Vec(0, 1), 1, s);
    RayFiltered(g, c, Pos(3, 3), Vec(0, 1));
  }

  lemma RookRayRight(g: Grid, c: Color)
    requires Pos(4, 3) !in g && Pos(5, 3) !in g && Pos(6, 3) !in g && Pos(7, 3) !in g
    ensures Ray(g, Pos(3, 3), Vec(1, 0)) == [Pos(4, 3), Pos(5, 3), Pos(6, 3), Pos(7, 3)]
    ensures Legal(g, c, Ray(g, Pos(3, 3), Vec(1, 0))) == [Pos(4, 3), Pos(5, 3), Pos(6, 3), Pos(7, 3)]
  {
    var s := [Pos(4, 3), Pos(5, 3), Pos(6, 3), Pos(7, 3)];
    RayFromUnique(g, Pos(3, 3), Vec(1, 0), 1, s);
    RayFiltered(g, c, Pos(3, 3), Vec(1, 0));
  }

  lemma RookRayDown(g: Grid, c: Color)
    requires Pos(3, 2) !in g && Pos(3, 1) !in g && Pos(3, 0) !in g
    ensures Ray(g, Pos(3, 3), Vec(0, -1)) == [Pos(3, 2), Pos(3, 1), Pos(3, 0)]
    ensures Legal(g, c, Ray(g, Pos(3, 3), Vec(0, -1))) == [Pos(3, 2), Pos(3, 1), Pos(3, 0)]
  {
    var s := [Pos(3, 2), Pos(3, 1), Pos(3, 0)];
    RayFromUnique(g, Pos(3, 3), Vec(0, -1), 1, s);
    RayFiltered(g, c, Pos(3, 3), Vec(0, -1));
  }

  lemma RookRayLeft(g: Grid, c: Color)
    requires Pos(2, 3) !in g && Pos(1, 3) !in g && Pos(0, 3) !in g
    ensures Ray(g, Pos(3, 3), Vec(-1, 0)) == [Pos(2, 3), Pos(1, 3), Pos(0, 3)]
    ensures Legal(g, c, Ray(g, Pos(3, 3), Vec(-1, 0))) == [Pos(2, 3), Pos(1, 3), Pos(0, 3)]
  {
    var s := [Pos(2, 3), Pos(1, 3), Pos(0, 3)];
    RayFromUnique(g, Pos(3, 3), Vec(-1, 0), 1, s);
    RayFiltered(g, c, Pos(3, 3), Vec(-1, 0));
  }

  /** A rook's raw candidates are its four rays in table order: up, right,
      down, left. */
  lemma RookRangeIsFourRays(g: Grid, c: Color, o: Pos, moved: bool)
    ensures InRange(g, Rook, c, o, moved) ==
              Ray(g, o, Vec(0, 1)) + Ray(g, o, Vec(1, 0)) + Ray(g, o, Vec(0, -1)) + Ray(g, o, Vec(-1, 0))
  {
    RangeOfFour(g, Rook, o, Orthogonal);
  }

  /** A rook's destinations are what the filter leaves of each of its four
      rays, in table order. */
  lemma RookPossibleIsFourFilteredRays(g: Grid, c: Color, o: Pos, moved: bool)
    ensures Possible(g, Rook, c, o, moved) ==
              Legal(g, c, Ray(g, o, Vec(0, 1))) + Legal(g, c, Ray(g, o, Vec(1, 0))) +
              Legal(g, c, Ray(g, o, Vec(0, -1))) + Legal(g, c, Ray(g, o, Vec(-1, 0)))
  {
    var up, right := Ray(g, o, Vec(0, 1)), Ray(g, o, Vec(1, 0));
    var down, left := Ray(g, o, Vec(0, -1)), Ray(g, o, Vec(-1, 0));
    RookRangeIsFourRays(g, c, o, moved);
    LegalAppend(g, c, up + right + down, left);
    LegalAppend(g, c, up + right, down);
    LegalAppend(g, c, up, right);
  }

  /** A rook on (3,3) of an empty board reaches the 14 other squares of its
      row and column, nearest first along each vector in table order. */
  lemma RookOnEmptyBoard(g: Grid)
    requires g == map[]
    ensures Possible(g, Rook, White, Pos(3, 3), false) ==
              [Pos(3, 4), Pos(3, 5), Pos(3, 6), Pos(3, 7)] +
              [Pos(4, 3), Pos(5, 3), Pos(6, 3), Pos(7, 3)] +
              [Pos(3, 2), Pos(3, 1), Pos(3, 0)] +
              [Pos(2, 3), Pos(1, 3), Pos(0, 3)]
  {
    RookPossibleIsFourFilteredRays(g, White, Pos(3, 3), false);
    RookRayUp(g, White);
    RookRayRight(g, White);
    RookRayDown(g, White);
    RookRayLeft(g, White);
  }

  /** The upward ray of the rook stops on the friendly piece, which the
      filter then drops. */
  lemma RookRayUpBlocked(g: Grid)
    requires Pos(3, 4) !in g && Pos(3, 5) in g && g[Pos(3, 5)] == White
    ensures Ray(g, Pos(3, 3), Vec(0, 1)) == [Pos(3, 4), Pos(3, 5)]
    ensures Legal(g, White, Ray(g, Pos(3, 3), Vec(0, 1))) == [Pos(3, 4)]
  {
    var up := [Pos(3, 4), Pos(3, 5)];
    RayFromUnique(g, Pos(3, 3), Vec(0, 1), 1, up);
    RayFiltered(g, White, Pos(3, 3), Vec(0, 1));
    assert up[..1] == [Pos(3, 4)];
  }

  /** A friendly piece on (3,5) ends the rook's upward ray: the ray includes
      the blocking square, the filter drops it, and nothing beyond it is
      reached. Stated for every board on which the rook's other squares are
      empty, whatever stands elsewhere. */
  lemma RookBlockedByFriend(g: Grid)
    requires Pos(3, 4) !in g && Pos(3, 5) in g && g[Pos(3, 5)] == White
    requires Pos(4, 3) !in g && Pos(5, 3) !in g && Pos(6, 3) !in g && Pos(7, 3) !in g
    requires Pos(3, 2) !in g && Pos(3, 1) !in g && Pos(3, 0) !in g
    requires Pos(2, 3) !in g && Pos(1, 3) !in g && Pos(0, 3) !in g
    ensures Ray(g, Pos(3, 3), Vec(0, 1)) == [Pos(3, 4), Pos(3, 5)]
    ensures Possible(g, Rook, White, Pos(3, 3), false) ==
              [Pos(3, 4)] +
              [Pos(4, 3), Pos(5, 3), Pos(6, 3), Pos(7, 3)] +
              [Pos(3, 2), Pos(3, 1), Pos(3, 0)] +
              [Pos(2, 3), Pos(1, 3), Pos(0, 3)]
  {
    RookPossibleIsFourFilteredRays(g, White, Pos(3, 3), false);
    RookRayUpBlocked(g);
    RookRayRight(g, White);
    RookRayDown(g, White);
    RookRayLeft(g, White);
  }

  /** The knight's eight raw candidates from the corner, in table order. */
  lemma KnightCornerRange(g: Grid)
    ensures InRange(g, Knight, White, Pos(0, 0), false) ==
              ([Pos(2, 1)] + [Pos(-2, 1), Pos(2, -1), Pos(-2, -1)]) +
              ([Pos(1, 2)] + [Pos(1, -2), Pos(-1, 2), Pos(-1, -2)])
  {
    SteppingPiecesRange(g, Knight, White, Pos(0, 0), false);
  }

  /** The filter keeps an empty square on the board and drops the squares
      that follow it when they are all off the board. */
  lemma KeepOneDropRest(g: Grid, c: Color, p: Pos, off: seq<Pos>)
    requires OnBoard(p) && p !in g
    requires forall j :: 0 <= j < |off| ==> !OnBoard(off[j])
    ensures Legal(g, c, [p] + off) == [p]
  {
    LegalAppend(g, c, [p], off);
    LegalDropsOffBoard(g, c, off);
    LegalKeepsAll(g, c, [p]);
  }

  /** A knight in the corner of an empty board has two of its eight squares
      on the board. */
  lemma KnightInCorner(g: Grid)
    requires g == map[]
    ensures Possible(g, Knight, White, Pos(0, 0), false) == [Pos(2, 1), Pos(1, 2)]
  {
    var first, second := [Pos(2, 1)] + [Pos(-2, 1), Pos(2, -1), Pos(-2, -1)], [Pos(1, 2)] + [Pos(1, -2), Pos(-1, 2), Pos(-1, -2)];
    KnightCornerRange(g);
    LegalAppend(g, White, first, second);
    KeepOneDropRest(g, White, Pos(2, 1), [Pos(-2, 1), Pos(2, -1), Pos(-2, -1)]);
    KeepOneDropRest(g, White, Pos(1, 2), [Pos(1, -2), Pos(-1, 2), Pos(-1, -2)]);
  }

  /** An unmoved white pawn on an empty board may advance one or two
      squares and has no captures. */
  lemma PawnOpening(g: Grid)
    requires g == map[]
    ensures Possible(g, Pawn, White, Pos(1, 4), false) == [Pos(2, 4), Pos(3, 4)]
  {
    PawnRangeInOrder(g, White, Pos(1, 4), false);
    assert PawnRange(g, White, Pos(1, 4), false) == [Pos(2, 4), Pos(3, 4)];
    LegalKeepsAll(g, White, [Pos(2, 4), Pos(3, 4)]);
  }

  /** A black piece diagonally ahead adds the capture square. */
  lemma PawnCapturesDiagonally(g: Grid)
    requires g == map[Pos(2, 5) := Black]
    ensures Possible(g, Pawn, White, Pos(1, 4), false) == [Pos(2, 4), Pos(3, 4), Pos(2, 5)]
  {
    PawnRangeInOrder(g, White, Pos(1, 4), false);
    assert PawnRange(g, White, Pos(1, 4), false) == [Pos(2, 4), Pos(3, 4), Pos(2, 5)];
    LegalKeepsAll(g, White, [Pos(2, 4), Pos(3, 4), Pos(2, 5)]);
  }

  // The double step does not look at the square it passes over: with a
  // piece of either colour directly ahead, the pawn may still go two
  // squares forward.

  /** An enemy directly ahead is a capture square, so the forward loop
      drops it, yet the double step remains. */
  lemma PawnJumpsOverEnemy(g: Grid)
    requires g == map[Pos(2, 4) := Black]
    ensures PawnRange(g, White, Pos(1, 4), false) == [Pos(3, 4)]
    ensures Possible(g, Pawn, White, Pos(1, 4), false) == [Pos(3, 4)]
  {
    PawnRangeInOrder(g, White, Pos(1, 4), false);
    LegalKeepsAll(g, White, [Pos(3, 4)]);
  }

  /** A friend directly ahead is a raw candidate that the base filter
      drops, yet the double step remains. */
  lemma PawnJumpsOverFriend(g: Grid)
    requires g == map[Pos(2, 4) := White]
    ensures PawnRange(g, White, Pos(1, 4), false) == [Pos(2, 4), Pos(3, 4)]
    ensures Possible(g, Pawn, White, Pos(1, 4), false) == [Pos(3, 4)]
  {
    PawnRangeInOrder(g, White, Pos(1, 4), false);
    assert [Pos(2, 4), Pos(3, 4)][1..] == [Pos(3, 4)];
    LegalKeepsAll(g, White, [Pos(3, 4)]);
  }
}
