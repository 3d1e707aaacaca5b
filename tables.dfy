/** The piece types and their fixed direction tables. */
module Tables {
  import opened Geometry

  /** The six piece classes. */
  datatype Kind = King | Queen | Rook | Bishop | Knight | Pawn

  /** Queen, Rook and Bishop are sliding pieces; King, Knight and Pawn are
      stepping pieces. */
  predicate Slides(k: Kind)
  {
    k == Queen || k == Rook || k == Bishop
  }

  /** `HV_VECTORS` */
  const Orthogonal: seq<Vec> := [Vec(0, 1), Vec(1, 0), Vec(0, -1), Vec(-1, 0)]

  /** `DIAG_VECTORS` */
  const Diagonal: seq<Vec> := [Vec(1, 1), Vec(-1, 1), Vec(1, -1), Vec(-1, -1)]

  /** `Knight::L_VECTORS` */
  const LShaped: seq<Vec> :=
    [Vec(2, 1), Vec(-2, 1), Vec(2, -1), Vec(-2, -1),
     Vec(1, 2), Vec(1, -2), Vec(-1, 2), Vec(-1, -2)]

  /** The pawn's one-square forward offset: White advances along increasing
      x, Black along decreasing x. */
  function PawnForward(c: Color): Vec
  {
    if c == White then Vec(1, 0) else Vec(-1, 0)
  }

  /** The pawn's two-square opening offset. */
  function PawnDouble(c: Color): Vec
  {
    if c == White then Vec(2, 0) else Vec(-2, 0)
  }

  /** The pawn's two diagonal capture offsets. */
  function PawnCaptures(c: Color): seq<Vec>
  {
    if c == White then [Vec(1, -1), Vec(1, 1)] else [Vec(-1, -1), Vec(-1, 1)]
  }

  /** The `vectors` each constructor stores, by type (and by colour for the
      pawn). Every table is free of the zero offset, which keeps the sliding
      loop finite. */
  function VectorTable(k: Kind, c: Color): (vs: seq<Vec>)
    ensures Zero !in vs
    ensures k == Pawn ==> vs == [PawnForward(c)]
    ensures k != Pawn ==> |vs| == (if k == Rook || k == Bishop then 4 else 8)
  {
    match k
    case King => Orthogonal + Diagonal
    case Queen => Orthogonal + Diagonal
    case Rook => Orthogonal
    case Bishop => Diagonal
    case Knight => LShaped
    case Pawn => [PawnForward(c)]
  }

  /** Each table is exactly the set of offsets its piece moves by: the rook
      one square along a rank or file, the bishop one square diagonally, the
      queen and king one square in any of the eight directions, the knight
      two squares one way and one the other. */
  lemma VectorTableDirections(k: Kind, c: Color)
    ensures k == Rook ==> forall v :: v in VectorTable(k, c) <==> Abs(v.dx) + Abs(v.dy) == 1
    ensures k == Bishop ==> forall v :: v in VectorTable(k, c) <==> Abs(v.dx) == 1 && Abs(v.dy) == 1
    ensures k == Queen || k == King ==>
              forall v :: v in VectorTable(k, c) <==> v != Zero && Abs(v.dx) <= 1 && Abs(v.dy) <= 1
    ensures k == Knight ==>
              forall v :: v in VectorTable(k, c) <==> (Abs(v.dx) == 1 && Abs(v.dy) == 2) || (Abs(v.dx) == 2 && Abs(v.dy) == 1)
  {
  }

  /** The pawn's tables are mirror images between the colours: the double
      step is twice the single step, and each capture offset is the single
      step moved one square sideways. */
  lemma PawnVectorsMirror(c: Color)
    ensures PawnForward(c).dx == (if c == White then 1 else -1) && PawnForward(c).dy == 0
    ensures PawnForward(Opponent(c)) == Scale(PawnForward(c), -1)
    ensures PawnDouble(c) == Scale(PawnForward(c), 2)
    ensures |PawnCaptures(c)| == 2
    ensures forall w :: w in PawnCaptures(c) <==> w.dx == PawnForward(c).dx && Abs(w.dy) == 1
  {
  }
}
