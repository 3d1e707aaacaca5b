/** The move generator as functions of the board contents and the piece's
    state: what `possible_moves` and the methods it calls compute, and the
    properties they have. The imperative methods of `Pieces.Piece` are proved
    to return exactly these values. */
module MoveGen {
  import opened Geometry
  import opened Boards
  import opened Tables

  // ---------------------------------------------------------------------
  // The base filter: `self_blocking?` and the `select` of `possible_moves`
  // ---------------------------------------------------------------------

  /** `self_blocking?`: a piece of colour `c` stands on `m`. An empty square
      is never self-blocking. */
  predicate SelfBlocking(g: Grid, c: Color, m: Pos)
    ensures OccupantAt(g, m) == Empty ==> !SelfBlocking(g, c, m)
    ensures SelfBlocking(g, c, m) <==> ColorOf(g, m) == Some(c)
  {
    var here := OccupantAt(g, m);
    if !here.Occupied? then false else here.color == c
  }

  /** The `select` of `possible_moves`: keeps, in order, the candidates that
      are on the board and not held by a piece of colour `c`. */
  function Legal(g: Grid, c: Color, ms: seq<Pos>): seq<Pos>
  {
    if ms == [] then []
    else
      (if OnBoard(ms[0]) && !SelfBlocking(g, c, ms[0]) then [ms[0]] else [])
      + Legal(g, c, ms[1..])
  }

  /** A square survives the filter iff it was a candidate, is on the board
      and is not held by the mover's colour; the filter never lengthens the
      list. */
  lemma {:induction false} LegalMembership(g: Grid, c: Color, ms: seq<Pos>, m: Pos)
    ensures m in Legal(g, c, ms) <==> m in ms && OnBoard(m) && !SelfBlocking(g, c, m)
    ensures |Legal(g, c, ms)| <= |ms|
  {
    if ms != [] {
      LegalMembership(g, c, ms[1..], m);
      assert ms == [ms[0]] + ms[1..];
    }
  }

  /** The filter works square by square, so it distributes over
      concatenation. */
  lemma {:induction false} LegalAppend(g: Grid, c: Color, a: seq<Pos>, b: seq<Pos>)
    ensures Legal(g, c, a + b) == Legal(g, c, a) + Legal(g, c, b)
  {
    if a != [] {
      LegalAppend(g, c, a[1..], b);
      assert (a + b)[1..] == a[1..] + b;
    } else {
      assert a + b == b;
    }
  }

  /** The filter keeps a list all of whose squares are on the board and
      not held by the mover's colour, unchanged. */
  lemma {:induction false} LegalKeepsAll(g: Grid, c: Color, ms: seq<Pos>)
    requires forall j :: 0 <= j < |ms| ==> OnBoard(ms[j]) && !SelfBlocking(g, c, ms[j])
    ensures Legal(g, c, ms) == ms
  {
    if ms != [] {
      LegalKeepsAll(g, c, ms[1..]);
    }
  }

  // ---------------------------------------------------------------------
  // Sliding: `SlidingPiece#moves_from_vector`
  // ---------------------------------------------------------------------

  /** The square `i` multiples of `v` away from `o`. */
  function RaySquare(o: Pos, v: Vec, i: int): Pos
  {
    Step(o, Scale(v, i))
  }

  /** No square of a ray from `o` that lies on the board is more than this
      many multiples away. */
  function RayBound(o: Pos): nat
  {
    Abs(o.x) + Abs(o.y) + Size
  }

  /** The bounded board is what stops the sliding loop: for a non-zero
      vector, an on-board ray square has a multiplier of at most RayBound. */
  lemma RayBoundHolds(o: Pos, v: Vec, i: nat)
    requires v != Zero && OnBoard(RaySquare(o, v, i))
    ensures i <= RayBound(o)
  {
    if v.dx != 0 {
      ScaledAtLeast(v.dx, i);
    } else {
      ScaledAtLeast(v.dy, i);
    }
  }

  /** The rest of the ray from `o` along `v`, from multiplier `i` on: stop at
      the first square off the board (excluded) or at the first occupied
      square (included). */
  function RayFrom(g: Grid, o: Pos, v: Vec, i: nat): seq<Pos>
    requires v != Zero
    decreases RayBound(o) - i
  {
    var sq := RaySquare(o, v, i);
    if !OnBoard(sq) then []
    else if OccupantAt(g, sq).Occupied? then [sq]
    else
      RayBoundHolds(o, v, i);
      [sq] + RayFrom(g, o, v, i + 1)
  }

  /** The whole ray, multipliers 1, 2, ... */
  function Ray(g: Grid, o: Pos, v: Vec): seq<Pos>
    requires v != Zero
  {
    RayFrom(g, o, v, 1)
  }

  /** What a ray from multiplier `i` on is, stated without recursion: its
      `j`-th square is `o + (i + j)·v` and on the board, every square but the
      last is empty, and it ends because the last square is occupied or
      because the next one is off the board. */
  ghost predicate IsRayFrom(g: Grid, o: Pos, v: Vec, i: nat, s: seq<Pos>)
  {
    && (forall j :: 0 <= j < |s| ==> s[j] == RaySquare(o, v, i + j) && OnBoard(s[j]))
    && (forall j :: 0 <= j < |s| - 1 ==> OccupantAt(g, s[j]) == Empty)
    && ((|s| > 0 && OccupantAt(g, s[|s| - 1]).Occupied?) || !OnBoard(RaySquare(o, v, i + |s|)))
  }

  lemma {:induction false} RayFromShape(g: Grid, o: Pos, v: Vec, i: nat)
    requires v != Zero
    ensures IsRayFrom(g, o, v, i, RayFrom(g, o, v, i))
    decreases RayBound(o) - i
  {
    var sq := RaySquare(o, v, i);
    if OnBoard(sq) && OccupantAt(g, sq) == Empty {
      RayBoundHolds(o, v, i);
      RayFromShape(g, o, v, i + 1);
      var rest := RayFrom(g, o, v, i + 1);
      var s := RayFrom(g, o, v, i);
      assert s == [sq] + rest;
      forall j | 1 <= j < |s|
        ensures s[j] == RaySquare(o, v, i + j) && OnBoard(s[j])
      {
        assert s[j] == rest[j - 1];
      }
      assert i + |s| == (i + 1) + |rest|;
    }
  }

  lemma {:induction false} RayFromUnique(g: Grid, o: Pos, v: Vec, i: nat, s: seq<Pos>)
    requires v != Zero && IsRayFrom(g, o, v, i, s)
    ensures s == RayFrom(g, o, v, i)
    decreases RayBound(o) - i
  {
    var sq := RaySquare(o, v, i);
    if |s| > 0 {
      assert s[0] == sq && OnBoard(sq);
      if OccupantAt(g, sq).Occupied? {
        assert |s| <= 1;
      } else {
        RayBoundHolds(o, v, i);
        var rest := s[1..];
        forall j | 0 <= j < |rest|
          ensures rest[j] == RaySquare(o, v, i + 1 + j) && OnBoard(rest[j])
        {
          assert rest[j] == s[j + 1];
        }
        assert i + |s| == (i + 1) + |rest|;
        assert IsRayFrom(g, o, v, i + 1, rest);
        RayFromUnique(g, o, v, i + 1, rest);
      }
    }
  }

  /** `Ray` is exactly the ray: it has the shape above, and it is the only
      sequence that has it. */
  lemma RayExact(g: Grid, o: Pos, v: Vec, s: seq<Pos>)
    requires v != Zero
    ensures IsRayFrom(g, o, v, 1, Ray(g, o, v))
    ensures IsRayFrom(g, o, v, 1, s) <==> s == Ray(g, o, v)
  {
    RayFromShape(g, o, v, 1);
    if IsRayFrom(g, o, v, 1, s) {
      RayFromUnique(g, o, v, 1, s);
    }
  }

  /** A ray never has more squares than the board has columns, and one
      cast from a square on the board has fewer. */
  lemma RayLength(g: Grid, o: Pos, v: Vec)
    requires v != Zero
    ensures |Ray(g, o, v)| <= Size
    ensures OnBoard(o) ==> |Ray(g, o, v)| < Size
  {
    var r := Ray(g, o, v);
    RayFromShape(g, o, v, 1);
    if |r| > 0 {
      var k := |r|;
      assert r[0] == RaySquare(o, v, 1) && OnBoard(r[0]);
      assert r[k - 1] == RaySquare(o, v, k) && OnBoard(r[k - 1]);
      var d := if v.dx != 0 then v.dx else v.dy;
      ScaledAtLeast(d, k - 1);
      ScaledAtLeast(d, k);
      assert d * k - d == d * (k - 1);
    }
  }

  /** What the base filter leaves of a ray: all of it, except that an
      occupied last square is dropped when it holds a piece of the mover's
      colour. A sliding piece thus captures the first piece it meets only
      when that piece is an enemy, and never passes it. */
  lemma RayFiltered(g: Grid, c: Color, o: Pos, v: Vec)
    requires v != Zero
    ensures var r := Ray(g, o, v);
            Legal(g, c, r) == if r != [] && ColorOf(g, r[|r| - 1]) == Some(c) then r[..|r| - 1] else r
  {
    RayFromShape(g, o, v, 1);
    EmptyThenLastFiltered(g, c, Ray(g, o, v));
  }

  /** The filter on a list of on-board squares all empty but the last. */
  lemma EmptyThenLastFiltered(g: Grid, c: Color, s: seq<Pos>)
    requires forall j :: 0 <= j < |s| ==> OnBoard(s[j])
    requires forall j :: 0 <= j < |s| - 1 ==> OccupantAt(g, s[j]) == Empty
    ensures Legal(g, c, s) == if s != [] && ColorOf(g, s[|s| - 1]) == Some(c) then s[..|s| - 1] else s
  {
    if s != [] {
      var n := |s|;
      var init := s[..n - 1];
      assert s == init + [s[n - 1]];
      LegalAppend(g, c, init, [s[n - 1]]);
      assert forall j :: 0 <= j < |init| ==> init[j] == s[j];
      LegalKeepsAll(g, c, init);
    }
  }

  // ---------------------------------------------------------------------
  // Stepping and the fan-out over the vector table: `moves_in_range`
  // ---------------------------------------------------------------------

  /** `moves_from_vector`: a sliding piece casts a ray, a stepping piece
      takes exactly one step. */
  function VectorMoves(g: Grid, k: Kind, o: Pos, v: Vec): seq<Pos>
    requires v != Zero
  {
    if Slides(k) then Ray(g, o, v) else [Step(o, v)]
  }

  /** `moves_in_range`: the squares of every vector, concatenated in the
      order of the vectors. */
  function RangeMoves(g: Grid, k: Kind, o: Pos, vs: seq<Vec>): seq<Pos>
    requires Zero !in vs
  {
    if vs == [] then [] else VectorMoves(g, k, o, vs[0]) + RangeMoves(g, k, o, vs[1..])
  }

  /** The fan-out distributes over concatenation of the vector lists. */
  lemma {:induction false} RangeMovesAppend(g: Grid, k: Kind, o: Pos, a: seq<Vec>, b: seq<Vec>)
    requires Zero !in a && Zero !in b
    ensures RangeMoves(g, k, o, a + b) == RangeMoves(g, k, o, a) + RangeMoves(g, k, o, b)
  {
    if a == [] {
      assert a + b == b;
    } else {
      assert (a + b)[1..] == a[1..] + b;
      RangeMovesAppend(g, k, o, a[1..], b);
    }
  }

  /** A square is a candidate iff some vector yields it. */
  lemma {:induction false} RangeMembership(g: Grid, k: Kind, o: Pos, vs: seq<Vec>, m: Pos)
    requires Zero !in vs
    ensures m in RangeMoves(g, k, o, vs) <==> exists j :: 0 <= j < |vs| && m in VectorMoves(g, k, o, vs[j])
  {
    if vs != [] {
      RangeMembership(g, k, o, vs[1..], m);
      if m in RangeMoves(g, k, o, vs[1..]) {
        var j :| 0 <= j < |vs[1..]| && m in VectorMoves(g, k, o, vs[1..][j]);
        assert vs[1..][j] == vs[j + 1];
      }
      if exists j :: 0 <= j < |vs| && m in VectorMoves(g, k, o, vs[j]) {
        var j :| 0 <= j < |vs| && m in VectorMoves(g, k, o, vs[j]);
        if j > 0 {
          assert vs[1..][j - 1] == vs[j];
        }
      }
    }
  }

  /** A stepping piece yields exactly one raw candidate per vector,
      `o + vs[j]`, in the order of the vectors. */
  lemma {:induction false} SteppingRange(g: Grid, k: Kind, o: Pos, vs: seq<Vec>)
    requires !Slides(k) && Zero !in vs
    ensures |RangeMoves(g, k, o, vs)| == |vs|
    ensures forall j :: 0 <= j < |vs| ==> RangeMoves(g, k, o, vs)[j] == Step(o, vs[j])
  {
    if vs != [] {
      SteppingRange(g, k, o, vs[1..]);
    }
  }

  /** A sliding piece yields at most Size squares per vector. */
  lemma {:induction false} SlidingRangeLength(g: Grid, k: Kind, o: Pos, vs: seq<Vec>)
    requires Slides(k) && Zero !in vs
    ensures |RangeMoves(g, k, o, vs)| <= |vs| * Size
  {
    if vs != [] {
      SlidingRangeLength(g, k, o, vs[1..]);
      RayLength(g, o, vs[0]);
    }
  }

  // ---------------------------------------------------------------------
  // The pawn: `Pawn#moves_in_range`, `capture_moves`, `is_capture`
  // ---------------------------------------------------------------------

  /** `is_capture`: `p` is on the board and holds a piece of the other
      colour. */
  predicate IsCapture(g: Grid, c: Color, p: Pos)
    ensures IsCapture(g, c, p) <==> OnBoard(p) && OccupantAt(g, p) == Occupied(Opponent(c))
  {
    OnBoard(p) && ColorOf(g, p) == Some(Opponent(c))
  }

  /** The forward offsets the pawn tries: its `vectors`, plus the double
      step while it has not moved. */
  function AdvanceVectors(c: Color, moved: bool): seq<Vec>
  {
    if moved then VectorTable(Pawn, c) else VectorTable(Pawn, c) + [PawnDouble(c)]
  }

  /** The first loop of `Pawn#moves_in_range`: each forward square, unless
      it is a capture. */
  function Advances(g: Grid, c: Color, o: Pos, vs: seq<Vec>): seq<Pos>
  {
    if vs == [] then []
    else
      var p := Step(o, vs[0]);
      (if IsCapture(g, c, p) then [] else [p]) + Advances(g, c, o, vs[1..])
  }

  /** A square is advanced to iff it is one of the forward squares and not
      a capture. */
  lemma {:induction false} AdvancesMembership(g: Grid, c: Color, o: Pos, vs: seq<Vec>, m: Pos)
    ensures m in Advances(g, c, o, vs) <==> !IsCapture(g, c, m) && exists j :: 0 <= j < |vs| && m == Step(o, vs[j])
  {
    if vs != [] {
      AdvancesMembership(g, c, o, vs[1..], m);
      assert forall j :: 0 <= j < |vs| - 1 ==> vs[1..][j] == vs[j + 1];
      if exists j :: 0 <= j < |vs| && m == Step(o, vs[j]) {
        var j :| 0 <= j < |vs| && m == Step(o, vs[j]);
        if j > 0 {
          assert m == Step(o, vs[1..][j - 1]);
        }
      }
    }
  }

  /** The forward loop treats each offset on its own, so it distributes over
      concatenation of the offset lists. */
  lemma {:induction false} AdvancesAppend(g: Grid, c: Color, o: Pos, a: seq<Vec>, b: seq<Vec>)
    ensures Advances(g, c, o, a + b) == Advances(g, c, o, a) + Advances(g, c, o, b)
  {
    if a == [] {
      assert a + b == b;
    } else {
      assert (a + b)[1..] == a[1..] + b;
      AdvancesAppend(g, c, o, a[1..], b);
    }
  }

  /** `capture_moves`: each capture square that is a capture. */
  function Captures(g: Grid, c: Color, o: Pos, vs: seq<Vec>): seq<Pos>
  {
    if vs == [] then []
    else
      var p := Step(o, vs[0]);
      (if IsCapture(g, c, p) then [p] else []) + Captures(g, c, o, vs[1..])
  }

  /** The capture loop distributes over concatenation of the offset
      lists. */
  lemma {:induction false} CapturesAppend(g: Grid, c: Color, o: Pos, a: seq<Vec>, b: seq<Vec>)
    ensures Captures(g, c, o, a + b) == Captures(g, c, o, a) + Captures(g, c, o, b)
  {
    if a == [] {
      assert a + b == b;
    } else {
      assert (a + b)[1..] == a[1..] + b;
      CapturesAppend(g, c, o, a[1..], b);
    }
  }

  /** A square is captured on iff it is one of the capture squares and a
      capture. */
  lemma {:induction false} CapturesMembership(g: Grid, c: Color, o: Pos, vs: seq<Vec>, m: Pos)
    ensures m in Captures(g, c, o, vs) <==> IsCapture(g, c, m) && exists j :: 0 <= j < |vs| && m == Step(o, vs[j])
  {
    if vs != [] {
      CapturesMembership(g, c, o, vs[1..], m);
      assert forall j :: 0 <= j < |vs| - 1 ==> vs[1..][j] == vs[j + 1];
      if exists j :: 0 <= j < |vs| && m == Step(o, vs[j]) {
        var j :| 0 <= j < |vs| && m == Step(o, vs[j]);
        if j > 0 {
          assert m == Step(o, vs[1..][j - 1]);
        }
      }
    }
  }

  /** `Pawn#moves_in_range` */
  function PawnRange(g: Grid, c: Color, o: Pos, moved: bool): seq<Pos>
  {
    Advances(g, c, o, AdvanceVectors(c, moved)) + Captures(g, c, o, PawnCaptures(c))
  }

  /** The raw candidates of a piece of kind `k` and colour `c` on `o`. */
  function InRange(g: Grid, k: Kind, c: Color, o: Pos, moved: bool): seq<Pos>
  {
    if k == Pawn then PawnRange(g, c, o, moved) else RangeMoves(g, k, o, VectorTable(k, c))
  }

  /** `possible_moves`: the raw candidates through the base filter. The
      filter also runs after the pawn's own `moves_in_range`. */
  function Possible(g: Grid, k: Kind, c: Color, o: Pos, moved: bool): seq<Pos>
  {
    Legal(g, c, InRange(g, k, c, o, moved))
  }

  // ---------------------------------------------------------------------
  // Properties
  // ---------------------------------------------------------------------

  /** Every destination is on the board and not held by a piece of the
      mover's colour; and every candidate with those two properties is a
      destination. */
  lemma PossibleExact(g: Grid, k: Kind, c: Color, o: Pos, moved: bool, m: Pos)
    ensures m in Possible(g, k, c, o, moved) <==>
              m in InRange(g, k, c, o, moved) && OnBoard(m) && OccupantAt(g, m) != Occupied(c)
  {
    LegalMembership(g, c, InRange(g, k, c, o, moved), m);
  }

  /** King and Knight produce exactly eight raw candidates, one per vector. */
  lemma SteppingPiecesRange(g: Grid, k: Kind, c: Color, o: Pos, moved: bool)
    requires k == King || k == Knight
    ensures |InRange(g, k, c, o, moved)| == |VectorTable(k, c)| == 8
    ensures forall j :: 0 <= j < 8 ==> InRange(g, k, c, o, moved)[j] == Step(o, VectorTable(k, c)[j])
  {
    SteppingRange(g, k, o, VectorTable(k, c));
  }

  /** Every raw candidate of a sliding piece lies on the ray of one of its
      vectors, and there are at most Size of them per vector. */
  lemma SlidingPiecesRange(g: Grid, k: Kind, c: Color, o: Pos, moved: bool, m: Pos)
    requires Slides(k)
    ensures m in InRange(g, k, c, o, moved) <==>
              exists v :: v in VectorTable(k, c) && m in Ray(g, o, v)
    ensures |InRange(g, k, c, o, moved)| <= |VectorTable(k, c)| * Size
  {
    var vs := VectorTable(k, c);
    SlidingRangeLength(g, k, o, vs);
    RangeMembership(g, k, o, vs, m);
    if m in InRange(g, k, c, o, moved) {
      var j :| 0 <= j < |vs| && m in VectorMoves(g, k, o, vs[j]);
      assert vs[j] in vs && m in Ray(g, o, vs[j]);
    }
    if exists v :: v in vs && m in Ray(g, o, v) {
      var v :| v in vs && m in Ray(g, o, v);
      var j :| 0 <= j < |vs| && vs[j] == v;
      assert m in VectorMoves(g, k, o, vs[j]);
    }
  }

  /** The pawn's raw candidates exactly: the single step unless it is a
      capture, the double step when unmoved unless it is a capture, and each
      diagonal square only when it is a capture. */
  lemma PawnRangeExact(g: Grid, c: Color, o: Pos, moved: bool, m: Pos)
    ensures m in PawnRange(g, c, o, moved) <==>
              || (m == Step(o, PawnForward(c)) && !IsCapture(g, c, m))
              || (!moved && m == Step(o, PawnDouble(c)) && !IsCapture(g, c, m))
              || (m in [Step(o, PawnCaptures(c)[0]), Step(o, PawnCaptures(c)[1])] && IsCapture(g, c, m))
  {
    var adv := AdvanceVectors(c, moved);
    var cap := PawnCaptures(c);
    if moved {
      assert adv == [PawnForward(c)];
    } else {
      assert adv == [PawnForward(c), PawnDouble(c)];
    }
    assert |cap| == 2;
    assert Step(o, adv[0]) == Step(o, PawnForward(c));
    assert !moved ==> Step(o, adv[1]) == Step(o, PawnDouble(c));
    assert Step(o, cap[0]) == Step(o, PawnCaptures(c)[0]);
    assert Step(o, cap[1]) == Step(o, PawnCaptures(c)[1]);
    AdvancesMembership(g, c, o, adv, m);
    CapturesMembership(g, c, o, cap, m);
    if m in Advances(g, c, o, adv) {
      var j :| 0 <= j < |adv| && m == Step(o, adv[j]);
      assert j == 0 || (!moved && j == 1);
    }
    if m in Captures(g, c, o, cap) {
      var j :| 0 <= j < |cap| && m == Step(o, cap[j]);
      assert j == 0 || j == 1;
    }
  }

  lemma AdvancesOne(g: Grid, c: Color, o: Pos, v: Vec)
    ensures Advances(g, c, o, [v]) == if IsCapture(g, c, Step(o, v)) then [] else [Step(o, v)]
  {
    assert [v][1..] == [];
  }

  lemma CapturesOne(g: Grid, c: Color, o: Pos, v: Vec)
    ensures Captures(g, c, o, [v]) == if IsCapture(g, c, Step(o, v)) then [Step(o, v)] else []
  {
    assert [v][1..] == [];
  }

  /** The forward loop's result: the single step unless it is a capture,
      then, while unmoved, the double step unless it is a capture. */
  lemma PawnAdvancesInOrder(g: Grid, c: Color, o: Pos, moved: bool)
    ensures var f, d := Step(o, PawnForward(c)), Step(o, PawnDouble(c));
            Advances(g, c, o, AdvanceVectors(c, moved)) ==
              (if IsCapture(g, c, f) then [] else [f]) + (if moved || IsCapture(g, c, d) then [] else [d])
  {
    var fwd, dbl := PawnForward(c), PawnDouble(c);
    AdvancesOne(g, c, o, fwd);
    if !moved {
      assert AdvanceVectors(c, moved) == [fwd] + [dbl];
      AdvancesAppend(g, c, o, [fwd], [dbl]);
      AdvancesOne(g, c, o, dbl);
    }
  }

  /** The capture loop's result: each diagonal square that is a capture,
      left before right. */
  lemma PawnCapturesInOrder(g: Grid, c: Color, o: Pos)
    ensures var l, r := Step(o, PawnCaptures(c)[0]), Step(o, PawnCaptures(c)[1]);
            Captures(g, c, o, PawnCaptures(c)) ==
              (if IsCapture(g, c, l) then [l] else []) + (if IsCapture(g, c, r) then [r] else [])
  {
    var cap := PawnCaptures(c);
    assert cap == [cap[0]] + [cap[1]];
    CapturesAppend(g, c, o, [cap[0]], [cap[1]]);
    CapturesOne(g, c, o, cap[0]);
    CapturesOne(g, c, o, cap[1]);
  }

  /** The pawn's raw candidates in the order the source produces them. */
  lemma PawnRangeInOrder(g: Grid, c: Color, o: Pos, moved: bool)
    ensures var f, d := Step(o, PawnForward(c)), Step(o, PawnDouble(c));
            var l, r := Step(o, PawnCaptures(c)[0]), Step(o, PawnCaptures(c)[1]);
            PawnRange(g, c, o, moved) ==
              (if IsCapture(g, c, f) then [] else [f]) +
              (if moved || IsCapture(g, c, d) then [] else [d]) +
              (if IsCapture(g, c, l) then [l] else []) +
              (if IsCapture(g, c, r) then [r] else [])
  {
    PawnAdvancesInOrder(g, c, o, moved);
    PawnCapturesInOrder(g, c, o);
  }

  /** The double step is among the offsets tried iff the pawn has not
      moved, and its square is a raw candidate iff the pawn has not moved
      and that square is not a capture. */
  lemma PawnDoubleStep(g: Grid, c: Color, o: Pos, moved: bool)
    ensures PawnDouble(c) in AdvanceVectors(c, moved) <==> !moved
    ensures var d := Step(o, PawnDouble(c));
            d in PawnRange(g, c, o, moved) <==> !moved && !IsCapture(g, c, d)
  {
    PawnRangeExact(g, c, o, moved, Step(o, PawnDouble(c)));
  }

  /** Once the pawn has moved, its double-step square is never offered,
      whatever the board holds. */
  lemma MovedPawnHasNoDoubleStep(g: Grid, c: Color, o: Pos)
    ensures Step(o, PawnDouble(c)) !in Possible(g, Pawn, c, o, true)
  {
    var d := Step(o, PawnDouble(c));
    PawnDoubleStep(g, c, o, true);
    LegalMembership(g, c, PawnRange(g, c, o, true), d);
  }

  /** A pawn's forward destination is always an empty square: an enemy
      there makes it a capture, which the forward loop drops, and a friend
      there is removed by the base filter. */
  lemma PawnAdvanceLandsEmpty(g: Grid, c: Color, o: Pos, moved: bool, m: Pos)
    requires m == Step(o, PawnForward(c)) || m == Step(o, PawnDouble(c))
    requires m in Possible(g, Pawn, c, o, moved)
    ensures OccupantAt(g, m) == Empty
  {
    PawnRangeExact(g, c, o, moved, m);
    LegalMembership(g, c, PawnRange(g, c, o, moved), m);
  }

  /** A pawn's diagonal square is a destination iff a piece of the other
      colour stands on it; an empty diagonal square never is. */
  lemma PawnCaptureExact(g: Grid, c: Color, o: Pos, moved: bool, j: nat)
    requires j < 2
    ensures var m := Step(o, PawnCaptures(c)[j]);
            m in Possible(g, Pawn, c, o, moved) <==> OnBoard(m) && OccupantAt(g, m) == Occupied(Opponent(c))
  {
    var m := Step(o, PawnCaptures(c)[j]);
    PawnRangeExact(g, c, o, moved, m);
    LegalMembership(g, c, PawnRange(g, c, o, moved), m);
  }
}
