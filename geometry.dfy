/** Squares, direction vectors and colours: the integer pairs `[x, y]` and the
    colour symbols that the move generator passes around. */
module Geometry {

  /** A square, `[x, y]`. It has no validity of its own: the board decides
      whether it lies on the board. */
  datatype Pos = Pos(x: int, y: int)

  /** A direction offset `[dx, dy]`. */
  datatype Vec = Vec(dx: int, dy: int)

  const Zero: Vec := Vec(0, 0)

  /** The two sides. */
  datatype Color = White | Black

  /** `opponent_color`: the other side. With exactly two colours the result is
      fixed by being different from `c`. */
  function Opponent(c: Color): (o: Color)
    ensures o != c
  {
    if c == White then Black else White
  }

  lemma OpponentInvolution(c: Color)
    ensures Opponent(Opponent(c)) == c
  {
  }

  /** `step`: the square reached from `p` by adding the offset `v`, with no
      bounds check. */
  function Step(p: Pos, v: Vec): Pos
  {
    Pos(p.x + v.dx, p.y + v.dy)
  }

  /** The offset that leads from `p` to `q`. */
  function Offset(p: Pos, q: Pos): Vec
  {
    Vec(q.x - p.x, q.y - p.y)
  }

  /** `step` and `Offset` are inverse: stepping by `v` lands on the square
      whose offset is `v`, and stepping by the offset between two squares
      leads from the first to the second. */
  lemma StepOffsetInverse(p: Pos, q: Pos, v: Vec)
    ensures Offset(p, Step(p, v)) == v
    ensures Step(p, Offset(p, q)) == q
  {
  }

  /** `vector.map { |x| x * i }`: the offset scaled by `i`. */
  function Scale(v: Vec, i: int): Vec
  {
    Vec(v.dx * i, v.dy * i)
  }

  function Abs(n: int): nat
  {
    if n < 0 then -n else n
  }

  /** For `d` of magnitude at least one, `|d * i|` is at least `i`. */
  lemma {:induction false} ScaledAtLeast(d: int, i: nat)
    requires d != 0
    ensures Abs(d * i) >= i
    ensures d > 0 ==> d * i >= i
    ensures d < 0 ==> d * i + i <= 0
  {
    if i > 0 {
      ScaledAtLeast(d, i - 1);
      assert d * i == d * (i - 1) + d;
    }
  }
}
