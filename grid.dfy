/**
 * Index space and real-number helpers shared by the convection kernels.
 *
 * A cell-centred field `state(i, j, k, n)` is a total function of the three
 * cell indices and the component; the per-cell kernels read it through a
 * one-dimensional `Line` along one axis.
 */
module Grid {

  /** One component of a cell-centred field along one grid line. */
  type Line = int -> real

  /** A cell-centred multi-component field: state(i, j, k, n). */
  type Field = (int, int, int, int) -> real

  datatype Axis = X | Y | Z

  datatype Cell = Cell(i: int, j: int, k: int)

  /** The component number of the velocity normal to faces of axis `a`. */
  function AxisIndex(a: Axis): int
  {
    match a
    case X => 0
    case Y => 1
    case Z => 2
  }

  function Coord(c: Cell, a: Axis): int
  {
    match a
    case X => c.i
    case Y => c.j
    case Z => c.k
  }

  function WithCoord(c: Cell, a: Axis, t: int): (d: Cell)
    ensures Coord(d, a) == t
    ensures forall b :: b != a ==> Coord(d, b) == Coord(c, b)
  {
    match a
    case X => c.(i := t)
    case Y => c.(j := t)
    case Z => c.(k := t)
  }

  /** Component `n` of `S` along the grid line through `c` parallel to `a`. */
  function Along(S: Field, a: Axis, c: Cell, n: int): Line
  {
    (t: int) => var d := WithCoord(c, a, t); S(d.i, d.j, d.k, n)
  }

  function Abs(x: real): (r: real)
    ensures r >= 0.0 && (r == x || r == -x)
  {
    if x >= 0.0 then x else -x
  }

  function Min(x: real, y: real): (r: real)
    ensures r <= x && r <= y && (r == x || r == y)
  {
    if x <= y then x else y
  }

  /** amrex::min of three arguments. */
  function Min3(x: real, y: real, z: real): (r: real)
    ensures r <= x && r <= y && r <= z && (r == x || r == y || r == z)
  {
    Min(Min(x, y), z)
  }

  /** copysign(1.0, x), with the sign of a zero taken as positive. */
  function CopySign1(x: real): (r: real)
    ensures (r == 1.0 && x >= 0.0) || (r == -1.0 && x < 0.0)
  {
    if x >= 0.0 then 1.0 else -1.0
  }

  /** Both nonzero with the same sign. */
  predicate SameSign(x: real, y: real)
  {
    (x > 0.0 && y > 0.0) || (x < 0.0 && y < 0.0)
  }

  /** A product is positive exactly when both factors are nonzero with the same sign. */
  lemma ProductPositive(x: real, y: real)
    ensures x * y > 0.0 <==> SameSign(x, y)
  {
    if x > 0.0 && y < 0.0 {
      assert x * y < 0.0;
    } else if x < 0.0 && y > 0.0 {
      assert x * y < 0.0;
    } else if x > 0.0 && y > 0.0 {
      assert x * y > 0.0;
    } else if x < 0.0 && y < 0.0 {
      assert x * y > 0.0;
    }
  }

  /** Both nonzero with opposite signs. */
  predicate OppositeSigns(x: real, y: real)
  {
    (x > 0.0 && y < 0.0) || (x < 0.0 && y > 0.0)
  }

  /** A product is non-negative exactly when the factors do not have opposite signs. */
  lemma ProductNonNegative(x: real, y: real)
    ensures x * y >= 0.0 <==> !OppositeSigns(x, y)
  {
    if x > 0.0 && y < 0.0 {
      assert x * y < 0.0;
    } else if x < 0.0 && y > 0.0 {
      assert x * y < 0.0;
    } else if x >= 0.0 && y >= 0.0 {
      assert x * y >= 0.0;
    } else if x <= 0.0 && y <= 0.0 {
      assert x * y >= 0.0;
    }
  }

  /**
   * copysign(1.0, s) * m, the kernels' way of giving a magnitude the sign
   * of a difference, written without the product.
   */
  function WithSign(s: real, m: real): (r: real)
    ensures (r == m && s >= 0.0) || (r == -m && s < 0.0)
  {
    if s >= 0.0 then m else -m
  }

  /** WithSign is the product the kernels write. */
  lemma WithSignIsProduct(s: real, m: real)
    ensures WithSign(s, m) == CopySign1(s) * m
  {
  }
}
