/**
 * incflo_slopes_eb and incflo_slopes_extdir_eb: the cell slopes next to an
 * embedded boundary (three dimensions).
 *
 * The slope of a cell is the least-squares gradient fitted to the
 * differences towards its connected neighbours, measured between cell
 * centroids; along an axis on which the cell and both its axis neighbours
 * are regular and connected the plain monotonized-central slope is used
 * instead.  The extdir variant then swaps in the one-sided limiter at
 * flagged domain-edge cells of such regular axes.
 */
module EbSlopes {
  import opened Grid
  import opened Limiters

  datatype Vec3 = Vec3(x: real, y: real, z: real)

  /** The component of `v` along axis `a`. */
  function Get(v: Vec3, a: Axis): real
  {
    match a
    case X => v.x
    case Y => v.y
    case Z => v.z
  }

  function Dot(u: Vec3, v: Vec3): real
  {
    u.x * v.x + u.y * v.y + u.z * v.z
  }

  /** A 3x3 matrix; `aRS` is the entry in row R and column S. */
  datatype Mat3 = Mat3(a00: real, a01: real, a02: real,
                       a10: real, a11: real, a12: real,
                       a20: real, a21: real, a22: real)

  predicate Symmetric(m: Mat3)
  {
    m.a01 == m.a10 && m.a02 == m.a20 && m.a12 == m.a21
  }

  /** The product of `m` and the column vector `g`. */
  function Apply(m: Mat3, g: Vec3): Vec3
  {
    Vec3(m.a00 * g.x + m.a01 * g.y + m.a02 * g.z,
         m.a10 * g.x + m.a11 * g.y + m.a12 * g.z,
         m.a20 * g.x + m.a21 * g.y + m.a22 * g.z)
  }

  /** The neighbour offset (ii, jj, kk) of a cell. */
  datatype Offset = Offset(di: int, dj: int, dk: int)

  /** The two EBCellFlag queries the kernel makes: isSingleValued and isConnected(ii, jj, kk). */
  datatype CellFlags = CellFlags(singleValued: Cell -> bool, connected: (Cell, Offset) -> bool)

  function Shifted(c: Cell, o: Offset): Cell
  {
    Cell(c.i + o.di, c.j + o.dj, c.k + o.dk)
  }

  /** The offset of the unit step `t` along axis `a`. */
  function Unit(a: Axis, t: int): Offset
  {
    match a
    case X => Offset(t, 0, 0)
    case Y => Offset(0, t, 0)
    case Z => Offset(0, 0, t)
  }

  // ---------------------------------------------------------------------
  // The least-squares system (lines 436-474)
  // ---------------------------------------------------------------------

  /** The stencil size m_size: the 3x3x3 block of neighbours, the cell itself included. */
  const StencilSize := 27

  /** The offset visited at step `lc` of the fill loops: ii runs fastest, then jj, then kk. */
  function OffsetOf(lc: int): Offset
    requires 0 <= lc < StencilSize
  {
    Offset(lc % 3 - 1, lc / 3 % 3 - 1, lc / 9 - 1)
  }

  /** The offset lies in the 3x3x3 block around the cell. */
  predicate InStencil(o: Offset)
  {
    -1 <= o.di <= 1 && -1 <= o.dj <= 1 && -1 <= o.dk <= 1
  }

  /** The step lc at which the fill loops visit offset `o`. */
  function IndexOf(o: Offset): int
  {
    9 * (o.dk + 1) + 3 * (o.dj + 1) + (o.di + 1)
  }

  /** Distinct stencil offsets are visited at distinct steps. */
  lemma IndexInjective(o: Offset, p: Offset)
    requires InStencil(o) && InStencil(p) && IndexOf(o) == IndexOf(p)
    ensures o == p
  {
  }

  /** Every step of the fill loops visits a stencil offset, and IndexOf recovers the step. */
  lemma OffsetOfIndexed(lc: int)
    requires 0 <= lc < StencilSize
    ensures InStencil(OffsetOf(lc)) && IndexOf(OffsetOf(lc)) == lc
  {
    assert lc == 9 * (lc / 9) + 3 * (lc / 3 % 3) + lc % 3;
  }

  /** Every stencil offset is visited at a step of the fill loops, and OffsetOf recovers it. */
  lemma IndexOfOffset(o: Offset)
    requires InStencil(o)
    ensures 0 <= IndexOf(o) < StencilSize && OffsetOf(IndexOf(o)) == o
  {
    assert IndexOf(o) / 3 == 3 * (o.dk + 1) + (o.dj + 1);
  }

  /** A neighbour enters the fit when the cell is connected to it and it is not the cell itself. */
  predicate Contributes(c: Cell, flags: CellFlags, o: Offset)
  {
    flags.connected(c, o) && o != Offset(0, 0, 0)
  }

  /** The centroid of cell `d` relative to its centre, in cell widths. */
  function Centroid(ccent: Field, d: Cell): Vec3
  {
    Vec3(ccent(d.i, d.j, d.k, 0), ccent(d.i, d.j, d.k, 1), ccent(d.i, d.j, d.k, 2))
  }

  /** The vector from the centroid of `c` to the centroid of its neighbour at offset `o`, in cell widths. */
  function Displacement(c: Cell, ccent: Field, o: Offset): Vec3
  {
    var d := Shifted(c, o);
    Vec3(o.di as real + ccent(d.i, d.j, d.k, 0) - ccent(c.i, c.j, c.k, 0),
         o.dj as real + ccent(d.i, d.j, d.k, 1) - ccent(c.i, c.j, c.k, 1),
         o.dk as real + ccent(d.i, d.j, d.k, 2) - ccent(c.i, c.j, c.k, 2))
  }

  /** The row of A for offset `o`: the displacement for a contributing neighbour, zero otherwise. */
  function Row(c: Cell, ccent: Field, flags: CellFlags, o: Offset): Vec3
  {
    if Contributes(c, flags, o) then Displacement(c, ccent, o) else Vec3(0.0, 0.0, 0.0)
  }

  /** The entry of du for offset `o`: the jump of component `n` towards a contributing neighbour, zero otherwise. */
  function Jump(c: Cell, n: int, state: Field, flags: CellFlags, o: Offset): real
  {
    var d := Shifted(c, o);
    if Contributes(c, flags, o) then state(d.i, d.j, d.k, n) - state(c.i, c.j, c.k, n) else 0.0
  }

  /** The matrix A, row by row in loop order. */
  function Rows(c: Cell, ccent: Field, flags: CellFlags): (rows: seq<Vec3>)
    ensures |rows| == StencilSize
  {
    seq(StencilSize, lc requires 0 <= lc < StencilSize => Row(c, ccent, flags, OffsetOf(lc)))
  }

  /** The vector du in loop order. */
  function Jumps(c: Cell, n: int, state: Field, flags: CellFlags): (du: seq<real>)
    ensures |du| == StencilSize
  {
    seq(StencilSize, lc requires 0 <= lc < StencilSize => Jump(c, n, state, flags, OffsetOf(lc)))
  }

  // ---------------------------------------------------------------------
  // The normal equations (lines 476-519)
  // ---------------------------------------------------------------------

  /** Entry (a, b) of the outer product of `u` with itself. */
  function Outer(u: Vec3, a: Axis, b: Axis): real
  {
    Get(u, a) * Get(u, b)
  }

  /** Entry (a, b) of the Gram matrix of the first `m` rows. */
  function Gram(rows: seq<Vec3>, a: Axis, b: Axis, m: nat): real
    requires m <= |rows|
  {
    if m == 0 then 0.0 else Gram(rows, a, b, m - 1) + Outer(rows[m - 1], a, b)
  }

  /** Component `a` of `u` scaled by `d`. */
  function Scaled(u: Vec3, a: Axis, d: real): real
  {
    Get(u, a) * d
  }

  /** Entry `a` of the first `m` rows, transposed, applied to du. */
  function Moment(rows: seq<Vec3>, du: seq<real>, a: Axis, m: nat): real
    requires m <= |rows| && m <= |du|
  {
    if m == 0 then 0.0 else Moment(rows, du, a, m - 1) + Scaled(rows[m - 1], a, du[m - 1])
  }

  /** The Gram matrix is symmetric, entry by entry, over every prefix of the rows. */
  lemma {:induction false} GramSymmetric(rows: seq<Vec3>, a: Axis, b: Axis, m: nat)
    requires m <= |rows|
    ensures Gram(rows, a, b, m) == Gram(rows, b, a, m)
  {
    if m > 0 {
      GramSymmetric(rows, a, b, m - 1);
    }
  }

  /** AtA. */
  function NormalMatrix(rows: seq<Vec3>): Mat3
  {
    var m := |rows|;
    Mat3(Gram(rows, X, X, m), Gram(rows, X, Y, m), Gram(rows, X, Z, m),
         Gram(rows, Y, X, m), Gram(rows, Y, Y, m), Gram(rows, Y, Z, m),
         Gram(rows, Z, X, m), Gram(rows, Z, Y, m), Gram(rows, Z, Z, m))
  }

  /** Atb. */
  function NormalRhs(rows: seq<Vec3>, du: seq<real>): Vec3
    requires |rows| == |du|
  {
    var m := |rows|;
    Vec3(Moment(rows, du, X, m), Moment(rows, du, Y, m), Moment(rows, du, Z, m))
  }

  /** AtA is symmetric, which lines 509-513 rely on when they fill its lower half by copying. */
  lemma NormalMatrixSymmetric(rows: seq<Vec3>)
    ensures Symmetric(NormalMatrix(rows))
  {
    GramSymmetric(rows, X, Y, |rows|);
    GramSymmetric(rows, X, Z, |rows|);
    GramSymmetric(rows, Y, Z, |rows|);
  }

  /** Column `a` of `m`. */
  function Column(m: Mat3, a: Axis): Vec3
  {
    match a
    case X => Vec3(m.a00, m.a10, m.a20)
    case Y => Vec3(m.a01, m.a11, m.a21)
    case Z => Vec3(m.a02, m.a12, m.a22)
  }

  /** The cross product. */
  function Cross(u: Vec3, v: Vec3): Vec3
  {
    Vec3(u.y * v.z - u.z * v.y, u.z * v.x - u.x * v.z, u.x * v.y - u.y * v.x)
  }

  /** `m` with column `a` replaced by `b`. */
  function WithColumn(m: Mat3, a: Axis, b: Vec3): Mat3
  {
    match a
    case X => m.(a00 := b.x, a10 := b.y, a20 := b.z)
    case Y => m.(a01 := b.x, a11 := b.y, a21 := b.z)
    case Z => m.(a02 := b.x, a12 := b.y, a22 := b.z)
  }

  /** detAtA (lines 516-519), a cofactor expansion along the first row. */
  function Det(m: Mat3): real
  {
    m.a00 * (m.a11 * m.a22 - m.a12 * m.a21) -
    m.a01 * (m.a10 * m.a22 - m.a12 * m.a20) +
    m.a02 * (m.a10 * m.a21 - m.a11 * m.a20)
  }

  /** detAtA is the determinant: the scalar triple product of the columns. */
  lemma DetIsTripleProduct(m: Mat3)
    ensures Det(m) == Dot(Column(m, X), Cross(Column(m, Y), Column(m, Z)))
  {
  }

  /**
   * detAtA_x, detAtA_y and detAtA_z (lines 537-540, 569-572, 599-602):
   * the determinant with column `a` replaced by `b`, written as the source
   * does with some entries of the lower half taken from the upper half.
   */
  function Numerator(m: Mat3, b: Vec3, a: Axis): real
  {
    match a
    case X =>
      b.x * (m.a11 * m.a22 - m.a12 * m.a12) -
      m.a01 * (b.y * m.a22 - m.a12 * b.z) +
      m.a02 * (b.y * m.a21 - m.a11 * b.z)
    case Y =>
      m.a00 * (b.y * m.a22 - m.a12 * b.z) -
      b.x * (m.a10 * m.a22 - m.a12 * m.a20) +
      m.a02 * (m.a10 * b.z - b.y * m.a20)
    case Z =>
      m.a00 * (m.a11 * b.z - b.y * m.a12) -
      m.a01 * (m.a10 * b.z - b.y * m.a20) +
      b.x * (m.a10 * m.a21 - m.a11 * m.a20)
  }

  /**
   * For the symmetric normal matrix the source's numerator of axis `a` is
   * the numerator of Cramer's rule: detAtA with column `a` replaced by `b`.
   */
  lemma NumeratorIsCramer(m: Mat3, b: Vec3, a: Axis)
    ensures Symmetric(m) ==> Numerator(m, b, a) == Det(WithColumn(m, a, b))
  {
  }

  // ---------------------------------------------------------------------
  // The slope along each axis (lines 530-618)
  // ---------------------------------------------------------------------

  /** The cell next to `c` one step `t` along axis `a`. */
  function Neighbour(c: Cell, a: Axis, t: int): Cell
  {
    Shifted(c, Unit(a, t))
  }

  /**
   * The condition of lines 531-533 (and 563-565, 594-596): the cell or an
   * axis neighbour is cut by the boundary, or the cell is not connected to
   * an axis neighbour.  The least-squares slope is used exactly then.
   */
  predicate Irregular(c: Cell, flags: CellFlags, a: Axis): (r: bool)
    ensures flags.singleValued(c) ==> r
    ensures !r ==> Contributes(c, flags, Unit(a, -1)) && Contributes(c, flags, Unit(a, 1))
  {
    flags.singleValued(c) ||
    (flags.singleValued(Neighbour(c, a, -1)) || !flags.connected(c, Unit(a, -1))) ||
    (flags.singleValued(Neighbour(c, a, 1)) || !flags.connected(c, Unit(a, 1)))
  }

  /** Some axis takes the least-squares branch, and so divides by detAtA. */
  predicate LeastSquaresUsed(c: Cell, flags: CellFlags)
  {
    Irregular(c, flags, X) || Irregular(c, flags, Y) || Irregular(c, flags, Z)
  }

  /**
   * One component of the result: Cramer's rule on the normal equations on
   * an irregular axis, the monotonized-central slope of the line through
   * the cell otherwise.
   */
  function AxisSlope(q: Line, i: int, irregular: bool, m: Mat3, b: Vec3, a: Axis): (r: real)
    requires irregular ==> Det(m) != 0.0
    ensures irregular && Symmetric(m) ==> r == Det(WithColumn(m, a, b)) / Det(m)
    ensures !irregular ==> r == Slope2(q, i)
  {
    if irregular then
      NumeratorIsCramer(m, b, a);
      Numerator(m, b, a) / Det(m)
    else
      Slope2(q, i)
  }

  /** The slopes incflo_slopes_eb returns. */
  function EbSlope(c: Cell, n: int, state: Field, ccent: Field, flags: CellFlags): (r: Vec3)
    requires LeastSquaresUsed(c, flags) ==> Det(NormalMatrix(Rows(c, ccent, flags))) != 0.0
    ensures !Irregular(c, flags, X) ==> r.x == Slope2(Along(state, X, c, n), c.i)
    ensures !Irregular(c, flags, Y) ==> r.y == Slope2(Along(state, Y, c, n), c.j)
    ensures !Irregular(c, flags, Z) ==> r.z == Slope2(Along(state, Z, c, n), c.k)
  {
    var rows := Rows(c, ccent, flags);
    var m, b := NormalMatrix(rows), NormalRhs(rows, Jumps(c, n, state, flags));
    Vec3(AxisSlope(Along(state, X, c, n), c.i, Irregular(c, flags, X), m, b, X),
         AxisSlope(Along(state, Y, c, n), c.j, Irregular(c, flags, Y), m, b, Y),
         AxisSlope(Along(state, Z, c, n), c.k, Irregular(c, flags, Z), m, b, Z))
  }

  /**
   * The body of the fill loops (lines 445-466): row `lc` of A and entry
   * `lc` of du for offset `o`, zero unless the neighbour contributes.
   */
  method FillEntry(A: array2<real>, du: array<real>, lc: int, c: Cell, n: int, state: Field, ccent: Field,
                   flags: CellFlags, o: Offset)
    requires 0 <= lc < A.Length0 && A.Length1 == 3 && lc < du.Length
    modifies A, du
    ensures Vec3(A[lc, 0], A[lc, 1], A[lc, 2]) == Row(c, ccent, flags, o) && du[lc] == Jump(c, n, state, flags, o)
    ensures forall m, t :: 0 <= m < A.Length0 && 0 <= t < 3 && m != lc ==> A[m, t] == old(A[m, t])
    ensures forall m :: 0 <= m < du.Length && m != lc ==> du[m] == old(du[m])
  {
    var ii, jj, kk := o.di, o.dj, o.dk;
    if flags.connected(c, Offset(ii, jj, kk)) && !(ii == 0 && jj == 0 && kk == 0) {
      A[lc, 0] := ii as real + ccent(c.i + ii, c.j + jj, c.k + kk, 0) - ccent(c.i, c.j, c.k, 0);
      A[lc, 1] := jj as real + ccent(c.i + ii, c.j + jj, c.k + kk, 1) - ccent(c.i, c.j, c.k, 1);
      A[lc, 2] := kk as real + ccent(c.i + ii, c.j + jj, c.k + kk, 2) - ccent(c.i, c.j, c.k, 2);
      du[lc] := state(c.i + ii, c.j + jj, c.k + kk, n) - state(c.i, c.j, c.k, n);
    } else {
      A[lc, 0] := 0.0;
      A[lc, 1] := 0.0;
      A[lc, 2] := 0.0;
      du[lc] := 0.0;
    }
  }

  /**
   * The fill loops of lines 436-474: for every offset of the stencil, row
   * IndexOf(o) of A and entry IndexOf(o) of du.
   */
  method FillSystem(c: Cell, n: int, state: Field, ccent: Field, flags: CellFlags) returns (A: array2<real>, du: array<real>)
    ensures fresh(A) && fresh(du) && A.Length0 == StencilSize && A.Length1 == 3 && du.Length == StencilSize
    ensures forall o :: InStencil(o) ==>
              Vec3(A[IndexOf(o), 0], A[IndexOf(o), 1], A[IndexOf(o), 2]) == Row(c, ccent, flags, o) &&
              du[IndexOf(o)] == Jump(c, n, state, flags, o)
  {
    A := new real[StencilSize, 3];
    du := new real[StencilSize];
    var lc := 0;
    var kk := -1;
    while kk <= 1
      invariant -1 <= kk <= 2 && lc == 9 * (kk + 1)
      invariant forall o :: InStencil(o) && IndexOf(o) < lc ==>
                  Vec3(A[IndexOf(o), 0], A[IndexOf(o), 1], A[IndexOf(o), 2]) == Row(c, ccent, flags, o) &&
                  du[IndexOf(o)] == Jump(c, n, state, flags, o)
    {
      var jj := -1;
      while jj <= 1
        invariant -1 <= jj <= 2 && lc == 9 * (kk + 1) + 3 * (jj + 1)
        invariant forall o :: InStencil(o) && IndexOf(o) < lc ==>
                    Vec3(A[IndexOf(o), 0], A[IndexOf(o), 1], A[IndexOf(o), 2]) == Row(c, ccent, flags, o) &&
                    du[IndexOf(o)] == Jump(c, n, state, flags, o)
      {
        var ii := -1;
        while ii <= 1
          invariant -1 <= ii <= 2 && lc == 9 * (kk + 1) + 3 * (jj + 1) + (ii + 1)
          invariant forall o :: InStencil(o) && IndexOf(o) < lc ==>
                      Vec3(A[IndexOf(o), 0], A[IndexOf(o), 1], A[IndexOf(o), 2]) == Row(c, ccent, flags, o) &&
                      du[IndexOf(o)] == Jump(c, n, state, flags, o)
        {
          FillEntry(A, du, lc, c, n, state, ccent, flags, Offset(ii, jj, kk));
          forall o | InStencil(o) && IndexOf(o) == lc
            ensures o == Offset(ii, jj, kk)
          {
            IndexInjective(o, Offset(ii, jj, kk));
          }
          lc := lc + 1;
          ii := ii + 1;
        }
        jj := jj + 1;
      }
      kk := kk + 1;
    }
  }

  /** The body of the accumulation loop (lines 489-504): add row `r` with jump `d` to the upper half of AtA and to Atb. */
  method AddRow(AtA: array2<real>, Atb: array<real>, r: Vec3, d: real)
    requires AtA.Length0 == 3 && AtA.Length1 == 3 && Atb.Length == 3
    modifies AtA, Atb
    ensures AtA[0, 0] == old(AtA[0, 0]) + Outer(r, X, X) && AtA[0, 1] == old(AtA[0, 1]) + Outer(r, X, Y)
    ensures AtA[0, 2] == old(AtA[0, 2]) + Outer(r, X, Z) && AtA[1, 1] == old(AtA[1, 1]) + Outer(r, Y, Y)
    ensures AtA[1, 2] == old(AtA[1, 2]) + Outer(r, Y, Z) && AtA[2, 2] == old(AtA[2, 2]) + Outer(r, Z, Z)
    ensures Atb[0] == old(Atb[0]) + Scaled(r, X, d) && Atb[1] == old(Atb[1]) + Scaled(r, Y, d)
    ensures Atb[2] == old(Atb[2]) + Scaled(r, Z, d)
    ensures AtA[1, 0] == old(AtA[1, 0]) && AtA[2, 0] == old(AtA[2, 0]) && AtA[2, 1] == old(AtA[2, 1])
  {
    AtA[0, 0] := AtA[0, 0] + r.x * r.x;
    AtA[0, 1] := AtA[0, 1] + r.x * r.y;
    AtA[0, 2] := AtA[0, 2] + r.x * r.z;
    AtA[1, 1] := AtA[1, 1] + r.y * r.y;
    AtA[1, 2] := AtA[1, 2] + r.y * r.z;
    AtA[2, 2] := AtA[2, 2] + r.z * r.z;
    Atb[0] := Atb[0] + r.x * d;
    Atb[1] := Atb[1] + r.y * d;
    Atb[2] := Atb[2] + r.z * d;
  }

  /**
   * Lines 476-513: zero AtA and Atb, accumulate the upper half of AtA and
   * all of Atb over the rows, then mirror AtA.  The result is AᵀA and
   * Aᵀdu for the rows and jumps the arrays hold.
   */
  method NormalEquations(A: array2<real>, du: array<real>, ghost rows: seq<Vec3>, ghost dus: seq<real>)
    returns (m: Mat3, b: Vec3)
    requires A.Length0 == StencilSize && A.Length1 == 3 && du.Length == StencilSize
    requires |rows| == StencilSize && |dus| == StencilSize
    requires forall l :: 0 <= l < StencilSize ==> rows[l] == Vec3(A[l, 0], A[l, 1], A[l, 2]) && dus[l] == du[l]
    ensures m == NormalMatrix(rows) && b == NormalRhs(rows, dus)
  {
    var AtA := new real[3, 3];
    var Atb := new real[3];
    var col := 0;
    while col < 3
      invariant 0 <= col <= 3
      invariant forall r, t :: 0 <= r < 3 && 0 <= t < col ==> AtA[r, t] == 0.0
      invariant forall t :: 0 <= t < col ==> Atb[t] == 0.0
    {
      var row := 0;
      while row < 3
        invariant 0 <= row <= 3
        invariant forall r, t :: 0 <= r < 3 && 0 <= t < col ==> AtA[r, t] == 0.0
        invariant forall r :: 0 <= r < row ==> AtA[r, col] == 0.0
        invariant forall t :: 0 <= t < col ==> Atb[t] == 0.0
      {
        AtA[row, col] := 0.0;
        row := row + 1;
      }
      Atb[col] := 0.0;
      col := col + 1;
    }

    var lc := 0;
    while lc < StencilSize
      modifies AtA, Atb
      invariant 0 <= lc <= StencilSize
      invariant AtA[0, 0] == Gram(rows, X, X, lc) && AtA[0, 1] == Gram(rows, X, Y, lc) && AtA[0, 2] == Gram(rows, X, Z, lc)
      invariant AtA[1, 1] == Gram(rows, Y, Y, lc) && AtA[1, 2] == Gram(rows, Y, Z, lc) && AtA[2, 2] == Gram(rows, Z, Z, lc)
      invariant Atb[0] == Moment(rows, dus, X, lc) && Atb[1] == Moment(rows, dus, Y, lc) && Atb[2] == Moment(rows, dus, Z, lc)
    {
      var r, d := Vec3(A[lc, 0], A[lc, 1], A[lc, 2]), du[lc];
      assert r == rows[lc] && d == dus[lc];
      AddRow(AtA, Atb, r, d);
      lc := lc + 1;
    }

    AtA[1, 0] := AtA[0, 1];
    AtA[2, 0] := AtA[0, 2];
    AtA[2, 1] := AtA[1, 2];
    NormalMatrixSymmetric(rows);
    m := Mat3(AtA[0, 0], AtA[0, 1], AtA[0, 2], AtA[1, 0], AtA[1, 1], AtA[1, 2], AtA[2, 0], AtA[2, 1], AtA[2, 2]);
    b := Vec3(Atb[0], Atb[1], Atb[2]);
  }

  /**
   * incflo_slopes_eb at cell `c` for component `n`.  The division by
   * detAtA is unguarded in the source, so a vanishing determinant is
   * excluded whenever some axis divides by it.
   */
  method SlopesEb(c: Cell, n: int, state: Field, ccent: Field, flags: CellFlags) returns (s: Vec3)
    requires LeastSquaresUsed(c, flags) ==> Det(NormalMatrix(Rows(c, ccent, flags))) != 0.0
    ensures s == EbSlope(c, n, state, ccent, flags)
  {
    var A, du := FillSystem(c, n, state, ccent, flags);
    forall l | 0 <= l < StencilSize
      ensures Rows(c, ccent, flags)[l] == Vec3(A[l, 0], A[l, 1], A[l, 2]) && Jumps(c, n, state, flags)[l] == du[l]
    {
      OffsetOfIndexed(l);
    }
    var m, b := NormalEquations(A, du, Rows(c, ccent, flags), Jumps(c, n, state, flags));
    s := Vec3(AxisSlope(Along(state, X, c, n), c.i, Irregular(c, flags, X), m, b, X),
              AxisSlope(Along(state, Y, c, n), c.j, Irregular(c, flags, Y), m, b, Y),
              AxisSlope(Along(state, Z, c, n), c.k, Irregular(c, flags, Z), m, b, Z));
  }

  // ---------------------------------------------------------------------
  // incflo_slopes_extdir_eb (lines 623-732)
  // ---------------------------------------------------------------------

  /** The external-value flags and domain bounds of each axis. */
  datatype DomainEdges = DomainEdges(edlo: Axis -> bool, edhi: Axis -> bool, domlo: Axis -> int, domhi: Axis -> int)

  /**
   * The slope incflo_slopes_extdir_eb writes at a flagged low (or else
   * high) domain-edge cell: the monotonized-central limiter with the
   * one-sided centred difference of that edge, which is exactly
   * incflo_xslope_extdir there.
   */
  function EdgeOverride(q: Line, i: int, edlo: bool, edhi: bool, domlo: int, domhi: int): (r: real)
    requires EdgeCell(i, edlo, edhi, domlo, domhi)
    ensures r == Slope2ExtDir(q, i, edlo, edhi, domlo, domhi)
  {
    var dl, dr := 2.0 * (q(i) - q(i-1)), 2.0 * (q(i+1) - q(i));
    Slope2ExtDirAtEdge(q, i, edlo, edhi, domlo, domhi);
    if edlo && i == domlo then MonotonizedCentral(dl, CentreLo(q, i), dr)
    else MonotonizedCentral(dl, CentreHi(q, i), dr)
  }

  /**
   * One component of incflo_slopes_extdir_eb: on a regular axis at a
   * flagged domain-edge cell the edge slope replaces the slope `s` of
   * incflo_slopes_eb; elsewhere `s` is kept.
   */
  function BoundaryOverride(s: real, q: Line, i: int, edlo: bool, edhi: bool, domlo: int, domhi: int, irregular: bool): (r: real)
    ensures irregular || !EdgeCell(i, edlo, edhi, domlo, domhi) ==> r == s
    ensures !irregular && EdgeCell(i, edlo, edhi, domlo, domhi) ==> r == Slope2ExtDir(q, i, edlo, edhi, domlo, domhi)
  {
    if EdgeCell(i, edlo, edhi, domlo, domhi) && !irregular then EdgeOverride(q, i, edlo, edhi, domlo, domhi) else s
  }

  /** Component `a` of incflo_slopes_extdir_eb, given the slopes `s` of incflo_slopes_eb. */
  function ExtDirComponent(c: Cell, n: int, state: Field, flags: CellFlags, e: DomainEdges, s: Vec3, a: Axis): (r: real)
    ensures Irregular(c, flags, a) || !EdgeCell(Coord(c, a), e.edlo(a), e.edhi(a), e.domlo(a), e.domhi(a)) ==> r == Get(s, a)
    ensures !Irregular(c, flags, a) && EdgeCell(Coord(c, a), e.edlo(a), e.edhi(a), e.domlo(a), e.domhi(a)) ==>
              r == Slope2ExtDir(Along(state, a, c, n), Coord(c, a), e.edlo(a), e.edhi(a), e.domlo(a), e.domhi(a))
  {
    BoundaryOverride(Get(s, a), Along(state, a, c, n), Coord(c, a), e.edlo(a), e.edhi(a), e.domlo(a), e.domhi(a),
                     Irregular(c, flags, a))
  }

  /** incflo_slopes_extdir_eb: the slopes of incflo_slopes_eb with the boundary overrides of each axis. */
  function ExtDirEbSlope(c: Cell, n: int, state: Field, ccent: Field, flags: CellFlags, e: DomainEdges): (r: Vec3)
    requires LeastSquaresUsed(c, flags) ==> Det(NormalMatrix(Rows(c, ccent, flags))) != 0.0
    ensures Irregular(c, flags, X) || !EdgeCell(Coord(c, X), e.edlo(X), e.edhi(X), e.domlo(X), e.domhi(X)) ==>
              r.x == EbSlope(c, n, state, ccent, flags).x
    ensures !Irregular(c, flags, X) && EdgeCell(Coord(c, X), e.edlo(X), e.edhi(X), e.domlo(X), e.domhi(X)) ==>
              r.x == Slope2ExtDir(Along(state, X, c, n), Coord(c, X), e.edlo(X), e.edhi(X), e.domlo(X), e.domhi(X))
    ensures Irregular(c, flags, Y) || !EdgeCell(Coord(c, Y), e.edlo(Y), e.edhi(Y), e.domlo(Y), e.domhi(Y)) ==>
              r.y == EbSlope(c, n, state, ccent, flags).y
    ensures !Irregular(c, flags, Y) && EdgeCell(Coord(c, Y), e.edlo(Y), e.edhi(Y), e.domlo(Y), e.domhi(Y)) ==>
              r.y == Slope2ExtDir(Along(state, Y, c, n), Coord(c, Y), e.edlo(Y), e.edhi(Y), e.domlo(Y), e.domhi(Y))
    ensures Irregular(c, flags, Z) || !EdgeCell(Coord(c, Z), e.edlo(Z), e.edhi(Z), e.domlo(Z), e.domhi(Z)) ==>
              r.z == EbSlope(c, n, state, ccent, flags).z
    ensures !Irregular(c, flags, Z) && EdgeCell(Coord(c, Z), e.edlo(Z), e.edhi(Z), e.domlo(Z), e.domhi(Z)) ==>
              r.z == Slope2ExtDir(Along(state, Z, c, n), Coord(c, Z), e.edlo(Z), e.edhi(Z), e.domlo(Z), e.domhi(Z))
  {
    var s := EbSlope(c, n, state, ccent, flags);
    Vec3(ExtDirComponent(c, n, state, flags, e, s, X),
         ExtDirComponent(c, n, state, flags, e, s, Y),
         ExtDirComponent(c, n, state, flags, e, s, Z))
  }
}
