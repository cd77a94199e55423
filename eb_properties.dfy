/**
 * What the embedded-boundary slopes promise: the least-squares branch
 * solves the normal equations and reproduces a linear field exactly,
 * neighbours the cell is not connected to never influence the result, and
 * the extdir variant differs from the plain one only at flagged
 * domain-edge cells of regular axes, where it is the one-sided limiter.
 */
module EbProperties {
  import opened Grid
  import opened Limiters
  import opened EbSlopes

  // ---------------------------------------------------------------------
  // Cramer's rule
  // ---------------------------------------------------------------------

  /** The three Cramer numerators, one per axis. */
  function CramerNumerators(m: Mat3, b: Vec3): Vec3
  {
    Vec3(Numerator(m, b, X), Numerator(m, b, Y), Numerator(m, b, Z))
  }

  /** Row X of m applied to the numerators is detAtA times b.x, for a symmetric m. */
  lemma CramerRowX(m: Mat3, b: Vec3)
    requires Symmetric(m)
    ensures m.a00 * Numerator(m, b, X) + m.a01 * Numerator(m, b, Y) + m.a02 * Numerator(m, b, Z) == Det(m) * b.x
  {
  }

  lemma CramerRowY(m: Mat3, b: Vec3)
    requires Symmetric(m)
    ensures m.a10 * Numerator(m, b, X) + m.a11 * Numerator(m, b, Y) + m.a12 * Numerator(m, b, Z) == Det(m) * b.y
  {
  }

  lemma CramerRowZ(m: Mat3, b: Vec3)
    requires Symmetric(m)
    ensures m.a20 * Numerator(m, b, X) + m.a21 * Numerator(m, b, Y) + m.a22 * Numerator(m, b, Z) == Det(m) * b.z
  {
  }

  /** For a symmetric matrix, the numerator of axis `a` recovers component `a` of g from b = m g, scaled by detAtA. */
  lemma CramerExact(m: Mat3, g: Vec3, a: Axis)
    requires Symmetric(m)
    ensures Numerator(m, Apply(m, g), a) == Det(m) * Get(g, a)
  {
    match a
    case X =>
    case Y =>
    case Z =>
  }

  /** Dividing an exact multiple. */
  lemma DivideExact(num: real, det: real, v: real)
    requires det != 0.0 && num == det * v
    ensures num / det == v
  {
  }

  /** The slopes lines 548, 580 and 604 compute: each numerator divided by detAtA. */
  function CramerSolution(m: Mat3, b: Vec3): Vec3
    requires Det(m) != 0.0
  {
    Vec3(Numerator(m, b, X) / Det(m), Numerator(m, b, Y) / Det(m), Numerator(m, b, Z) / Det(m))
  }

  /** If a row times v is d e with d nonzero, the row times v / d is e. */
  lemma RowOfScaled(p0: real, p1: real, p2: real, v: Vec3, d: real, e: real)
    requires d != 0.0 && p0 * v.x + p1 * v.y + p2 * v.z == d * e
    ensures p0 * (v.x / d) + p1 * (v.y / d) + p2 * (v.z / d) == e
  {
    assert p0 * (v.x / d) + p1 * (v.y / d) + p2 * (v.z / d) == (p0 * v.x + p1 * v.y + p2 * v.z) / d;
  }

  lemma CramerSolutionRowX(m: Mat3, b: Vec3)
    requires Symmetric(m) && Det(m) != 0.0
    ensures Apply(m, CramerSolution(m, b)).x == b.x
  {
    CramerRowX(m, b);
    RowOfScaled(m.a00, m.a01, m.a02, CramerNumerators(m, b), Det(m), b.x);
  }

  lemma CramerSolutionRowY(m: Mat3, b: Vec3)
    requires Symmetric(m) && Det(m) != 0.0
    ensures Apply(m, CramerSolution(m, b)).y == b.y
  {
    CramerRowY(m, b);
    RowOfScaled(m.a10, m.a11, m.a12, CramerNumerators(m, b), Det(m), b.y);
  }

  lemma CramerSolutionRowZ(m: Mat3, b: Vec3)
    requires Symmetric(m) && Det(m) != 0.0
    ensures Apply(m, CramerSolution(m, b)).z == b.z
  {
    CramerRowZ(m, b);
    RowOfScaled(m.a20, m.a21, m.a22, CramerNumerators(m, b), Det(m), b.z);
  }

  /** For a symmetric, invertible matrix, Cramer's solution solves m s = b. */
  lemma CramerSolutionSolves(m: Mat3, b: Vec3)
    requires Symmetric(m) && Det(m) != 0.0
    ensures Apply(m, CramerSolution(m, b)) == b
  {
    CramerSolutionRowX(m, b);
    CramerSolutionRowY(m, b);
    CramerSolutionRowZ(m, b);
  }

  lemma CramerRecoversX(m: Mat3, g: Vec3)
    requires Symmetric(m) && Det(m) != 0.0
    ensures Numerator(m, Apply(m, g), X) / Det(m) == g.x
  {
    CramerExact(m, g, X);
    DivideExact(Numerator(m, Apply(m, g), X), Det(m), g.x);
  }

  lemma CramerRecoversY(m: Mat3, g: Vec3)
    requires Symmetric(m) && Det(m) != 0.0
    ensures Numerator(m, Apply(m, g), Y) / Det(m) == g.y
  {
    CramerExact(m, g, Y);
    DivideExact(Numerator(m, Apply(m, g), Y), Det(m), g.y);
  }

  lemma CramerRecoversZ(m: Mat3, g: Vec3)
    requires Symmetric(m) && Det(m) != 0.0
    ensures Numerator(m, Apply(m, g), Z) / Det(m) == g.z
  {
    CramerExact(m, g, Z);
    DivideExact(Numerator(m, Apply(m, g), Z), Det(m), g.z);
  }

  /** For a symmetric, invertible matrix, the solution for b = m g recovers every component of g. */
  lemma CramerRecovers(m: Mat3, g: Vec3, a: Axis)
    requires Symmetric(m) && Det(m) != 0.0
    ensures Numerator(m, Apply(m, g), a) / Det(m) == Get(g, a)
  {
    match a
    case X => CramerRecoversX(m, g);
    case Y => CramerRecoversY(m, g);
    case Z => CramerRecoversZ(m, g);
  }

  // ---------------------------------------------------------------------
  // The least-squares branch
  // ---------------------------------------------------------------------

  /** Component `a` of the slopes is the one AxisSlope picks for axis `a`. */
  lemma EbSlopeComponent(c: Cell, n: int, state: Field, ccent: Field, flags: CellFlags, a: Axis)
    requires LeastSquaresUsed(c, flags) ==> Det(NormalMatrix(Rows(c, ccent, flags))) != 0.0
    ensures var rows := Rows(c, ccent, flags);
      Get(EbSlope(c, n, state, ccent, flags), a) ==
      AxisSlope(Along(state, a, c, n), Coord(c, a), Irregular(c, flags, a),
                NormalMatrix(rows), NormalRhs(rows, Jumps(c, n, state, flags)), a)
  {
    match a
    case X =>
    case Y =>
    case Z =>
  }

  /**
   * On a regular axis the component is incflo_xslope's monotonized-central
   * slope of the line through the cell (lines 552-558, 584-590, 608-614).
   */
  lemma EbSlopeRegularAxis(c: Cell, n: int, state: Field, ccent: Field, flags: CellFlags, a: Axis)
    requires LeastSquaresUsed(c, flags) ==> Det(NormalMatrix(Rows(c, ccent, flags))) != 0.0
    requires !Irregular(c, flags, a)
    ensures Get(EbSlope(c, n, state, ccent, flags), a) == Slope2(Along(state, a, c, n), Coord(c, a))
  {
    EbSlopeComponent(c, n, state, ccent, flags, a);
  }

  /** Vectors with the same component along every axis are equal. */
  lemma SameComponents(u: Vec3, v: Vec3)
    requires Get(u, X) == Get(v, X) && Get(u, Y) == Get(v, Y) && Get(u, Z) == Get(v, Z)
    ensures u == v
  {
  }

  /** When every axis takes the least-squares branch, the slopes are Cramer's solution of the normal equations. */
  lemma EbSlopeAllLeastSquares(c: Cell, n: int, state: Field, ccent: Field, flags: CellFlags)
    requires Irregular(c, flags, X) && Irregular(c, flags, Y) && Irregular(c, flags, Z)
    requires Det(NormalMatrix(Rows(c, ccent, flags))) != 0.0
    ensures var rows := Rows(c, ccent, flags);
      EbSlope(c, n, state, ccent, flags) == CramerSolution(NormalMatrix(rows), NormalRhs(rows, Jumps(c, n, state, flags)))
  {
    EbSlopeComponent(c, n, state, ccent, flags, X);
    EbSlopeComponent(c, n, state, ccent, flags, Y);
    EbSlopeComponent(c, n, state, ccent, flags, Z);
    var rows := Rows(c, ccent, flags);
    SameComponents(EbSlope(c, n, state, ccent, flags), CramerSolution(NormalMatrix(rows), NormalRhs(rows, Jumps(c, n, state, flags))));
  }

  /**
   * When every axis takes the least-squares branch, the slopes solve the
   * normal equations AᵀA s = Aᵀdu: they are the least-squares gradient.
   */
  lemma EbSlopeSolvesNormalEquations(c: Cell, n: int, state: Field, ccent: Field, flags: CellFlags)
    requires Irregular(c, flags, X) && Irregular(c, flags, Y) && Irregular(c, flags, Z)
    requires Det(NormalMatrix(Rows(c, ccent, flags))) != 0.0
    ensures var rows := Rows(c, ccent, flags);
      Apply(NormalMatrix(rows), EbSlope(c, n, state, ccent, flags)) == NormalRhs(rows, Jumps(c, n, state, flags))
  {
    EbSlopeAllLeastSquares(c, n, state, ccent, flags);
    NormalMatrixSymmetric(Rows(c, ccent, flags));
    CramerSolutionSolves(NormalMatrix(Rows(c, ccent, flags)), NormalRhs(Rows(c, ccent, flags), Jumps(c, n, state, flags)));
  }

  /** The fitted jumps of a field that is linear with gradient `g` on the contributing neighbours. */
  ghost predicate LinearOnStencil(c: Cell, n: int, state: Field, ccent: Field, flags: CellFlags, g: Vec3)
  {
    forall o :: InStencil(o) && Contributes(c, flags, o) ==> Jump(c, n, state, flags, o) == Dot(Displacement(c, ccent, o), g)
  }

  /** Every entry of du is its row of A dotted with `g`, zero rows included. */
  lemma JumpsLinear(c: Cell, n: int, state: Field, ccent: Field, flags: CellFlags, g: Vec3)
    requires LinearOnStencil(c, n, state, ccent, flags, g)
    ensures LinearJumps(Rows(c, ccent, flags), Jumps(c, n, state, flags), g, StencilSize)
  {
    forall l | 0 <= l < StencilSize
      ensures Jumps(c, n, state, flags)[l] == Dot(Rows(c, ccent, flags)[l], g)
    {
      OffsetOfIndexed(l);
    }
  }

  /** du[l] is row l dotted with `g`, for the first m rows. */
  ghost predicate LinearJumps(rows: seq<Vec3>, du: seq<real>, g: Vec3, m: nat)
    requires m <= |rows| && m <= |du|
  {
    forall l :: 0 <= l < m ==> du[l] == Dot(rows[l], g)
  }

  /** The linear combination p g.x + q g.y + r g.z. */
  function Combination(p: real, q: real, r: real, g: Vec3): real
  {
    p * g.x + q * g.y + r * g.z
  }

  /** A row's contribution to Aᵀdu when its jump is the row dotted with `g`. */
  lemma ScaledOfDot(r: Vec3, a: Axis, g: Vec3)
    ensures Scaled(r, a, Dot(r, g)) == Combination(Outer(r, a, X), Outer(r, a, Y), Outer(r, a, Z), g)
  {
  }

  /** Adding two linear combinations of g adds their coefficients, here named p, q and r. */
  lemma AddCombinations(s: real, t: real, g1: real, g2: real, g3: real, o1: real, o2: real, o3: real,
                        p: real, q: real, r: real, g: Vec3)
    requires s == Combination(g1, g2, g3, g) && t == Combination(o1, o2, o3, g)
    requires p == g1 + o1 && q == g2 + o2 && r == g3 + o3
    ensures s + t == Combination(p, q, r, g)
  {
  }

  /** When du = A g, the accumulated Aᵀdu is AᵀA g, over every prefix of the rows. */
  lemma {:induction false} MomentOfLinear(rows: seq<Vec3>, du: seq<real>, g: Vec3, a: Axis, m: nat)
    requires m <= |rows| && m <= |du|
    requires LinearJumps(rows, du, g, m)
    ensures Moment(rows, du, a, m) == Combination(Gram(rows, a, X, m), Gram(rows, a, Y, m), Gram(rows, a, Z, m), g)
  {
    if m > 0 {
      MomentOfLinear(rows, du, g, a, m - 1);
      ScaledOfDot(rows[m - 1], a, g);
      AddCombinations(Moment(rows, du, a, m - 1), Scaled(rows[m - 1], a, du[m - 1]),
                      Gram(rows, a, X, m - 1), Gram(rows, a, Y, m - 1), Gram(rows, a, Z, m - 1),
                      Outer(rows[m - 1], a, X), Outer(rows[m - 1], a, Y), Outer(rows[m - 1], a, Z),
                      Gram(rows, a, X, m), Gram(rows, a, Y, m), Gram(rows, a, Z, m), g);
    }
  }

  /** When du = A g, Atb = AtA g. */
  lemma RhsOfLinear(rows: seq<Vec3>, du: seq<real>, g: Vec3)
    requires |rows| == |du|
    requires LinearJumps(rows, du, g, |rows|)
    ensures NormalRhs(rows, du) == Apply(NormalMatrix(rows), g)
  {
    MomentOfLinear(rows, du, g, X, |rows|);
    MomentOfLinear(rows, du, g, Y, |rows|);
    MomentOfLinear(rows, du, g, Z, |rows|);
  }

  /**
   * Linear exactness of the least-squares branch: when the field varies
   * linearly with gradient `g` between the centroid of the cell and those
   * of its contributing neighbours, every irregular axis returns exactly
   * the component of `g`.
   */
  lemma EbSlopeLinear(c: Cell, n: int, state: Field, ccent: Field, flags: CellFlags, g: Vec3, a: Axis)
    requires Det(NormalMatrix(Rows(c, ccent, flags))) != 0.0
    requires Irregular(c, flags, a)
    requires LinearOnStencil(c, n, state, ccent, flags, g)
    ensures Get(EbSlope(c, n, state, ccent, flags), a) == Get(g, a)
  {
    JumpsLinear(c, n, state, ccent, flags, g);
    RhsOfLinear(Rows(c, ccent, flags), Jumps(c, n, state, flags), g);
    NormalMatrixSymmetric(Rows(c, ccent, flags));
    EbSlopeComponent(c, n, state, ccent, flags, a);
    CramerRecovers(NormalMatrix(Rows(c, ccent, flags)), g, a);
  }

  // ---------------------------------------------------------------------
  // Only connected neighbours matter
  // ---------------------------------------------------------------------

  /**
   * Two fields and two centroid fields that agree at the cell and at every
   * neighbour that contributes to the fit.
   */
  ghost predicate AgreeOnStencil(c: Cell, n: int, state: Field, state2: Field, ccent: Field, ccent2: Field, flags: CellFlags)
  {
    state(c.i, c.j, c.k, n) == state2(c.i, c.j, c.k, n) && Centroid(ccent, c) == Centroid(ccent2, c) &&
    forall o :: InStencil(o) && Contributes(c, flags, o) ==>
      var d := Shifted(c, o);
      state(d.i, d.j, d.k, n) == state2(d.i, d.j, d.k, n) && Centroid(ccent, d) == Centroid(ccent2, d)
  }

  /** The least-squares system is built from contributing neighbours only: disconnected and self offsets give zero rows. */
  lemma SystemFromContributors(c: Cell, n: int, state: Field, state2: Field, ccent: Field, ccent2: Field, flags: CellFlags)
    requires AgreeOnStencil(c, n, state, state2, ccent, ccent2, flags)
    ensures Rows(c, ccent, flags) == Rows(c, ccent2, flags)
    ensures Jumps(c, n, state, flags) == Jumps(c, n, state2, flags)
  {
    forall l | 0 <= l < StencilSize
      ensures Rows(c, ccent, flags)[l] == Rows(c, ccent2, flags)[l]
      ensures Jumps(c, n, state, flags)[l] == Jumps(c, n, state2, flags)[l]
    {
      var o := OffsetOf(l);
      OffsetOfIndexed(l);
      if Contributes(c, flags, o) {
        assert Centroid(ccent, Shifted(c, o)) == Centroid(ccent2, Shifted(c, o));
      }
    }
  }

  /** The cell `t` steps along axis `a` on the line through `c` is its axis neighbour. */
  lemma NeighbourOnLine(c: Cell, a: Axis, t: int)
    ensures WithCoord(c, a, Coord(c, a) + t) == Neighbour(c, a, t)
  {
    match a
    case X =>
    case Y =>
    case Z =>
  }

  /** The monotonized-central slope reads only the cell and its two neighbours on the line. */
  lemma Slope2Local(q: Line, r: Line, i: int)
    requires q(i - 1) == r(i - 1) && q(i) == r(i) && q(i + 1) == r(i + 1)
    ensures Slope2(q, i) == Slope2(r, i)
  {
  }

  /** On a regular axis both axis neighbours contribute, so the plain limiter sees the same values. */
  lemma RegularSlopeLocal(c: Cell, n: int, state: Field, state2: Field, ccent: Field, ccent2: Field,
                          flags: CellFlags, a: Axis)
    requires AgreeOnStencil(c, n, state, state2, ccent, ccent2, flags)
    ensures !Irregular(c, flags, a) ==>
              Slope2(Along(state, a, c, n), Coord(c, a)) == Slope2(Along(state2, a, c, n), Coord(c, a))
  {
    NeighbourOnLine(c, a, -1);
    NeighbourOnLine(c, a, 0);
    NeighbourOnLine(c, a, 1);
    if !Irregular(c, flags, a) {
      assert InStencil(Unit(a, -1)) && Contributes(c, flags, Unit(a, -1));
      assert InStencil(Unit(a, 1)) && Contributes(c, flags, Unit(a, 1));
      Slope2Local(Along(state, a, c, n), Along(state2, a, c, n), Coord(c, a));
    }
  }

  /** Both inputs build the same least-squares system. */
  predicate SameSystem(c: Cell, n: int, state: Field, state2: Field, ccent: Field, ccent2: Field, flags: CellFlags)
  {
    Rows(c, ccent, flags) == Rows(c, ccent2, flags) && Jumps(c, n, state, flags) == Jumps(c, n, state2, flags)
  }

  /** One component is the same for two inputs with the same system and, on a regular axis, the same plain slope. */
  lemma EbSlopeLocalAxis(c: Cell, n: int, state: Field, state2: Field, ccent: Field, ccent2: Field,
                         flags: CellFlags, a: Axis)
    requires LeastSquaresUsed(c, flags) ==> Det(NormalMatrix(Rows(c, ccent, flags))) != 0.0
    requires SameSystem(c, n, state, state2, ccent, ccent2, flags)
    requires !Irregular(c, flags, a) ==>
               Slope2(Along(state, a, c, n), Coord(c, a)) == Slope2(Along(state2, a, c, n), Coord(c, a))
    ensures Get(EbSlope(c, n, state, ccent, flags), a) == Get(EbSlope(c, n, state2, ccent2, flags), a)
  {
    EbSlopeComponent(c, n, state, ccent, flags, a);
    EbSlopeComponent(c, n, state2, ccent2, flags, a);
  }

  /**
   * The slopes depend on the field and the centroids only at the cell and
   * its contributing neighbours: the state or centroid of a neighbour the
   * cell is not connected to never changes the result.
   */
  lemma EbSlopeLocal(c: Cell, n: int, state: Field, state2: Field, ccent: Field, ccent2: Field, flags: CellFlags)
    requires LeastSquaresUsed(c, flags) ==> Det(NormalMatrix(Rows(c, ccent, flags))) != 0.0
    requires AgreeOnStencil(c, n, state, state2, ccent, ccent2, flags)
    ensures Rows(c, ccent, flags) == Rows(c, ccent2, flags) &&
            EbSlope(c, n, state, ccent, flags) == EbSlope(c, n, state2, ccent2, flags)
  {
    SystemFromContributors(c, n, state, state2, ccent, ccent2, flags);
    RegularSlopeLocal(c, n, state, state2, ccent, ccent2, flags, X);
    RegularSlopeLocal(c, n, state, state2, ccent, ccent2, flags, Y);
    RegularSlopeLocal(c, n, state, state2, ccent, ccent2, flags, Z);
    EbSlopeLocalAxis(c, n, state, state2, ccent, ccent2, flags, X);
    EbSlopeLocalAxis(c, n, state, state2, ccent, ccent2, flags, Y);
    EbSlopeLocalAxis(c, n, state, state2, ccent, ccent2, flags, Z);
    SameComponents(EbSlope(c, n, state, ccent, flags), EbSlope(c, n, state2, ccent2, flags));
  }

  // ---------------------------------------------------------------------
  // incflo_slopes_extdir_eb
  // ---------------------------------------------------------------------

  /**
   * On a regular axis the extdir component is exactly the one-dimensional
   * incflo_xslope_extdir slope of the line through the cell, at the domain
   * edges and away from them.
   */
  lemma ExtDirEbRegularAxis(c: Cell, n: int, state: Field, ccent: Field, flags: CellFlags, e: DomainEdges, a: Axis)
    requires LeastSquaresUsed(c, flags) ==> Det(NormalMatrix(Rows(c, ccent, flags))) != 0.0
    requires !Irregular(c, flags, a)
    ensures Get(ExtDirEbSlope(c, n, state, ccent, flags, e), a) ==
            Slope2ExtDir(Along(state, a, c, n), Coord(c, a), e.edlo(a), e.edhi(a), e.domlo(a), e.domhi(a))
  {
    EbSlopeRegularAxis(c, n, state, ccent, flags, a);
    match a
    case X =>
    case Y =>
    case Z =>
  }
}
