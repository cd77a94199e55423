/**
 * Properties of the PLM face predictor: which faces pin a trace to the
 * ghost value, the characteristic tracing it performs elsewhere, its
 * exactness on linear data, that the upwind trace creates no new extremum,
 * and that the y and z predictors are the x predictor on a transposed field.
 */
module PlmProperties {
  import opened Grid
  import opened Limiters
  import opened LimiterProperties
  import opened Plm

  /** `x` lies between `u` and `v`, in either order. */
  predicate Between(x: real, u: real, v: real)
  {
    (u <= x <= v) || (v <= x <= u)
  }

  /**
   * Away from external-value domain faces both traces are the cell values
   * traced half a step along their limited linear profiles.
   */
  lemma PlmAwayFromExtDirFaces(a: Axis, c: Cell, n: int, dt: real, dx: real, S: Field, umac: real,
                               bc: BCRec, domlo: int, domhi: int, isVelocity: bool)
    requires dx != 0.0
    requires !LowExtDirFace(a, c, bc, domlo) && !HighExtDirFace(a, c, bc, domlo, domhi)
    ensures var q, i, courant := Along(S, a, c, n), Coord(c, a), umac * dt / dx;
      PlmFpu(a, c, n, dt, dx, S, umac, bc, domlo, domhi, isVelocity) ==
      var edlo, edhi := Extrapolates(bc.lo(a)), Extrapolates(bc.hi(a));
        Traces(TraceToFace(q(i), -1.0, courant, Slope4ExtDir(q, i, edlo, edhi, domlo, domhi)),
               TraceToFace(q(i - 1), 1.0, courant, Slope4ExtDir(q, i - 1, edlo, edhi, domlo, domhi)))
  {
  }

  /**
   * A high-order-extrapolation boundary never pins a trace: it only switches
   * on the limiter's one-sided formulas.  Even on the domain face itself,
   * Ip is traced from the ghost cell rather than copied from it.
   */
  lemma HoExtrapNeverPins(a: Axis, c: Cell, n: int, dt: real, dx: real, S: Field, umac: real,
                          bc: BCRec, domlo: int, domhi: int, isVelocity: bool)
    requires dx != 0.0
    requires bc.lo(a) == HoExtrap && Coord(c, a) == domlo
    requires !(domlo == domhi + 1 && bc.hi(a) == ExtDir)
    ensures var q, i, courant := Along(S, a, c, n), Coord(c, a), umac * dt / dx;
      var t := PlmFpu(a, c, n, dt, dx, S, umac, bc, domlo, domhi, isVelocity);
      && t.ip == TraceToFace(q(i - 1), 1.0, courant,
                   Slope4ExtDir(q, i - 1, true, Extrapolates(bc.hi(a)), domlo, domhi))
      && t.im == TraceToFace(q(i), -1.0, courant,
                   Slope4ExtDir(q, i, true, Extrapolates(bc.hi(a)), domlo, domhi))
  {
  }

  /**
   * At an external-value domain face a tangential component (or any
   * component of a non-velocity field) still traces the interior cell.
   */
  lemma TangentialTracesInterior(a: Axis, c: Cell, n: int, dt: real, dx: real, S: Field, umac: real,
                                 bc: BCRec, domlo: int, domhi: int, isVelocity: bool)
    requires dx != 0.0
    requires !NormalVelocity(a, n, isVelocity)
    ensures var q, i, courant := Along(S, a, c, n), Coord(c, a), umac * dt / dx;
      var t := PlmFpu(a, c, n, dt, dx, S, umac, bc, domlo, domhi, isVelocity);
      && (LowExtDirFace(a, c, bc, domlo) ==>
            t.im == TraceToFace(q(i), -1.0, courant, Slope4ExtDir(q, i, true, Extrapolates(bc.hi(a)), domlo, domhi)))
      && (HighExtDirFace(a, c, bc, domlo, domhi) ==>
            t.ip == TraceToFace(q(i - 1), 1.0, courant, Slope4ExtDir(q, i - 1, Extrapolates(bc.lo(a)), true, domlo, domhi)))
  {
  }

  /**
   * On linear data, away from external-value faces and from the cells the
   * boundary corrections touch, both traces agree and equal the data at the
   * foot of the characteristic through the face: x = i - 1/2 - u dt / (2 dx).
   */
  lemma {:induction false} LinearDataTracesAgree(a: Axis, c: Cell, n: int, dt: real, dx: real, S: Field, umac: real,
                                                 bc: BCRec, domlo: int, domhi: int, isVelocity: bool,
                                                 alpha: real, beta: real)
    requires dx != 0.0
    requires Linear(Along(S, a, c, n), alpha, beta)
    requires !LowExtDirFace(a, c, bc, domlo) && !HighExtDirFace(a, c, bc, domlo, domhi)
    requires var i, edlo, edhi := Coord(c, a), Extrapolates(bc.lo(a)), Extrapolates(bc.hi(a));
      !NearEdge4(i, edlo, edhi, domlo, domhi) && !NearEdge4(i - 1, edlo, edhi, domlo, domhi)
    ensures PlmFpu(a, c, n, dt, dx, S, umac, bc, domlo, domhi, isVelocity).im
         == FootValue(alpha, beta, Coord(c, a), umac * dt / dx)
    ensures PlmFpu(a, c, n, dt, dx, S, umac, bc, domlo, domhi, isVelocity).ip
         == FootValue(alpha, beta, Coord(c, a), umac * dt / dx)
  {
    LinearFaceFoot(a, c, n, S, bc, domlo, domhi, isVelocity, alpha, beta, umac * dt / dx);
  }

  /** Away from the boundary corrections, both traces of a face of linear data reach the foot of the characteristic. */
  lemma LinearFaceFoot(a: Axis, c: Cell, n: int, S: Field, bc: BCRec, domlo: int, domhi: int, isVelocity: bool,
                       alpha: real, beta: real, courant: real)
    requires Linear(Along(S, a, c, n), alpha, beta)
    requires !LowExtDirFace(a, c, bc, domlo) && !HighExtDirFace(a, c, bc, domlo, domhi)
    requires var i, edlo, edhi := Coord(c, a), Extrapolates(bc.lo(a)), Extrapolates(bc.hi(a));
      !NearEdge4(i, edlo, edhi, domlo, domhi) && !NearEdge4(i - 1, edlo, edhi, domlo, domhi)
    ensures FaceTraces(FaceData(a, c, n, S, bc, domlo, domhi, isVelocity), courant).im
         == FootValue(alpha, beta, Coord(c, a), courant)
    ensures FaceTraces(FaceData(a, c, n, S, bc, domlo, domhi, isVelocity), courant).ip
         == FootValue(alpha, beta, Coord(c, a), courant)
  {
    LinearLineStencil(Along(S, a, c, n), alpha, beta, Coord(c, a), bc.lo(a), bc.hi(a), domlo, domhi,
                      NormalVelocity(a, n, isVelocity));
    LinearFaceTraces(FaceData(a, c, n, S, bc, domlo, domhi, isVelocity), courant, alpha, beta, Coord(c, a));
  }

  /** The stencil of face `i` reads the line alpha + beta x at cells i-1 and i, and slope beta in both. */
  predicate StencilOnLine(f: FaceStencil, alpha: real, beta: real, i: int)
  {
    && f.qm == alpha + beta * ((i - 1) as real) && f.qp == alpha + beta * (i as real)
    && f.sm == beta && f.sp == beta
  }

  /** Away from the boundary corrections, the stencil of a face of linear data is exact. */
  lemma {:induction false} LinearLineStencil(q: Line, alpha: real, beta: real, i: int, lo: BCType, hi: BCType,
                                             domlo: int, domhi: int, normal: bool)
    requires Linear(q, alpha, beta)
    requires !NearEdge4(i, Extrapolates(lo), Extrapolates(hi), domlo, domhi)
    requires !NearEdge4(i - 1, Extrapolates(lo), Extrapolates(hi), domlo, domhi)
    ensures StencilOnLine(LineStencil(q, i, lo, hi, domlo, domhi, normal), alpha, beta, i)
  {
    Slope4ExtDirLinear(q, alpha, beta, i, Extrapolates(lo), Extrapolates(hi), domlo, domhi);
    Slope4ExtDirLinear(q, alpha, beta, i - 1, Extrapolates(lo), Extrapolates(hi), domlo, domhi);
  }

  /** An unpinned face whose stencil lies on a line traces both sides to the foot of the characteristic. */
  lemma LinearFaceTraces(f: FaceStencil, courant: real, alpha: real, beta: real, i: int)
    requires !f.lowPin && !f.highPin
    requires StencilOnLine(f, alpha, beta, i)
    ensures FaceTraces(f, courant).ip == FootValue(alpha, beta, i, courant)
    ensures FaceTraces(f, courant).im == FootValue(alpha, beta, i, courant)
  {
    LinearFoot(alpha, beta, i, courant, f.qp, f.qm);
  }

  /** The line alpha + beta x at the foot of the characteristic through face i: x = i - 1/2 - courant / 2. */
  function FootValue(alpha: real, beta: real, i: int, courant: real): real
  {
    alpha + beta * (i as real - 0.5 - 0.5 * courant)
  }

  /** Tracing linear data from either side of face i lands on the line at the characteristic's foot. */
  lemma LinearFoot(alpha: real, beta: real, i: int, courant: real, qi: real, qm: real)
    requires qi == alpha + beta * (i as real) && qm == alpha + beta * ((i - 1) as real)
    ensures TraceToFace(qi, -1.0, courant, beta) == FootValue(alpha, beta, i, courant)
    ensures TraceToFace(qm, 1.0, courant, beta) == FootValue(alpha, beta, i, courant)
  {
    assert beta * ((i - 1) as real) == beta * (i as real) - beta;
  }

  /** A slope bounded by twice the jump from `qm` to `qp` and never of the opposite sign. */
  predicate FollowsJump(s: real, qm: real, qp: real)
  {
    Abs(s) <= 2.0 * Abs(qp - qm) && (s > 0.0 ==> qm < qp) && (s < 0.0 ==> qm > qp)
  }

  /** A fraction of at most one half of a limited slope stays within the difference it is limited by. */
  lemma HalfStepWithin(w: real, s: real, d: real)
    requires 0.0 <= w <= 0.5
    requires Abs(s) <= 2.0 * Abs(d)
    requires (s > 0.0 ==> d > 0.0) && (s < 0.0 ==> d < 0.0)
    ensures Between(w * s, 0.0, d)
  {
    if s > 0.0 {
      assert (0.5 - w) * s >= 0.0;
      assert 0.0 <= w * s;
    } else if s < 0.0 {
      assert (0.5 - w) * s <= 0.0;
      assert w * s <= 0.0;
    }
  }

  /**
   * The upwind trace creates no new extremum.  When the flow comes from
   * below (0 <= u dt/dx <= 1), Ip lies between the two cell values beside
   * the face — provided cell i-1 is not a flagged domain-edge cell, whose
   * slope takes the sign of an extrapolation instead of the data.
   */
  lemma {:induction false} UpwindIpWithinNeighbours(a: Axis, c: Cell, n: int, dt: real, dx: real, S: Field, umac: real,
                                                    bc: BCRec, domlo: int, domhi: int, isVelocity: bool)
    requires dx != 0.0
    requires 0.0 <= umac * dt / dx <= 1.0
    requires !EdgeCell(Coord(c, a) - 1, Extrapolates(bc.lo(a)), Extrapolates(bc.hi(a)), domlo, domhi)
    ensures Between(PlmFpu(a, c, n, dt, dx, S, umac, bc, domlo, domhi, isVelocity).ip,
                    Along(S, a, c, n)(Coord(c, a) - 1), Along(S, a, c, n)(Coord(c, a)))
  {
    LowerSlopeFollowsJump(a, c, n, S, bc, domlo, domhi, isVelocity);
    FaceIpBetween(FaceData(a, c, n, S, bc, domlo, domhi, isVelocity), umac * dt / dx);
  }

  /** The mirror image: when the flow comes from above (-1 <= u dt/dx <= 0), Im lies between the two cell values. */
  lemma {:induction false} UpwindImWithinNeighbours(a: Axis, c: Cell, n: int, dt: real, dx: real, S: Field, umac: real,
                                                    bc: BCRec, domlo: int, domhi: int, isVelocity: bool)
    requires dx != 0.0
    requires -1.0 <= umac * dt / dx <= 0.0
    requires !EdgeCell(Coord(c, a), Extrapolates(bc.lo(a)), Extrapolates(bc.hi(a)), domlo, domhi)
    ensures Between(PlmFpu(a, c, n, dt, dx, S, umac, bc, domlo, domhi, isVelocity).im,
                    Along(S, a, c, n)(Coord(c, a) - 1), Along(S, a, c, n)(Coord(c, a)))
  {
    UpperSlopeFollowsJump(a, c, n, S, bc, domlo, domhi, isVelocity);
    FaceImBetween(FaceData(a, c, n, S, bc, domlo, domhi, isVelocity), umac * dt / dx);
  }

  /** Off the flagged edge cells, the slope of the cell below a face is bounded by and follows the jump across it. */
  lemma LowerSlopeFollowsJump(a: Axis, c: Cell, n: int, S: Field, bc: BCRec, domlo: int, domhi: int, isVelocity: bool)
    requires !EdgeCell(Coord(c, a) - 1, Extrapolates(bc.lo(a)), Extrapolates(bc.hi(a)), domlo, domhi)
    ensures var f := FaceData(a, c, n, S, bc, domlo, domhi, isVelocity);
      FollowsJump(f.sm, f.qm, f.qp) && f.qm == Along(S, a, c, n)(Coord(c, a) - 1) && f.qp == Along(S, a, c, n)(Coord(c, a))
  {
  }

  /** Off the flagged edge cells, the slope of the cell above a face is bounded by and follows the jump across it. */
  lemma UpperSlopeFollowsJump(a: Axis, c: Cell, n: int, S: Field, bc: BCRec, domlo: int, domhi: int, isVelocity: bool)
    requires !EdgeCell(Coord(c, a), Extrapolates(bc.lo(a)), Extrapolates(bc.hi(a)), domlo, domhi)
    ensures var f := FaceData(a, c, n, S, bc, domlo, domhi, isVelocity);
      FollowsJump(f.sp, f.qm, f.qp) && f.qm == Along(S, a, c, n)(Coord(c, a) - 1) && f.qp == Along(S, a, c, n)(Coord(c, a))
  {
  }

  /**
   * Whatever branch the predictor takes at a face, Ip stays between the two
   * cell values when the flow comes from below and the lower cell's slope is
   * bounded by, and has the sign of, the jump across the face.
   */
  lemma FaceIpBetween(f: FaceStencil, courant: real)
    requires 0.0 <= courant <= 1.0
    requires FollowsJump(f.sm, f.qm, f.qp)
    ensures Between(FaceTraces(f, courant).ip, f.qm, f.qp)
  {
    TraceFromBelowBetween(f.qm, f.qp, courant, f.sm);
  }

  /** The mirror image of FaceIpBetween for Im when the flow comes from above. */
  lemma FaceImBetween(f: FaceStencil, courant: real)
    requires -1.0 <= courant <= 0.0
    requires FollowsJump(f.sp, f.qm, f.qp)
    ensures Between(FaceTraces(f, courant).im, f.qm, f.qp)
  {
    TraceFromAboveBetween(f.qm, f.qp, courant, f.sp);
  }

  /** Tracing the lower cell up to the face stays between the two cell values. */
  lemma TraceFromBelowBetween(qm: real, qp: real, courant: real, s: real)
    requires 0.0 <= courant <= 1.0
    requires Abs(s) <= 2.0 * Abs(qp - qm)
    requires (s > 0.0 ==> qm < qp) && (s < 0.0 ==> qm > qp)
    ensures Between(TraceToFace(qm, 1.0, courant, s), qm, qp)
  {
    HalfStepWithin(0.5 * (1.0 - courant), s, qp - qm);
  }

  /** Tracing the upper cell down to the face stays between the two cell values. */
  lemma TraceFromAboveBetween(qm: real, qp: real, courant: real, s: real)
    requires -1.0 <= courant <= 0.0
    requires Abs(s) <= 2.0 * Abs(qp - qm)
    requires (s > 0.0 ==> qm < qp) && (s < 0.0 ==> qm > qp)
    ensures Between(TraceToFace(qp, -1.0, courant, s), qm, qp)
  {
    HalfStepWithin(0.5 * (1.0 + courant), s, qp - qm);
  }

  /** Each trace is a cell value beside the face or that cell's value traced along its slope. */
  lemma PlmTraceCases(a: Axis, c: Cell, n: int, dt: real, dx: real, S: Field, umac: real,
                      bc: BCRec, domlo: int, domhi: int, isVelocity: bool)
    requires dx != 0.0
    ensures var q, i, courant := Along(S, a, c, n), Coord(c, a), umac * dt / dx;
      var edlo, edhi := Extrapolates(bc.lo(a)), Extrapolates(bc.hi(a));
      var t := PlmFpu(a, c, n, dt, dx, S, umac, bc, domlo, domhi, isVelocity);
      && (t.ip == q(i - 1) || t.ip == q(i)
          || t.ip == TraceToFace(q(i - 1), 1.0, courant, Slope4ExtDir(q, i - 1, edlo, edhi, domlo, domhi)))
      && (t.im == q(i - 1) || t.im == q(i)
          || t.im == TraceToFace(q(i), -1.0, courant, Slope4ExtDir(q, i, edlo, edhi, domlo, domhi)))
  {
  }

  // ---------------------------------------------------------------------
  // The y and z predictors are the x predictor on a transposed field
  // ---------------------------------------------------------------------

  /** Exchange the x index with the index along `a`. */
  function SwapCell(a: Axis, c: Cell): Cell
  {
    match a
    case X => c
    case Y => Cell(c.j, c.i, c.k)
    case Z => Cell(c.k, c.j, c.i)
  }

  /** Exchange component 0 with the velocity component normal to axis `a`. */
  function SwapComp(a: Axis, n: int): int
  {
    if n == 0 then AxisIndex(a) else if n == AxisIndex(a) then 0 else n
  }

  /** Exchange axis X with axis `a`. */
  function SwapAxis(a: Axis, b: Axis): Axis
  {
    if b == X then a else if b == a then X else b
  }

  /** The field seen with the x axis and axis `a` (and their velocity components) exchanged. */
  function SwapField(a: Axis, S: Field): Field
  {
    (i: int, j: int, k: int, n: int) => var d := SwapCell(a, Cell(i, j, k)); S(d.i, d.j, d.k, SwapComp(a, n))
  }

  function SwapBC(a: Axis, bc: BCRec): BCRec
  {
    BCRec((b: Axis) => bc.lo(SwapAxis(a, b)), (b: Axis) => bc.hi(SwapAxis(a, b)))
  }

  /** The exchanged field read along x through the exchanged cell is the original line along `a`. */
  lemma SwapLineAt(a: Axis, c: Cell, n: int, S: Field, t: int)
    ensures Along(S, a, c, n)(t) == Along(SwapField(a, S), X, SwapCell(a, c), SwapComp(a, n))(t)
  {
    assert SwapCell(a, WithCoord(SwapCell(a, c), X, t)) == WithCoord(c, a, t);
    assert SwapComp(a, SwapComp(a, n)) == n;
  }

  /**
   * Godunov_plm_fpu_y and _z are Godunov_plm_fpu_x applied to the field with
   * the axes exchanged; in particular their normal-velocity pin is keyed to
   * component 1 and 2 exactly as the x predictor's is keyed to component 0.
   */
  lemma {:induction false} PredictorAxisSymmetry(a: Axis, c: Cell, n: int, dt: real, dx: real, S: Field, umac: real,
                                                 bc: BCRec, domlo: int, domhi: int, isVelocity: bool)
    requires dx != 0.0
    ensures PlmFpu(a, c, n, dt, dx, S, umac, bc, domlo, domhi, isVelocity)
         == PlmFpu(X, SwapCell(a, c), SwapComp(a, n), dt, dx, SwapField(a, S), umac, SwapBC(a, bc), domlo, domhi, isVelocity)
  {
    SwapFacts(a, c, n, S, bc, domlo, domhi, isVelocity);
  }

  /** Everything the predictor reads agrees between the original and the exchanged arguments. */
  lemma {:induction false} SwapFacts(a: Axis, c: Cell, n: int, S: Field, bc: BCRec, domlo: int, domhi: int, isVelocity: bool)
    ensures FaceData(a, c, n, S, bc, domlo, domhi, isVelocity)
         == FaceData(X, SwapCell(a, c), SwapComp(a, n), SwapField(a, S), SwapBC(a, bc), domlo, domhi, isVelocity)
  {
    SwapPins(a, c, n, bc, isVelocity);
    SwapWindow(a, c, n, S, Coord(c, a));
    LineStencilCongruent(Along(SwapField(a, S), X, SwapCell(a, c), SwapComp(a, n)), Along(S, a, c, n), Coord(c, a),
                         bc.lo(a), bc.hi(a), domlo, domhi, NormalVelocity(a, n, isVelocity));
  }

  /** The exchanged face has the same position, boundary types and normal-velocity component along x. */
  lemma SwapPins(a: Axis, c: Cell, n: int, bc: BCRec, isVelocity: bool)
    ensures Coord(SwapCell(a, c), X) == Coord(c, a)
    ensures SwapBC(a, bc).lo(X) == bc.lo(a) && SwapBC(a, bc).hi(X) == bc.hi(a)
    ensures NormalVelocity(X, SwapComp(a, n), isVelocity) == NormalVelocity(a, n, isVelocity)
  {
    assert SwapAxis(a, X) == a;
  }

  /** The exchanged line agrees with the original on the stencils of cells m - 1 and m. */
  lemma SwapWindow(a: Axis, c: Cell, n: int, S: Field, m: int)
    ensures AgreeAround(Along(SwapField(a, S), X, SwapCell(a, c), SwapComp(a, n)), Along(S, a, c, n), m)
    ensures AgreeAround(Along(SwapField(a, S), X, SwapCell(a, c), SwapComp(a, n)), Along(S, a, c, n), m - 1)
  {
    SwapLineAt(a, c, n, S, m - 3);
    SwapLineAt(a, c, n, S, m - 2);
    SwapLineAt(a, c, n, S, m - 1);
    SwapLineAt(a, c, n, S, m);
    SwapLineAt(a, c, n, S, m + 1);
    SwapLineAt(a, c, n, S, m + 2);
  }

  /** Two lines that agree on the stencils of the cells beside a face give that face the same stencil. */
  lemma {:induction false} LineStencilCongruent(q: Line, r: Line, i: int, lo: BCType, hi: BCType, domlo: int, domhi: int, normal: bool)
    requires AgreeAround(q, r, i) && AgreeAround(q, r, i - 1)
    ensures LineStencil(q, i, lo, hi, domlo, domhi, normal) == LineStencil(r, i, lo, hi, domlo, domhi, normal)
  {
    Slope4ExtDirStencil(q, r, i, Extrapolates(lo), Extrapolates(hi), domlo, domhi);
    Slope4ExtDirStencil(q, r, i - 1, Extrapolates(lo), Extrapolates(hi), domlo, domhi);
  }
}
