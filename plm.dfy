/**
 * The piecewise-linear (PLM) face predictor Godunov_plm_fpu_{x,y,z}: the
 * two half-time trace states at a face from the fourth-order limited
 * slopes of the cells on either side, honouring external-value boundaries.
 *
 * Face `i` along an axis lies between cells i-1 and i.  `Im` is traced
 * from cell i (the cell above the face), `Ip` from cell i-1 (below it).
 */
module Plm {
  import opened Grid
  import opened Limiters

  /** Boundary types of AMReX's BCType that the predictor tells apart; every other type is Other. */
  datatype BCType = IntDir | ExtDir | HoExtrap | Other

  /** The boundary types of one component at the low and high domain faces of each axis. */
  datatype BCRec = BCRec(lo: Axis -> BCType, hi: Axis -> BCType)

  /** The trace states at one face. */
  datatype Traces = Traces(im: real, ip: real)

  /** Whether a boundary type asks the limiter for its one-sided boundary formulas. */
  predicate Extrapolates(b: BCType)
  {
    b == ExtDir || b == HoExtrap
  }

  /** A weight between -1/2 and 1/2 takes at most half of `slope`, with the weight's sign. */
  lemma ShareOfSlope(w: real, slope: real)
    ensures 0.0 <= w <= 0.5 && slope >= 0.0 ==> 0.0 <= w * slope <= 0.5 * slope
    ensures 0.0 <= w <= 0.5 && slope <= 0.0 ==> 0.5 * slope <= w * slope <= 0.0
    ensures -0.5 <= w <= 0.0 && slope >= 0.0 ==> -0.5 * slope <= w * slope <= 0.0
    ensures -0.5 <= w <= 0.0 && slope <= 0.0 ==> 0.0 <= w * slope <= -0.5 * slope
  {
  }

  /**
   * A cell value traced along its linear profile to one of its faces over
   * half a time step: `side` is -1 for the cell's low face and +1 for its
   * high face, `courant` is u dt/dx.
   */
  function TraceToFace(qc: real, side: real, courant: real, slope: real): (r: real)
    ensures side == 1.0 && 0.0 <= courant <= 1.0 ==>
              (slope >= 0.0 ==> qc <= r <= qc + 0.5 * slope) && (slope <= 0.0 ==> qc + 0.5 * slope <= r <= qc)
    ensures side == -1.0 && -1.0 <= courant <= 0.0 ==>
              (slope >= 0.0 ==> qc - 0.5 * slope <= r <= qc) && (slope <= 0.0 ==> qc <= r <= qc - 0.5 * slope)
    ensures courant == side ==> r == qc
  {
    var w := 0.5 * (side - courant);
    ShareOfSlope(w, slope);
    qc + w * slope
  }

  /** The face is the low domain face with an external value. */
  predicate LowExtDirFace(a: Axis, c: Cell, bc: BCRec, domlo: int)
  {
    Coord(c, a) == domlo && bc.lo(a) == ExtDir
  }

  /** The face is the high domain face with an external value (and not also the low one). */
  predicate HighExtDirFace(a: Axis, c: Cell, bc: BCRec, domlo: int, domhi: int)
  {
    !LowExtDirFace(a, c, bc, domlo) && Coord(c, a) == domhi + 1 && bc.hi(a) == ExtDir
  }

  /** The traced component is the velocity normal to faces of axis `a`. */
  predicate NormalVelocity(a: Axis, n: int, isVelocity: bool)
  {
    n == AxisIndex(a) && isVelocity
  }

  /**
   * What the predictor reads at one face: the values `qm`, `qp` of the cells
   * below and above it, their limited slopes `sm`, `sp`, whether the face is
   * a low (`lowPin`) or high (`highPin`) external-value domain face, and
   * whether the component is the normal velocity.
   */
  datatype FaceStencil = FaceStencil(qm: real, qp: real, sm: real, sp: real,
                                     lowPin: bool, highPin: bool, normal: bool)

  /**
   * The stencil of face `i` of a line, between its cells i-1 and i, when the
   * line's low and high domain faces have boundary types `lo` and `hi`.
   */
  function LineStencil(q: Line, i: int, lo: BCType, hi: BCType, domlo: int, domhi: int, normal: bool): (f: FaceStencil)
    ensures f.qm == q(i - 1) && f.qp == q(i)
    ensures f.lowPin ==> lo == ExtDir && i == domlo
    ensures f.highPin ==> hi == ExtDir && i == domhi + 1
    ensures domlo <= domhi ==> !(f.lowPin && f.highPin)
    ensures !NearEdge4(i - 1, Extrapolates(lo), Extrapolates(hi), domlo, domhi) ==> f.sm == Slope4(q, i - 1)
    ensures !NearEdge4(i, Extrapolates(lo), Extrapolates(hi), domlo, domhi) ==> f.sp == Slope4(q, i)
    ensures Abs(f.sp) <= 2.0 * Abs(q(i) - q(i-1)) && Abs(f.sm) <= 2.0 * Abs(q(i) - q(i-1))
  {
    var edlo, edhi := Extrapolates(lo), Extrapolates(hi);
    FaceStencil(q(i - 1), q(i),
                Slope4ExtDir(q, i - 1, edlo, edhi, domlo, domhi), Slope4ExtDir(q, i, edlo, edhi, domlo, domhi),
                i == domlo && lo == ExtDir, i == domhi + 1 && hi == ExtDir, normal)
  }

  /** The stencil of the face below cell `c` along axis `a`. */
  function FaceData(a: Axis, c: Cell, n: int, S: Field, bc: BCRec, domlo: int, domhi: int, isVelocity: bool): (f: FaceStencil)
    ensures f.lowPin <==> LowExtDirFace(a, c, bc, domlo)
    ensures !f.lowPin ==> (f.highPin <==> HighExtDirFace(a, c, bc, domlo, domhi))
    ensures f.normal <==> NormalVelocity(a, n, isVelocity)
  {
    LineStencil(Along(S, a, c, n), Coord(c, a), bc.lo(a), bc.hi(a), domlo, domhi, NormalVelocity(a, n, isVelocity))
  }

  /**
   * The branches of the predictor at one face: at a low external-value face
   * Ip is the ghost value `qm` (and so is Im for the normal velocity), at a
   * high one Im is the ghost value `qp` (and so is Ip for the normal
   * velocity); otherwise both cells are traced.
   */
  function FaceTraces(f: FaceStencil, courant: real): (t: Traces)
    ensures f.lowPin ==> t.ip == f.qm && (f.normal ==> t.im == f.qm)
    ensures !f.lowPin && f.highPin ==> t.im == f.qp && (f.normal ==> t.ip == f.qp)
    ensures !f.lowPin && !f.highPin ==>
              t.im == TraceToFace(f.qp, -1.0, courant, f.sp) && t.ip == TraceToFace(f.qm, 1.0, courant, f.sm)
    ensures t.ip == f.qm || t.ip == f.qp || t.ip == TraceToFace(f.qm, 1.0, courant, f.sm)
    ensures t.im == f.qm || t.im == f.qp || t.im == TraceToFace(f.qp, -1.0, courant, f.sp)
  {
    if f.lowPin then
      var umns := f.qm;
      var upls := if f.normal then f.qm else TraceToFace(f.qp, -1.0, courant, f.sp);
      Traces(upls, umns)
    else if f.highPin then
      var upls := f.qp;
      var umns := if f.normal then f.qp else TraceToFace(f.qm, 1.0, courant, f.sm);
      Traces(upls, umns)
    else
      var upls := TraceToFace(f.qp, -1.0, courant, f.sp);
      var umns := TraceToFace(f.qm, 1.0, courant, f.sm);
      Traces(upls, umns)
  }

  /**
   * Godunov_plm_fpu_x (a = X), _y (a = Y) and _z (a = Z) at the face below
   * cell `c`.  At an external-value domain face the trace from outside the
   * domain is the ghost value itself, and for the normal velocity so is the
   * trace from inside.
   */
  function PlmFpu(a: Axis, c: Cell, n: int, dt: real, dx: real, S: Field, umac: real,
                  bc: BCRec, domlo: int, domhi: int, isVelocity: bool): (t: Traces)
    requires dx != 0.0
    ensures var q, i := Along(S, a, c, n), Coord(c, a);
      LowExtDirFace(a, c, bc, domlo) ==>
        t.ip == q(i - 1) && (NormalVelocity(a, n, isVelocity) ==> t.im == q(i - 1))
    ensures var q, i := Along(S, a, c, n), Coord(c, a);
      HighExtDirFace(a, c, bc, domlo, domhi) ==>
        t.im == q(i) && (NormalVelocity(a, n, isVelocity) ==> t.ip == q(i))
  {
    FaceTraces(FaceData(a, c, n, S, bc, domlo, domhi, isVelocity), umac * dt / dx)
  }
}
