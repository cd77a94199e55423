/**
 * The one-dimensional slope limiters of incflo's convection operator.
 *
 * Every incflo_{x,y,z}slope* kernel reads a five-point (or three-point)
 * stencil of one component along one axis; here each is a function of that
 * `Line` and the cell index along it.  The x, y and z kernels are the same
 * function applied to `Along(state, X/Y/Z, cell, n)`.
 */
module Limiters {
  import opened Grid

  // ---------------------------------------------------------------------
  // Second-order monotonized-central limiter
  // ---------------------------------------------------------------------

  /**
   * The limiting step every second-order slope ends with: the smallest of
   * the three differences, zero unless the one-sided differences `dl` and
   * `dr` agree in sign, and carrying the sign of `dc`.
   */
  function MonotonizedCentral(dl: real, dc: real, dr: real): (r: real)
    ensures Abs(r) <= Abs(dl) && Abs(r) <= Abs(dc) && Abs(r) <= Abs(dr)
    ensures r != 0.0 ==> Abs(r) == Min3(Abs(dl), Abs(dc), Abs(dr))
    ensures r == 0.0 <==> dc == 0.0 || !SameSign(dl, dr)
    ensures r > 0.0 <==> dc > 0.0 && SameSign(dl, dr)
    ensures r < 0.0 <==> dc < 0.0 && SameSign(dl, dr)
  {
    var slope := Min3(Abs(dl), Abs(dc), Abs(dr));
    var slope := if SameSign(dl, dr) then slope else 0.0;
    if dc > 0.0 then slope else -slope
  }

  /** incflo_xslope: the monotonized-central slope of cell `i`. */
  function Slope2(q: Line, i: int): (r: real)
    ensures Abs(r) <= 2.0 * Abs(q(i) - q(i-1))
    ensures Abs(r) <= 2.0 * Abs(q(i+1) - q(i))
    ensures Abs(r) <= 0.5 * Abs(q(i+1) - q(i-1))
    ensures r == 0.0 <==> !SameSign(q(i) - q(i-1), q(i+1) - q(i))
    ensures r > 0.0 <==> q(i-1) < q(i) < q(i+1)
    ensures r < 0.0 <==> q(i-1) > q(i) > q(i+1)
  {
    var dl := 2.0 * (q(i) - q(i-1));
    var dr := 2.0 * (q(i+1) - q(i));
    var dc := 0.5 * (q(i+1) - q(i-1));
    assert dc == (dl + dr) / 4.0;
    assert SameSign(dl, dr) <==> SameSign(q(i) - q(i-1), q(i+1) - q(i));
    MonotonizedCentral(dl, dc, dr)
  }

  /**
   * One-sided centred difference at a low external boundary (line 70): a
   * positive blend weighting the difference across the boundary face four
   * times the one inside, so it follows monotone data.
   */
  function CentreLo(q: Line, m: int): (r: real)
    ensures r == (4.0 * (q(m) - q(m-1)) + (q(m+1) - q(m))) / 3.0
    ensures q(m-1) <= q(m) <= q(m+1) ==> r >= 0.0
    ensures q(m-1) >= q(m) >= q(m+1) ==> r <= 0.0
  {
    (q(m+1) + 3.0 * q(m) - 4.0 * q(m-1)) / 3.0
  }

  /**
   * One-sided centred difference at a high external boundary (line 72),
   * the mirror image of CentreLo.
   */
  function CentreHi(q: Line, m: int): (r: real)
    ensures r == ((q(m) - q(m-1)) + 4.0 * (q(m+1) - q(m))) / 3.0
    ensures q(m-1) <= q(m) <= q(m+1) ==> r >= 0.0
    ensures q(m-1) >= q(m) >= q(m+1) ==> r <= 0.0
  {
    (4.0 * q(m+1) - 3.0 * q(m) - q(m-1)) / 3.0
  }

  /**
   * The centred difference of incflo_xslope_extdir: one-sided at a flagged
   * domain-edge cell (the low edge taking precedence when both apply),
   * otherwise the plain centred difference.  Each formula is a positive
   * blend of the two one-sided differences, so it follows monotone data.
   */
  function CentreDifference(q: Line, i: int, edlo: bool, edhi: bool, domlo: int, domhi: int): (dc: real)
    ensures !(edlo && i == domlo) && !(edhi && i == domhi) ==> dc == 0.5 * (q(i+1) - q(i-1))
    ensures q(i-1) < q(i) < q(i+1) ==> dc > 0.0
    ensures q(i-1) > q(i) > q(i+1) ==> dc < 0.0
  {
    if edlo && i == domlo then CentreLo(q, i)
    else if edhi && i == domhi then CentreHi(q, i)
    else 0.5 * (q(i+1) - q(i-1))
  }

  /**
   * incflo_xslope_extdir: the second-order slope with the centred
   * difference replaced by a one-sided formula at a flagged domain-edge
   * cell.
   */
  function Slope2ExtDir(q: Line, i: int, edlo: bool, edhi: bool, domlo: int, domhi: int): (r: real)
    ensures !(edlo && i == domlo) && !(edhi && i == domhi) ==> r == Slope2(q, i)
    ensures Abs(r) <= 2.0 * Abs(q(i) - q(i-1)) && Abs(r) <= 2.0 * Abs(q(i+1) - q(i))
    ensures r == 0.0 <==> !SameSign(q(i) - q(i-1), q(i+1) - q(i))
    ensures r > 0.0 <==> q(i-1) < q(i) < q(i+1)
    ensures r < 0.0 <==> q(i-1) > q(i) > q(i+1)
  {
    var dl := 2.0 * (q(i) - q(i-1));
    var dr := 2.0 * (q(i+1) - q(i));
    assert SameSign(dl, dr) <==> SameSign(q(i) - q(i-1), q(i+1) - q(i));
    MonotonizedCentral(dl, CentreDifference(q, i, edlo, edhi, domlo, domhi), dr)
  }

  /**
   * At a flagged domain-edge cell incflo_xslope_extdir is the limiter of
   * the one-sided centred difference of that edge (the low one first).
   */
  lemma Slope2ExtDirAtEdge(q: Line, i: int, edlo: bool, edhi: bool, domlo: int, domhi: int)
    ensures var dl, dr := 2.0 * (q(i) - q(i-1)), 2.0 * (q(i+1) - q(i));
      (edlo && i == domlo ==> Slope2ExtDir(q, i, edlo, edhi, domlo, domhi) == MonotonizedCentral(dl, CentreLo(q, i), dr)) &&
      (!(edlo && i == domlo) && edhi && i == domhi ==>
         Slope2ExtDir(q, i, edlo, edhi, domlo, domhi) == MonotonizedCentral(dl, CentreHi(q, i), dr))
  {
  }

  // ---------------------------------------------------------------------
  // Fourth-order limited slope
  // ---------------------------------------------------------------------

  /** dlim: twice the smaller one-sided difference, zero when they disagree in sign. */
  function FourthLimit(dlft: real, drgt: real): (r: real)
    ensures 0.0 <= r && r <= 2.0 * Abs(dlft) && r <= 2.0 * Abs(drgt)
    ensures r == 0.0 <==> !SameSign(dlft, drgt)
  {
    if !OppositeSigns(dlft, drgt) then 2.0 * Min(Abs(dlft), Abs(drgt)) else 0.0
  }

  /** A three-point limited slope from two consecutive differences (dfm and dfp). */
  function LimitedCentre(dlft: real, drgt: real): (r: real)
    ensures Abs(r) <= FourthLimit(dlft, drgt)
    ensures Abs(r) <= 0.5 * Abs(dlft + drgt)
    ensures dlft == drgt ==> r == dlft
  {
    var dcen := 0.5 * (dlft + drgt);
    WithSign(dcen, Min(FourthLimit(dlft, drgt), Abs(dcen)))
  }

  /**
   * The fourth-order blend of the centred difference with the two one-sided
   * slopes: the centred difference corrected by a sixth of its excess over
   * each of them, so it is unchanged when all three agree.
   */
  function Blend(dcen: real, dfp: real, dfm: real): (r: real)
    ensures r == dcen + ((dcen - dfp) + (dcen - dfm)) / 6.0
    ensures dfp == dcen && dfm == dcen ==> r == dcen
  {
    4.0 / 3.0 * dcen - 1.0 / 6.0 * (dfp + dfm)
  }

  /** The local variables of the fourth-order kernels that reach its final line. */
  datatype FourthOrder = FourthOrder(dfm: real, dfp: real, dcen: real, dlim: real, dsgn: real, dtemp: real)

  /**
   * The fourth-order kernel's values before any boundary correction, from
   * the five cell values qmm, qm, qi, qp, qpp of cells i-2 .. i+2.
   */
  function InteriorValues(qmm: real, qm: real, qi: real, qp: real, qpp: real): (st: FourthOrder)
    ensures st.dlim == FourthLimit(qi - qm, qp - qi)
    ensures st.dcen == 0.5 * (qp - qm) && st.dsgn == CopySign1(qp - qm)
    ensures Abs(st.dfm) <= FourthLimit(qm - qmm, qi - qm) && Abs(st.dfp) <= FourthLimit(qp - qi, qpp - qp)
    ensures st.dtemp == Blend(st.dcen, st.dfp, st.dfm)
  {
    var dfm := LimitedCentre(qm - qmm, qi - qm);
    var dfp := LimitedCentre(qp - qi, qpp - qp);
    var dcen := 0.5 * ((qi - qm) + (qp - qi));
    FourthOrder(dfm, dfp, dcen, FourthLimit(qi - qm, qp - qi), CopySign1(dcen), Blend(dcen, dfp, dfm))
  }

  /**
   * The fourth-order kernel's values at cell `i` before any boundary
   * correction: the centred difference of cell `i`, its limit and sign, the
   * neighbours' limited slopes within their own limits, and the blend.
   */
  function Interior4(q: Line, i: int): (st: FourthOrder)
    ensures LimitAndSign(q, i, st)
    ensures st.dcen == 0.5 * (q(i+1) - q(i-1)) && st.dsgn == CopySign1(q(i+1) - q(i-1))
    ensures st.dtemp == Blend(st.dcen, st.dfp, st.dfm)
  {
    InteriorValues(q(i-2), q(i-1), q(i), q(i+1), q(i+2))
  }

  /** The final line of the fourth-order kernels: dtemp limited by dlim, signed by dsgn. */
  function Finish(st: FourthOrder): (r: real)
    ensures (st.dsgn == 1.0 || st.dsgn == -1.0) && st.dlim >= 0.0 ==>
              Abs(r) <= st.dlim && Abs(r) <= Abs(st.dtemp)
              && (st.dlim == 0.0 ==> r == 0.0)
              && (r > 0.0 ==> st.dsgn == 1.0)
              && (r < 0.0 ==> st.dsgn == -1.0)
  {
    WithSign(st.dsgn, Min(st.dlim, Abs(st.dtemp)))
  }

  /** incflo_ho_xslope: the fourth-order limited slope of cell `i`. */
  function Slope4(q: Line, i: int): (r: real)
    ensures Abs(r) <= 2.0 * Abs(q(i) - q(i-1)) && Abs(r) <= 2.0 * Abs(q(i+1) - q(i))
    ensures !SameSign(q(i) - q(i-1), q(i+1) - q(i)) ==> r == 0.0
    ensures r > 0.0 ==> q(i-1) < q(i) < q(i+1)
    ensures r < 0.0 ==> q(i-1) > q(i) > q(i+1)
  {
    var st := Interior4(q, i);
    Finish(st)
  }

  /**
   * One-sided extrapolated slope of the cell at a low external boundary
   * (line 113), in terms of the differences across the boundary face and
   * the next two faces inward; its weights sum to 1.5.
   */
  function ExtrapLo(q: Line, m: int): (r: real)
    ensures r == 16.0 / 15.0 * (q(m) - q(m-1)) + 17.0 / 30.0 * (q(m+1) - q(m)) - 0.1 * (q(m+2) - q(m+1))
  {
    -16.0 / 15.0 * q(m-1) + 0.5 * q(m) + 2.0 / 3.0 * q(m+1) - 0.1 * q(m+2)
  }

  /**
   * One-sided extrapolated slope of the cell at a high external boundary
   * (line 129), the mirror image of ExtrapLo.
   */
  function ExtrapHi(q: Line, m: int): (r: real)
    ensures r == 16.0 / 15.0 * (q(m+1) - q(m)) + 17.0 / 30.0 * (q(m) - q(m-1)) - 0.1 * (q(m-1) - q(m-2))
  {
    16.0 / 15.0 * q(m+1) - 0.5 * q(m) - 2.0 / 3.0 * q(m-1) + 0.1 * q(m-2)
  }

  /**
   * The limit used at a boundary cell `m` (dlim at lines 114-116, dlimsh at
   * 120-122): the smaller doubled one-sided difference.  It is the same
   * value as the interior dlim.
   */
  function EdgeLimit(q: Line, m: int): (r: real)
    ensures r == FourthLimit(q(m) - q(m-1), q(m+1) - q(m))
  {
    var dlft := 2.0 * (q(m) - q(m-1));
    var drgt := 2.0 * (q(m+1) - q(m));
    if !OppositeSigns(dlft, drgt) then Min(Abs(dlft), Abs(drgt)) else 0.0
  }

  /** An extrapolated slope limited by `lim` and signed by itself (lines 123-124, 139-140). */
  function EdgeSlope(d: real, lim: real): (r: real)
    requires lim >= 0.0
    ensures Abs(r) <= lim && Abs(r) <= Abs(d)
    ensures r > 0.0 ==> d > 0.0
    ensures r < 0.0 ==> d < 0.0
  {
    WithSign(d, Min(lim, Abs(d)))
  }

  /**
   * The limit and sign of the fourth-order kernel at cell `i` are sound: the
   * limit is twice the smaller one-sided difference (zero across an
   * extremum) and the sign is plus or minus one.
   */
  predicate LimitAndSign(q: Line, i: int, st: FourthOrder)
  {
    st.dlim == FourthLimit(q(i) - q(i-1), q(i+1) - q(i)) && (st.dsgn == 1.0 || st.dsgn == -1.0)
  }

  /** The low-boundary corrections of incflo_ho_xslope_extdir. */
  function LowEdge(q: Line, i: int, edlo: bool, domlo: int, st: FourthOrder): (r: FourthOrder)
    ensures LimitAndSign(q, i, st) ==> LimitAndSign(q, i, r)
    ensures !(edlo && i == domlo) ==> r.dsgn == st.dsgn
    ensures !(edlo && (i == domlo || i == domlo + 1)) ==> r == st
  {
    if edlo && i == domlo then
      var dtemp := ExtrapLo(q, i);
      st.(dtemp := dtemp, dlim := EdgeLimit(q, i), dsgn := CopySign1(dtemp))
    else if edlo && i == domlo + 1 then
      var dfm := EdgeSlope(ExtrapLo(q, domlo), EdgeLimit(q, domlo));
      st.(dfm := dfm, dtemp := Blend(st.dcen, st.dfp, dfm))
    else
      st
  }

  /** The high-boundary corrections of incflo_ho_xslope_extdir, applied after the low ones. */
  function HighEdge(q: Line, i: int, edhi: bool, domhi: int, st: FourthOrder): (r: FourthOrder)
    ensures LimitAndSign(q, i, st) ==> LimitAndSign(q, i, r)
    ensures !(edhi && i == domhi) ==> r.dsgn == st.dsgn
    ensures !(edhi && (i == domhi || i == domhi - 1)) ==> r == st
  {
    if edhi && i == domhi then
      var dtemp := ExtrapHi(q, i);
      st.(dtemp := dtemp, dlim := EdgeLimit(q, i), dsgn := CopySign1(dtemp))
    else if edhi && i == domhi - 1 then
      var dfp := EdgeSlope(ExtrapHi(q, domhi), EdgeLimit(q, domhi));
      st.(dfp := dfp, dtemp := Blend(st.dcen, dfp, st.dfm))
    else
      st
  }

  /** The fourth-order kernel's values after both boundary corrections. */
  function Edges4(q: Line, i: int, edlo: bool, edhi: bool, domlo: int, domhi: int): (st: FourthOrder)
    ensures LimitAndSign(q, i, st)
    ensures !EdgeCell(i, edlo, edhi, domlo, domhi) ==> st.dsgn == CopySign1(q(i+1) - q(i-1))
    ensures !NearEdge4(i, edlo, edhi, domlo, domhi) ==> st == Interior4(q, i)
  {
    HighEdge(q, i, edhi, domhi, LowEdge(q, i, edlo, domlo, Interior4(q, i)))
  }

  /** Whether cell `i` is one of the positions the fourth-order boundary corrections touch. */
  predicate NearEdge4(i: int, edlo: bool, edhi: bool, domlo: int, domhi: int)
  {
    (edlo && (i == domlo || i == domlo + 1)) || (edhi && (i == domhi || i == domhi - 1))
  }

  /** Whether cell `i` is a flagged domain-edge cell, whose slope takes the sign of an extrapolation. */
  predicate EdgeCell(i: int, edlo: bool, edhi: bool, domlo: int, domhi: int)
  {
    (edlo && i == domlo) || (edhi && i == domhi)
  }

  /**
   * incflo_ho_xslope_extdir: the fourth-order slope with its boundary
   * corrections.  Everywhere it stays within twice the smaller one-sided
   * difference and vanishes at an extremum; off the flagged edge cells it
   * also keeps the sign of the data, and away from the four special
   * positions it is the plain fourth-order slope.
   */
  function Slope4ExtDir(q: Line, i: int, edlo: bool, edhi: bool, domlo: int, domhi: int): (r: real)
    ensures Abs(r) <= 2.0 * Abs(q(i) - q(i-1)) && Abs(r) <= 2.0 * Abs(q(i+1) - q(i))
    ensures !SameSign(q(i) - q(i-1), q(i+1) - q(i)) ==> r == 0.0
    ensures !EdgeCell(i, edlo, edhi, domlo, domhi) ==>
              (r > 0.0 ==> q(i-1) < q(i) < q(i+1)) && (r < 0.0 ==> q(i-1) > q(i) > q(i+1))
    ensures !NearEdge4(i, edlo, edhi, domlo, domhi) ==> r == Slope4(q, i)
  {
    Finish(Edges4(q, i, edlo, edhi, domlo, domhi))
  }
}
