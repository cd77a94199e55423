/**
 * Accuracy properties of the slope limiters: exactness on linear data in
 * the interior and, with the external value sitting on the domain face, at
 * the boundary cells; exactness of the one-sided extrapolations on
 * quadratics; and how the boundary cells' slopes feed their neighbours.
 */
module LimiterProperties {
  import opened Grid
  import opened Limiters

  /** q(t) = a + b t on every cell of the line. */
  ghost predicate Linear(q: Line, a: real, b: real)
  {
    forall t: int :: q(t) == a + b * (t as real)
  }

  /**
   * Linear data from the low domain face on: the cells from `domlo` up hold
   * a + b t, and the ghost cell `domlo - 1` holds the value on the face
   * domlo - 1/2, as an external-value boundary supplies it.
   */
  ghost predicate LinearFromLowFace(q: Line, a: real, b: real, domlo: int)
  {
    && q(domlo - 1) == a + b * (domlo as real - 0.5)
    && forall t: int :: t >= domlo ==> q(t) == a + b * (t as real)
  }

  /** The mirror image of LinearFromLowFace at the high domain face domhi + 1/2. */
  ghost predicate LinearToHighFace(q: Line, a: real, b: real, domhi: int)
  {
    && q(domhi + 1) == a + b * (domhi as real + 0.5)
    && forall t: int :: t <= domhi ==> q(t) == a + b * (t as real)
  }

  function Quadratic(a: real, b: real, c: real, x: real): real
  {
    a + b * x + c * x * x
  }

  /** Consecutive cells of linear data differ by the slope. */
  lemma LinearStep(q: Line, a: real, b: real, t: int)
    requires q(t) == a + b * (t as real) && q(t + 1) == a + b * ((t + 1) as real)
    ensures q(t + 1) - q(t) == b
  {
    assert b * ((t + 1) as real) == b * (t as real) + b;
  }

  /** The three-point limiter is exact when both one-sided differences equal the slope. */
  lemma MonotonizedCentralExact(b: real)
    ensures MonotonizedCentral(2.0 * b, b, 2.0 * b) == b
  {
    assert Min3(Abs(2.0 * b), Abs(b), Abs(2.0 * b)) == Abs(b);
  }

  /** The final fourth-order step is exact when the blend equals the slope and the limit allows it. */
  lemma FinishExact(st: FourthOrder, b: real)
    requires st.dtemp == b && st.dsgn == CopySign1(b) && st.dlim >= Abs(b)
    ensures Finish(st) == b
  {
  }

  /** incflo_xslope reproduces the slope of linear data. */
  lemma {:induction false} Slope2Linear(q: Line, a: real, b: real, i: int)
    requires Linear(q, a, b)
    ensures Slope2(q, i) == b
  {
    LinearStep(q, a, b, i - 1);
    LinearStep(q, a, b, i);
    MonotonizedCentralExact(b);
  }

  /** incflo_ho_xslope reproduces the slope of linear data. */
  lemma {:induction false} Slope4Linear(q: Line, a: real, b: real, i: int)
    requires Linear(q, a, b)
    ensures Slope4(q, i) == b
  {
    LinearStep(q, a, b, i - 2);
    LinearStep(q, a, b, i - 1);
    LinearStep(q, a, b, i);
    LinearStep(q, a, b, i + 1);
    var st := Interior4(q, i);
    assert st.dfm == b && st.dfp == b && st.dcen == b;
    FinishExact(st, b);
  }

  /** The one-sided formulas at a low external boundary are exact on quadratics whose face value sits at m - 1/2. */
  lemma ExtrapLoQuadratic(q: Line, m: int, a: real, b: real, c: real)
    requires q(m - 1) == Quadratic(a, b, c, m as real - 0.5)
    requires q(m) == Quadratic(a, b, c, m as real)
    requires q(m + 1) == Quadratic(a, b, c, m as real + 1.0)
    requires q(m + 2) == Quadratic(a, b, c, m as real + 2.0)
    ensures ExtrapLo(q, m) == b + 2.0 * c * (m as real)
    ensures CentreLo(q, m) == b + 2.0 * c * (m as real)
  {
  }

  /** The one-sided formulas at a high external boundary are exact on quadratics whose face value sits at m + 1/2. */
  lemma ExtrapHiQuadratic(q: Line, m: int, a: real, b: real, c: real)
    requires q(m + 1) == Quadratic(a, b, c, m as real + 0.5)
    requires q(m) == Quadratic(a, b, c, m as real)
    requires q(m - 1) == Quadratic(a, b, c, m as real - 1.0)
    requires q(m - 2) == Quadratic(a, b, c, m as real - 2.0)
    ensures ExtrapHi(q, m) == b + 2.0 * c * (m as real)
    ensures CentreHi(q, m) == b + 2.0 * c * (m as real)
  {
  }

  /** Linear data sampled from the low face: differences next to the boundary. */
  lemma LowFaceSteps(q: Line, a: real, b: real, domlo: int)
    requires LinearFromLowFace(q, a, b, domlo)
    ensures q(domlo) - q(domlo - 1) == 0.5 * b
    ensures forall t :: domlo <= t ==> q(t + 1) - q(t) == b
  {
    forall t | domlo <= t ensures q(t + 1) - q(t) == b {
      LinearStep(q, a, b, t);
    }
  }

  /** Linear data sampled up to the high face: differences next to the boundary. */
  lemma HighFaceSteps(q: Line, a: real, b: real, domhi: int)
    requires LinearToHighFace(q, a, b, domhi)
    ensures q(domhi + 1) - q(domhi) == 0.5 * b
    ensures forall t :: t < domhi ==> q(t + 1) - q(t) == b
  {
    forall t | t < domhi ensures q(t + 1) - q(t) == b {
      LinearStep(q, a, b, t);
    }
  }

  /** incflo_xslope_extdir is exact at a flagged low boundary cell when the ghost value sits on the face. */
  lemma {:induction false} Slope2ExtDirLinearAtLowFace(q: Line, a: real, b: real, edhi: bool, domlo: int, domhi: int)
    requires LinearFromLowFace(q, a, b, domlo)
    ensures Slope2ExtDir(q, domlo, true, edhi, domlo, domhi) == b
  {
    LowFaceSteps(q, a, b, domlo);
    assert CentreLo(q, domlo) == b;
    assert Min3(Abs(b), Abs(b), Abs(2.0 * b)) == Abs(b);
  }

  /** incflo_xslope_extdir is exact at a flagged high boundary cell when the ghost value sits on the face. */
  lemma {:induction false} Slope2ExtDirLinearAtHighFace(q: Line, a: real, b: real, edlo: bool, domlo: int, domhi: int)
    requires LinearToHighFace(q, a, b, domhi)
    requires !(edlo && domhi == domlo)
    ensures Slope2ExtDir(q, domhi, edlo, true, domlo, domhi) == b
  {
    HighFaceSteps(q, a, b, domhi);
    assert CentreHi(q, domhi) == b;
    assert Min3(Abs(2.0 * b), Abs(b), Abs(b)) == Abs(b);
  }

  /** The corrected one-sided slope at the low boundary cell reproduces linear data. */
  lemma LowEdgeSlopeExact(q: Line, a: real, b: real, domlo: int)
    requires LinearFromLowFace(q, a, b, domlo)
    ensures ExtrapLo(q, domlo) == b && EdgeLimit(q, domlo) == Abs(b)
    ensures EdgeSlope(ExtrapLo(q, domlo), EdgeLimit(q, domlo)) == b
  {
    LowFaceSteps(q, a, b, domlo);
    assert q(domlo + 1) - q(domlo) == b;
    assert q(domlo + 2) - q(domlo + 1) == b;
  }

  /** The corrected one-sided slope at the high boundary cell reproduces linear data. */
  lemma HighEdgeSlopeExact(q: Line, a: real, b: real, domhi: int)
    requires LinearToHighFace(q, a, b, domhi)
    ensures ExtrapHi(q, domhi) == b && EdgeLimit(q, domhi) == Abs(b)
    ensures EdgeSlope(ExtrapHi(q, domhi), EdgeLimit(q, domhi)) == b
  {
    HighFaceSteps(q, a, b, domhi);
    assert q(domhi) - q(domhi - 1) == b;
    assert q(domhi - 1) - q(domhi - 2) == b;
  }

  /**
   * With a flagged low boundary and the ghost value on the face, the
   * fourth-order slope reproduces linear data in the boundary cell and in
   * the cell next to it, provided the high-boundary corrections do not
   * reach those cells.
   */
  lemma {:induction false} Slope4ExtDirLinearAtLowFace(q: Line, a: real, b: real, i: int, edhi: bool, domlo: int, domhi: int)
    requires LinearFromLowFace(q, a, b, domlo)
    requires i == domlo || i == domlo + 1
    requires !(edhi && (i == domhi || i == domhi - 1))
    ensures Slope4ExtDir(q, i, true, edhi, domlo, domhi) == b
  {
    LowFaceSteps(q, a, b, domlo);
    LowEdgeSlopeExact(q, a, b, domlo);
    var st := Edges4(q, i, true, edhi, domlo, domhi);
    if i == domlo {
      FinishExact(st, b);
    } else {
      assert q(i) - q(i-1) == b && q(i+1) - q(i) == b && q(i+2) - q(i+1) == b;
      assert st.dfm == b && st.dfp == b && st.dcen == b;
      FinishExact(st, b);
    }
  }

  /** The mirror image of Slope4ExtDirLinearAtLowFace at a flagged high boundary. */
  lemma {:induction false} Slope4ExtDirLinearAtHighFace(q: Line, a: real, b: real, i: int, edlo: bool, domlo: int, domhi: int)
    requires LinearToHighFace(q, a, b, domhi)
    requires i == domhi || i == domhi - 1
    requires !(edlo && (i == domlo || i == domlo + 1))
    ensures Slope4ExtDir(q, i, edlo, true, domlo, domhi) == b
  {
    HighFaceSteps(q, a, b, domhi);
    HighEdgeSlopeExact(q, a, b, domhi);
    var st := Edges4(q, i, edlo, true, domlo, domhi);
    if i == domhi {
      FinishExact(st, b);
    } else {
      assert q(i) - q(i-1) == b && q(i-1) - q(i-2) == b && q(i+1) - q(i) == b;
      assert st.dfm == b && st.dfp == b && st.dcen == b;
      FinishExact(st, b);
    }
  }

  /**
   * Without the correction, the plain fourth-order slope of the cell next to
   * the low face over-estimates linear data by a factor 25/24: the
   * one-sided slope dfm reads the face value as if it were a cell centre.
   */
  lemma {:induction false} Slope4BiasedNextToLowFace(q: Line, a: real, b: real, domlo: int)
    requires LinearFromLowFace(q, a, b, domlo)
    ensures Slope4(q, domlo + 1) == 25.0 / 24.0 * b
  {
    LowFaceSteps(q, a, b, domlo);
    var i := domlo + 1;
    assert q(i-1) - q(i-2) == 0.5 * b;
    assert q(i) - q(i-1) == b && q(i+1) - q(i) == b && q(i+2) - q(i+1) == b;
    var st := Interior4(q, i);
    assert FourthLimit(0.5 * b, b) == Abs(b);
    assert st.dfm == 0.75 * b;
    assert st.dfp == b && st.dcen == b;
    assert st.dtemp == 25.0 / 24.0 * b;
    assert st.dlim == 2.0 * Abs(b);
  }

  /**
   * The one-sided slope that replaces dfm in the cell next to a flagged low
   * boundary is exactly the slope the boundary cell itself returns, unless
   * the high-boundary corrections also reach the boundary cell.
   */
  lemma {:induction false} LowEdgeFeedsNeighbour(q: Line, edhi: bool, domlo: int, domhi: int)
    requires !(edhi && (domlo == domhi || domlo == domhi - 1))
    ensures Edges4(q, domlo + 1, true, edhi, domlo, domhi).dfm == Slope4ExtDir(q, domlo, true, edhi, domlo, domhi)
  {
    var e := ExtrapLo(q, domlo);
    var lim := EdgeLimit(q, domlo);
    var low := LowEdge(q, domlo + 1, true, domlo, Interior4(q, domlo + 1));
    assert low.dfm == EdgeSlope(e, lim);
    assert HighEdge(q, domlo + 1, edhi, domhi, low).dfm == low.dfm;
    var st := LowEdge(q, domlo, true, domlo, Interior4(q, domlo));
    assert Edges4(q, domlo, true, edhi, domlo, domhi) == st;
    assert st.dsgn == CopySign1(e) && st.dlim == lim && st.dtemp == e;
  }

  /** The one-sided slope that replaces dfp next to a flagged high boundary is the boundary cell's own slope. */
  lemma {:induction false} HighEdgeFeedsNeighbour(q: Line, edlo: bool, domlo: int, domhi: int)
    ensures Edges4(q, domhi - 1, edlo, true, domlo, domhi).dfp == Slope4ExtDir(q, domhi, edlo, true, domlo, domhi)
  {
    var e := ExtrapHi(q, domhi);
    var lim := EdgeLimit(q, domhi);
    var low := LowEdge(q, domhi - 1, edlo, domlo, Interior4(q, domhi - 1));
    assert HighEdge(q, domhi - 1, true, domhi, low).dfp == EdgeSlope(e, lim);
    var st := Edges4(q, domhi, edlo, true, domlo, domhi);
    assert st.dsgn == CopySign1(e) && st.dlim == lim && st.dtemp == e;
  }

  /**
   * At a flagged low boundary cell the fourth-order slope takes the sign of
   * the one-sided extrapolation (not of the data) and, unless the
   * high-boundary corrections reach the cell, is that extrapolation limited
   * by the boundary limit.
   */
  lemma {:induction false} Slope4ExtDirAtLowEdge(q: Line, edhi: bool, domlo: int, domhi: int)
    requires !(edhi && domlo == domhi)
    ensures var r := Slope4ExtDir(q, domlo, true, edhi, domlo, domhi);
      && (r > 0.0 ==> ExtrapLo(q, domlo) >= 0.0)
      && (r < 0.0 ==> ExtrapLo(q, domlo) < 0.0)
    ensures !(edhi && domlo == domhi - 1) ==>
      Slope4ExtDir(q, domlo, true, edhi, domlo, domhi) == EdgeSlope(ExtrapLo(q, domlo), EdgeLimit(q, domlo))
  {
    var e := ExtrapLo(q, domlo);
    var low := LowEdge(q, domlo, true, domlo, Interior4(q, domlo));
    assert low.dsgn == CopySign1(e) && low.dlim == EdgeLimit(q, domlo) && low.dtemp == e;
    var st := HighEdge(q, domlo, edhi, domhi, low);
    assert st.dsgn == low.dsgn && st.dlim == low.dlim;
    assert !(edhi && domlo == domhi - 1) ==> st == low;
    assert Slope4ExtDir(q, domlo, true, edhi, domlo, domhi) == Finish(st);
  }

  /** At a flagged high boundary cell the fourth-order slope is the limited one-sided extrapolation. */
  lemma {:induction false} Slope4ExtDirAtHighEdge(q: Line, edlo: bool, domlo: int, domhi: int)
    ensures var r := Slope4ExtDir(q, domhi, edlo, true, domlo, domhi);
      && r == EdgeSlope(ExtrapHi(q, domhi), EdgeLimit(q, domhi))
      && (r > 0.0 ==> ExtrapHi(q, domhi) > 0.0)
      && (r < 0.0 ==> ExtrapHi(q, domhi) < 0.0)
  {
  }

  /** Away from the boundary corrections the fourth-order slope is exact on linear data. */
  lemma {:induction false} Slope4ExtDirLinear(q: Line, a: real, b: real, i: int, edlo: bool, edhi: bool, domlo: int, domhi: int)
    requires Linear(q, a, b)
    requires !NearEdge4(i, edlo, edhi, domlo, domhi)
    ensures Slope4ExtDir(q, i, edlo, edhi, domlo, domhi) == b
  {
    Slope4Linear(q, a, b, i);
  }

  /** Data that rises through the low boundary cell and then jumps. */
  function RiseThenJump(): Line
  {
    (t: int) => if t < 0 then 0.0 else if t <= 1 then (t + 1) as real else 100.0
  }

  /**
   * Sign agreement does not extend to the flagged boundary cells: here the
   * data rise through cell 0 = domlo, yet its fourth-order slope is -2.
   */
  lemma EdgeSlopeCanOpposeData()
    ensures var q := RiseThenJump();
      q(-1) < q(0) < q(1) && Slope4ExtDir(q, 0, true, false, 0, 8) == -2.0
  {
    var q := RiseThenJump();
    assert ExtrapLo(q, 0) == -49.0 / 6.0;
    assert EdgeLimit(q, 0) == 2.0;
  }

  /** Two lines that agree on the five cells i-2 .. i+2. */
  predicate AgreeAround(q: Line, r: Line, i: int)
  {
    && q(i - 2) == r(i - 2) && q(i - 1) == r(i - 1) && q(i) == r(i)
    && q(i + 1) == r(i + 1) && q(i + 2) == r(i + 2)
  }

  lemma Interior4Stencil(q: Line, r: Line, i: int)
    requires AgreeAround(q, r, i)
    ensures Interior4(q, i) == Interior4(r, i)
  {
  }

  lemma LowEdgeStencil(q: Line, r: Line, i: int, edlo: bool, domlo: int, st: FourthOrder)
    requires AgreeAround(q, r, i)
    ensures LowEdge(q, i, edlo, domlo, st) == LowEdge(r, i, edlo, domlo, st)
  {
    if edlo && i == domlo {
      assert ExtrapLo(q, i) == ExtrapLo(r, i);
      assert EdgeLimit(q, i) == EdgeLimit(r, i);
    } else if edlo && i == domlo + 1 {
      assert ExtrapLo(q, domlo) == ExtrapLo(r, domlo);
      assert EdgeLimit(q, domlo) == EdgeLimit(r, domlo);
    }
  }

  lemma HighEdgeStencil(q: Line, r: Line, i: int, edhi: bool, domhi: int, st: FourthOrder)
    requires AgreeAround(q, r, i)
    ensures HighEdge(q, i, edhi, domhi, st) == HighEdge(r, i, edhi, domhi, st)
  {
    if edhi && i == domhi {
      assert ExtrapHi(q, i) == ExtrapHi(r, i);
      assert EdgeLimit(q, i) == EdgeLimit(r, i);
    } else if edhi && i == domhi - 1 {
      assert ExtrapHi(q, domhi) == ExtrapHi(r, domhi);
      assert EdgeLimit(q, domhi) == EdgeLimit(r, domhi);
    }
  }

  /**
   * The fourth-order slope, boundary corrections included, has a five-point
   * stencil: it reads only cells i-2 .. i+2.
   */
  lemma {:induction false} Slope4ExtDirStencil(q: Line, r: Line, i: int, edlo: bool, edhi: bool, domlo: int, domhi: int)
    requires AgreeAround(q, r, i)
    ensures Slope4ExtDir(q, i, edlo, edhi, domlo, domhi) == Slope4ExtDir(r, i, edlo, edhi, domlo, domhi)
  {
    Interior4Stencil(q, r, i);
    var st := Interior4(q, i);
    LowEdgeStencil(q, r, i, edlo, domlo, st);
    var lo := LowEdge(q, i, edlo, domlo, st);
    HighEdgeStencil(q, r, i, edhi, domhi, lo);
    assert Edges4(q, i, edlo, edhi, domlo, domhi) == Edges4(r, i, edlo, edhi, domlo, domhi);
  }
}
