# incflo convection kernels in Dafny

This project models the per-cell kernels of incflo's convection operator and
proves what they promise. It covers two header files.

- **Slope limiters** (`src/convection/incflo_slopes_K.H`):
  - `incflo_{x,y,z}slope`, the second-order monotonized-central limiter.
  - `incflo_ho_{x,y,z}slope`, the fourth-order limited slope.
  - The `_extdir` variants of both, which use one-sided formulas at flagged domain-edge cells.
  - `incflo_slopes_eb`, the embedded-boundary least-squares gradient. It falls back to the plain limiter on regular axes.
  - `incflo_slopes_extdir_eb`, which applies the extdir overrides to the embedded-boundary slopes.
- **PLM face predictor** (`src/convection/incflo_godunov_plm.H`): `Godunov_plm_fpu_{x,y,z}`. It builds the two half-time trace states `Im` and `Ip` at a face from the limited slopes, the face velocity and `dt/dx`.

Modelling conventions:

- `amrex::Real` is an exact `real`.
- `copysign(1.0, x)` is `1` for `x >= 0` and `-1` otherwise (`Grid.CopySign1`).
- A cell-centred array `state(i, j, k, n)` is a total function `Field`.
- The 1-D kernels read a `Line = int -> real`. `Grid.Along(S, a, c, n)` is the line through cell `c` parallel to axis `a`. The x, y and z versions of a kernel are therefore one member applied along `X`, `Y` or `Z`. `PlmProperties.PredictorAxisSymmetry` proves that the y and z predictors are the x predictor on a transposed field.
- The products `dr*dl > 0.0` and `dlft*drgt >= 0.0` in the limiters are written as the sign predicates `SameSign` and `!OppositeSigns`. `Grid.ProductPositive` and `Grid.ProductNonNegative` prove the two forms equal.

The limiters and the predictor are pure functions. `incflo_slopes_eb` is a method over arrays, mirroring the source:

- `FillSystem` fills `A[27][3]` and `du[27]` in the `kk`/`jj`/`ii` loops.
- `NormalEquations` zeroes `AtA`/`Atb`, accumulates them in the `lc` loop and mirrors the upper half of `AtA`.
- `SlopesEb` divides the Cramer numerators by `detAtA` on the irregular axes.

Each step is proved against a specification function: `Rows`/`Jumps`, `NormalMatrix`/`NormalRhs` (sums `Gram` and `Moment` over the rows) and `EbSlope`. The lemmas in `EbProperties` state what those functions mean:

- The slopes solve the normal equations.
- A linear field is reproduced exactly.
- Disconnected neighbours never matter.
- A regular axis gives `incflo_xslope`.

Files: `grid.dfy`, `limiters.dfy`, `limiter_properties.dfy`, `plm.dfy`, `plm_properties.dfy`, `eb_slopes.dfy`, `eb_properties.dfy`.

## Model

| member | source | states |
|---|---|---|
| Grid.CopySign1 | src/convection/incflo_slopes_K.H:38 | copysign(1, x) is +1 for x >= 0 and -1 for x < 0 |
| Grid.ProductPositive | src/convection/incflo_slopes_K.H:21 | the guard `dr*dl > 0.0` holds exactly when both differences are nonzero with the same sign |
| Grid.ProductNonNegative | src/convection/incflo_slopes_K.H:39 | the guard `dlft*drgt >= 0.0` holds exactly when the differences do not have opposite signs |
| Grid.WithSignIsProduct | src/convection/incflo_slopes_K.H:57 | signing a magnitude by WithSign is the product `dsgn*min(...)` the kernels write |
| Limiters.MonotonizedCentral | src/convection/incflo_slopes_K.H:20-22 | the result is bounded by each of abs(dl), abs(dc) and abs(dr), and equals their minimum when nonzero; it is zero exactly when dc is zero or dl and dr do not share a sign; its sign is dc's |
| Limiters.Slope2 | src/convection/incflo_slopes_K.H:14-23 | incflo_xslope is bounded by 2·abs(q(i)-q(i-1)), 2·abs(q(i+1)-q(i)) and ½·abs(q(i+1)-q(i-1)); it is zero exactly at an extremum or flat side; it is positive exactly on strictly increasing data and negative exactly on strictly decreasing data |
| Limiters.CentreLo | src/convection/incflo_slopes_K.H:70 | the one-sided centred difference at a low edge is (4·(q(m)-q(m-1)) + (q(m+1)-q(m)))/3, a positive blend of the two one-sided differences, so it is non-negative on non-decreasing and non-positive on non-increasing data |
| Limiters.CentreHi | src/convection/incflo_slopes_K.H:72 | the high-edge counterpart is ((q(m)-q(m-1)) + 4·(q(m+1)-q(m)))/3, with the same sign properties |
| Limiters.CentreDifference | src/convection/incflo_slopes_K.H:68-73 | the centred difference is the plain one off the flagged edge cells (the low edge wins when both apply); every variant is positive on increasing and negative on decreasing data |
| Limiters.Slope2ExtDir | src/convection/incflo_slopes_K.H:62-77 | off the flagged edge cells it equals incflo_xslope; everywhere it keeps the one-sided bounds, is zero exactly at an extremum, and has the sign of monotone data |
| Limiters.Slope2ExtDirAtEdge | src/convection/incflo_slopes_K.H:62-77 | at a flagged low edge cell incflo_xslope_extdir is the monotonized-central limiter of the line-70 difference, and at a flagged high edge cell (not also the low one) of the line-72 difference |
| Limiters.FourthLimit | src/convection/incflo_slopes_K.H:39 | dlim is non-negative, at most twice each one-sided difference, and zero exactly when the differences do not share a sign |
| Limiters.LimitedCentre | src/convection/incflo_slopes_K.H:35-40 | dfm/dfp are bounded by dlim and by abs(dcen), and equal the common difference when the two differences agree |
| Limiters.Blend | src/convection/incflo_slopes_K.H:55 | dtemp (also lines 110, 125, 141) is dcen plus a sixth of its excess over dfp and over dfm, so it is dcen when all three agree |
| Limiters.InteriorValues | src/convection/incflo_slopes_K.H:29-55 | the state reaching the final line has dlim from cells i-1, i, i+1, dcen the centred difference and dsgn its copysign, dfm and dfp within their own dlim, and dtemp their fourth-order blend |
| Limiters.Interior4 | src/convection/incflo_slopes_K.H:26-55 | at cell i, dlim is the fourth-order limit of the two one-sided differences and dsgn is ±1, dcen is ½(q(i+1)-q(i-1)) and dsgn its copysign, and dtemp is the blend of dcen with dfp and dfm |
| Limiters.Finish | src/convection/incflo_slopes_K.H:57 | with dsgn = ±1 and dlim >= 0, the result is bounded by dlim and abs(dtemp), is zero when dlim is, and has the sign of dsgn |
| Limiters.Slope4 | src/convection/incflo_slopes_K.H:26-59 | incflo_ho_xslope is bounded by twice each one-sided difference, zero at an extremum or flat side, and never of the opposite sign to monotone data |
| Limiters.EdgeLimit | src/convection/incflo_slopes_K.H:114-116 | the boundary dlim (and dlimsh, lines 120-122) is the interior fourth-order dlim |
| Limiters.EdgeSlope | src/convection/incflo_slopes_K.H:122-124 | the corrected one-sided slope is bounded by the limit and by the extrapolation, and has the extrapolation's sign |
| Limiters.ExtrapLo | src/convection/incflo_slopes_K.H:113 | the extrapolated low-edge slope is 16/15 of the difference across the boundary face, plus 17/30 of the next difference inward, minus 1/10 of the one after |
| Limiters.ExtrapHi | src/convection/incflo_slopes_K.H:129 | the high-edge counterpart, mirrored |
| Limiters.LowEdge | src/convection/incflo_slopes_K.H:112-126 | the low-boundary corrections keep dlim and dsgn sound, keep dsgn except at domlo, and change nothing away from domlo and domlo+1 |
| Limiters.HighEdge | src/convection/incflo_slopes_K.H:128-142 | the same for the high-boundary corrections at domhi and domhi-1 |
| Limiters.Edges4 | src/convection/incflo_slopes_K.H:90-142 | after both corrections dlim and dsgn are sound, dsgn is the data's sign off the flagged edge cells, and the state is the interior one away from the four special positions |
| Limiters.Slope4ExtDir | src/convection/incflo_slopes_K.H:80-145 | incflo_ho_xslope_extdir is bounded by twice each one-sided difference and zero at an extremum everywhere; off the flagged edge cells it follows monotone data; away from domlo, domlo+1, domhi-1 and domhi it equals incflo_ho_xslope |
| LimiterProperties.Slope2Linear | src/convection/incflo_slopes_K.H:17-22 | on linear data q(t) = a + b·t, incflo_xslope returns exactly b |
| LimiterProperties.Slope4Linear | src/convection/incflo_slopes_K.H:35-57 | on linear data incflo_ho_xslope returns exactly b |
| LimiterProperties.ExtrapLoQuadratic | src/convection/incflo_slopes_K.H:113 | the extrapolated slope of line 113 and the centred difference of line 70, both one-sided, give the exact derivative of a quadratic whose ghost value sits on the face |
| LimiterProperties.ExtrapHiQuadratic | src/convection/incflo_slopes_K.H:129 | the extrapolated slope of line 129 and the centred difference of line 72 give the exact derivative of such a quadratic |
| LimiterProperties.Slope2ExtDirLinearAtLowFace | src/convection/incflo_slopes_K.H:69-76 | at a flagged low edge cell, whose ghost value sits on the face, incflo_xslope_extdir returns the slope of linear data |
| LimiterProperties.Slope2ExtDirLinearAtHighFace | src/convection/incflo_slopes_K.H:71-76 | the same at a flagged high edge cell |
| LimiterProperties.LowEdgeSlopeExact | src/convection/incflo_slopes_K.H:113-124 | the corrected low one-sided slope reproduces linear data sampled from the face |
| LimiterProperties.HighEdgeSlopeExact | src/convection/incflo_slopes_K.H:129-140 | the corrected high one-sided slope reproduces linear data sampled up to the face |
| LimiterProperties.Slope4ExtDirLinearAtLowFace | src/convection/incflo_slopes_K.H:112-126 | with the ghost value on the low face, the fourth-order extdir slope is exact at domlo and domlo+1, unless the high corrections reach those cells |
| LimiterProperties.Slope4ExtDirLinearAtHighFace | src/convection/incflo_slopes_K.H:128-142 | the same at domhi and domhi-1 |
| LimiterProperties.Slope4BiasedNextToLowFace | src/convection/incflo_slopes_K.H:35-57 | without the correction, incflo_ho_xslope next to a face-sampled boundary returns 25/24 of the slope, which the correction at domlo+1 removes |
| LimiterProperties.LowEdgeFeedsNeighbour | src/convection/incflo_slopes_K.H:118-125 | the dfm used at domlo+1 is the slope incflo_ho_xslope_extdir returns at domlo |
| LimiterProperties.HighEdgeFeedsNeighbour | src/convection/incflo_slopes_K.H:134-141 | the dfp used at domhi-1 is the slope returned at domhi |
| LimiterProperties.Slope4ExtDirAtLowEdge | src/convection/incflo_slopes_K.H:112-144 | at a flagged low edge cell the slope is never of the opposite sign to the one-sided extrapolation, and is that extrapolation limited by dlim unless the high corrections reach the cell |
| LimiterProperties.Slope4ExtDirAtHighEdge | src/convection/incflo_slopes_K.H:128-144 | at a flagged high edge cell the slope is the extrapolation limited by dlim, with its sign |
| LimiterProperties.Slope4ExtDirLinear | src/convection/incflo_slopes_K.H:80-145 | away from the four special positions the extdir slope is exact on linear data |
| LimiterProperties.EdgeSlopeCanOpposeData | src/convection/incflo_slopes_K.H:112-117 | a concrete line rising through domlo whose fourth-order slope there is -2: sign agreement does not hold at edge cells |
| LimiterProperties.Slope4ExtDirStencil | src/convection/incflo_slopes_K.H:80-145 | the fourth-order extdir slope reads only cells i-2 .. i+2 |
| Plm.FaceData | src/convection/incflo_godunov_plm.H:26-33 | the face pins low exactly at i == domlo with ext_dir, pins high exactly at i == domhi+1 with ext_dir (when not pinned low), and treats component n == axis of a velocity as normal |
| Plm.TraceToFace | src/convection/incflo_godunov_plm.H:52-55 | tracing to the high face with 0 <= u·dt/dx <= 1 moves the value toward that face by at most half the slope, and to the low face with -1 <= u·dt/dx <= 0 likewise; at u·dt/dx equal to the face side it keeps the cell value |
| Plm.LineStencil | src/convection/incflo_godunov_plm.H:26-55 | the face reads cells i-1 and i; it pins low only at domlo with ext_dir and high only at domhi+1 with ext_dir, never both in a non-empty domain; away from the boundary corrections both slopes are incflo_ho_xslope; both slopes are bounded by twice the jump across the face |
| Plm.FaceTraces | src/convection/incflo_godunov_plm.H:33-59 | at a low pin Ip is the ghost value S(i-1) (and Im too for the normal velocity); at a high pin Im is the ghost value S(i) (and Ip too for the normal velocity); otherwise both cells are traced along their slopes |
| Plm.PlmFpu | src/convection/incflo_godunov_plm.H:16-61 | at a low ext_dir face Ip = S(i-1), and Im = S(i-1) for the normal velocity; at a high ext_dir face Im = S(i), and Ip = S(i) for the normal velocity |
| PlmProperties.PlmAwayFromExtDirFaces | src/convection/incflo_godunov_plm.H:51-59 | at every other face Im = S(i) + ½(-1 - u·dt/dx)·slope(i) and Ip = S(i-1) + ½(1 - u·dt/dx)·slope(i-1), with the slope incflo_ho_xslope_extdir |
| PlmProperties.HoExtrapNeverPins | src/convection/incflo_godunov_plm.H:26-33 | a hoextrap boundary only switches on the limiter's one-sided formulas; both traces are still traced at its face |
| PlmProperties.TangentialTracesInterior | src/convection/incflo_godunov_plm.H:35-50 | at an ext_dir face a tangential component still traces the interior cell |
| PlmProperties.PlmTraceCases | src/convection/incflo_godunov_plm.H:33-59 | each trace is a neighbouring cell value or that cell traced along its slope |
| PlmProperties.LinearDataTracesAgree | src/convection/incflo_godunov_plm.H:51-59 | on linear data away from the boundary corrections both traces equal the data at the foot of the characteristic, x = i - ½ - u·dt/(2dx) |
| PlmProperties.UpwindIpWithinNeighbours | src/convection/incflo_godunov_plm.H:54-58 | for 0 <= u·dt/dx <= 1, Ip lies between S(i-1) and S(i) unless cell i-1 is a flagged edge cell |
| PlmProperties.UpwindImWithinNeighbours | src/convection/incflo_godunov_plm.H:52-59 | for -1 <= u·dt/dx <= 0, Im lies between S(i-1) and S(i) unless cell i is a flagged edge cell |
| PlmProperties.PredictorAxisSymmetry | src/convection/incflo_godunov_plm.H:65-164 | the y and z predictors are the x predictor on the field with axes (and velocity components) exchanged, so their normal pin is keyed to n == 1 and n == 2 |
| EbSlopes.OffsetOfIndexed | src/convection/incflo_slopes_K.H:436-474 | step lc of the fill loops visits a stencil offset, and IndexOf recovers lc |
| EbSlopes.IndexOfOffset | src/convection/incflo_slopes_K.H:436-474 | every offset of the 3x3x3 block is visited at exactly one of the 27 steps |
| EbSlopes.FillEntry | src/convection/incflo_slopes_K.H:445-466 | row lc of A is the centroid displacement and du[lc] the jump when the cell is connected to the offset and it is not the cell itself, otherwise zero; nothing else changes |
| EbSlopes.FillSystem | src/convection/incflo_slopes_K.H:432-474 | after the loops, row IndexOf(o) of A and du[IndexOf(o)] are the row and jump of every offset o of the stencil |
| EbSlopes.AddRow | src/convection/incflo_slopes_K.H:489-504 | one pass adds the row's outer product to the upper half of AtA and row·du to Atb |
| EbSlopes.NormalEquations | src/convection/incflo_slopes_K.H:476-513 | the arrays hold AtA and Atb, the sums over all 27 rows, with AtA's lower half mirrored |
| EbSlopes.GramSymmetric | src/convection/incflo_slopes_K.H:488-498 | the accumulated entry (a, b) equals entry (b, a) over every prefix of the rows |
| EbSlopes.NormalMatrixSymmetric | src/convection/incflo_slopes_K.H:508-513 | AtA is symmetric, so the mirror copy is the full product |
| EbSlopes.DetIsTripleProduct | src/convection/incflo_slopes_K.H:516-519 | detAtA is the determinant of AtA: the scalar triple product of its columns |
| EbSlopes.NumeratorIsCramer | src/convection/incflo_slopes_K.H:537-540 | for symmetric AtA, detAtA_x (and detAtA_y, detAtA_z at lines 569-572, 599-602) is detAtA with column x (y, z) replaced by Atb, the numerator of Cramer's rule |
| EbSlopes.Irregular | src/convection/incflo_slopes_K.H:531-533 | a cut cell is always irregular; on a regular axis both axis neighbours are connected and so enter the least-squares stencil |
| EbSlopes.AxisSlope | src/convection/incflo_slopes_K.H:530-560 | on an irregular axis with symmetric AtA the component is Cramer's ratio det(AtA with that column replaced by Atb)/detAtA; on a regular axis it is incflo_xslope of the line |
| EbSlopes.EbSlope | src/convection/incflo_slopes_K.H:420-618 | each component on a regular axis is incflo_xslope of the line through the cell along that axis |
| EbSlopes.SlopesEb | src/convection/incflo_slopes_K.H:420-619 | the method returns EbSlope: Cramer's numerator over detAtA on each irregular axis, the monotonized-central slope on each regular axis |
| EbSlopes.BoundaryOverride | src/convection/incflo_slopes_K.H:639-668 | a component is replaced only on a regular axis at a flagged edge cell, and then by incflo_xslope_extdir of the line |
| EbSlopes.EdgeOverride | src/convection/incflo_slopes_K.H:639-651 | the slope written at a flagged edge cell is incflo_xslope_extdir of the line there |
| EbSlopes.ExtDirEbSlope | src/convection/incflo_slopes_K.H:623-731 | on each axis, irregular or off the flagged edge cells, the component is incflo_slopes_eb's; on a regular axis at a flagged edge cell it is incflo_xslope_extdir of the line |
| EbProperties.CramerSolutionSolves | src/convection/incflo_slopes_K.H:516-604 | for a symmetric invertible matrix, the numerators of lines 537-540, 569-572 and 599-602 divided by detAtA solve m·s = b |
| EbProperties.CramerRecovers | src/convection/incflo_slopes_K.H:537-548 | for b = m·g, the numerator of axis a over detAtA is component a of g |
| EbProperties.EbSlopeRegularAxis | src/convection/incflo_slopes_K.H:549-559 | on a regular axis the component is incflo_xslope of the line through the cell |
| EbProperties.EbSlopeAllLeastSquares | src/convection/incflo_slopes_K.H:530-604 | when every axis is irregular, the slopes are the Cramer solution of AtA s = Atb |
| EbProperties.EbSlopeSolvesNormalEquations | src/convection/incflo_slopes_K.H:476-604 | when every axis is irregular, AtA·s = Atb: the slopes are the least-squares gradient |
| EbProperties.RhsOfLinear | src/convection/incflo_slopes_K.H:488-505 | when du = A·g, the accumulated Atb is AtA·g |
| EbProperties.EbSlopeLinear | src/convection/incflo_slopes_K.H:445-604 | if the field is linear with gradient g between the centroids of the cell and of its contributing neighbours, every irregular axis returns exactly g's component |
| EbProperties.SystemFromContributors | src/convection/incflo_slopes_K.H:445-466 | A and du depend only on the cell and its contributing neighbours: disconnected offsets and the self offset give zero rows |
| EbProperties.EbSlopeLocal | src/convection/incflo_slopes_K.H:420-619 | two inputs that agree on the cell and on its contributing neighbours (which include both axis neighbours of a regular axis) give the same system and the same slopes |
| EbProperties.ExtDirEbRegularAxis | src/convection/incflo_slopes_K.H:639-668 | on a regular axis the extdir slope is incflo_xslope_extdir of the line through the cell |

## Left out

- `src/convection/Godunov.H` and `src/convection/MOL.H` are not part of this model: they declare the transverse predictor, upwinding and flux routines without bodies.
- Floating point: rounding, NaN and infinities, and the sign of a zero are not modelled; reals are exact.
- The two-dimensional (`AMREX_SPACEDIM == 2`) branches: the model fixes three dimensions.
- AMReX plumbing:
  - `Array4` becomes a total function `Field`.
  - `BCRec` storage becomes a function per side.
  - Only ext_dir and hoextrap are told apart among the `BCType` values.
  - The `EBCellFlag` bit encoding becomes the two queries `singleValued` and `connected`.
  - GPU macros, `MultiFab` iteration and kernel launches are not modelled.
- EbSlopes.SlopesEb: requires detAtA != 0 whenever some axis takes the least-squares branch. The source divides unguarded (lines 548, 580, 604), and the resulting infinity or NaN has no exact-real counterpart. EbSlope, ExtDirEbSlope and the EbProperties lemmas carry the same precondition.
- Plm.PlmFpu: requires dx != 0 for the same reason (`umac * dt/dx`).
- LimiterProperties.Slope4ExtDirAtLowEdge: when domlo == domhi - 1 and both edges are flagged, the high block recomputes dtemp after the low block (line 141). The contract then states only that the result does not oppose the extrapolation's sign (`>= 0`), not the limited-extrapolation formula. The domlo == domhi case is excluded.
- The source returns `GpuArray`s and writes the reference out-parameters `Im`/`Ip`. The model returns a `Vec3` or a `Traces` pair.
- The regular-axis branch of `incflo_slopes_eb` (lines 551-558 and the y/z copies) is the same expression as `incflo_xslope`, so the model calls `Limiters.Slope2` on the axis line. The overrides of `incflo_slopes_extdir_eb` (lines 644-651 and copies) are written out in `EbSlopes.EdgeOverride`, which is proved equal to `Limiters.Slope2ExtDir`.
- `incflo_slopes_extdir_eb` is modelled as the function `ExtDirEbSlope` over `EbSlope`, not as a second method: it performs no loops or array updates of its own.
