# Hermite curve generator — a Dafny model

The program lets a user edit three control points: P0 (start), P1 (end) and
P2 (a shaping point). It then draws the cubic Hermite segment from P0 to P1.
The tangents are half the chord P0→P2 at the start and half the chord P2→P1
at the end (Cardinal tension 0.5). The program also tabulates five curve
samples. components/MathDetails.tsx defines an algebra panel that shows the
segment's polynomial form, a·u³ + b·u² + c·u + d per axis, as equation text.
App.tsx does not mount that panel: it renders only the control panel, the plot
and the sample table. The panel is modelled as a function of the points and
tangents it would be given.

The model has four modules. JS numbers are exact `real`s.

- `HermiteBasis` (hermite_basis.dfy): `Point`, the four basis polynomials and
  the per-axis blend. App.tsx and components/Visualization.tsx each carry an
  identical copy of the basis; this module models both.
- `App` (app.dfy): the derived tangents and the five samples at
  u = 0.2, 0.4, 0.6, 0.8, 1.0. The class `App.Editor` holds the editor state
  (`points: seq<Point>`, `isCurveVisible: bool`). Its methods are the three
  user actions: edit one coordinate, reset, make curve.
- `Visualization` (visualization.dfy): the curve path, built by a loop. The
  path is a list of commands: `MoveTo(P0)`, then one `LineTo` per step. Also
  the plotting window fitted around the nodes.
- `MathDetails` (math_details.dfy): the monomial coefficients and the display
  rounding `Number(x.toFixed(2))`, modelled exactly over the reals. Then the
  equation text. Text is a list of pieces: a character, or `Num(v)`, which
  stands for JS's printing of the number v. The terms are built, joined,
  trimmed, passed through the leading-plus replacement, and given the `'0'`
  fallback. A decoder reads the coefficients back from the shown text. This
  proves that the text determines the displayed coefficients.

The equation assembly is modelled as the code is written. `.trim()` runs before
`.replace(/^ \+ /, '')`, so the replacement never matches. An equation whose
cubic coefficient is 0 therefore keeps the sign of its first term, a leading
`"+ "` included. The `.replace` evidently means to strip a leading "+", but it
never matches; the model follows the code.

## Model

| member | source | states |
|---|---|---|
| HermiteBasis.BasisAtZero | components/Visualization.tsx:11-16 | at u = 0 the start-point weight is 1 and the other three weights are 0 |
| HermiteBasis.BasisAtOne | components/Visualization.tsx:11-16 | at u = 1 the end-point weight is 1 and the other three weights are 0 |
| HermiteBasis.PositionWeightsSumToOne | components/Visualization.tsx:12-13 | h00(u) + h10(u) = 1 for every u |
| HermiteBasis.H00 | components/Visualization.tsx:12 | defined as the source's h00 polynomial; its properties are those of HermiteBasis.BasisAtZero, HermiteBasis.BasisAtOne and HermiteBasis.PositionWeightsSumToOne |
| HermiteBasis.H10 | components/Visualization.tsx:13 | defined as the source's h10 polynomial; its properties are those of HermiteBasis.BasisAtZero, HermiteBasis.BasisAtOne and HermiteBasis.PositionWeightsSumToOne |
| HermiteBasis.H01 | components/Visualization.tsx:14 | defined as the source's h01 polynomial; its properties are those of HermiteBasis.BasisAtZero and HermiteBasis.BasisAtOne |
| HermiteBasis.H11 | components/Visualization.tsx:15 | defined as the source's h11 polynomial; its properties are those of HermiteBasis.BasisAtZero and HermiteBasis.BasisAtOne |
| HermiteBasis.Blend | components/Visualization.tsx:22-23 | defined as the source's per-axis blend expression; its properties are those of HermiteBasis.BlendAtEnds, MathDetails.CoeffsMatchBasis and Visualization.AxesAreIndependent |
| HermiteBasis.Evaluate | App.tsx:53-54 | defined as the source's sample expression on both axes; its properties are those of HermiteBasis.EvaluateAtEnds and HermiteBasis.ZeroStartTangent |
| HermiteBasis.BlendAtEnds | components/Visualization.tsx:22-23 | one coordinate of the curve is p0 at u = 0 and p1 at u = 1 |
| HermiteBasis.EvaluateAtEnds | App.tsx:13-18 | for any tangents, the curve is exactly P0 at u = 0 and exactly P1 at u = 1 |
| HermiteBasis.ZeroStartTangent | App.tsx:52-54 | with T0 = (0,0) the point is h00·P0 + h10·P1 + h11·T1 on each axis (the T0 term vanishes) |
| App.DerivedTangents | App.tsx:26-44 | fewer than 3 points give two zero tangents; otherwise T0 = (P2 − P0)/2 and T1 = (P1 − P2)/2 on each axis; T0 is zero iff P0 = P2, and T1 is zero iff P1 = P2 |
| App.InitialTangents | App.tsx:7-11 | for the initial points (2,2), (12,10), (4,8) the tangents are (1,3) and (4,1) |
| App.SampleAt | App.tsx:52-56 | the map over the parameters: one point per parameter, in order, each the curve evaluated at that parameter |
| App.IntermediatePoints | App.tsx:46-59 | empty iff the curve is hidden or there are fewer than 2 points; otherwise 5 points, point k being the curve at uValues[k] |
| App.SamplesEndAtP1 | App.tsx:51-56 | the parameters increase strictly within (0, 1]; there are 5 samples, and the last (u = 1) is exactly P1 |
| App.SetCoordinate | App.tsx:62-66 | the edited list has the same length; point index has the edited axis set to the value and its other axis unchanged; every other point is unchanged |
| App.Editor.CurrentTangents | App.tsx:26-44 | defined as the memoised tangents of the current points; its properties are those of App.DerivedTangents |
| App.Editor.Samples | App.tsx:46-59 | defined as the memoised samples of the current state; its properties are those of App.IntermediatePoints and the Editor methods' ensures |
| App.Editor.constructor | App.tsx:21-22 | the editor starts with the initial points, the curve hidden and no samples |
| App.Editor.UpdatePoint | App.tsx:61-68 | the points become SetCoordinate of the old points; the curve is hidden, so no sample remains; three points stay three |
| App.Editor.Reset | App.tsx:70-75 | the points are exactly the initial points and the curve is hidden |
| App.Editor.HandleMakeCurve | App.tsx:77-79 | the curve is shown and the points are unchanged; with three points the table then holds 5 samples |
| Visualization.CalculateCurvePath | components/Visualization.tsx:18-27 | the path has steps + 1 commands (1 when steps < 1): MoveTo(P0), then for i = 1..steps a LineTo the curve point at u = i/steps |
| Visualization.CurvePathEndsAtP1 | components/Visualization.tsx:20-23 | with at least one step the last vertex of the path is exactly P1 |
| Visualization.PlotPathLength | components/Visualization.tsx:55 | the plotted path (100 steps) has 101 vertices |
| Visualization.AxesAreIndependent | components/Visualization.tsx:22-23 | two paths whose inputs agree on their x components agree on every vertex's x, and likewise for y |
| Visualization.SamplesLieOnPlotPath | components/Visualization.tsx:20-23 | for the editor's points and tangents, the five tabulated samples are the plotted vertices 20, 40, 60, 80 and 100 |
| Visualization.MinOf | components/Visualization.tsx:42 | the result is at most every element and equals one of them |
| Visualization.MaxOf | components/Visualization.tsx:43 | the result is at least every element and equals one of them |
| Visualization.Margin | components/Visualization.tsx:39-40 | the margin is at least 2 and at least 15% of the range, and equals one of them |
| Visualization.AxisExtent | components/Visualization.tsx:37-48 | every node lies at least 2 inside the window; the margin beyond the lowest and the highest node is the same and equals Margin(spread); the size is hi − lo, at least 4 and at least 1.3 × the spread |
| Visualization.PlotFrame | components/Visualization.tsx:33-48 | every node (P0, P1 and the samples) satisfies minX + 2 ≤ x ≤ maxX − 2 and the same for y; width = maxX − minX and height = maxY − minY, both at least 4 |
| MathDetails.AxisCoeffs | components/MathDetails.tsx:14-22 | d = p0 and c = t0; a + b + c + d = p1; 3a + 2b + c = t1: the cubic starts at p0 with slope t0 and ends at p1 with slope t1 |
| MathDetails.HermiteEndConditions | components/MathDetails.tsx:14-17 | the cubic built from the coefficients has value p0 and slope t0 at u = 0, and value p1 and slope t1 at u = 1 |
| MathDetails.SlopeIsDerivative | components/MathDetails.tsx:14-17 | Slope is the derivative of the cubic: Value(u + h) − Value(u) = h·Slope(u) + h²·(3au + b + ah) |
| MathDetails.CoeffsMatchBasis | components/MathDetails.tsx:14-17 | for every u, a·u³ + b·u² + c·u + d from the unrounded coefficients equals the Hermite basis evaluation |
| MathDetails.CoeffsAreMatrixRows | components/MathDetails.tsx:54-57 | the four coefficient expressions are the rows of the displayed Hermite matrix applied to (p0, p1, t0, t1) |
| MathDetails.InitialCoeffs | components/MathDetails.tsx:14-22 | for the initial points and the tangents derived from them the x axis has (−15, 24, 1, 2) and the y axis (−12, 17, 3, 2); at u = 1 these cubics give P1's coordinates 12 and 10 |
| MathDetails.FormatNumber | components/MathDetails.tsx:9-11 | below 10^21 in magnitude the result is a whole number of hundredths within 0.005 of the input, so the nearest one, and a tie (exactly 0.005 away) goes away from zero; at or above 10^21 the input is returned unchanged; the sign is never flipped |
| MathDetails.FormatNumberIdempotent | components/MathDetails.tsx:9-11 | rounding a rounded value changes nothing |
| MathDetails.Rounded | components/MathDetails.tsx:14-22 | each displayed coefficient is within 0.005 of the exact one and is a fixed point of the rounding |
| MathDetails.Term | components/MathDetails.tsx:24-30 | a term is empty iff val = 0; otherwise it begins " + " for val > 0 and " - " for val < 0 and ends with the variable; for abs(val) = 1 and a nonempty variable the number is left out, otherwise abs(val) is printed after the sign (the constant term keeps a 1) |
| MathDetails.TrimStart | components/MathDetails.tsx:32 | the result is a suffix of the input, all dropped pieces are white space, and it does not begin with white space |
| MathDetails.TrimEnd | components/MathDetails.tsx:32 | the result is a prefix of the input, all dropped pieces are white space, and it does not end with white space |
| MathDetails.Trim | components/MathDetails.tsx:32 | the result is the input with white space removed at its ends only: it is the slice t[i..i + \|r\|], where i is the number of leading pieces dropped, and every piece before i and from i + \|r\| on is white space; it neither begins nor ends with white space; input with no white space at its ends is unchanged; a single leading space is removed |
| MathDetails.ReplaceAfterTrimIsIdentity | components/MathDetails.tsx:32-33 | the leading " + " replacement applied after the trim never changes anything |
| MathDetails.CubicTerm | components/MathDetails.tsx:32 | defined as the source's leading `a u³` term; its properties are those of MathDetails.CubicTermLeads and MathDetails.NoCubicTermForZeroA |
| MathDetails.RawEquation | components/MathDetails.tsx:32 | defined as the source's four terms side by side; its properties are those of MathDetails.RawEquationShape and MathDetails.ReadRawOfRawEquation |
| MathDetails.ReplaceLeadingPlus | components/MathDetails.tsx:33 | defined as the source's leading " + " replacement; its properties are those of MathDetails.ReplaceAfterTrimIsIdentity and MathDetails.ReplaceKeepsNonBlankStart |
| MathDetails.ReplaceKeepsNonBlankStart | components/MathDetails.tsx:33 | text that does not begin with white space is left unchanged by the replacement |
| MathDetails.AxisEquation | components/MathDetails.tsx:32-33 | defined as the source's trim followed by the replacement; its properties are those of MathDetails.AxisEquationIsTrimmedRaw and MathDetails.LeadingSignKept |
| MathDetails.OrZero | components/MathDetails.tsx:37-38 | defined as the source's fallback that shows an empty equation as '0'; its properties are those of MathDetails.ZeroShownExactlyForZeroCubic |
| MathDetails.EquationText | components/MathDetails.tsx:32-38 | defined as the shown equation of one axis; its properties are those of MathDetails.EquationRoundTrip, MathDetails.EquationTextInjective and MathDetails.LeadingPlusKept |
| MathDetails.RawEquationShape | components/MathDetails.tsx:32 | the untrimmed equation is empty iff all four coefficients are 0; otherwise its last piece is a printed number or one of u, ², ³ (so not white space), and it starts with the printed cubic coefficient when a ≠ 0 and with " ± " when a = 0 |
| MathDetails.RawEquationEnd | components/MathDetails.tsx:24-32 | a nonempty untrimmed equation ends in a printed number or in one of u, ², ³ |
| MathDetails.RawEquationStart | components/MathDetails.tsx:24-32 | with a = 0 and some coefficient nonzero, the untrimmed equation has at least two pieces and starts with a space followed by "+" or "-" |
| MathDetails.AxisEquationIsTrimmedRaw | components/MathDetails.tsx:32-33 | the assembled equation is the untrimmed one when a ≠ 0, and the untrimmed one minus its leading space when a = 0; it is empty iff all coefficients are 0 |
| MathDetails.ZeroShownExactlyForZeroCubic | components/MathDetails.tsx:37-38 | the shown equation is "0" iff all four displayed coefficients are 0 |
| MathDetails.CubicTermLeads | components/MathDetails.tsx:32 | when a ≠ 0 the equation begins with the printed a (own sign, no " + ", not collapsed for abs(a) = 1) followed by u³ |
| MathDetails.NoCubicTermForZeroA | components/MathDetails.tsx:32 | when a = 0 no u³ appears in the shown equation |
| MathDetails.LeadingSignKept | components/MathDetails.tsx:32-33 | when a = 0 and some coefficient is nonzero, the shown equation starts with the sign of the first nonzero term, then a space |
| MathDetails.LeadingPlusKept | components/MathDetails.tsx:32-33 | when a = 0 and b > 0 the shown equation starts with "+ " |
| MathDetails.EquationRoundTrip | components/MathDetails.tsx:24-38 | reading the terms back from the shown equation gives exactly the displayed coefficients |
| MathDetails.EquationTextInjective | components/MathDetails.tsx:32-38 | different displayed coefficients are never shown as the same equation |
| MathDetails.InitialXEquation | components/MathDetails.tsx:14-32 | for the initial points the x equation is "-15u³ + 24u² + u + 2" |
| MathDetails.LeadingMinusExample | components/MathDetails.tsx:24-32 | the coefficients (0, −3, 1, 2) are shown as "- 3u² + u + 2" |
| MathDetails.Coeffs | components/MathDetails.tsx:13-41 | each axis's equation reads back as the rounded Hermite coefficients of that axis alone |
| MathDetails.ParametricEquations | components/MathDetails.tsx:75-82 | no equations (the "not enough points" note) iff there are at most 1 point; otherwise the Coeffs panel for P0, P1 and the two tangents |

## Left out

- Floating point: every number is an exact real, so the identities hold exactly. NaN and Infinity are not modelled.
- MathDetails.FormatNumber: rounds the exact value of its argument to hundredths. toFixed rounds the exact binary value of the double, so a decimal such as 1.005 is not modelled as JS rounds it. Number's re-parsing of the printed digits is the identity here.
- Number-to-string printing: the equation text holds `Num(v)` pieces, and the path is a list of commands instead of an SVG string.
- `getTicks`, the `viewBox` string, the font, stroke and radius scalars and all JSX markup: presentation only, built on `Math.log10`, `Math.pow` and `toPrecision`.
- components/ControlPanel.tsx and components/CalculatedPoints.tsx: rendering only. The `parseFloat(...) || 0` input coercion depends on JS number parsing.
- React's `useState`/`useMemo`/`useCallback` and re-rendering. The derived values are plain functions of the editor state (`App.Editor.CurrentTangents`, `App.Editor.Samples`).
- The `../types` and `./Icons` modules are not part of this model. `Point` is taken to be a record of two numbers.
- App.DerivedTangents: the tension is the fixed constant 0.5, as in the code. It is not a parameter.
- App.Editor.UpdatePoint: requires a valid index. The control panel only passes indices of existing points; for an out-of-range index, JS would grow the array.
