/** The algebra panel of components/MathDetails.tsx: the monomial coefficients
    of the segment on each axis, their display rounding, and the text of the
    parametric equations. Printed text is modelled as a sequence of pieces: a
    character, or a number as JS prints it (`Num`), so that number printing
    itself is not modelled. */
module MathDetails {
  import opened HermiteBasis
  import App

  datatype Option<T> = None | Some(value: T)

  // ---------------------------------------------------------------------------
  // Coefficients

  /** One axis of the segment in monomial form: a·u³ + b·u² + c·u + d. */
  datatype Cubic = Cubic(a: real, b: real, c: real, d: real)

  const ZeroCubic: Cubic := Cubic(0.0, 0.0, 0.0, 0.0)

  /** The value of the cubic at u. */
  function Value(k: Cubic, u: real): real
  {
    k.a * u * u * u + k.b * u * u + k.c * u + k.d
  }

  /** The slope (first derivative) of the cubic at u. */
  function Slope(k: Cubic, u: real): real
  {
    3.0 * k.a * u * u + 2.0 * k.b * u + k.c
  }

  /** The unrounded coefficients on one axis. The constant term is p0 and the
      linear one t0; the coefficients sum to p1, and 3a + 2b + c is t1. */
  function AxisCoeffs(p0: real, p1: real, t0: real, t1: real): (k: Cubic)
    ensures k.d == p0 && k.c == t0
    ensures k.a + k.b + k.c + k.d == p1
    ensures 3.0 * k.a + 2.0 * k.b + k.c == t1
  {
    Cubic(2.0 * p0 - 2.0 * p1 + t0 + t1,
          -3.0 * p0 + 3.0 * p1 - 2.0 * t0 - t1,
          t0,
          p0)
  }

  /** The four Hermite conditions in terms of the cubic: it starts at p0 with
      slope t0 and ends at p1 with slope t1. */
  lemma HermiteEndConditions(p0: real, p1: real, t0: real, t1: real)
    ensures var k := AxisCoeffs(p0, p1, t0, t1);
      Value(k, 0.0) == p0 && Value(k, 1.0) == p1 && Slope(k, 0.0) == t0 && Slope(k, 1.0) == t1
  {
    var k := AxisCoeffs(p0, p1, t0, t1);
    assert Value(k, 0.0) == k.d && Value(k, 1.0) == k.a + k.b + k.c + k.d;
    assert Slope(k, 0.0) == k.c && Slope(k, 1.0) == 3.0 * k.a + 2.0 * k.b + k.c;
  }

  /** Slope is the derivative of Value: the difference over a step h is h times
      the slope plus a term of order h². */
  lemma SlopeIsDerivative(k: Cubic, u: real, h: real)
    ensures Value(k, u + h) - Value(k, u)
         == h * Slope(k, u) + h * h * (3.0 * k.a * u + k.b + k.a * h)
  {
    var a, b, c, d := k.a, k.b, k.c, k.d;
    CubicDifference(a, b, c, d, u, h);
    DifferenceRegrouped(a, b, c, u, h);
    assert Value(k, u + h) == a * (u + h) * (u + h) * (u + h) + b * (u + h) * (u + h) + c * (u + h) + d;
    assert Value(k, u) == a * u * u * u + b * u * u + c * u + d;
    assert Slope(k, u) == 3.0 * a * u * u + 2.0 * b * u + c;
  }

  /** A cubic's increase from u to u + h, with the powers of u + h expanded. */
  lemma CubicDifference(a: real, b: real, c: real, d: real, u: real, h: real)
    ensures (a * (u + h) * (u + h) * (u + h) + b * (u + h) * (u + h) + c * (u + h) + d)
          - (a * u * u * u + b * u * u + c * u + d)
         == a * (3.0 * u * u * h + 3.0 * u * h * h + h * h * h) + b * (2.0 * u * h + h * h) + c * h
  {
    SquareGrowth(u, h);
    CubeGrowth(u, h);
    assert a * (u + h) * (u + h) * (u + h) == a * ((u + h) * (u + h) * (u + h));
    assert b * (u + h) * (u + h) == b * ((u + h) * (u + h));
    assert a * u * u * u == a * (u * u * u);
    assert b * u * u == b * (u * u);
  }

  /** The expanded increase, regrouped as h times the slope plus a multiple of h². */
  lemma DifferenceRegrouped(a: real, b: real, c: real, u: real, h: real)
    ensures a * (3.0 * u * u * h + 3.0 * u * h * h + h * h * h) + b * (2.0 * u * h + h * h) + c * h
         == h * (3.0 * a * u * u + 2.0 * b * u + c) + h * h * (3.0 * a * u + b + a * h)
  {
  }

  /** (u + h)² exceeds u² by 2uh + h². */
  lemma SquareGrowth(u: real, h: real)
    ensures (u + h) * (u + h) == u * u + (2.0 * u * h + h * h)
  {
  }

  /** (u + h)³ exceeds u³ by 3u²h + 3uh² + h³. */
  lemma CubeGrowth(u: real, h: real)
    ensures (u + h) * (u + h) * (u + h) == u * u * u + (3.0 * u * u * h + 3.0 * u * h * h + h * h * h)
  {
    SquareGrowth(u, h);
    assert (u + h) * (u + h) * (u + h) == (u * u + 2.0 * u * h + h * h) * (u + h);
  }

  /** The monomial form is the Hermite blend rearranged: for every u the cubic
      built from the coefficients equals the basis evaluation. */
  lemma CoeffsMatchBasis(p0: real, p1: real, t0: real, t1: real, u: real)
    ensures Value(AxisCoeffs(p0, p1, t0, t1), u) == Blend(p0, p1, t0, t1, u)
  {
    var k := AxisCoeffs(p0, p1, t0, t1);
    var u2 := u * u;
    var u3 := u2 * u;
    assert Value(k, u) == k.a * u3 + k.b * u2 + k.c * u + k.d;
    assert H00(u) == 2.0 * u3 - 3.0 * u2 + 1.0;
    assert H10(u) == -2.0 * u3 + 3.0 * u2;
    assert H01(u) == u3 - 2.0 * u2 + u;
    assert H11(u) == u3 - u2;
    calc {
      Blend(p0, p1, t0, t1, u);
      (2.0 * u3 - 3.0 * u2 + 1.0) * p0 + (-2.0 * u3 + 3.0 * u2) * p1 + (u3 - 2.0 * u2 + u) * t0 + (u3 - u2) * t1;
      (2.0 * p0 - 2.0 * p1 + t0 + t1) * u3 + (-3.0 * p0 + 3.0 * p1 - 2.0 * t0 - t1) * u2 + t0 * u + p0;
    }
  }

  /** The Hermite matrix the panel shows; its rows give a, b, c and d from
      (p0, p1, t0, t1). */
  const HermiteMatrix: seq<seq<real>> :=
    [[2.0, -2.0, 1.0, 1.0],
     [-3.0, 3.0, -2.0, -1.0],
     [0.0, 0.0, 1.0, 0.0],
     [1.0, 0.0, 0.0, 0.0]]

  /** A row of the matrix applied to the geometry vector (p0, p1, t0, t1). */
  function Dot(row: seq<real>, p0: real, p1: real, t0: real, t1: real): real
    requires |row| == 4
  {
    row[0] * p0 + row[1] * p1 + row[2] * t0 + row[3] * t1
  }

  /** The coefficient expressions are exactly the rows of the displayed matrix. */
  lemma CoeffsAreMatrixRows(p0: real, p1: real, t0: real, t1: real)
    ensures AxisCoeffs(p0, p1, t0, t1)
         == Cubic(Dot(HermiteMatrix[0], p0, p1, t0, t1), Dot(HermiteMatrix[1], p0, p1, t0, t1),
                  Dot(HermiteMatrix[2], p0, p1, t0, t1), Dot(HermiteMatrix[3], p0, p1, t0, t1))
  {
  }

  /** With the initial points and their tangents the x axis is −15u³ + 24u² + u + 2
      and the y axis −12u³ + 17u² + 3u + 2; at u = 1 the two cubics give P1 = (12, 10). */
  lemma InitialCoeffs()
    ensures var p0, p1, t := App.InitialPoints[0], App.InitialPoints[1], App.DerivedTangents(App.InitialPoints);
      AxisCoeffs(p0.x, p1.x, t.t0.x, t.t1.x) == Cubic(-15.0, 24.0, 1.0, 2.0) &&
      AxisCoeffs(p0.y, p1.y, t.t0.y, t.t1.y) == Cubic(-12.0, 17.0, 3.0, 2.0)
    ensures Value(Cubic(-15.0, 24.0, 1.0, 2.0), 1.0) == App.InitialPoints[1].x
    ensures Value(Cubic(-12.0, 17.0, 3.0, 2.0), 1.0) == App.InitialPoints[1].y
  {
    App.InitialTangents();
  }

  // ---------------------------------------------------------------------------
  // Display rounding: Number(x.toFixed(2)), over exact reals

  /** Beyond this magnitude toFixed prints the number unchanged. */
  const ToFixedLimit: real := 1000000000000000000000.0

  /** A whole number n of hundredths. */
  function Cents(n: int): real
  {
    n as real / 100.0
  }

  /** A nonnegative magnitude rounded to hundredths, halves rounded up. */
  function RoundCents(m: real): real
  {
    Cents((m * 100.0 + 0.5).Floor)
  }

  /** Number(r.toFixed(2)): below 10^21 in magnitude, the whole number of hundredths
      nearest to r, a tie going away from zero; the sign kept; magnitudes of
      10^21 and more are left as they are. */
  function FormatNumber(r: real): (q: real)
    ensures -ToFixedLimit < r < ToFixedLimit ==> exists n: int :: q == Cents(n)
    ensures -ToFixedLimit < r < ToFixedLimit ==> -0.005 <= q - r <= 0.005
    ensures -ToFixedLimit < r < ToFixedLimit && Abs(q - r) == 0.005 ==> Abs(q) > Abs(r)
    ensures (r <= -ToFixedLimit || ToFixedLimit <= r) ==> q == r
    ensures (q > 0.0 ==> r > 0.0) && (q < 0.0 ==> r < 0.0)
  {
    var m := Abs(r);
    var c := (m * 100.0 + 0.5).Floor;
    var n := if m >= ToFixedLimit then m else RoundCents(m);
    assert m < ToFixedLimit ==> n == Cents(c) && -n == Cents(-c);
    if r < 0.0 then -n else n
  }

  /** A whole number of hundredths survives rounding unchanged. */
  lemma RoundCentsOfCents(n: int)
    requires n >= 0
    ensures RoundCents(Cents(n)) == Cents(n)
  {
    var m := Cents(n);
    assert m * 100.0 + 0.5 == n as real + 0.5;
    assert (n as real + 0.5).Floor == n;
  }

  /** Rounding a displayed value again changes nothing. */
  lemma FormatNumberIdempotent(r: real)
    ensures FormatNumber(FormatNumber(r)) == FormatNumber(r)
  {
    var m := Abs(r);
    if m < ToFixedLimit {
      var n := (m * 100.0 + 0.5).Floor;
      assert n >= 0;
      RoundCentsOfCents(n);
    }
  }

  /** The coefficients as displayed: each one rounded. */
  function Rounded(k: Cubic): (r: Cubic)
    ensures -ToFixedLimit < k.a < ToFixedLimit ==> -0.005 <= r.a - k.a <= 0.005
    ensures -ToFixedLimit < k.b < ToFixedLimit ==> -0.005 <= r.b - k.b <= 0.005
    ensures -ToFixedLimit < k.c < ToFixedLimit ==> -0.005 <= r.c - k.c <= 0.005
    ensures -ToFixedLimit < k.d < ToFixedLimit ==> -0.005 <= r.d - k.d <= 0.005
    ensures FormatNumber(r.a) == r.a && FormatNumber(r.b) == r.b
    ensures FormatNumber(r.c) == r.c && FormatNumber(r.d) == r.d
  {
    FormatNumberIdempotent(k.a);
    FormatNumberIdempotent(k.b);
    FormatNumberIdempotent(k.c);
    FormatNumberIdempotent(k.d);
    Cubic(FormatNumber(k.a), FormatNumber(k.b), FormatNumber(k.c), FormatNumber(k.d))
  }

  // ---------------------------------------------------------------------------
  // Equation text

  /** A piece of printed text: one character, or a number as JS prints it
      (never empty, never starting or ending with white space). */
  datatype Piece = Ch(c: char) | Num(v: real)

  type Text = seq<Piece>

  /** The characters of a string as text. */
  function Lit(s: string): (t: Text)
    ensures |t| == |s| && forall i :: 0 <= i < |s| ==> t[i] == Ch(s[i])
  {
    seq(|s|, i requires 0 <= i < |s| => Ch(s[i]))
  }

  function Abs(r: real): real { if r < 0.0 then -r else r }

  /** One signed term ` ± |val|variable`: nothing for a zero coefficient, and the
      1 left out of a term with a variable whose coefficient is ±1. */
  function Term(val: real, variable: string): (t: Text)
    ensures val == 0.0 <==> t == []
    ensures val != 0.0 ==>
      |t| >= 3 + |variable| &&
      t[..3] == [Ch(' '), Ch(if val > 0.0 then '+' else '-'), Ch(' ')] &&
      t[|t| - |variable|..] == Lit(variable)
    ensures val != 0.0 && Abs(val) == 1.0 && variable != "" ==> |t| == 3 + |variable|
    ensures val != 0.0 && (Abs(val) != 1.0 || variable == "") ==> |t| == 4 + |variable| && t[3] == Num(Abs(val))
  {
    if val == 0.0 then []
    else
      var sign := if val > 0.0 then '+' else '-';
      var absVal := Abs(val);
      if absVal == 1.0 && variable != "" then [Ch(' '), Ch(sign), Ch(' ')] + Lit(variable)
      else [Ch(' '), Ch(sign), Ch(' '), Num(absVal)] + Lit(variable)
  }

  /** The leading cubic term: the coefficient as printed, sign included, then u³. */
  function CubicTerm(a: real): Text
  {
    if a != 0.0 then [Num(a)] + Lit("u³") else []
  }

  /** The equation before trimming: the four terms side by side. */
  function RawEquation(k: Cubic): Text
  {
    CubicTerm(k.a) + Term(k.b, "u²") + Term(k.c, "u") + Term(k.d, "")
  }

  /** The white space String.prototype.trim removes. */
  predicate IsWhiteSpace(c: char)
  {
    c == ' ' || c == '\t' || c == '\n' || c == '\r' || c == '\U{0B}' || c == '\U{0C}' ||
    c == '\U{A0}' || c == '\U{1680}' || ('\U{2000}' <= c <= '\U{200A}') ||
    c == '\U{2028}' || c == '\U{2029}' || c == '\U{202F}' || c == '\U{205F}' ||
    c == '\U{3000}' || c == '\U{FEFF}'
  }

  predicate IsBlank(p: Piece)
  {
    p.Ch? && IsWhiteSpace(p.c)
  }

  /** Text with its leading white space removed. */
  function TrimStart(t: Text): (r: Text)
    ensures |r| <= |t| && r == t[|t| - |r|..]
    ensures forall i :: 0 <= i < |t| - |r| ==> IsBlank(t[i])
    ensures r == [] || !IsBlank(r[0])
  {
    if |t| > 0 && IsBlank(t[0]) then
      var r := TrimStart(t[1..]);
      assert t[1..][|t| - 1 - |r|..] == t[|t| - |r|..];
      r
    else t
  }

  /** Text with its trailing white space removed. */
  function TrimEnd(t: Text): (r: Text)
    ensures |r| <= |t| && r == t[..|r|]
    ensures forall i :: |r| <= i < |t| ==> IsBlank(t[i])
    ensures r == [] || !IsBlank(r[|r| - 1])
  {
    if |t| > 0 && IsBlank(t[|t| - 1]) then TrimEnd(t[..|t| - 1]) else t
  }

  /** A prefix r of a suffix s of t is the slice of t between them, and what
      follows r in s is what follows that slice in t. */
  lemma SliceOfSuffix(t: Text, s: Text, r: Text)
    requires |s| <= |t| && s == t[|t| - |s|..]
    requires |r| <= |s| && r == s[..|r|]
    ensures var i := |t| - |s|; r == t[i..i + |r|] && s[|r|..] == t[i + |r|..]
  {
  }

  /** r is the slice of t that starts at i, and everything of t outside that
      slice is white space. */
  predicate StripsBlankEnds(t: Text, i: int, r: Text)
  {
    0 <= i && i + |r| <= |t| && r == t[i..i + |r|] &&
    (forall k :: 0 <= k < i ==> IsBlank(t[k])) && (forall k :: i + |r| <= k < |t| ==> IsBlank(t[k]))
  }

  /** `.trim()`: white space removed at both ends. The result is the slice of t
      that starts after the leading white space TrimStart drops, and only white
      space lies outside it. */
  function Trim(t: Text): (r: Text)
    ensures r == [] || (!IsBlank(r[0]) && !IsBlank(r[|r| - 1]))
    ensures t != [] && !IsBlank(t[0]) && !IsBlank(t[|t| - 1]) ==> r == t
    ensures |t| >= 2 && IsBlank(t[0]) && !IsBlank(t[1]) && !IsBlank(t[|t| - 1]) ==> r == t[1..]
    ensures StripsBlankEnds(t, |t| - |TrimStart(t)|, r)
  {
    TrimCuts(t, TrimStart(t), TrimEnd(TrimStart(t)));
    TrimEnd(TrimStart(t))
  }

  /** What white space cut off the front of t (giving s) and then off the back
      of s (giving r) leaves: the slice of t between the two cuts, with no white
      space at either of its ends. */
  lemma TrimCuts(t: Text, s: Text, r: Text)
    requires |s| <= |t| && s == t[|t| - |s|..] && forall k :: 0 <= k < |t| - |s| ==> IsBlank(t[k])
    requires s == [] || !IsBlank(s[0])
    requires |r| <= |s| && r == s[..|r|] && forall k :: |r| <= k < |s| ==> IsBlank(s[k])
    requires r == [] || !IsBlank(r[|r| - 1])
    ensures r == [] || (!IsBlank(r[0]) && !IsBlank(r[|r| - 1]))
    ensures t != [] && !IsBlank(t[0]) && !IsBlank(t[|t| - 1]) ==> r == t
    ensures |t| >= 2 && IsBlank(t[0]) && !IsBlank(t[1]) && !IsBlank(t[|t| - 1]) ==> r == t[1..]
    ensures StripsBlankEnds(t, |t| - |s|, r)
  {
    var i := |t| - |s|;
    SliceOfSuffix(t, s, r);
    forall k | i + |r| <= k < |t|
      ensures IsBlank(t[k])
    {
      assert t[k] == s[k - i];
    }
  }

  /** `.replace(/^ \+ /, '')`: drops a leading " + ". */
  function ReplaceLeadingPlus(t: Text): Text
  {
    if |t| >= 3 && t[0] == Ch(' ') && t[1] == Ch('+') && t[2] == Ch(' ') then t[3..] else t
  }

  /** Trimming runs first, so the leading-plus replacement never finds its match. */
  lemma ReplaceAfterTrimIsIdentity(t: Text)
    ensures ReplaceLeadingPlus(Trim(t)) == Trim(t)
  {
    ReplaceKeepsNonBlankStart(Trim(t));
  }

  /** Text that does not begin with white space has no leading " + " to replace. */
  lemma ReplaceKeepsNonBlankStart(r: Text)
    requires r == [] || !IsBlank(r[0])
    ensures ReplaceLeadingPlus(r) == r
  {
  }

  /** One axis' equation as the panel assembles it (trim, then the replacement). */
  function AxisEquation(k: Cubic): Text
  {
    ReplaceLeadingPlus(Trim(RawEquation(k)))
  }

  /** `eq || '0'`: an empty equation is shown as 0. */
  function OrZero(eq: Text): Text
  {
    if eq == [] then Lit("0") else eq
  }

  /** The equation text shown for one axis with the given displayed coefficients. */
  function EquationText(k: Cubic): Text
  {
    OrZero(AxisEquation(k))
  }

  /** The raw equation is empty exactly for the zero cubic; otherwise it ends in
      a printed number or a variable, and it starts with the printed cubic
      coefficient when a ≠ 0 and with " ± " when a = 0. */
  lemma RawEquationShape(k: Cubic)
    ensures RawEquation(k) == [] <==> k == ZeroCubic
    ensures var raw := RawEquation(k);
      raw != [] ==>
        !IsBlank(raw[|raw| - 1]) &&
        (raw[|raw| - 1].Num? || raw[|raw| - 1] in {Ch('u'), Ch('²'), Ch('³')}) &&
        (k.a != 0.0 ==> raw[0] == Num(k.a) && raw[1] == Ch('u') && raw[2] == Ch('³')) &&
        (k.a == 0.0 ==> |raw| >= 2 && raw[0] == Ch(' ') && (raw[1] == Ch('+') || raw[1] == Ch('-')))
  {
    RawEquationEnd(k);
    if k.a == 0.0 && k != ZeroCubic {
      RawEquationStart(k);
    }
  }

  /** Without a cubic term the raw equation starts with the " ± " of its first
      nonzero term. */
  lemma RawEquationStart(k: Cubic)
    requires k.a == 0.0 && k != ZeroCubic
    ensures var raw := RawEquation(k); |raw| >= 2 && raw[0] == Ch(' ') && (raw[1] == Ch('+') || raw[1] == Ch('-'))
  {
    RawHeadWithoutCube(k);
  }

  /** A nonzero term ends in its variable's last character, or in the printed
      number when it has no variable. */
  lemma TermEnd(val: real, variable: string)
    requires val != 0.0
    ensures var t := Term(val, variable);
      if variable == "" then t[|t| - 1] == Num(Abs(val)) else t[|t| - 1] == Ch(variable[|variable| - 1])
  {
  }

  /** The last piece of a nonempty raw equation is the last piece of its last
      nonzero term: a printed number, u, ² or ³. */
  lemma RawEquationEnd(k: Cubic)
    ensures var raw := RawEquation(k);
      raw != [] ==> raw[|raw| - 1].Num? || raw[|raw| - 1] in {Ch('u'), Ch('²'), Ch('³')}
  {
    var A, B, C, D := CubicTerm(k.a), Term(k.b, "u²"), Term(k.c, "u"), Term(k.d, "");
    var raw := RawEquation(k);
    assert raw == A + B + C + D;
    if D != [] {
      TermEnd(k.d, "");
      assert raw[|raw| - 1] == D[|D| - 1];
    } else if C != [] {
      TermEnd(k.c, "u");
      assert raw[|raw| - 1] == C[|C| - 1];
    } else if B != [] {
      TermEnd(k.b, "u²");
      assert raw[|raw| - 1] == B[|B| - 1];
    } else if A != [] {
      VariableTexts();
      assert raw[|raw| - 1] == A[|A| - 1];
    }
  }

  /** The shape every raw equation has: empty, or ending in a non-blank piece and
      starting either with a printed number or with a space and a sign. */
  predicate RawForm(raw: Text)
  {
    raw == [] ||
    (!IsBlank(raw[|raw| - 1]) &&
     (raw[0].Num? || (|raw| >= 2 && raw[0] == Ch(' ') && (raw[1] == Ch('+') || raw[1] == Ch('-')))))
  }

  /** Trim and replacement on text of that shape: at most the leading space goes. */
  lemma TrimRawForm(raw: Text)
    requires RawForm(raw)
    ensures ReplaceLeadingPlus(Trim(raw)) == (if raw == [] then [] else if raw[0].Num? then raw else raw[1..])
  {
    ReplaceAfterTrimIsIdentity(raw);
  }

  /** The assembled equation is the raw one with only its leading space removed
      (none when a ≠ 0); it is empty exactly for the zero cubic. */
  lemma AxisEquationIsTrimmedRaw(k: Cubic)
    ensures var raw, eq := RawEquation(k), AxisEquation(k);
      (eq == [] <==> k == ZeroCubic) &&
      (k.a != 0.0 ==> eq == raw) &&
      (k.a == 0.0 && k != ZeroCubic ==> eq == raw[1..])
  {
    RawEquationShape(k);
    var raw := RawEquation(k);
    assert RawForm(raw);
    TrimRawForm(raw);
  }

  /** The shown equation is "0" exactly when all four displayed coefficients are 0. */
  lemma ZeroShownExactlyForZeroCubic(k: Cubic)
    ensures EquationText(k) == Lit("0") <==> k == ZeroCubic
  {
    AxisEquationIsTrimmedRaw(k);
    RawEquationShape(k);
    var raw := RawEquation(k);
    if k != ZeroCubic {
      if k.a != 0.0 {
        assert EquationText(k)[0] == Num(k.a);
      } else {
        assert EquationText(k)[0] == raw[1];
      }
    }
  }

  /** The cubic term leads the equation, unsigned and uncollapsed, when a ≠ 0. */
  lemma CubicTermLeads(k: Cubic)
    requires k.a != 0.0
    ensures |EquationText(k)| >= 3 && EquationText(k)[..3] == [Num(k.a), Ch('u'), Ch('³')]
  {
    AxisEquationIsTrimmedRaw(k);
    VariableTexts();
    var lead := CubicTerm(k.a);
    var raw := RawEquation(k);
    assert lead == [Num(k.a), Ch('u'), Ch('³')];
    assert raw[0] == Num(k.a) && raw[1] == Ch('u') && raw[2] == Ch('³');
    assert EquationText(k) == raw;
    assert raw[..3] == [raw[0], raw[1], raw[2]];
  }

  /** No ³ appears in the raw equation when a = 0. */
  lemma NoCubeInRaw(k: Cubic)
    requires k.a == 0.0
    ensures forall i :: 0 <= i < |RawEquation(k)| ==> RawEquation(k)[i] != Ch('³')
  {
    var B, C, D := Term(k.b, "u²"), Term(k.c, "u"), Term(k.d, "");
    assert CubicTerm(k.a) == [];
    assert RawEquation(k) == B + C + D;
    TermHasNoCube(k.b, "u²");
    TermHasNoCube(k.c, "u");
    TermHasNoCube(k.d, "");
  }

  /** The cubic term does not appear at all when a = 0. */
  lemma NoCubicTermForZeroA(k: Cubic)
    requires k.a == 0.0
    ensures Ch('³') !in EquationText(k)
  {
    AxisEquationIsTrimmedRaw(k);
    var eq := EquationText(k);
    if k == ZeroCubic {
      assert eq == Lit("0") == [Ch('0')];
    } else {
      var raw := RawEquation(k);
      NoCubeInRaw(k);
      assert eq == raw[1..];
      forall i | 0 <= i < |eq|
        ensures eq[i] != Ch('³')
      {
        assert eq[i] == raw[i + 1];
      }
    }
  }

  /** A term whose variable has no ³ contains no ³. */
  lemma TermHasNoCube(val: real, variable: string)
    requires '³' !in variable
    ensures forall i :: 0 <= i < |Term(val, variable)| ==> Term(val, variable)[i] != Ch('³')
  {
    if val != 0.0 {
      var sign := if val > 0.0 then '+' else '-';
      var head := if Abs(val) == 1.0 && variable != "" then [Ch(' '), Ch(sign), Ch(' ')]
                  else [Ch(' '), Ch(sign), Ch(' '), Num(Abs(val))];
      assert Term(val, variable) == head + Lit(variable);
      forall i | 0 <= i < |variable|
        ensures Lit(variable)[i] != Ch('³')
      {
        assert variable[i] in variable;
      }
    }
  }

  /** The first three pieces of a concatenation whose left part has at least three. */
  lemma HeadOfConcat(a: Text, b: Text)
    requires |a| >= 3
    ensures (a + b)[..3] == a[..3]
  {
  }

  /** The first nonzero coefficient after a, for a = 0. */
  function LeadingCoeff(k: Cubic): real
  {
    if k.b != 0.0 then k.b else if k.c != 0.0 then k.c else k.d
  }

  /** With a = 0 the raw equation opens with the first nonzero term's " ± ". */
  lemma RawHeadWithoutCube(k: Cubic)
    requires k.a == 0.0 && k != ZeroCubic
    ensures var raw := RawEquation(k);
      |raw| >= 3 && raw[0] == Ch(' ') && raw[1] == Ch(if LeadingCoeff(k) > 0.0 then '+' else '-') && raw[2] == Ch(' ')
  {
    var B, C, D := Term(k.b, "u²"), Term(k.c, "u"), Term(k.d, "");
    var first := if k.b != 0.0 then B else if k.c != 0.0 then C else D;
    var v := LeadingCoeff(k);
    assert |first| >= 3 && first[..3] == [Ch(' '), Ch(if v > 0.0 then '+' else '-'), Ch(' ')];
    assert first[0] == first[..3][0] && first[1] == first[..3][1] && first[2] == first[..3][2];
    assert CubicTerm(k.a) == [];
    HeadOfFirstTerm(CubicTerm(k.a), B, C, D, first);
  }

  /** Behind an empty text, three terms joined start with the first nonempty one. */
  lemma HeadOfFirstTerm(a: Text, b: Text, c: Text, d: Text, first: Text)
    requires a == [] && first == (if b != [] then b else if c != [] then c else d) && |first| >= 3
    ensures var t := a + b + c + d; |t| >= 3 && t[0] == first[0] && t[1] == first[1] && t[2] == first[2]
  {
  }

  /** Because the trim runs before the replacement, when a = 0 the equation keeps
      the sign of its first nonzero term, a "+" included, followed by a space. */
  lemma LeadingSignKept(k: Cubic)
    requires k.a == 0.0 && k != ZeroCubic
    ensures |EquationText(k)| >= 2 &&
      EquationText(k)[..2] == [Ch(if LeadingCoeff(k) > 0.0 then '+' else '-'), Ch(' ')]
  {
    AxisEquationIsTrimmedRaw(k);
    RawHeadWithoutCube(k);
    var raw := RawEquation(k);
    assert EquationText(k) == raw[1..];
    HeadAfterFirst(raw);
  }

  /** The first two pieces of a text without its first piece. */
  lemma HeadAfterFirst(t: Text)
    requires |t| >= 3
    ensures |t[1..]| >= 2 && t[1..][..2] == [t[1], t[2]]
  {
  }

  /** In particular, with a = 0 and b > 0 the shown equation starts with "+ ". */
  lemma LeadingPlusKept(k: Cubic)
    requires k.a == 0.0 && k.b > 0.0
    ensures |EquationText(k)| >= 2 && EquationText(k)[..2] == [Ch('+'), Ch(' ')]
  {
    LeadingSignKept(k);
    assert LeadingCoeff(k) == k.b;
  }

  // ---------------------------------------------------------------------------
  // Reading the coefficients back from the shown equation

  /** The sign a sign character stands for. */
  function SignOf(p: Piece): real
  {
    if p == Ch('-') then -1.0 else 1.0
  }

  /** Splits the term for `variable` off the end of t: the text before it and its
      coefficient, 0 when t does not end with such a term. */
  function ReadTerm(t: Text, variable: string): (Text, real)
  {
    var n := |variable|;
    if |t| >= n + 4 && t[|t| - n..] == Lit(variable) && t[|t| - n - 1].Num? then
      (t[..|t| - n - 4], SignOf(t[|t| - n - 3]) * t[|t| - n - 1].v)
    else if n > 0 && |t| >= n + 3 && t[|t| - n..] == Lit(variable) then
      (t[..|t| - n - 3], SignOf(t[|t| - n - 2]))
    else
      (t, 0.0)
  }

  /** The coefficients of an untrimmed equation, read from its last term backwards. */
  function ReadRaw(t: Text): Cubic
  {
    var (t1, d) := ReadTerm(t, "");
    var (t2, c) := ReadTerm(t1, "u");
    var (t3, b) := ReadTerm(t2, "u²");
    Cubic(if |t3| > 0 && t3[0].Num? then t3[0].v else 0.0, b, c, d)
  }

  /** The coefficients a shown equation stands for: its terms read back, after
      putting back the space the trim removed. */
  function ReadCoeffs(shown: Text): Cubic
  {
    if shown == Lit("0") then ZeroCubic
    else ReadRaw(if |shown| > 0 && shown[0].Num? then shown else [Ch(' ')] + shown)
  }

  /** t does not end the way a term for `variable` ends. */
  predicate EndsClear(t: Text, variable: string)
  {
    t == [] || (if variable == "" then !t[|t| - 1].Num? else t[|t| - 1] != Ch(variable[|variable| - 1]))
  }

  /** The last n pieces of a concatenation whose right part has at least n. */
  lemma SuffixOfConcat(a: Text, b: Text, n: nat)
    requires n <= |b|
    ensures (a + b)[|a + b| - n..] == b[|b| - n..]
  {
  }

  /** A present term is read back off the end with its coefficient. */
  lemma ReadTermPresent(prefix: Text, val: real, variable: string)
    requires val != 0.0
    ensures ReadTerm(prefix + Term(val, variable), variable) == (prefix, val)
  {
    var term := Term(val, variable);
    var t := prefix + term;
    var n := |variable|;
    SuffixOfConcat(prefix, term, n);
    assert t[|t| - n..] == Lit(variable);
    var sign := term[..3][1];
    assert term[1] == sign && SignOf(sign) * Abs(val) == val;
    if Abs(val) == 1.0 && variable != "" {
      assert t[|t| - n - 1] == term[2] == term[..3][2] == Ch(' ');
      assert t[|t| - n - 2] == term[1];
      assert t[..|t| - n - 3] == prefix;
    } else {
      assert t[|t| - n - 1] == term[3] == Num(Abs(val));
      assert t[|t| - n - 3] == term[1];
      assert t[..|t| - n - 4] == prefix;
    }
  }

  /** Where no term for `variable` ends the text, reading one finds coefficient 0. */
  lemma ReadTermAbsent(t: Text, variable: string)
    requires EndsClear(t, variable)
    ensures ReadTerm(t, variable) == (t, 0.0)
  {
    var n := |variable|;
    if n > 0 && |t| >= n {
      assert t[|t| - n..][n - 1] == t[|t| - 1];
      assert Lit(variable)[n - 1] == Ch(variable[n - 1]);
    }
  }

  /** Reading a term back off the end recovers it and the text before it. */
  lemma ReadTermOfTerm(prefix: Text, val: real, variable: string)
    requires val != 0.0 || EndsClear(prefix, variable)
    ensures ReadTerm(prefix + Term(val, variable), variable) == (prefix, val)
  {
    if val != 0.0 {
      ReadTermPresent(prefix, val, variable);
    } else {
      assert prefix + Term(val, variable) == prefix;
      ReadTermAbsent(prefix, variable);
    }
  }

  /** The untrimmed equation determines its coefficients. */
  lemma ReadRawOfRawEquation(k: Cubic)
    ensures ReadRaw(RawEquation(k)) == k
  {
    var A, B, C, D := CubicTerm(k.a), Term(k.b, "u²"), Term(k.c, "u"), Term(k.d, "");
    assert EndsClear(A + B + C, "") by {
      if C != [] {
        assert (A + B + C)[|A + B + C| - 1] == C[|C| - 1];
      } else if B != [] {
        assert (A + B + C)[|A + B + C| - 1] == B[|B| - 1];
      } else if A != [] {
        assert (A + B + C)[|A + B + C| - 1] == A[|A| - 1];
      }
    }
    ReadTermOfTerm(A + B + C, k.d, "");
    assert EndsClear(A + B, "u") by {
      if B != [] {
        assert (A + B)[|A + B| - 1] == B[|B| - 1] == Ch('²');
      } else if A != [] {
        assert (A + B)[|A + B| - 1] == A[|A| - 1];
      }
    }
    ReadTermOfTerm(A + B, k.c, "u");
    assert EndsClear(A, "u²");
    ReadTermOfTerm(A, k.b, "u²");
  }

  /** Nonempty text of the raw shape, with its leading space dropped as the
      trim does, reads back as the raw text itself would. */
  lemma ReadBackRawForm(raw: Text)
    requires RawForm(raw) && raw != []
    ensures ReadCoeffs(OrZero(if raw[0].Num? then raw else raw[1..])) == ReadRaw(raw)
  {
    var s := if raw[0].Num? then raw else raw[1..];
    assert Lit("0") == [Ch('0')];
    if raw[0].Num? {
      assert s == raw;
    } else {
      assert s == raw[1..] && s[0] == raw[1];
      assert [Ch(' ')] + s == raw;
    }
  }

  /** Round trip: the shown equation determines the displayed coefficients, so
      different coefficients are never shown as the same equation. */
  lemma EquationRoundTrip(k: Cubic)
    ensures ReadCoeffs(EquationText(k)) == k
  {
    RawEquationShape(k);
    var raw := RawEquation(k);
    if k == ZeroCubic {
      AxisEquationIsTrimmedRaw(k);
    } else {
      assert RawForm(raw);
      TrimRawForm(raw);
      ReadBackRawForm(raw);
      ReadRawOfRawEquation(k);
    }
  }

  /** Different displayed coefficients give different equation text. */
  lemma EquationTextInjective(k: Cubic, k': Cubic)
    requires EquationText(k) == EquationText(k')
    ensures k == k'
  {
    EquationRoundTrip(k);
    EquationRoundTrip(k');
  }

  /** Whole numbers of small magnitude are displayed unchanged. */
  lemma FormatNumberOfWhole(n: int)
    requires -1000000 <= n <= 1000000
    ensures FormatNumber(n as real) == n as real
  {
    var m := if n < 0 then -n else n;
    RoundCentsOfCents(100 * m);
    assert Cents(100 * m) == m as real;
  }

  /** The variables as text. */
  lemma VariableTexts()
    ensures Lit("u³") == [Ch('u'), Ch('³')] && Lit("u²") == [Ch('u'), Ch('²')]
    ensures Lit("u") == [Ch('u')] && Lit("") == []
  {
  }

  /** For the initial points the displayed x coefficients are whole numbers, so
      rounding leaves them as they are. */
  lemma InitialXDisplayed()
    ensures var p0, p1, t := App.InitialPoints[0], App.InitialPoints[1], App.DerivedTangents(App.InitialPoints);
      Rounded(AxisCoeffs(p0.x, p1.x, t.t0.x, t.t1.x)) == Cubic(-15.0, 24.0, 1.0, 2.0)
  {
    InitialCoeffs();
    FormatNumberOfWhole(-15);
    FormatNumberOfWhole(24);
    FormatNumberOfWhole(1);
    FormatNumberOfWhole(2);
  }

  /** For the initial points the x equation reads "-15u³ + 24u² + u + 2". */
  lemma InitialXEquation()
    ensures var p0, p1, t := App.InitialPoints[0], App.InitialPoints[1], App.DerivedTangents(App.InitialPoints);
      EquationText(Rounded(AxisCoeffs(p0.x, p1.x, t.t0.x, t.t1.x)))
         == [Num(-15.0), Ch('u'), Ch('³'), Ch(' '), Ch('+'), Ch(' '), Num(24.0), Ch('u'), Ch('²'),
             Ch(' '), Ch('+'), Ch(' '), Ch('u'), Ch(' '), Ch('+'), Ch(' '), Num(2.0)]
  {
    InitialXDisplayed();
    var k := Cubic(-15.0, 24.0, 1.0, 2.0);
    AxisEquationIsTrimmedRaw(k);
    InitialXRaw();
  }

  /** The untrimmed x equation for the initial points. */
  lemma InitialXRaw()
    ensures RawEquation(Cubic(-15.0, 24.0, 1.0, 2.0))
         == [Num(-15.0), Ch('u'), Ch('³'), Ch(' '), Ch('+'), Ch(' '), Num(24.0), Ch('u'), Ch('²'),
             Ch(' '), Ch('+'), Ch(' '), Ch('u'), Ch(' '), Ch('+'), Ch(' '), Num(2.0)]
  {
    var k := Cubic(-15.0, 24.0, 1.0, 2.0);
    VariableTexts();
    assert CubicTerm(k.a) == [Num(-15.0), Ch('u'), Ch('³')];
    assert Term(k.b, "u²") == [Ch(' '), Ch('+'), Ch(' '), Num(24.0), Ch('u'), Ch('²')];
    assert Term(k.c, "u") == [Ch(' '), Ch('+'), Ch(' '), Ch('u')];
    assert Term(k.d, "") == [Ch(' '), Ch('+'), Ch(' '), Num(2.0)];
  }

  /** The cubic (0, -3, 1, 2) reads "- 3u² + u + 2": a leading "-" stays as well. */
  lemma LeadingMinusExample()
    ensures EquationText(Cubic(0.0, -3.0, 1.0, 2.0))
         == [Ch('-'), Ch(' '), Num(3.0), Ch('u'), Ch('²'), Ch(' '), Ch('+'), Ch(' '), Ch('u'),
             Ch(' '), Ch('+'), Ch(' '), Num(2.0)]
  {
    var k := Cubic(0.0, -3.0, 1.0, 2.0);
    AxisEquationIsTrimmedRaw(k);
    LeadingMinusRaw();
  }

  /** The untrimmed equation of the cubic (0, -3, 1, 2): it begins with a space. */
  lemma LeadingMinusRaw()
    ensures RawEquation(Cubic(0.0, -3.0, 1.0, 2.0))
         == [Ch(' '), Ch('-'), Ch(' '), Num(3.0), Ch('u'), Ch('²'), Ch(' '), Ch('+'), Ch(' '), Ch('u'),
             Ch(' '), Ch('+'), Ch(' '), Num(2.0)]
  {
    var k := Cubic(0.0, -3.0, 1.0, 2.0);
    VariableTexts();
    assert CubicTerm(k.a) == [];
    assert Term(k.b, "u²") == [Ch(' '), Ch('-'), Ch(' '), Num(3.0), Ch('u'), Ch('²')];
    assert Term(k.c, "u") == [Ch(' '), Ch('+'), Ch(' '), Ch('u')];
    assert Term(k.d, "") == [Ch(' '), Ch('+'), Ch(' '), Num(2.0)];
  }

  /** The two equations of the segment panel. */
  datatype Equations = Equations(px: Text, py: Text)

  /** The Coeffs panel: the equation of each axis, built from its rounded
      coefficients. Each equation determines the displayed coefficients of its
      axis, and these are the rounded Hermite coefficients of that axis alone. */
  function Coeffs(p0: Point, p1: Point, t0: Point, t1: Point): (r: Equations)
    ensures ReadCoeffs(r.px) == Rounded(AxisCoeffs(p0.x, p1.x, t0.x, t1.x))
    ensures ReadCoeffs(r.py) == Rounded(AxisCoeffs(p0.y, p1.y, t0.y, t1.y))
  {
    var xk := Rounded(AxisCoeffs(p0.x, p1.x, t0.x, t1.x));
    var yk := Rounded(AxisCoeffs(p0.y, p1.y, t0.y, t1.y));
    EquationRoundTrip(xk);
    EquationRoundTrip(yk);
    Equations(EquationText(xk), EquationText(yk))
  }

  /** The parametric-equations section: the segment's equations when at least
      two points are given, and nothing (the "not enough points" note) otherwise. */
  function ParametricEquations(points: seq<Point>, tangents: App.Tangents): (r: Option<Equations>)
    ensures r.None? <==> |points| <= 1
    ensures r.Some? ==> r.value == Coeffs(points[0], points[1], tangents.t0, tangents.t1)
  {
    if |points| > 1 then Some(Coeffs(points[0], points[1], tangents.t0, tangents.t1)) else None
  }
}
