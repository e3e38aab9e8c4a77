/** The transform of a pure tone under each window: the transform of the window itself, moved to the tone. */
module Tones {
  import opened Dft
  import opened Roots
  import opened Windows

  // ---- Modulation: a windowed tone is the window's own transform, moved twice --------------------------

  /** Products of samples and weights; hidden in most proofs so that the solver sees no non-linear arithmetic. */
  function Product(a: real, c: real): real { a * c }

  /** A unit-amplitude sinusoid with k0 periods, under the weights v. */
  ghost predicate WeightedTone(t: Angles, v: seq<real>, x: seq<real>, k0: nat) {
    |x| == |v| && forall n: nat :: n < |x| ==> x[n] == Product(v[n], t.cosine(Times(n, k0)))
  }

  lemma {:induction false} ModulatedSum(t: Angles, N: nat, v: seq<real>, x: seq<real>, k0: nat, k: nat, m: nat)
    requires RootLaws(t, N) && WeightedTone(t, v, x, k0) && k0 <= N && m <= |x| == |v|
    ensures Scale(2.0, Sum(t, x, 0, 1, k, m)) == Add(Sum(t, v, 0, 1, k + k0, m), Sum(t, v, 0, 1, k + N - k0, m))
  {
    hide Add, Scale, W, RootLaws, Times, WeightedTone, Product, At;
    if m == 0 {
      ToneBase();
    } else {
      var n := m - 1;
      ModulatedSum(t, N, v, x, k0, k, n);
      LastTerm(t, x, k, n);
      LastTerm(t, v, k + k0, n);
      LastTerm(t, v, k + N - k0, n);
      hide Sum;
      LastSample(t, v, x, k0, n);
      CosineSplits(t, N, n, k, k0);
      ModulatedStep(Sum(t, x, 0, 1, k, n), Sum(t, v, 0, 1, k + k0, n), Sum(t, v, 0, 1, k + N - k0, n), v[n],
                    t.cosine(Times(n, k0)), W(t, Times(n, k)), W(t, Times(n, k + k0)), W(t, Times(n, k + N - k0)));
    }
  }

  lemma LastTerm(t: Angles, x: seq<real>, k: nat, n: nat)
    ensures Sum(t, x, 0, 1, k, n + 1) == Add(Sum(t, x, 0, 1, k, n), Scale(At(x, 0 + Times(n, 1)), W(t, Times(n, k))))
  {}

  lemma LastSample(t: Angles, v: seq<real>, x: seq<real>, k0: nat, n: nat)
    requires WeightedTone(t, v, x, k0) && n < |x|
    ensures At(x, 0 + Times(n, 1)) == Product(v[n], t.cosine(Times(n, k0))) && At(v, 0 + Times(n, 1)) == v[n]
  {
    assert Times(n, 1) == n;
  }

  lemma ModulatedStep(sum: Complex, g: Complex, h: Complex, a: real, c: real, u: Complex, y: Complex, z: Complex)
    requires Scale(2.0, sum) == Add(g, h) && Scale(2.0 * c, u) == Add(y, z)
    ensures Scale(2.0, Add(sum, Scale(Product(a, c), u))) == Add(Add(g, Scale(a, y)), Add(h, Scale(a, z)))
  {
    assert Scale(2.0, Scale(a * c, u)) == Scale(a, Scale(2.0 * c, u));
    assert Scale(a, Add(y, z)) == Add(Scale(a, y), Scale(a, z));
  }

  /** Output k of a windowed tone: the window's transform at k + k0 and at k - k0, half of each. */
  lemma ToneIsModulatedWindow(t: Angles, N: nat, v: seq<real>, x: seq<real>, k0: nat, k: nat)
    requires RootLaws(t, N) && WeightedTone(t, v, x, k0) && k0 <= N
    ensures Scale(2.0, Transform(t, x, k)) == Add(Transform(t, v, k + k0), Transform(t, v, k + N - k0))
  {
    ModulatedSum(t, N, v, x, k0, k, |x|);
  }

  // ---- The window's own transform, in closed form -------------------------------------------------------

  /** Mean and swing of a window: its values are base - swing * cosine. */
  function Base(window: Window): real {
    match window
    case Rectangular => 1.0
    case Hann => 0.5
    case Hamming => 0.54
  }

  function Swing(window: Window): real {
    match window
    case Rectangular => 0.0
    case Hann => 0.5
    case Hamming => 0.46
  }

  /** The values of a window. */
  ghost predicate WindowValues(window: Window, p: Angles, v: seq<real>) {
    forall n: nat :: n < |v| ==> v[n] == WindowValue(window, p.cosine(n))
  }

  /** The sum of cosine(n) * W^(n*e) over n < m, the cosine being the window's. */
  function CosineSeries(p: Angles, t: Angles, e: nat, m: nat): Complex {
    if m == 0 then Zero else Add(CosineSeries(p, t, e, m - 1), Scale(p.cosine(m - 1), W(t, Times(m - 1, e))))
  }

  lemma {:induction false} WindowSeries(window: Window, p: Angles, t: Angles, v: seq<real>, e: nat, m: nat)
    requires WindowValues(window, p, v) && m <= |v|
    ensures Sum(t, v, 0, 1, e, m) ==
            Add(Scale(Base(window), Geometric(t, e, m)), Scale(-Swing(window), CosineSeries(p, t, e, m)))
  {
    hide W, Times, WindowValues, WindowValue, At, Add, Scale, Base, Swing;
    if m == 0 {
      EmptySeries(Base(window), Swing(window));
    } else {
      var n := m - 1;
      WindowSeries(window, p, t, v, e, n);
      LastTerm(t, v, e, n);
      hide Sum;
      LastWindowValue(window, p, v, n);
      SeriesStep(window, Geometric(t, e, n), CosineSeries(p, t, e, n), p.cosine(n), W(t, Times(n, e)));
    }
  }

  lemma EmptySeries(a: real, b: real)
    ensures Add(Scale(a, Zero), Scale(-b, Zero)) == Zero
  {}

  lemma LastWindowValue(window: Window, p: Angles, v: seq<real>, n: nat)
    requires WindowValues(window, p, v) && n < |v|
    ensures At(v, 0 + Times(n, 1)) == WindowValue(window, p.cosine(n))
  {
    assert Times(n, 1) == n;
  }

  lemma SeriesStep(window: Window, g: Complex, q: Complex, c: real, u: Complex)
    ensures var a, b := Base(window), Swing(window);
            Add(Add(Scale(a, g), Scale(-b, q)), Scale(WindowValue(window, c), u)) ==
            Add(Scale(a, Add(g, u)), Scale(-b, Add(q, Scale(c, u))))
  {
    var a, b := Base(window), Swing(window);
    ScalarSeriesStep(a, b, c, WindowValue(window, c), g.re, q.re, u.re);
    ScalarSeriesStep(a, b, c, WindowValue(window, c), g.im, q.im, u.im);
  }

  lemma ScalarSeriesStep(a: real, b: real, c: real, v: real, g: real, q: real, u: real)
    requires v == a - b * c
    ensures a * g + -b * q + v * u == a * (g + u) + -b * (q + c * u)
  {
    assert v * u == a * u - b * (c * u);
  }

  /**
   * What a telescoped series says: against the real number 2 (C - c) only its ends are left. Here (c, s) is one step of
   * the window's turn and (a, b) as many as there are terms, (C, -S) stands for W^e and (X, Y) for its power.
   */
  ghost predicate Telescoped(c: real, s: real, a: real, b: real, w: Complex, z: Complex, q: Complex) {
    && 2.0 * (w.re - c) * q.re == w.re - c - a * (w.re * z.re + w.im * z.im) + (a * c + b * s) * z.re
    && 2.0 * (w.re - c) * q.im == -w.im - a * (w.re * z.im - w.im * z.re) + (a * c + b * s) * z.im
  }

  lemma {:induction false} SeriesTelescopes(p: Angles, t: Angles, N: nat, e: nat, m: nat)
    requires RootLaws(t, N) && AngleLaws(p)
    ensures Telescoped(p.cosine(1), p.sine(1), p.cosine(m), p.sine(m), W(t, e), W(t, Times(m, e)),
                       CosineSeries(p, t, e, m))
  {
    hide RootLaws, AngleLaws, W, Times, Telescoped, Mul, Add, Scale, NormSq, Turned;
    if m == 0 {
      SeriesBegins(p, t, N, e);
    } else {
      var n := m - 1;
      SeriesTelescopes(p, t, N, e, n);
      WAdd(t, N, Times(n, e), e);
      TimesStep(n, e);
      OneStepOn(p, t, N, n, e);
      TelescopedStep(p.cosine(1), p.sine(1), p.cosine(n), p.sine(n), p.cosine(m), p.sine(m), W(t, e),
                     W(t, Times(n, e)), CosineSeries(p, t, e, n));
    }
  }

  lemma SeriesBegins(p: Angles, t: Angles, N: nat, e: nat)
    requires RootLaws(t, N) && AngleLaws(p)
    ensures Telescoped(p.cosine(1), p.sine(1), p.cosine(0), p.sine(0), W(t, e), W(t, Times(0, e)), Zero)
  {
    WOfZero(t, N);
    TimesStep(0, e);
  }

  /** (a', b') is (a, b) turned on by the unit (c, s). */
  ghost predicate Turned(c: real, s: real, a: real, b: real, a': real, b': real) {
    c * c + s * s == 1.0 && a' == a * c - b * s && b' == b * c + a * s
  }

  lemma OneStepOn(p: Angles, t: Angles, N: nat, n: nat, e: nat)
    requires RootLaws(t, N) && AngleLaws(p)
    ensures Turned(p.cosine(1), p.sine(1), p.cosine(n), p.sine(n), p.cosine(n + 1), p.sine(n + 1))
    ensures NormSq(W(t, e)) == 1.0
  {
    assert AnglesAdd(p, n, 1) && UnitLength(p, 1) && UnitLength(t, e);
  }

  lemma TelescopedStep(c: real, s: real, a: real, b: real, a': real, b': real, w: Complex, z: Complex, q: Complex)
    requires Turned(c, s, a, b, a', b') && NormSq(w) == 1.0 && Telescoped(c, s, a, b, w, z, q)
    ensures Telescoped(c, s, a', b', w, Mul(z, w), Add(q, Scale(a, z)))
  {
    var z', q' := Mul(z, w), Add(q, Scale(a, z));
    ScalarStep(c, s, a, b, a', b', w.re, w.im, z.re, z.im, z'.re, z'.im);
    assert 2.0 * (w.re - c) * q'.re == 2.0 * (w.re - c) * q.re + 2.0 * (w.re - c) * (a * z.re);
    assert 2.0 * (w.re - c) * q'.im == 2.0 * (w.re - c) * q.im + 2.0 * (w.re - c) * (a * z.im);
  }

  lemma ScalarStep(c: real, s: real, a: real, b: real, a': real, b': real, C: real, S: real, X: real, Y: real, X': real,
                   Y': real)
    requires Turned(c, s, a, b, a', b') && C * C + S * S == 1.0 && X' == X * C - Y * S && Y' == X * S + Y * C
    ensures -a' * (C * X' + S * Y') + (a' * c + b' * s) * X' ==
            -a * (C * X + S * Y) + (a * c + b * s) * X + 2.0 * (C - c) * (a * X)
    ensures -a' * (C * Y' - S * X') + (a' * c + b' * s) * Y' ==
            -a * (C * Y - S * X) + (a * c + b * s) * Y + 2.0 * (C - c) * (a * Y)
  {
    TurnedBack(C, S, X, Y);
    TurnedBack(c, s, a, b);
    EndsMove(c, s, a, b, C, X, X', C * X + S * Y);
    EndsMove(c, s, a, b, C, Y, Y', C * Y - S * X);
  }

  /** How the ends of the series move with one more term; x is turned on to x' and back to x0. */
  lemma EndsMove(c: real, s: real, a: real, b: real, C: real, x: real, x': real, x0: real)
    requires x' + x0 == 2.0 * (C * x)
    ensures a * x' - (a * c - b * s) * x == -a * x0 + (a * c + b * s) * x + 2.0 * (C - c) * (a * x)
  {
    assert a * x' + a * x0 == 2.0 * (a * (C * x));
    assert 2.0 * (C - c) * (a * x) == 2.0 * (a * (C * x)) - 2.0 * ((c * a) * x);
  }

  lemma TurnedBack(c: real, s: real, x: real, y: real)
    requires c * c + s * s == 1.0
    ensures c * (x * c - y * s) + s * (x * s + y * c) == x
    ensures c * (x * s + y * c) - s * (x * c - y * s) == y
    ensures (x * c - y * s) * c + (y * c + x * s) * s == x
  {
    assert c * (x * c - y * s) + s * (x * s + y * c) == (c * c + s * s) * x;
    assert c * (x * s + y * c) - s * (x * c - y * s) == (c * c + s * s) * y;
  }

  /** The series of a whole window, against the real number 2 (C - c). */
  ghost predicate WholeSeries(c: real, w: Complex, q: Complex) {
    && 2.0 * (w.re - c) * q.re == (1.0 - c) * (1.0 + w.re)
    && 2.0 * (w.re - c) * q.im == -(1.0 - c) * w.im
  }

  lemma SeriesOfWholeWindow(p: Angles, t: Angles, N: nat, e: nat)
    requires RootLaws(t, N) && N > 2 && PhaseLaws(p, N - 1)
    ensures WholeSeries(p.cosine(1), W(t, e), CosineSeries(p, t, e, N))
  {
    hide CosineSeries, RootLaws, PhaseLaws, W, Times, Telescoped, WholeSeries, OneUnit;
    WindowEnds(p, t, N, e);
    SeriesTelescopes(p, t, N, e, N);
    OnlyEnds(p.cosine(1), p.sine(1), W(t, e), CosineSeries(p, t, e, N));
  }

  ghost predicate OneUnit(c: real, s: real) {
    c * c + s * s == 1.0
  }

  /** Both turns are back where they began, the window's one step further on. */
  lemma WindowEnds(p: Angles, t: Angles, N: nat, e: nat)
    requires RootLaws(t, N) && N > 2 && PhaseLaws(p, N - 1)
    ensures p.cosine(N) == p.cosine(1) && p.sine(N) == p.sine(1) && W(t, Times(N, e)) == One
    ensures OneUnit(p.cosine(1), p.sine(1)) && AngleLaws(p)
  {
    OneStepOn(p, t, N, N - 1, e);
    TimesDistributes(N, e, 0);
    WCycles(t, N, 0, e);
    WOfZero(t, N);
  }

  lemma OnlyEnds(c: real, s: real, w: Complex, q: Complex)
    requires Telescoped(c, s, c, s, w, One, q) && OneUnit(c, s)
    ensures WholeSeries(c, w, q)
  {}

  /** How strongly the swing of a window spills over, from the cosines c of its step and C of the bin. */
  function Spill(window: Window, c: real, C: real): real
    requires C != c
  {
    Swing(window) * (1.0 - c) / (2.0 * (c - C))
  }

  /** What spills over at the bin of w, added to S. */
  function Spilled(S: real, d: real, w: Complex): Complex {
    Complex(S + d * (1.0 + w.re), -d * w.im)
  }

  lemma RealPart(t: Angles, e: nat)
    ensures W(t, e).re == t.cosine(e)
  {}

  /** The transform of the window values alone, away from bin zero. */
  lemma WindowTransform(window: Window, p: Angles, t: Angles, N: nat, v: seq<real>, e: nat)
    requires RootLaws(t, N) && Primitive(t, N) && N > 2 && PhaseLaws(p, N - 1)
    requires |v| == N && WindowValues(window, p, v) && 0 < e < N && t.cosine(e) != p.cosine(1)
    ensures Transform(t, v, e) == Spilled(0.0, Spill(window, p.cosine(1), t.cosine(e)), W(t, e))
  {
    WindowSeries(window, p, t, v, e, N);
    GeometricVanishes(t, N, e);
    SeriesOfWholeWindow(p, t, N, e);
    RealPart(t, e);
    hide Sum, RootLaws, PhaseLaws, Geometric, CosineSeries, Primitive, WindowValues, W, WholeSeries, Spill, Spilled;
    hide Add, Scale, Base, Swing;
    SpillOfSeries(window, p.cosine(1), W(t, e), CosineSeries(p, t, e, N));
  }

  lemma SpillOfSeries(window: Window, c: real, w: Complex, q: Complex)
    requires w.re != c && WholeSeries(c, w, q)
    ensures Add(Scale(Base(window), Zero), Scale(-Swing(window), q)) == Spilled(0.0, Spill(window, c, w.re), w)
  {
    var b, d := Swing(window), Spill(window, c, w.re);
    Solve(c, w.re, q.re, b, 1.0 + w.re);
    Solve(c, w.re, q.im, b, -w.im);
    assert Scale(Base(window), Zero) == Zero;
    assert d * (-w.im) == -d * w.im;
  }

  lemma Solve(c: real, C: real, q: real, b: real, r: real)
    requires C != c && 2.0 * (C - c) * q == (1.0 - c) * r
    ensures -b * q == (b * (1.0 - c) / (2.0 * (c - C))) * r
  {
    var k := 2.0 * (c - C);
    assert k * q == -((1.0 - c) * r);
    var d := b * (1.0 - c) / k;
    assert d * k == b * (1.0 - c);
    assert k * (-b * q) == b * ((1.0 - c) * r);
    assert k * (d * r) == b * ((1.0 - c) * r);
    Cancel(k, -b * q, d * r);
  }

  lemma Cancel(k: real, x: real, y: real)
    requires k != 0.0 && k * x == k * y
    ensures x == y
  {}
}
