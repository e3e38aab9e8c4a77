/** What the calibrated engine reads of a pure tone under each window. */
module ToneReadings {
  import opened BitReversal
  import opened Dft
  import opened FftEngine
  import opened Roots
  import opened Tones
  import opened Windows


  lemma {:induction false} TransformAtZero(window: Window, p: Angles, t: Angles, N: nat, v: seq<real>, m: nat)
    requires RootLaws(t, N) && WindowValues(window, p, v) && m <= |v|
    ensures Sum(t, v, 0, 1, 0, m) == Complex(WindowSum(window, p, m), 0.0)
  {
    if m > 0 {
      hide RootLaws, WindowValues, At, Times;
      var n := m - 1;
      TransformAtZero(window, p, t, N, v, n);
      LastTerm(t, v, 0, n);
      LastWindowValue(window, p, v, n);
      TimesDistributes(n, 0, 0);
      TimesStep(0, n);
      WOfZero(t, N);
    }
  }

  /** Twice the output at the tone's own bin: the window sum, and the window's transform at twice the bin. */
  lemma OwnBin(window: Window, p: Angles, t: Angles, N: nat, v: seq<real>, x: seq<real>, k0: nat)
    requires RootLaws(t, N) && |v| == N && WindowValues(window, p, v) && WeightedTone(t, v, x, k0) && k0 <= N
    ensures Scale(2.0, Transform(t, x, k0)) ==
            Add(Complex(WindowSum(window, p, N), 0.0), Transform(t, v, 2 * k0))
  {
    ToneIsModulatedWindow(t, N, v, x, k0, k0);
    assert k0 + N - k0 == 0 + N && k0 + k0 == 2 * k0;
    SumPeriodic(t, N, v, 0, 1, 0, N);
    TransformAtZero(window, p, t, N, v, N);
    hide Sum, RootLaws, WindowValues, WeightedTone;
  }

  /** By how much the squared reading is off, from the window sum S, its spill d and the cosine C of the bin. */
  function Excess(S: real, d: real, C: real): real
    requires Square(S) != 0.0
  {
    2.0 * (d * (1.0 + C)) * (S + d) / Square(S)
  }

  lemma SquareOfPositive(S: real)
    requires S > 0.0
    ensures Square(S) > 0.0
  {
    PositiveProduct(S, S, Square(S));
  }

  lemma PositiveProduct(a: real, b: real, q: real)
    requires a > 0.0 && b > 0.0 && q == a * b
    ensures q > 0.0
  {}

  lemma ReadingAlgebra(X: Complex, S: real, d: real, w: Complex, scale: real)
    requires Scale(2.0, X) == Spilled(S, d, w) && NormSq(w) == 1.0
    requires Product(scale, S) == 2.0 && S > 0.0
    ensures Square(S) > 0.0 && Power(X, Square(scale)) == 1.0 + Excess(S, d, w.re)
  {
    SquareOfPositive(S);
    var C, n, E := w.re, NormSq(X), 2.0 * (d * (1.0 + w.re)) * (S + d);
    SquaredSum(S, d, C, w.im);
    assert 4.0 * n == (2.0 * X.re) * (2.0 * X.re) + (2.0 * X.im) * (2.0 * X.im);
    assert 4.0 * n == S * S + E;
    ScaledSquare(n, scale, S, E);
  }

  lemma SquaredSum(S: real, d: real, C: real, s: real)
    requires C * C + s * s == 1.0
    ensures (S + d * (1.0 + C)) * (S + d * (1.0 + C)) + (-d * s) * (-d * s) ==
            S * S + 2.0 * (d * (1.0 + C)) * (S + d)
  {
    var r := d * (1.0 + C);
    assert (S + r) * (S + r) == S * S + 2.0 * (r * S) + r * r;
    assert (-d * s) * (-d * s) == (d * d) * (s * s);
    assert s * s == (1.0 + C) * (1.0 - C);
    assert r * r == (d * d) * ((1.0 + C) * (1.0 + C));
    assert (1.0 + C) * (1.0 + C) + (1.0 + C) * (1.0 - C) == 2.0 * (1.0 + C);
    assert r * r + (d * d) * (s * s) == (d * d) * (2.0 * (1.0 + C));
    assert (d * d) * (2.0 * (1.0 + C)) == 2.0 * (r * d);
  }

  lemma ScaledSquare(n: real, scale: real, S: real, E: real)
    requires 4.0 * n == S * S + E && scale * S == 2.0 && Square(S) > 0.0
    ensures n * (scale * scale) == 1.0 + E / Square(S)
  {
    var q := Square(S);
    assert (scale * scale) * q == (scale * S) * (scale * S) == 4.0;
    assert q * (n * (scale * scale)) == n * ((scale * scale) * q);
    assert q * (1.0 + E / q) == q + E;
    Cancel(q, n * (scale * scale), 1.0 + E / q);
  }

  lemma TwiceTone(window: Window, p: Angles, t: Angles, N: nat, v: seq<real>, x: seq<real>, k0: nat)
    requires RootLaws(t, N) && Primitive(t, N) && N > 2 && PhaseLaws(p, N - 1)
    requires |v| == N && WindowValues(window, p, v) && WeightedTone(t, v, x, k0) && 0 < k0 < N / 2
    requires t.cosine(2 * k0) != p.cosine(1)
    ensures var S, d, w := ExactSum(window, N), Spill(window, p.cosine(1), t.cosine(2 * k0)), W(t, 2 * k0);
            S > 0.0 && Scale(2.0, Transform(t, x, k0)) == Spilled(S, d, w)
  {
    WindowSumIsExact(window, p, N);
    OwnBin(window, p, t, N, v, x, k0);
    WindowTransform(window, p, t, N, v, 2 * k0);
    hide Transform, RootLaws, PhaseLaws, Primitive, WindowValues, WeightedTone, WindowSum, ExactSum, Spill, W, Scale;
    SpillAdds(ExactSum(window, N), Spill(window, p.cosine(1), t.cosine(2 * k0)), W(t, 2 * k0));
  }

  lemma SpillAdds(S: real, d: real, w: Complex)
    ensures Add(Complex(S, 0.0), Spilled(0.0, d, w)) == Spilled(S, d, w)
  {}

  /** The exact squared reading of a unit tone at its own bin, for every window. */
  lemma ReadingOfTone(window: Window, p: Angles, t: Angles, N: nat, v: seq<real>, x: seq<real>, k0: nat, scale: real)
    requires RootLaws(t, N) && Primitive(t, N) && N > 2 && PhaseLaws(p, N - 1)
    requires |v| == N && WindowValues(window, p, v) && WeightedTone(t, v, x, k0) && 0 < k0 < N / 2
    requires t.cosine(2 * k0) != p.cosine(1) && Product(scale, ExactSum(window, N)) == 2.0
    ensures Square(ExactSum(window, N)) > 0.0
    ensures Power(Transform(t, x, k0), Square(scale)) ==
            1.0 + Excess(ExactSum(window, N), Spill(window, p.cosine(1), t.cosine(2 * k0)), t.cosine(2 * k0))
  {
    OneStepOn(t, t, N, 0, 2 * k0);
    hide Transform, RootLaws, PhaseLaws, Primitive, WindowValues, WeightedTone, ExactSum, Spill, Excess, Turned;
    hide NormSq, Scale, Power, Square, Product, Spilled;
    TwiceTone(window, p, t, N, v, x, k0);
    ReadingAlgebra(Transform(t, x, k0), ExactSum(window, N), Spill(window, p.cosine(1), t.cosine(2 * k0)),
                   W(t, 2 * k0), scale);
  }

  /** One step of the window's turn is shorter than two steps of the transform's, either way around. */
  ghost predicate StepIsShort(p: Angles, t: Angles, N: nat) {
    forall e: nat :: 2 <= e && e + 2 <= N ==> t.cosine(e) < p.cosine(1)
  }

  /** Half a turn from a bin means a quarter of the table. */
  lemma OppositeBin(t: Angles, N: nat, k0: nat)
    requires RootLaws(t, N) && Primitive(t, N) && 0 < k0 < N / 2
    ensures t.cosine(2 * k0) == -1.0 <==> 4 * k0 == N
  {
    if 4 * k0 == N {
      WHalf(t, N);
      assert 2 * k0 == N / 2;
    } else {
      assert AnglesAdd(t, 2 * k0, 2 * k0) && UnitLength(t, 2 * k0);
      var e := if 4 * k0 > N then 4 * k0 - N else 4 * k0;
      WShift(t, N, e);
      assert t.cosine(4 * k0) == t.cosine(e) != 1.0;
    }
  }

  /**
   * A unit tone measures exactly 1 at its bin under the rectangular window and, under the others, exactly at the bin
   * halfway to Nyquist; at every other bin those two windows read more than 1.
   */
  lemma ToneReadsOneExactly(window: Window, p: Angles, t: Angles, N: nat, v: seq<real>, x: seq<real>, k0: nat,
                            scale: real)
    requires RootLaws(t, N) && Primitive(t, N) && N > 2 && PhaseLaws(p, N - 1) && StepIsShort(p, t, N)
    requires |v| == N && WindowValues(window, p, v) && WeightedTone(t, v, x, k0) && 0 < k0 < N / 2
    requires Product(scale, ExactSum(window, N)) == 2.0
    ensures var reading := Power(Transform(t, x, k0), Square(scale));
            && reading >= 1.0
            && (reading == 1.0 <==> window.Rectangular? || 4 * k0 == N)
  {
    hide Transform, Power, Square, Product, RootLaws, PhaseLaws, Primitive, WindowValues, WeightedTone, ExactSum;
    hide Spill, Excess;
    CosinesInOrder(p, t, N, 2 * k0);
    ReadingOfTone(window, p, t, N, v, x, k0, scale);
    WindowSumIsExact(window, p, N);
    OppositeBin(t, N, k0);
    ExcessSign(window, ExactSum(window, N), p.cosine(1), t.cosine(2 * k0));
  }

  lemma CosinesInOrder(p: Angles, t: Angles, N: nat, e: nat)
    requires RootLaws(t, N) && N > 2 && PhaseLaws(p, N - 1) && StepIsShort(p, t, N) && 2 <= e && e + 2 <= N
    ensures -1.0 <= t.cosine(e) < p.cosine(1) <= 1.0 && p.cosine(1) != 1.0
  {
    assert UnitLength(t, e) && UnitLength(p, 1);
    hide RootLaws, PhaseLaws;
    WithinUnit(t.cosine(e), t.sine(e));
    WithinUnit(p.cosine(1), p.sine(1));
  }

  lemma WithinUnit(c: real, s: real)
    requires c * c + s * s == 1.0
    ensures -1.0 <= c <= 1.0
  {
    SquarePositive(s);
    BeyondUnit(c);
    BeyondUnit(-c);
    assert (-c) * (-c) == c * c;
  }

  lemma BeyondUnit(c: real)
    ensures c > 1.0 ==> c * c > 1.0
  {
    if c > 1.0 {
      ProductPositive(c - 1.0, c + 1.0);
      assert (c - 1.0) * (c + 1.0) == c * c - 1.0;
    }
  }

  lemma ExcessSign(window: Window, S: real, c: real, C: real)
    requires Square(S) > 0.0 && S > 0.0 && -1.0 <= C < c <= 1.0 && c != 1.0
    ensures var d := Spill(window, c, C);
            && Excess(S, d, C) >= 0.0
            && (Excess(S, d, C) == 0.0 <==> window.Rectangular? || C == -1.0)
  {
    SpillSign(window, c, C);
    hide Spill, Square;
    var d := Spill(window, c, C);
    if d > 0.0 && C > -1.0 {
      ProductPositive(d, 1.0 + C);
    }
    RatioSign(d * (1.0 + C), S, d, Square(S));
  }

  lemma SpillSign(window: Window, c: real, C: real)
    requires C < c < 1.0
    ensures if window.Rectangular? then Spill(window, c, C) == 0.0 else Spill(window, c, C) > 0.0
  {
    if !window.Rectangular? {
      ProductPositive(Swing(window), 1.0 - c);
    }
    QuotientSign(Swing(window) * (1.0 - c), 2.0 * (c - C));
  }

  lemma RatioSign(r: real, S: real, d: real, q: real)
    requires r >= 0.0 && d >= 0.0 && S > 0.0 && q > 0.0
    ensures 2.0 * r * (S + d) / q >= 0.0
    ensures 2.0 * r * (S + d) / q == 0.0 <==> r == 0.0
  {
    if r > 0.0 {
      ProductPositive(2.0 * r, S + d);
    }
    QuotientSign(2.0 * r * (S + d), q);
  }

  lemma QuotientSign(x: real, y: real)
    requires y > 0.0
    ensures (x > 0.0 <==> x / y > 0.0) && (x == 0.0 <==> x / y == 0.0)
  {
    assert (x / y) * y == x;
    if x / y > 0.0 {
      ProductPositive(x / y, y);
    } else if x / y < 0.0 {
      ProductPositive(-(x / y), y);
    }
  }

  // ---- Bin zero and Nyquist ----------------------------------------------------------------------------

  /** A constant, and a tone at Nyquist, read twice their amplitude at their own bin, under every window. */
  lemma EdgesReadTwice(window: Window, p: Angles, t: Angles, N: nat, v: seq<real>, x: seq<real>, k0: nat, scale: real)
    requires RootLaws(t, N) && N > 2 && PhaseLaws(p, N - 1) && |v| == N && WindowValues(window, p, v)
    requires WeightedTone(t, v, x, k0) && (k0 == 0 || k0 == N / 2) && Product(scale, ExactSum(window, N)) == 2.0
    ensures Transform(t, x, k0) == Complex(ExactSum(window, N), 0.0) && Power(Transform(t, x, k0), Square(scale)) == 4.0
  {
    WindowSumIsExact(window, p, N);
    OwnBin(window, p, t, N, v, x, k0);
    TransformAtZero(window, p, t, N, v, N);
    if k0 > 0 {
      WHalf(t, N);
      assert 2 * k0 == 0 + N;
      SumPeriodic(t, N, v, 0, 1, 0, N);
    }
    hide Sum, RootLaws, PhaseLaws, WindowValues, WeightedTone, WindowSum, ExactSum;
    FullReading(Transform(t, x, k0), ExactSum(window, N), scale);
  }

  lemma FullReading(X: Complex, S: real, scale: real)
    requires Scale(2.0, X) == Add(Complex(S, 0.0), Complex(S, 0.0)) && Product(scale, S) == 2.0
    ensures X == Complex(S, 0.0) && Power(X, Square(scale)) == 4.0
  {
    assert (S * S) * (scale * scale) == (scale * S) * (scale * S);
  }

  /** So the promise of a reading of 1 fails for a single period in eight samples under the default window. */
  lemma HannReadsHigh(p: Angles, t: Angles, v: seq<real>, x: seq<real>, scale: real)
    requires RootLaws(t, 8) && Primitive(t, 8) && PhaseLaws(p, 7) && StepIsShort(p, t, 8)
    requires |v| == 8 && WindowValues(Hann, p, v) && WeightedTone(t, v, x, 1)
    requires Product(scale, ExactSum(Hann, 8)) == 2.0
    ensures Power(Transform(t, x, 1), Square(scale)) > 1.0
  {
    hide RootLaws, Primitive, PhaseLaws, StepIsShort, WindowValues, WeightedTone, Transform, Power, Square, Product;
    hide ExactSum;
    ToneReadsOneExactly(Hann, p, t, 8, v, x, 1, scale);
  }

  // ---- The engine -------------------------------------------------------------------------------------

  lemma WindowedIsWeighted(t: Angles, s: seq<real>, v: seq<real>, k0: nat)
    requires |s| == |v| && UnitTone(t, s, k0)
    ensures WeightedTone(t, v, Windowed(s, v), k0)
  {
    hide Times;
  }

  /** What a ready, calibrated engine reads of N samples of a unit-amplitude tone with k0 periods. */
  method ReadTone(engine: Engine, window: Window, p: Angles, samples: array<real>, magSq: array<real>, k0: nat)
    returns (reading: real)
    requires engine.Ready() && Primitive(engine.angles, Pow2(engine.bits))
    requires PhaseLaws(p, Pow2(engine.bits) - 1) && StepIsShort(p, engine.angles, Pow2(engine.bits))
    requires WindowValues(window, p, engine.Wnd()) && Calibrated(engine.outScale, window, p, Pow2(engine.bits))
    requires samples.Length >= Pow2(engine.bits) && magSq.Length >= Pow2(engine.bits) / 2
    requires UnitTone(engine.angles, samples[..Pow2(engine.bits)], k0) && k0 < Pow2(engine.bits) / 2
    requires samples != engine.fr && samples != engine.fi && samples != magSq
    requires magSq != engine.fr && magSq != engine.fi && magSq != engine.w && magSq != engine.wnd
    modifies engine.fr, engine.fi, magSq
    ensures k0 == 0 ==> reading == 4.0
    ensures k0 > 0 ==> reading >= 1.0
    ensures k0 > 0 ==> (reading == 1.0 <==> window.Rectangular? || 4 * k0 == Pow2(engine.bits))
  {
    ghost var t, N, v := engine.angles, Pow2(engine.bits), engine.Wnd();
    ghost var s, scale := samples[..N], engine.outScale;
    Pow2Grows(2, engine.bits);
    WindowedIsWeighted(t, s, v, k0);
    CalibratedProduct(scale, window, p, N);
    hide Primitive, PhaseLaws, StepIsShort, WindowValues, Calibrated, UnitTone, Transform, Power, Square, ExactSum;
    hide Product, Pow2, WeightedTone, RootLaws;
    engine.ComputeMagSq(samples, magSq);
    reading := magSq[k0];
    if k0 == 0 {
      EdgesReadTwice(window, p, t, N, v, Windowed(s, v), k0, scale);
    } else {
      ToneReadsOneExactly(window, p, t, N, v, Windowed(s, v), k0, scale);
    }
  }

  lemma CalibratedProduct(scale: real, window: Window, p: Angles, N: nat)
    requires Calibrated(scale, window, p, N)
    ensures Product(scale, ExactSum(window, N)) == 2.0
  {}
}
