/** The discrete Fourier transform as a sum, and how one radix-2 butterfly halves it. */
module Dft {
  import opened Roots

  function At(x: seq<real>, i: nat): real {
    if i < |x| then x[i] else 0.0
  }

  /** The sum of x[start + j*stride] * W^(j*q) over j < n. */
  function Sum(t: Angles, x: seq<real>, start: nat, stride: nat, q: nat, n: nat): Complex {
    if n == 0 then Zero
    else
      Add(Sum(t, x, start, stride, q, n - 1),
          Scale(At(x, start + Times(n - 1, stride)), W(t, Times(n - 1, q))))
  }

  /** Output k of the transform of x: the sum of x[n] * exp(-2*pi*i*n*k/N). */
  function Transform(t: Angles, x: seq<real>, k: nat): Complex {
    Sum(t, x, 0, 1, k, |x|)
  }

  // ---- Splitting a sum into its even and odd terms ------------------------------

  lemma SplitAlgebra(even: Complex, odd: Complex, w: Complex, u: Complex, x: real, y: real)
    ensures Add(Add(Add(even, Mul(w, odd)), Scale(x, u)), Scale(y, Mul(w, u))) ==
            Add(Add(even, Scale(x, u)), Mul(w, Add(odd, Scale(y, u))))
  {
    assert Mul(w, Scale(y, u)) == Scale(y, Mul(w, u));
    Distribute(w, odd, Scale(y, u));
  }

  lemma OddEvenIndices(stride: nat, h: nat)
    requires h > 0
    ensures Times(2 * h - 2, stride) == Times(h - 1, 2 * stride)
    ensures Times(2 * h - 1, stride) == stride + Times(h - 1, 2 * stride)
  {
  }

  lemma {:induction false} SplitSum(t: Angles, N: nat, x: seq<real>, start: nat, stride: nat, q: nat, h: nat)
    requires RootLaws(t, N)
    ensures Sum(t, x, start, stride, q, 2 * h) ==
            Add(Sum(t, x, start, 2 * stride, 2 * q, h),
                Mul(W(t, q), Sum(t, x, start + stride, 2 * stride, 2 * q, h)))
  {
    hide Add, Mul, Scale, W, RootLaws, Times, At;
    if h == 0 {
      SumOfNothing(W(t, q));
    } else {
      var e := Times(h - 1, 2 * q);
      var step := Times(h - 1, 2 * stride);
      SplitSum(t, N, x, start, stride, q, h - 1);
      LastTwoTerms(t, x, start, stride, q, h);
      WAdd(t, N, q, e);
      SplitAlgebra(Sum(t, x, start, 2 * stride, 2 * q, h - 1),
                   Sum(t, x, start + stride, 2 * stride, 2 * q, h - 1),
                   W(t, q), W(t, e), At(x, start + step), At(x, start + stride + step));
    }
  }

  lemma LastTwoTerms(t: Angles, x: seq<real>, start: nat, stride: nat, q: nat, h: nat)
    requires h > 0
    ensures var e := Times(h - 1, 2 * q);
            var step := Times(h - 1, 2 * stride);
            Sum(t, x, start, stride, q, 2 * h) ==
            Add(Add(Sum(t, x, start, stride, q, 2 * (h - 1)), Scale(At(x, start + step), W(t, e))),
                Scale(At(x, start + stride + step), W(t, q + e)))
  {
    hide Add, Scale, W, At, Times;
    OddEvenIndices(stride, h);
    OddEvenIndices(q, h);
    assert Sum(t, x, start, stride, q, 2 * h - 1) ==
           Add(Sum(t, x, start, stride, q, 2 * h - 2),
               Scale(At(x, start + Times(2 * h - 2, stride)), W(t, Times(2 * h - 2, q))));
  }

  lemma SumOfNothing(w: Complex)
    ensures Add(Zero, Mul(w, Zero)) == Zero
  {
  }

  /** A full turn of the frequency changes nothing. */
  lemma {:induction false} SumPeriodic(t: Angles, N: nat, x: seq<real>, start: nat, stride: nat, q: nat, n: nat)
    requires RootLaws(t, N)
    ensures Sum(t, x, start, stride, q + N, n) == Sum(t, x, start, stride, q, n)
  {
    hide Add, Scale, W, RootLaws, Times, At;
    if n > 0 {
      SumPeriodic(t, N, x, start, stride, q, n - 1);
      TimesDistributes(n - 1, q, N);
      WCycles(t, N, Times(n - 1, q), n - 1);
    }
  }

  /** The butterfly: both halves of a 2h-point sum from the two h-point sums of its even and odd terms. */
  lemma Butterfly(t: Angles, N: nat, x: seq<real>, start: nat, stride: nat, q: nat, h: nat)
    requires RootLaws(t, N)
    ensures var even := Sum(t, x, start, 2 * stride, 2 * q, h);
            var odd := Sum(t, x, start + stride, 2 * stride, 2 * q, h);
            Sum(t, x, start, stride, q, 2 * h) == Add(even, Mul(W(t, q), odd)) &&
            Sum(t, x, start, stride, q + N / 2, 2 * h) == Sub(even, Mul(W(t, q), odd))
  {
    hide Sum, W, RootLaws;
    SplitSum(t, N, x, start, stride, q, h);
    SplitSum(t, N, x, start, stride, q + N / 2, h);
    HalfTurn(t, N, q);
    SumPeriodic(t, N, x, start, 2 * stride, 2 * q, h);
    SumPeriodic(t, N, x, start + stride, 2 * stride, 2 * q, h);
    SubAlgebra(Sum(t, x, start, 2 * stride, 2 * q, h), W(t, q), Sum(t, x, start + stride, 2 * stride, 2 * q, h));
  }

  lemma HalfTurn(t: Angles, N: nat, q: nat)
    requires RootLaws(t, N)
    ensures W(t, q + N / 2) == Sub(Zero, W(t, q)) && 2 * (q + N / 2) == 2 * q + N
  {
    hide W, RootLaws;
    WShift(t, N, q);
  }

  lemma SubAlgebra(a: Complex, w: Complex, b: Complex)
    ensures Add(a, Mul(Sub(Zero, w), b)) == Sub(a, Mul(w, b))
  {
  }

  // ---- Amplitude calibration ------------------------------------------------------

  /** N samples of a unit-amplitude sinusoid with k0 periods. */
  ghost predicate UnitTone(t: Angles, x: seq<real>, k0: nat) {
    forall n: nat :: n < |x| ==> x[n] == t.cosine(Times(n, k0))
  }

  /** The sum of W^(n*e) over n < m. */
  function Geometric(t: Angles, e: nat, m: nat): Complex {
    if m == 0 then Zero else Add(Geometric(t, e, m - 1), W(t, Times(m - 1, e)))
  }

  lemma {:induction false} GeometricTelescopes(t: Angles, N: nat, e: nat, m: nat)
    requires RootLaws(t, N)
    ensures Mul(Sub(W(t, e), One), Geometric(t, e, m)) == Sub(W(t, Times(m, e)), One)
  {
    hide Add, Mul, Sub, W, RootLaws, Times;
    if m == 0 {
      WOfZero(t, N);
      TimesStep(0, e);
      TelescopeBase(Sub(W(t, e), One));
    } else {
      var u := Times(m - 1, e);
      GeometricTelescopes(t, N, e, m - 1);
      WAdd(t, N, e, u);
      TimesStep(m - 1, e);
      TelescopeStep(W(t, e), Geometric(t, e, m - 1), W(t, u));
    }
  }

  lemma WOfZero(t: Angles, N: nat)
    requires RootLaws(t, N)
    ensures W(t, 0) == One
  {
  }

  lemma TelescopeBase(d: Complex)
    ensures Mul(d, Zero) == Sub(One, One)
  {
  }

  lemma Distribute(a: Complex, b: Complex, c: Complex)
    ensures Mul(a, Add(b, c)) == Add(Mul(a, b), Mul(a, c))
  {
  }

  lemma TelescopeStep(w: Complex, g: Complex, u: Complex)
    requires Mul(Sub(w, One), g) == Sub(u, One)
    ensures Mul(Sub(w, One), Add(g, u)) == Sub(Mul(w, u), One)
  {
    var d := Sub(w, One);
    Distribute(d, g, u);
    assert Mul(d, u) == Sub(Mul(w, u), u);
  }

  lemma NoZeroDivisors(a: Complex, b: Complex)
    requires Mul(a, b) == Zero && a != Zero
    ensures b == Zero
  {
    var n := NormSq(a);
    assert n * b.re == a.re * (a.re * b.re - a.im * b.im) + a.im * (a.re * b.im + a.im * b.re);
    assert n * b.im == a.re * (a.re * b.im + a.im * b.re) - a.im * (a.re * b.re - a.im * b.im);
    assert n * b.re == 0.0 && n * b.im == 0.0;
    SquarePositive(a.re);
    SquarePositive(a.im);
  }

  lemma SquarePositive(r: real)
    ensures r != 0.0 ==> r * r > 0.0
    ensures r * r >= 0.0
  {
    if r > 0.0 {
      ProductPositive(r, r);
    } else if r < 0.0 {
      ProductPositive(-r, -r);
      assert (-r) * (-r) == r * r;
    }
  }

  lemma ProductPositive(a: real, b: real)
    requires a > 0.0 && b > 0.0
    ensures a * b > 0.0
  {
  }

  lemma GeometricVanishes(t: Angles, N: nat, e: nat)
    requires RootLaws(t, N) && Primitive(t, N) && 0 < e < N
    ensures Geometric(t, e, N) == Zero
  {
    assert Sub(W(t, e), One) != Zero && Sub(One, One) == Zero;
    hide Mul, Sub, W, RootLaws, Primitive, Geometric, Times;
    GeometricTelescopes(t, N, e, N);
    WCycles(t, N, 0, e);
    WOfZero(t, N);
    TimesDistributes(N, e, 0);
    NoZeroDivisors(Sub(W(t, e), One), Geometric(t, e, N));
  }

  lemma {:induction false} GeometricPeriodic(t: Angles, N: nat, e: nat, m: nat)
    requires RootLaws(t, N)
    ensures Geometric(t, e + N, m) == Geometric(t, e, m)
  {
    hide Add, W, RootLaws, Times;
    if m > 0 {
      GeometricPeriodic(t, N, e, m - 1);
      TimesDistributes(m - 1, e, N);
      WCycles(t, N, Times(m - 1, e), m - 1);
    }
  }

  lemma {:induction false} GeometricOfZero(t: Angles, N: nat, m: nat)
    requires RootLaws(t, N)
    ensures Geometric(t, 0, m) == Complex(m as real, 0.0)
  {
    hide RootLaws;
    if m > 0 {
      GeometricOfZero(t, N, m - 1);
      WOfZero(t, N);
      assert Times(m - 1, 0) == 0;
    }
  }

  /** Twice a cosine times a twiddle is the sum of two twiddles. */
  lemma CosineSplits(t: Angles, N: nat, n: nat, k: nat, k0: nat)
    requires RootLaws(t, N) && k0 <= N
    ensures Scale(2.0 * t.cosine(Times(n, k0)), W(t, Times(n, k))) ==
            Add(W(t, Times(n, k + k0)), W(t, Times(n, k + N - k0)))
  {
    hide W, RootLaws, Times, Scale, Add, Mul;
    var a, b := Times(n, k0), Times(n, N - k0);
    TimesDistributes(n, k, k0);
    TimesDistributes(n, k, N - k0);
    TimesDistributes(n, k0, N - k0);
    assert k + N - k0 == k + (N - k0);
    WAdd(t, N, Times(n, k), a);
    WAdd(t, N, Times(n, k), b);
    WCycles(t, N, 0, n);
    Conjugate(t, N, a, b);
    ConjugateSum(W(t, Times(n, k)), W(t, a), W(t, b), t.cosine(a));
  }

  lemma ConjugateSum(u: Complex, a: Complex, b: Complex, c: real)
    requires a.re == b.re == c && a.im == -b.im
    ensures Scale(2.0 * c, u) == Add(Mul(u, a), Mul(u, b))
  {
  }

  lemma Conjugate(t: Angles, N: nat, a: nat, b: nat)
    requires RootLaws(t, N) && W(t, a + b) == W(t, 0)
    ensures W(t, a).re == W(t, b).re == t.cosine(a) && W(t, a).im == -W(t, b).im
  {
    assert UnitLength(t, a) && UnitLength(t, b) && AnglesAdd(t, a, b);
    ConjugateAlgebra(t.cosine(a), t.sine(a), t.cosine(b), t.sine(b));
  }

  lemma ConjugateAlgebra(c: real, s: real, d: real, u: real)
    requires c * d - s * u == 1.0 && s * d + c * u == 0.0
    requires c * c + s * s == 1.0 && d * d + u * u == 1.0
    ensures d == c && u == -s
  {
    assert (c - d) * (c - d) + (s + u) * (s + u) == 0.0;
    SquarePositive(c - d);
    SquarePositive(s + u);
  }

  lemma {:induction false} ToneSum(t: Angles, N: nat, x: seq<real>, k0: nat, k: nat, m: nat)
    requires RootLaws(t, N) && |x| == N && UnitTone(t, x, k0) && k0 <= N && m <= N
    ensures Scale(2.0, Sum(t, x, 0, 1, k, m)) ==
            Add(Geometric(t, k + k0, m), Geometric(t, k + N - k0, m))
  {
    hide Add, Scale, W, RootLaws, Times, UnitTone, At;
    if m == 0 {
      ToneBase();
    } else {
      ToneSample(t, x, k0, m - 1);
      assert Sum(t, x, 0, 1, k, m) ==
             Add(Sum(t, x, 0, 1, k, m - 1), Scale(At(x, 0 + Times(m - 1, 1)), W(t, Times(m - 1, k))));
      ToneSum(t, N, x, k0, k, m - 1);
      CosineSplits(t, N, m - 1, k, k0);
      ToneStep(Sum(t, x, 0, 1, k, m - 1), Geometric(t, k + k0, m - 1), Geometric(t, k + N - k0, m - 1),
               t.cosine(Times(m - 1, k0)), W(t, Times(m - 1, k)),
               W(t, Times(m - 1, k + k0)), W(t, Times(m - 1, k + N - k0)));
    }
  }

  lemma ToneSample(t: Angles, x: seq<real>, k0: nat, n: nat)
    requires UnitTone(t, x, k0) && n < |x|
    ensures At(x, 0 + Times(n, 1)) == t.cosine(Times(n, k0))
  {
    assert Times(n, 1) == n;
  }

  lemma ToneBase()
    ensures Scale(2.0, Zero) == Add(Zero, Zero)
  {
  }

  lemma ToneStep(sum: Complex, g: Complex, h: Complex, c: real, u: Complex, v: Complex, w: Complex)
    requires Scale(2.0, sum) == Add(g, h) && Scale(2.0 * c, u) == Add(v, w)
    ensures Scale(2.0, Add(sum, Scale(c, u))) == Add(Add(g, v), Add(h, w))
  {
    assert Scale(2.0, Scale(c, u)) == Scale(2.0 * c, u);
  }

  /** A unit tone reads N/2 at its own bin and nothing at any other bin below Nyquist. */
  lemma ToneTransform(t: Angles, N: nat, x: seq<real>, k0: nat, k: nat)
    requires RootLaws(t, N) && Primitive(t, N) && |x| == N && UnitTone(t, x, k0)
    requires 0 < k0 < N / 2 && k < N / 2
    ensures Transform(t, x, k) == if k == k0 then Complex(N as real / 2.0, 0.0) else Zero
  {
    hide Sum, Geometric, W, RootLaws, UnitTone, Primitive;
    ToneSum(t, N, x, k0, k, N);
    GeometricVanishes(t, N, k + k0);
    if k == k0 {
      GeometricPeriodic(t, N, 0, N);
      GeometricOfZero(t, N, N);
      assert 0 + N == k + N - k0;
    } else if k < k0 {
      GeometricVanishes(t, N, k + N - k0);
    } else {
      GeometricPeriodic(t, N, k - k0, N);
      GeometricVanishes(t, N, k - k0);
      assert (k - k0) + N == k + N - k0;
    }
  }

  /** With the rectangular window's output scale 2/N a unit tone measures exactly 1 at its bin. */
  lemma {:induction false} ToneCalibration(t: Angles, N: nat, x: seq<real>, k0: nat, k: nat, scale: real)
    requires RootLaws(t, N) && Primitive(t, N) && |x| == N && UnitTone(t, x, k0)
    requires 0 < k0 < N / 2 && k < N / 2 && scale == 2.0 / N as real
    ensures NormSq(Transform(t, x, k)) * (scale * scale) == if k == k0 then 1.0 else 0.0
  {
    hide Transform, RootLaws, UnitTone, Primitive;
    ToneTransform(t, N, x, k0, k);
    var half := N as real / 2.0;
    assert half * scale == 1.0;
    assert (half * half) * (scale * scale) == (half * scale) * (half * scale);
  }
}
