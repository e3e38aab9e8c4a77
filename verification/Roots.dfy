/** Complex arithmetic and the laws of the N-th roots of unity that the transform relies on. */
module Roots {
  datatype Complex = Complex(re: real, im: real)

  const Zero := Complex(0.0, 0.0)
  const One := Complex(1.0, 0.0)

  function Add(a: Complex, b: Complex): Complex { Complex(a.re + b.re, a.im + b.im) }

  function Sub(a: Complex, b: Complex): Complex { Complex(a.re - b.re, a.im - b.im) }

  function Mul(a: Complex, b: Complex): Complex {
    Complex(a.re * b.re - a.im * b.im, a.re * b.im + a.im * b.re)
  }

  function Scale(x: real, a: Complex): Complex { Complex(x * a.re, x * a.im) }

  function NormSq(a: Complex): real { a.re * a.re + a.im * a.im }

  /** cosine(i) and sine(i) stand for cos and sin of 2*pi*i/N. */
  datatype Angles = Angles(cosine: nat -> real, sine: nat -> real)

  /** The e-th power of the forward twiddle factor exp(-2*pi*i/N). */
  function W(t: Angles, e: nat): Complex { Complex(t.cosine(e), -t.sine(e)) }

  ghost predicate AnglesAdd(t: Angles, a: nat, b: nat) {
    && t.cosine(a + b) == t.cosine(a) * t.cosine(b) - t.sine(a) * t.sine(b)
    && t.sine(a + b) == t.sine(a) * t.cosine(b) + t.cosine(a) * t.sine(b)
  }

  ghost predicate UnitLength(t: Angles, a: nat) {
    t.cosine(a) * t.cosine(a) + t.sine(a) * t.sine(a) == 1.0
  }

  /** What the proofs use of the trigonometric functions. */
  ghost predicate AngleLaws(t: Angles) {
    && t.cosine(0) == 1.0 && t.sine(0) == 0.0
    && (forall a: nat, b: nat :: AnglesAdd(t, a, b))
    && (forall a: nat :: UnitLength(t, a))
  }

  /** N angles make a turn, and N / 4 a quarter of it. */
  ghost predicate RootLaws(t: Angles, N: nat) {
    && N > 0 && N % 4 == 0 && AngleLaws(t)
    && t.cosine(N / 4) == 0.0 && t.sine(N / 4) == 1.0
  }

  /** No smaller power returns to one. */
  ghost predicate Primitive(t: Angles, N: nat) {
    forall e: nat :: 0 < e < N ==> t.cosine(e) != 1.0
  }

  lemma WAdd(t: Angles, N: nat, a: nat, b: nat)
    requires RootLaws(t, N)
    ensures W(t, a + b) == Mul(W(t, a), W(t, b))
  {
    assert AnglesAdd(t, a, b);
  }

  lemma WHalf(t: Angles, N: nat)
    requires RootLaws(t, N)
    ensures W(t, N / 2) == Complex(-1.0, 0.0) && W(t, N) == One && 2 * (N / 2) == N
  {
    assert AnglesAdd(t, N / 4, N / 4) && N / 4 + N / 4 == N / 2;
    assert AnglesAdd(t, N / 2, N / 2) && N / 2 + N / 2 == N;
  }

  lemma MulUnits(a: Complex)
    ensures Mul(a, Complex(-1.0, 0.0)) == Sub(Zero, a) && Mul(a, One) == a
  {
  }

  lemma WShift(t: Angles, N: nat, e: nat)
    requires RootLaws(t, N)
    ensures W(t, e + N / 2) == Sub(Zero, W(t, e)) && W(t, e + N) == W(t, e) && 2 * (N / 2) == N
  {
    hide W, RootLaws;
    WHalf(t, N);
    WAdd(t, N, e, N / 2);
    WAdd(t, N, e, N);
    MulUnits(W(t, e));
  }

  /** Multiplication of indices; hidden in most proofs so that the solver sees no non-linear arithmetic. */
  function Times(a: nat, b: nat): nat { a * b }

  lemma TimesStep(a: nat, b: nat)
    ensures Times(0, b) == 0 && Times(a + 1, b) == Times(a, b) + b
  {
  }

  lemma TimesDistributes(a: nat, b: nat, c: nat)
    ensures Times(a, b + c) == Times(a, b) + Times(a, c) && Times(a, b) == Times(b, a)
  {
  }

  lemma {:induction false} WCycles(t: Angles, N: nat, e: nat, u: nat)
    requires RootLaws(t, N)
    ensures W(t, e + Times(u, N)) == W(t, e)
  {
    hide W, RootLaws, Times;
    if u == 0 {
      TimesStep(0, N);
    } else {
      WCycles(t, N, e, u - 1);
      TimesStep(u - 1, N);
      WShift(t, N, e + Times(u - 1, N));
    }
  }

  /** The symmetries that let one quarter of the cosine fill the whole table. */
  lemma QuarterSymmetry(t: Angles, N: nat, i: nat)
    requires RootLaws(t, N) && i <= N / 4
    ensures t.sine(N / 4 + i) == t.cosine(i)
    ensures t.sine(N / 4 - i) == t.cosine(i)
    ensures t.sine(N / 4 + N / 2 - i) == -t.cosine(i)
  {
    assert AnglesAdd(t, N / 4, i);
    var a := N / 4 - i;
    assert AnglesAdd(t, a, i) && a + i == N / 4;
    assert UnitLength(t, i);
    calc {
      t.cosine(i);
      t.cosine(i) * (t.sine(a) * t.cosine(i) + t.cosine(a) * t.sine(i));
      t.sine(a) * (t.cosine(i) * t.cosine(i)) + (t.cosine(a) * t.cosine(i)) * t.sine(i);
      { assert t.cosine(a) * t.cosine(i) == t.sine(a) * t.sine(i); }
      t.sine(a) * (t.cosine(i) * t.cosine(i)) + t.sine(a) * (t.sine(i) * t.sine(i));
      t.sine(a) * (t.cosine(i) * t.cosine(i) + t.sine(i) * t.sine(i));
      t.sine(a);
    }
    WShift(t, N, a);
    assert N / 4 + N / 2 - i == a + N / 2;
  }

  /** The laws describe something: for N = 4 the exact quarter turns satisfy them. */
  function QuarterTurns(): Angles {
    Angles((k: nat) => if k % 4 == 0 then 1.0 else if k % 4 == 2 then -1.0 else 0.0,
           (k: nat) => if k % 4 == 1 then 1.0 else if k % 4 == 3 then -1.0 else 0.0)
  }

  lemma QuarterTurnsAreRoots()
    ensures RootLaws(QuarterTurns(), 4) && Primitive(QuarterTurns(), 4)
  {
    var t := QuarterTurns();
    forall a: nat, b: nat ensures AnglesAdd(t, a, b) {
      assert (a + b) % 4 == (a % 4 + b % 4) % 4;
    }
  }
}
