/** The real-input radix-2 engine: table set-up, bit-reversed load, in-place butterflies, magnitudes. */
module FftEngine {
  import opened Roots
  import opened Dft
  import opened BitReversal
  import opened FftStages
  import opened Windows

  function Windowed(x: seq<real>, wnd: seq<real>): (y: seq<real>)
    requires |wnd| == |x|
    ensures |y| == |x|
  {
    seq(|x|, i requires 0 <= i < |x| => x[i] * wnd[i])
  }

  /** Two real sequences read as one complex sequence. */
  function Zip(re: seq<real>, im: seq<real>): (z: seq<Complex>)
    requires |re| == |im|
    ensures |z| == |re|
    ensures forall i: nat :: i < |z| ==> z[i] == Complex(re[i], im[i])
  {
    seq(|re|, i requires 0 <= i < |re| && |re| == |im| => Complex(re[i], im[i]))
  }

  /** The squared magnitude of one output in the given squared scale. */
  function Power(z: Complex, k2: real): real { NormSq(z) * k2 }

  function Mean(sum: real, n: nat): real
    requires n > 0
  {
    sum / n as real
  }

  /** 2 / (N * coherentGain). */
  function OutputScale(n: nat, coherentGain: real): real
    requires n as real * coherentGain != 0.0
  {
    2.0 / (n as real * coherentGain)
  }

  /** The scale is 2 over the sum of the window values, which is a known number. */
  ghost predicate Calibrated(scale: real, window: Window, phase: Angles, n: nat) {
    scale * WindowSum(window, phase, n) == 2.0 && scale * ExactSum(window, n) == 2.0
  }

  function Square(r: real): real { r * r }

  /** A butterfly between places l and m under the twiddle w. */
  function Crossed(z: seq<Complex>, l: nat, m: nat, w: Complex): (z': seq<Complex>)
    requires l < m < |z|
    ensures |z'| == |z|
  {
    z[l := Add(z[l], Mul(w, z[m]))][m := Sub(z[l], Mul(w, z[m]))]
  }

  lemma CrossedParts(a: Complex, b: Complex, w: Complex)
    ensures Add(a, Mul(w, b)) == Complex(a.re + Mul(w, b).re, a.im + Mul(w, b).im)
    ensures Sub(a, Mul(w, b)) == Complex(a.re - Mul(w, b).re, a.im - Mul(w, b).im)
  {
  }

  /** The block at l after its first k butterflies. */
  function Partly(t: Angles, z: seq<Complex>, l: nat, ke: nat, je: nat, k: nat): (z': seq<Complex>)
    requires l + 2 * ke <= |z| && k <= ke
    ensures |z'| == |z|
  {
    var target := Target(t, z, l, ke, je);
    seq(|z|, i requires 0 <= i < |z| && |target| == |z| =>
      if l <= i < l + k || l + ke <= i < l + ke + k then target[i] else z[i])
  }

  lemma PartlyEnds(t: Angles, z: seq<Complex>, l: nat, ke: nat, je: nat)
    requires l + 2 * ke <= |z|
    ensures Partly(t, z, l, ke, je, 0) == z && Stepped(t, z, Partly(t, z, l, ke, je, ke), l, ke, je)
  {
    TargetSteps(t, z, l, ke, je);
    hide Target, Butterflied, Stepped;
    assert Partly(t, z, l, ke, je, ke) == Target(t, z, l, ke, je);
  }

  lemma PartlyNext(t: Angles, z: seq<Complex>, l: nat, ke: nat, je: nat, k: nat)
    requires l + 2 * ke <= |z| && k < ke
    ensures Crossed(Partly(t, z, l, ke, je, k), l + k, l + ke + k, W(t, Times(k, je)))
            == Partly(t, z, l, ke, je, k + 1)
  {
    hide Add, Sub, Mul, W, Times, Target, Butterflied;
    ButterfliedPair(t, z, l, ke, je, k);
  }

  class Engine {
    var bits: nat
    var outScale: real
    var fr: array<real>
    var fi: array<real>
    var br: array<nat>
    var w: array<real>
    var wnd: array?<real>
    ghost var angles: Angles

    ghost predicate Shape()
      reads this
    {
      && 2 <= bits <= 14
      && fr.Length == Pow2(bits) && fi.Length == Pow2(bits) && br.Length == Pow2(bits)
      && w.Length == Pow2(bits) / 4 * 3
      && fr != fi && w != fr && w != fi
      && (wnd != null ==> wnd.Length == Pow2(bits) && wnd != fr && wnd != fi && wnd != w)
    }

    /** The twiddle table is one sine curve of three quarters of a turn. */
    ghost predicate TwiddlesReady()
      reads this, w
      requires Shape()
    {
      forall e: nat :: e < w.Length ==> w[e] == angles.sine(e)
    }

    ghost predicate ReversalReady(n: nat)
      reads this, br
      requires Shape() && n <= Pow2(bits)
    {
      forall i: nat :: i < n ==> br[i] == Rev(bits, i)
    }

    ghost predicate Ready()
      reads this, br, w
    {
      Shape() && RootLaws(angles, Pow2(bits)) && TwiddlesReady() && ReversalReady(Pow2(bits))
    }

    /** The working buffers read as one sequence of complex numbers. */
    ghost function Z(): (z: seq<Complex>)
      reads this, fr, fi
      requires fr.Length == fi.Length
      ensures |z| == fr.Length
      ensures forall i: nat :: i < |z| ==> z[i] == Complex(fr[i], fi[i])
    {
      Zip(fr[..], fi[..])
    }

    ghost function Wnd(): (s: seq<real>)
      reads this, wnd
      requires Shape()
      ensures |s| == Pow2(bits)
    {
      if wnd == null then seq(Pow2(bits), _ => 1.0) else wnd[..]
    }

    constructor (newBits: nat, window: Window, angles: Angles, phase: Angles)
      requires 2 <= newBits <= 14 && RootLaws(angles, Pow2(newBits))
      requires PhaseLaws(phase, Pow2(newBits) - 1)
      ensures Ready() && bits == newBits && this.angles == angles
      ensures forall i: nat :: i < Pow2(newBits) ==> Wnd()[i] == WindowValue(window, phase.cosine(i))
      ensures Calibrated(outScale, window, phase, Pow2(newBits))
      ensures fresh(fr) && fresh(fi) && fresh(br) && fresh(w) && (wnd != null ==> fresh(wnd))
    {
      hide WindowSum, WindowValue, RootLaws, PhaseLaws, ExactSum, Calibrated, Rev;
      var N := Pow2(newBits);
      bits := newBits;
      outScale := 1.0;
      fr := new real[N];
      fi := new real[N];
      br := new nat[N];
      w := new real[N / 4 * 3];
      if window == Rectangular {
        wnd := null;
      } else {
        wnd := new real[N];
      }
      this.angles := angles;
      new;
      InitReversal();
      InitTwiddles(angles);
      InitWindow(window, phase);
    }

    method InitReversal()
      requires Shape()
      modifies br
      ensures ReversalReady(Pow2(bits))
    {
      hide Rev, RootLaws;
      var N := Pow2(bits);
      Pow2Grows(2, bits);
      var je := 1;
      FirstReversals(bits);
      br[0] := 0;
      br[1] := N / 2;
      for i := 0 to bits - 1
        invariant je == Pow2(i)
        invariant forall j: nat :: j < 2 * je ==> j < N && br[j] == Rev(bits, j)
      {
        NextPower(bits, i);
        br[je * 2] := br[je] / 2;
        je := je * 2;
        for j := 1 to je
          invariant forall u: nat :: u < je + j ==> br[u] == Rev(bits, u)
        {
          RevOfSum(bits, i + 1, j);
          br[je + j] := br[je] + br[j];
        }
      }
    }

    method InitTwiddles(t: Angles)
      requires Shape() && RootLaws(t, Pow2(bits)) && t == angles
      modifies w
      ensures TwiddlesReady()
    {
      var N := Pow2(bits);
      var s2, s4 := N / 2, N / 4;
      TableAnchors(t, N);
      hide RootLaws, Pow2;
      w[0] := 0.0;
      w[s2] := 0.0;
      w[s4] := 1.0;
      for i := 1 to s4
        invariant forall e: nat :: e == 0 || e == s2 || s4 - i < e < s4 + i || s4 + s2 - i < e < s4 + s2 ==>
                    w[e] == t.sine(e)
      {
        QuarterSymmetry(t, N, i);
        var f := t.cosine(i);
        w[s4 + i] := f;
        w[s4 - i] := f;
        w[s4 + s2 - i] := -f;
      }
    }

    method InitWindow(window: Window, phase: Angles)
      requires Shape() && (wnd == null <==> window == Rectangular)
      requires PhaseLaws(phase, Pow2(bits) - 1)
      modifies this`outScale, wnd
      ensures Shape()
      ensures forall i: nat :: i < Pow2(bits) ==> Wnd()[i] == WindowValue(window, phase.cosine(i))
      ensures Calibrated(outScale, window, phase, Pow2(bits))
    {
      hide WindowSum, WindowValue, RootLaws, PhaseLaws, ExactSum, Calibrated;
      var N := Pow2(bits);
      if wnd != null {
        for i := 0 to N
          invariant forall u: nat :: u < i ==> wnd[u] == WindowValue(window, phase.cosine(u))
        {
          WindowFormula(window, phase.cosine(i));
          wnd[i] := if window == Hann then 0.5 * (1.0 - phase.cosine(i)) else 0.54 - 0.46 * phase.cosine(i);
        }
      }
      RectangularIsFlat();
      Calibrate(window, phase);
    }

    method Calibrate(window: Window, phase: Angles)
      requires Shape() && (wnd == null <==> window == Rectangular)
      requires wnd != null ==> forall i: nat :: i < Pow2(bits) ==> wnd[i] == WindowValue(window, phase.cosine(i))
      requires PhaseLaws(phase, Pow2(bits) - 1)
      modifies this`outScale
      ensures Calibrated(outScale, window, phase, Pow2(bits))
    {
      hide WindowSum, WindowValue, RootLaws, PhaseLaws, ExactSum, Mean, OutputScale;
      var N := Pow2(bits);
      Pow2Grows(2, bits);
      WindowSumIsExact(window, phase, N);
      var coherentGain := 1.0;
      if wnd != null {
        var sum := 0.0;
        WindowSumStart(window, phase);
        for i := 0 to N
          invariant sum == WindowSum(window, phase, i)
        {
          WindowSumStep(window, phase, i);
          sum := sum + wnd[i];
        }
        coherentGain := Mean(sum, N);
      }
      CalibratedScale(window, phase, N, coherentGain);
      outScale := OutputScale(N, coherentGain);
    }

    /** One butterfly: the elements at l and m become their sum and difference under the twiddle. */
    method ButterflyAt(l: nat, m: nat, sn: real, cs: real)
      requires fr.Length == fi.Length && fr != fi && l < m < fr.Length
      modifies fr, fi
      ensures Z() == Crossed(old(Z()), l, m, Complex(cs, -sn))
    {
      hide Mul, Add, Sub;
      CrossedParts(Complex(fr[l], fi[l]), Complex(fr[m], fi[m]), Complex(cs, -sn));
      var frm, fim := fr[m], fi[m];
      var wxmr, wxmi := Rotate(frm, fim, cs, sn);
      var frl, fil := fr[l], fi[l];
      fr[m] := frl - wxmr;
      fr[l] := frl + wxmr;
      fi[m] := fil - wxmi;
      fi[l] := fil + wxmi;
    }

    method Twiddle(e: nat, s4: nat) returns (sn: real, cs: real)
      requires Shape() && TwiddlesReady() && RootLaws(angles, Pow2(bits))
      requires s4 == Pow2(bits) / 4 && e < Pow2(bits) / 2
      ensures Complex(cs, -sn) == W(angles, e)
    {
      TableAnchors(angles, Pow2(bits));
      CosineIsShiftedSine(angles, Pow2(bits), e);
      hide RootLaws, Pow2;
      sn, cs := w[e], w[s4 + e];
    }

    /** Butterfly k of the block at l. */
    method ButterflyInBlock(ghost z: seq<Complex>, l: nat, m: nat, ke: nat, je: nat, k: nat, wi: nat, s4: nat)
      requires Shape() && TwiddlesReady() && RootLaws(angles, Pow2(bits))
      requires m == l + ke && l + 2 * ke <= Pow2(bits) == |z| && s4 == Pow2(bits) / 4 && k < ke
      requires wi == Times(k, je) && wi < Pow2(bits) / 2 && Z() == Partly(angles, z, l, ke, je, k)
      modifies fr, fi
      ensures Z() == Partly(angles, z, l, ke, je, k + 1)
    {
      hide RootLaws, Times, Pow2, W, TwiddlesReady, Crossed, Partly, Zip;
      var sn, cs := Twiddle(wi, s4);
      PartlyNext(angles, z, l, ke, je, k);
      ButterflyAt(l + k, m + k, sn, cs);
    }

    /** The inner loop: one block's butterflies, walking the twiddle table in steps of je. */
    method ButterflyBlock(l: nat, m: nat, ke: nat, je: nat, s4: nat)
      requires Shape() && TwiddlesReady() && RootLaws(angles, Pow2(bits))
      requires m == l + ke && l + 2 * ke <= Pow2(bits) && s4 == Pow2(bits) / 4
      requires 0 < ke && 0 < je && 2 * Times(ke, je) == Pow2(bits)
      modifies fr, fi
      ensures Stepped(angles, old(Z()), Z(), l, ke, je)
    {
      TableAnchors(angles, Pow2(bits));
      FirstTwiddle(je);
      hide RootLaws, Times, Stepped, Pow2, TwiddlesReady, Partly, Zip;
      ghost var z := Z();
      PartlyEnds(angles, z, l, ke, je);
      var wi := 0;
      for k := 0 to ke
        invariant wi == Times(k, je) && TwiddlesReady()
        invariant Z() == Partly(angles, z, l, ke, je, k)
      {
        TwiddleInTable(k, ke, je);
        ButterflyInBlock(z, l, m, ke, je, k, wi, s4);
        wi := wi + je;
      }
    }

    /** The passes: from one-point blocks to one N-point block. */
    method Butterflies(ghost x: seq<real>)
      requires Ready() && |x| == Pow2(bits)
      requires PassDone(angles, x, Z(), bits, 1)
      modifies fr, fi
      ensures PassDone(angles, x, Z(), 0, Pow2(bits))
    {
      hide PassDone, Midway, RootLaws, TwiddlesReady, ReversalReady, Stepped, Times;
      var N := Pow2(bits);
      var s4 := N / 4;
      var s, je := 1, N;
      for i := 0 to bits
        invariant s == Pow2(i) && je == Pow2(bits - i) && TwiddlesReady()
        invariant PassDone(angles, x, Z(), bits - i, s)
      {
        var ke := s;
        s := s * 2;
        je := je / 2;
        ghost var m := bits - i - 1;
        PassStarts(angles, x, Z(), m, ke);
        HalvesOfPass(i, m);
        for j := 0 to je
          invariant Midway(angles, x, Z(), m, ke, j) && TwiddlesReady()
        {
          BlockInBuffer(j, ke, je, N);
          ghost var before := Z();
          ButterflyBlock(s * j, ke * (j * 2 + 1), ke, je, s4);
          BlockFinished(angles, N, x, before, Z(), m, ke, j);
        }
        PassEnds(angles, x, Z(), m, ke);
      }
    }

    /** Squared magnitudes of the transform of the windowed samples, in the engine's calibrated scale. */
    method ComputeMagSq(samples: array<real>, magSq: array<real>)
      requires Ready() && samples.Length >= Pow2(bits) && magSq.Length >= Pow2(bits) / 2
      requires samples != fr && samples != fi && samples != magSq
      requires magSq != fr && magSq != fi && magSq != w && magSq != wnd
      modifies fr, fi, magSq
      ensures forall k: nat :: k < Pow2(bits) / 2 ==>
                magSq[k] == Power(Transform(angles, Windowed(samples[..Pow2(bits)], Wnd()), k), Square(outScale))
      ensures forall k: nat :: Pow2(bits) / 2 <= k < magSq.Length ==> magSq[k] == old(magSq[k])
    {
      var N := Pow2(bits);
      ghost var x := Windowed(samples[..N], Wnd());
      Load(samples, x);
      hide PassDone, RootLaws, Rev, Power, Transform, Square;
      Butterflies(x);
      Magnitudes(x, magSq, Square(outScale));
    }

    method Magnitudes(ghost x: seq<real>, magSq: array<real>, k2: real)
      requires Shape() && |x| == Pow2(bits) && PassDone(angles, x, Z(), 0, Pow2(bits))
      requires magSq.Length >= Pow2(bits) / 2 && magSq != fr && magSq != fi
      modifies magSq
      ensures forall k: nat :: k < Pow2(bits) / 2 ==>
                magSq[k] == Power(Transform(angles, x, k), k2)
      ensures forall k: nat :: Pow2(bits) / 2 <= k < magSq.Length ==> magSq[k] == old(magSq[k])
    {
      hide Power, Transform, PassDone, Pow2;
      ghost var z := Z();
      var half := Pow2(bits) / 2;
      for k := 0 to half
        invariant forall u: nat :: u < k ==> magSq[u] == Power(Transform(angles, x, u), k2)
        invariant forall u: nat :: half <= u < magSq.Length ==> magSq[u] == old(magSq[u])
      {
        LastPassIsTransform(angles, x, z, k);
        var re, im := fr[k], fi[k];
        magSq[k] := Power(Complex(re, im), k2);
      }
    }

    /** Windowed samples go to bit-reversed places; every place is written once. */
    method Load(samples: array<real>, ghost x: seq<real>)
      requires Ready() && samples.Length >= Pow2(bits) && samples != fr && samples != fi
      requires x == Windowed(samples[..Pow2(bits)], Wnd())
      modifies fr, fi
      ensures PassDone(angles, x, Z(), bits, 1)
    {
      hide Rev, PassDone, RootLaws;
      var N := Pow2(bits);
      for n := 0 to N
        invariant forall u: nat :: u < n ==> Rev(bits, u) < N && fr[Rev(bits, u)] == x[u]
      {
        RevBound(bits, n);
        ReversalIsInjective(bits, n);
        fr[br[n]] := if wnd != null then samples[n] * wnd[n] else samples[n];
      }
      for n := 0 to N
        invariant forall u: nat :: u < N ==> Rev(bits, u) < N && fr[Rev(bits, u)] == x[u]
        invariant forall u: nat :: u < n ==> fi[u] == 0.0
      {
        fi[n] := 0.0;
      }
      forall b: nat | b < N ensures Rev(bits, b) < N && Z()[b] == Complex(x[Rev(bits, b)], 0.0) {
        RevBound(bits, b);
        RevInvolutive(bits, b);
      }
      LoadedIsPassZero(angles, N, x, Z(), bits);
    }
  }

  /** A size outside 2..14 bits, or a failed allocation, leaves no engine. */
  method Begin(newBits: nat, window: Window, angles: Angles, phase: Angles, memoryOk: bool)
    returns (engine: Engine?)
    requires 2 <= newBits <= 14 ==> RootLaws(angles, Pow2(newBits))
    requires 2 <= newBits <= 14 ==> PhaseLaws(phase, Pow2(newBits) - 1)
    ensures engine == null <==> !(2 <= newBits <= 14 && memoryOk)
    ensures engine != null ==> engine.Ready() && engine.bits == newBits && engine.angles == angles
    ensures engine != null ==>
              forall i: nat :: i < Pow2(newBits) ==> engine.Wnd()[i] == WindowValue(window, phase.cosine(i))
    ensures engine != null ==> Calibrated(engine.outScale, window, phase, Pow2(newBits))
  {
    hide WindowSum, WindowValue, RootLaws, PhaseLaws, ExactSum, Calibrated, Pow2;
    if newBits < 2 || newBits > 14 || !memoryOk {
      return null;
    }
    engine := new Engine(newBits, window, angles, phase);
  }

  lemma TableAnchors(t: Angles, N: nat)
    requires RootLaws(t, N)
    ensures N >= 4 && N / 4 + N / 4 == N / 2 && N / 2 + N / 4 == N / 4 * 3
    ensures t.sine(0) == 0.0 && t.sine(N / 4) == 1.0 && t.sine(N / 2) == 0.0
  {
    WHalf(t, N);
    assert AnglesAdd(t, N / 4, N / 4);
  }

  lemma FirstReversals(m: nat)
    requires m > 0
    ensures Rev(m, 0) == 0 && Rev(m, 1) == Pow2(m) / 2
  {
    RevOfZero(m);
    RevOfPower(m, 0);
  }

  lemma NextPower(m: nat, i: nat)
    requires i + 1 < m
    ensures Rev(m, Pow2(i + 1)) == Rev(m, Pow2(i)) / 2 && 4 * Pow2(i) <= Pow2(m)
    ensures Pow2(i + 1) == 2 * Pow2(i)
  {
    RevOfPower(m, i);
    RevOfPower(m, i + 1);
    Pow2Grows(i + 2, m);
    assert Pow2(m - 1 - i) == 2 * Pow2(m - 1 - (i + 1));
  }

  lemma CosineIsShiftedSine(t: Angles, N: nat, e: nat)
    requires RootLaws(t, N)
    ensures t.sine(N / 4 + e) == t.cosine(e)
  {
    assert AnglesAdd(t, N / 4, e);
  }

  lemma WindowFormula(window: Window, c: real)
    ensures WindowValue(window, c) ==
            if window == Rectangular then 1.0 else if window == Hann then 0.5 * (1.0 - c) else 0.54 - 0.46 * c
  {
  }

  lemma RectangularIsFlat()
    ensures forall c: real :: WindowValue(Rectangular, c) == 1.0
  {
  }

  lemma WindowSumStart(window: Window, phase: Angles)
    ensures WindowSum(window, phase, 0) == 0.0
  {
  }

  lemma WindowSumStep(window: Window, phase: Angles, n: nat)
    ensures WindowSum(window, phase, n + 1) == WindowSum(window, phase, n) + WindowValue(window, phase.cosine(n))
  {
  }

  /** The scale 2 / (N * mean) is 2 over the window's sum. */
  lemma CalibratedScale(window: Window, phase: Angles, n: nat, mean: real)
    requires n > 0 && WindowSum(window, phase, n) != 0.0
    requires mean == if window == Rectangular then 1.0 else Mean(WindowSum(window, phase, n), n)
    ensures n as real * mean != 0.0 && OutputScale(n, mean) * WindowSum(window, phase, n) == 2.0
  {
    WindowSumOfCosines(window, phase, n);
    MeanTimesCount(WindowSum(window, phase, n), n as real);
  }

  lemma MeanTimesCount(sum: real, n: real)
    requires n != 0.0 && sum != 0.0
    ensures n * (sum / n) == sum && 2.0 / sum * sum == 2.0
  {
  }

  lemma FirstTwiddle(je: nat)
    ensures Times(0, je) == 0
  {
  }

  /** Multiplication by the twiddle factor with the given cosine and sine. */
  method Rotate(re: real, im: real, c: real, s: real) returns (rotatedRe: real, rotatedIm: real)
    ensures Complex(rotatedRe, rotatedIm) == Mul(Complex(c, -s), Complex(re, im))
  {
    rotatedRe := re * c + im * s;
    rotatedIm := im * c - re * s;
  }

  lemma TwiddleInTable(k: nat, ke: nat, je: nat)
    requires k < ke
    ensures Times(k, je) + je <= Times(ke, je) && Times(k + 1, je) == Times(k, je) + je
  {
    assert (k + 1) * je <= ke * je;
  }

  lemma HalvesOfPass(i: nat, m: nat)
    ensures 2 * Times(Pow2(i), Pow2(m)) == Pow2(i + m + 1)
  {
    Pow2Split(i, m);
  }

  lemma BlockInBuffer(j: nat, ke: nat, je: nat, N: nat)
    requires j < je && 2 * Times(ke, je) == N
    ensures ke * 2 * j == Times(j, 2 * ke) && ke * (j * 2 + 1) == ke * 2 * j + ke
    ensures ke * 2 * j + 2 * ke <= N
  {
    assert (j + 1) * (2 * ke) <= je * (2 * ke);
  }

  lemma ReversalIsInjective(m: nat, n: nat)
    requires n < Pow2(m)
    ensures forall u: nat :: u < n ==> Rev(m, u) != Rev(m, n)
  {
    RevInvolutive(m, n);
    forall u: nat | u < n ensures Rev(m, u) != Rev(m, n) {
      RevInvolutive(m, u);
    }
  }
}
