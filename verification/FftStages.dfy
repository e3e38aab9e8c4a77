/** What each pass of the in-place transform has achieved, as facts about sequences of complex numbers. */
module FftStages {
  import opened Roots
  import opened Dft
  import opened BitReversal

  /** z[off .. off+s] holds the s-point transform of the samples start, start+st, start+2*st, ... */
  ghost predicate BlockAt(t: Angles, x: seq<real>, z: seq<Complex>, off: nat, start: nat, st: nat, s: nat) {
    && off + s <= |z|
    && forall k: nat :: k < s ==> z[off + k] == Sum(t, x, start, st, Times(k, st), s)
  }

  /** One run of butterflies over the two halves of the block at l; nothing else moves. */
  ghost predicate Stepped(t: Angles, z: seq<Complex>, z': seq<Complex>, l: nat, ke: nat, je: nat) {
    && |z'| == |z| && l + 2 * ke <= |z|
    && (forall k: nat :: k < ke ==>
          z'[l + k] == Add(z[l + k], Mul(W(t, Times(k, je)), z[l + ke + k])))
    && (forall k: nat :: k < ke ==>
          z'[l + ke + k] == Sub(z[l + k], Mul(W(t, Times(k, je)), z[l + ke + k])))
    && (forall i: nat :: i < l || l + 2 * ke <= i < |z| ==> z'[i] == z[i])
  }

  /** What the butterflies of the block at l leave at index i. */
  function Butterflied(t: Angles, z: seq<Complex>, l: nat, ke: nat, je: nat, i: nat): Complex
    requires i < |z| && l + 2 * ke <= |z|
  {
    if l <= i < l + ke then Add(z[i], Mul(W(t, Times(i - l, je)), z[i + ke]))
    else if l + ke <= i < l + 2 * ke then Sub(z[i - ke], Mul(W(t, Times(i - l - ke, je)), z[i]))
    else z[i]
  }

  function Target(t: Angles, z: seq<Complex>, l: nat, ke: nat, je: nat): (z': seq<Complex>)
    requires l + 2 * ke <= |z|
    ensures |z'| == |z| && forall i: nat :: i < |z| ==> z'[i] == Butterflied(t, z, l, ke, je, i)
    ensures forall i: nat :: i < l || l + 2 * ke <= i < |z| ==> z'[i] == z[i]
  {
    seq(|z|, i requires 0 <= i < |z| => Butterflied(t, z, l, ke, je, i))
  }

  lemma ButterfliedPair(t: Angles, z: seq<Complex>, l: nat, ke: nat, je: nat, k: nat)
    requires l + 2 * ke <= |z| && k < ke
    ensures Butterflied(t, z, l, ke, je, l + k) == Add(z[l + k], Mul(W(t, Times(k, je)), z[l + ke + k]))
    ensures Butterflied(t, z, l, ke, je, l + ke + k) == Sub(z[l + k], Mul(W(t, Times(k, je)), z[l + ke + k]))
  {
    hide Add, Sub, Mul, W, Times;
  }

  lemma TargetSteps(t: Angles, z: seq<Complex>, l: nat, ke: nat, je: nat)
    requires l + 2 * ke <= |z|
    ensures Stepped(t, z, Target(t, z, l, ke, je), l, ke, je)
  {
    hide Add, Sub, Mul, W, Times, Target;
    var z' := Target(t, z, l, ke, je);
    forall k: nat | k < ke
      ensures z'[l + k] == Add(z[l + k], Mul(W(t, Times(k, je)), z[l + ke + k]))
      ensures z'[l + ke + k] == Sub(z[l + k], Mul(W(t, Times(k, je)), z[l + ke + k]))
    {
      ButterfliedPair(t, z, l, ke, je, k);
      assert z'[l + k] == Butterflied(t, z, l, ke, je, l + k);
      assert z'[l + ke + k] == Butterflied(t, z, l, ke, je, l + ke + k);
    }
  }

  lemma BlockUntouched(t: Angles, x: seq<real>, z: seq<Complex>, z': seq<Complex>, l: nat, ke: nat, je: nat,
                       off: nat, start: nat, st: nat, s: nat)
    requires Stepped(t, z, z', l, ke, je) && BlockAt(t, x, z, off, start, st, s)
    requires off + s <= l || l + 2 * ke <= off
    ensures BlockAt(t, x, z', off, start, st, s)
  {
    hide Sum, Times, W, Add, Mul, Sub;
    forall k: nat | k < s ensures z'[off + k] == Sum(t, x, start, st, Times(k, st), s) {
      var i := off + k;
      assert z'[i] == z[i];
    }
  }

  lemma BlockMerged(t: Angles, N: nat, x: seq<real>, z: seq<Complex>, z': seq<Complex>,
                    l: nat, ke: nat, je: nat, start: nat)
    requires RootLaws(t, N) && 2 * Times(ke, je) == N
    requires Stepped(t, z, z', l, ke, je)
    requires BlockAt(t, x, z, l, start, 2 * je, ke)
    requires BlockAt(t, x, z, l + ke, start + je, 2 * je, ke)
    ensures BlockAt(t, x, z', l, start, je, 2 * ke)
  {
    hide Sum, Times, W, Add, Mul, Sub, RootLaws;
    forall k: nat | k < 2 * ke ensures z'[l + k] == Sum(t, x, start, je, Times(k, je), 2 * ke) {
      var k0 := if k < ke then k else k - ke;
      TwiceTimes(k0, ke, je);
      assert z[l + k0] == Sum(t, x, start, 2 * je, Times(k0, 2 * je), ke);
      assert z[l + ke + k0] == Sum(t, x, start + je, 2 * je, Times(k0, 2 * je), ke);
      Butterfly(t, N, x, start, je, Times(k0, je), ke);
      if k < ke {
        assert z'[l + k0] == Add(z[l + k0], Mul(W(t, Times(k0, je)), z[l + ke + k0]));
      } else {
        assert z'[l + ke + k0] == Sub(z[l + k0], Mul(W(t, Times(k0, je)), z[l + ke + k0]));
        assert l + k == l + ke + k0;
      }
    }
  }

  lemma TwiceTimes(k: nat, ke: nat, je: nat)
    ensures Times(k, 2 * je) == 2 * Times(k, je)
    ensures Times(ke + k, je) == Times(k, je) + Times(ke, je)
  {
  }

  // ---- A whole pass -----------------------------------------------------------------

  /** Part-way through a pass: the first j blocks are merged, the halves of the others still wait. */
  ghost predicate Midway(t: Angles, x: seq<real>, z: seq<Complex>, m: nat, ke: nat, j: nat) {
    && (forall b: nat :: b < j ==>
          BlockAt(t, x, z, Times(b, 2 * ke), Rev(m, b), Pow2(m), 2 * ke))
    && (forall b: nat :: 2 * j <= b < Pow2(m + 1) ==>
          BlockAt(t, x, z, Times(b, ke), Rev(m + 1, b), Pow2(m + 1), ke))
  }

  /** All 2^m blocks of s points are transformed. */
  ghost predicate PassDone(t: Angles, x: seq<real>, z: seq<Complex>, m: nat, s: nat) {
    forall b: nat :: b < Pow2(m) ==> BlockAt(t, x, z, Times(b, s), Rev(m, b), Pow2(m), s)
  }

  lemma PassStarts(t: Angles, x: seq<real>, z: seq<Complex>, m: nat, ke: nat)
    requires PassDone(t, x, z, m + 1, ke)
    ensures Midway(t, x, z, m, ke, 0)
  {
    hide BlockAt;
  }

  lemma PassEnds(t: Angles, x: seq<real>, z: seq<Complex>, m: nat, ke: nat)
    requires Midway(t, x, z, m, ke, Pow2(m))
    ensures PassDone(t, x, z, m, 2 * ke)
  {
    hide BlockAt;
  }

  lemma BlockOffsets(b: nat, j: nat, ke: nat)
    ensures Times(2 * j, ke) == Times(j, 2 * ke)
    ensures Times(2 * j + 1, ke) == Times(j, 2 * ke) + ke
    ensures b < j ==> Times(b, 2 * ke) + 2 * ke <= Times(j, 2 * ke)
    ensures b >= 2 * j + 2 ==> Times(j, 2 * ke) + 2 * ke <= Times(b, ke)
  {
    if b < j {
      assert (b + 1) * (2 * ke) <= j * (2 * ke);
    }
    if b >= 2 * j + 2 {
      assert (2 * j + 2) * ke <= b * ke;
    }
  }

  lemma {:induction false} BlockFinished(t: Angles, N: nat, x: seq<real>, z: seq<Complex>, z': seq<Complex>,
                      m: nat, ke: nat, j: nat)
    requires RootLaws(t, N) && 2 * Times(ke, Pow2(m)) == N && j < Pow2(m)
    requires Midway(t, x, z, m, ke, j)
    requires Stepped(t, z, z', Times(j, 2 * ke), ke, Pow2(m))
    ensures Midway(t, x, z', m, ke, j + 1)
  {
    hide BlockAt, Stepped, Times, RootLaws;
    var l := Times(j, 2 * ke);
    forall b: nat | b < j + 1
      ensures BlockAt(t, x, z', Times(b, 2 * ke), Rev(m, b), Pow2(m), 2 * ke)
    {
      BlockOffsets(b, j, ke);
      if b < j {
        BlockUntouched(t, x, z, z', l, ke, Pow2(m), Times(b, 2 * ke), Rev(m, b), Pow2(m), 2 * ke);
      } else {
        RevOfDouble(m, j);
        assert BlockAt(t, x, z, Times(2 * j, ke), Rev(m + 1, 2 * j), Pow2(m + 1), ke);
        assert BlockAt(t, x, z, Times(2 * j + 1, ke), Rev(m + 1, 2 * j + 1), Pow2(m + 1), ke);
        BlockMerged(t, N, x, z, z', l, ke, Pow2(m), Rev(m, j));
      }
    }
    forall b: nat | 2 * (j + 1) <= b < Pow2(m + 1)
      ensures BlockAt(t, x, z', Times(b, ke), Rev(m + 1, b), Pow2(m + 1), ke)
    {
      BlockOffsets(b, j, ke);
      BlockUntouched(t, x, z, z', l, ke, Pow2(m), Times(b, ke), Rev(m + 1, b), Pow2(m + 1), ke);
    }
  }

  /** Loading the samples in bit-reversed order is the zeroth pass. */
  lemma LoadedIsPassZero(t: Angles, N: nat, x: seq<real>, z: seq<Complex>, m: nat)
    requires RootLaws(t, N) && |z| == |x| == Pow2(m)
    requires forall b: nat :: b < Pow2(m) ==> Rev(m, b) < |x| && z[b] == Complex(x[Rev(m, b)], 0.0)
    ensures PassDone(t, x, z, m, 1)
  {
    hide Sum, RootLaws, Rev;
    forall b: nat | b < Pow2(m) ensures BlockAt(t, x, z, Times(b, 1), Rev(m, b), Pow2(m), 1) {
      OnePoint(t, N, x, Rev(m, b), Pow2(m));
      assert Times(b, 1) == b && Times(0, Pow2(m)) == 0;
      assert z[b] == Complex(x[Rev(m, b)], 0.0);
    }
  }

  lemma OnePoint(t: Angles, N: nat, x: seq<real>, start: nat, st: nat)
    requires RootLaws(t, N)
    ensures Sum(t, x, start, st, 0, 1) == Complex(At(x, start), 0.0)
  {
    assert Times(0, st) == 0 && Times(0, 0) == 0;
    assert Sum(t, x, start, st, 0, 1) == Add(Zero, Scale(At(x, start), W(t, 0)));
  }

  /** After the last pass every output is the transform. */
  lemma LastPassIsTransform(t: Angles, x: seq<real>, z: seq<Complex>, k: nat)
    requires PassDone(t, x, z, 0, |x|) && |z| == |x| && k < |x|
    ensures z[k] == Transform(t, x, k)
  {
    assert BlockAt(t, x, z, Times(0, |x|), Rev(0, 0), Pow2(0), |x|);
    assert Times(0, |x|) == 0 && Times(k, 1) == k;
    assert z[0 + k] == Sum(t, x, 0, 1, Times(k, 1), |x|);
  }
}
