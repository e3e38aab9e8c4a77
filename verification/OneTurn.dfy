/** All that is asked of twiddle angles and window phases, from one table of one turn. */
module OneTurn {
  import opened Roots
  import opened ToneReadings
  import opened Windows

  /**
   * Cosine and sine of one turn in m steps: addition, unit length, the values at the whole and at the quarter turn, and
   * a cosine that falls over the first half.
   */
  ghost predicate Turn(r: Angles, m: nat) {
    && m % 4 == 0 && AngleLaws(r) && r.cosine(m) == 1.0 && r.sine(m) == 0.0 && r.sine(m / 4) == 1.0
    && (forall a: nat, b: nat :: a < b && 2 * b <= m ==> r.cosine(b) < r.cosine(a))
  }

  /** Every step-th angle of a table. */
  function Every(r: Angles, step: nat): Angles {
    Angles((e: nat) => r.cosine(Times(e, step)), (e: nat) => r.sine(Times(e, step)))
  }

  lemma EveryKeepsLaws(r: Angles, step: nat)
    requires AngleLaws(r)
    ensures AngleLaws(Every(r, step))
  {
    var t := Every(r, step);
    TimesStep(0, step);
    forall a: nat, b: nat ensures AnglesAdd(t, a, b) {
      SumOfTimes(a, b, step);
      assert AnglesAdd(r, Times(a, step), Times(b, step));
    }
    forall a: nat ensures UnitLength(t, a) {
      assert UnitLength(r, Times(a, step));
    }
  }

  lemma SumOfTimes(a: nat, b: nat, step: nat)
    ensures Times(a + b, step) == Times(a, step) + Times(b, step)
  {
    hide Times;
    TimesDistributes(step, a, b);
    TimesDistributes(a, step, 0);
    TimesDistributes(b, step, 0);
    TimesDistributes(a + b, step, 0);
  }

  /** Inside the turn the cosine is below one, and it reads the same from both ends. */
  lemma InsideTurn(r: Angles, m: nat, a: nat)
    requires Turn(r, m) && 0 < a < m
    ensures r.cosine(a) < 1.0 && r.cosine(m - a) == r.cosine(a)
  {
    assert AnglesAdd(r, m - a, a) && UnitLength(r, a);
    Mirror(r.cosine(m - a), r.sine(m - a), r.cosine(a), r.sine(a));
    assert 2 * a <= m ==> r.cosine(a) < r.cosine(0);
    assert 2 * (m - a) <= m ==> r.cosine(m - a) < r.cosine(0);
  }

  lemma QuarterOfTurn(r: Angles, m: nat)
    requires Turn(r, m)
    ensures r.cosine(m / 4) == 0.0
  {
    assert UnitLength(r, m / 4);
    ZeroSquare(r.cosine(m / 4));
  }

  lemma ZeroSquare(c: real)
    ensures c * c == 0.0 ==> c == 0.0
  {
    if c != 0.0 {
      assert c * c / c == c;
    }
  }

  /** The twiddle angles: every (N - 1)-th of N (N - 1). */
  lemma TwiddlesOfTurn(r: Angles, N: nat)
    requires N > 3 && N % 4 == 0 && Turn(r, Times(N, N - 1))
    ensures RootLaws(Every(r, N - 1), N) && Primitive(Every(r, N - 1), N)
  {
    var t, m := Every(r, N - 1), Times(N, N - 1);
    EveryKeepsLaws(r, N - 1);
    QuarterSteps(N);
    QuarterOfTurn(r, m);
    forall e: nat | 0 < e < N ensures t.cosine(e) != 1.0 {
      PartOfTurn(e, N, N - 1);
      InsideTurn(r, m, Times(e, N - 1));
    }
  }

  lemma QuarterSteps(N: nat)
    requires N > 3 && N % 4 == 0
    ensures Times(N / 4, N - 1) == Times(N, N - 1) / 4
  {
    var q := N / 4;
    assert N * (N - 1) == 4 * (q * (N - 1));
  }

  lemma PartOfTurn(e: nat, N: nat, k: nat)
    requires 0 < e < N && k > 0
    ensures 0 < Times(e, k) < Times(N, k)
  {
    SumOfTimes(e, N - e, k);
    StepsAtLeast(e, 1, k);
    StepsAtLeast(N - e, 1, k);
    OneStep(k);
  }

  /** The window phases: every N-th. */
  lemma PhasesOfTurn(r: Angles, N: nat)
    requires N > 3 && Turn(r, Times(N, N - 1))
    ensures PhaseLaws(Every(r, N), N - 1)
  {
    EveryKeepsLaws(r, N);
    TimesDistributes(N, N - 1, 0);
    PartOfTurn(1, N - 1, N);
    InsideTurn(r, Times(N, N - 1), Times(1, N));
  }

  /** One step of the window is shorter than two of the transform, from either end. */
  lemma StepsOfTurn(r: Angles, N: nat)
    requires N > 3 && Turn(r, Times(N, N - 1))
    ensures StepIsShort(Every(r, N), Every(r, N - 1), N)
  {
    var m := Times(N, N - 1);
    var t, p := Every(r, N - 1), Every(r, N);
    OneStep(N);
    forall e: nat | 2 <= e && e + 2 <= N ensures t.cosine(e) < p.cosine(1) {
      var a := Times(e, N - 1);
      BetweenSteps(N, e);
      InsideTurn(r, m, a);
      assert 2 * a <= m ==> r.cosine(a) < r.cosine(N);
      assert 2 * (m - a) <= m ==> r.cosine(m - a) < r.cosine(N);
    }
  }

  lemma OneStep(N: nat)
    ensures Times(1, N) == N
  {}

  lemma BetweenSteps(N: nat, e: nat)
    requires N > 3 && 2 <= e && e + 2 <= N
    ensures N < Times(e, N - 1) && Times(e, N - 1) + N < Times(N, N - 1)
  {
    SumOfTimes(e, N - e, N - 1);
    StepsAtLeast(e, 2, N - 1);
    StepsAtLeast(N - e, 2, N - 1);
    TwoSteps(N - 1);
  }

  lemma TwoSteps(k: nat)
    ensures Times(2, k) == k + k
  {}

  lemma StepsAtLeast(e: nat, least: nat, k: nat)
    requires e >= least
    ensures Times(e, k) >= Times(least, k)
  {
    hide Times;
    SumOfTimes(least, e - least, k);
  }

  /** Everything the engine and its readings ask of the two sets of angles holds of one table of one turn. */
  lemma OneTurnSuffices(r: Angles, N: nat)
    requires N > 3 && N % 4 == 0 && Turn(r, Times(N, N - 1))
    ensures var t, p := Every(r, N - 1), Every(r, N);
            RootLaws(t, N) && Primitive(t, N) && PhaseLaws(p, N - 1) && StepIsShort(p, t, N)
  {
    TwiddlesOfTurn(r, N);
    PhasesOfTurn(r, N);
    StepsOfTurn(r, N);
  }
}
