/** The window functions, and the exact sums of their values. */
module Windows {
  import opened Roots

  datatype Window = Rectangular | Hann | Hamming

  /** The window value of one sample, from the cosine of its phase. */
  function WindowValue(window: Window, c: real): real {
    match window
    case Rectangular => 1.0
    case Hann => 0.5 * (1.0 - c)
    case Hamming => 0.54 - 0.46 * c
  }

  /** The phases of a window go once around in m steps: angle i of m. */
  ghost predicate PhaseLaws(p: Angles, m: nat) {
    && m > 1 && AngleLaws(p)
    && p.cosine(m) == 1.0 && p.sine(m) == 0.0 && p.cosine(1) != 1.0
  }

  /** The sum of the first n window values. */
  function WindowSum(window: Window, p: Angles, n: nat): real {
    if n == 0 then 0.0 else WindowSum(window, p, n - 1) + WindowValue(window, p.cosine(n - 1))
  }

  /** What the n values of a whole window add up to. */
  function ExactSum(window: Window, n: nat): real {
    match window
    case Rectangular => n as real
    case Hann => 0.5 * (n as real - 1.0)
    case Hamming => 0.54 * n as real - 0.46
  }

  function CosineSum(p: Angles, n: nat): real {
    if n == 0 then 0.0 else CosineSum(p, n - 1) + p.cosine(n - 1)
  }

  function SineSum(p: Angles, n: nat): real {
    if n == 0 then 0.0 else SineSum(p, n - 1) + p.sine(n - 1)
  }

  /** Turning every angle on by one step moves both sums along by one term. */
  lemma {:induction false} TurnedSums(p: Angles, n: nat)
    requires AngleLaws(p)
    ensures p.cosine(1) * CosineSum(p, n) - p.sine(1) * SineSum(p, n) == CosineSum(p, n) + p.cosine(n) - 1.0
    ensures p.sine(1) * CosineSum(p, n) + p.cosine(1) * SineSum(p, n) == SineSum(p, n) + p.sine(n)
  {
    if n > 0 {
      TurnedSums(p, n - 1);
      assert AnglesAdd(p, 1, n - 1);
      hide AngleLaws;
      Distribute(p.cosine(1), CosineSum(p, n - 1), p.cosine(n - 1));
      Distribute(p.sine(1), SineSum(p, n - 1), p.sine(n - 1));
      Distribute(p.sine(1), CosineSum(p, n - 1), p.cosine(n - 1));
      Distribute(p.cosine(1), SineSum(p, n - 1), p.sine(n - 1));
    }
  }

  lemma Distribute(a: real, b: real, c: real)
    ensures a * (b + c) == a * b + a * c
  {}

  /** A rotation that is none leaves only zero where it is. */
  lemma FixedByRotation(c: real, s: real, x: real, y: real)
    requires c * x - s * y == x && s * x + c * y == y && c != 1.0
    ensures x == 0.0
  {
    var d := c - 1.0;
    assert d * x == s * y && d * y == -(s * x);
    assert d * (d * x) == d * (s * y);
    assert d * (s * y) == s * (d * y);
    assert s * (d * y) == -(s * (s * x));
    assert (d * d + s * s) * x == d * (d * x) + s * (s * x);
    SquaresAdd(d, s);
  }

  lemma SquaresAdd(d: real, s: real)
    requires d != 0.0
    ensures d * d + s * s > 0.0
  {}

  /** The cosines of a whole turn cancel out. */
  lemma TurnCancels(p: Angles, m: nat)
    requires PhaseLaws(p, m)
    ensures CosineSum(p, m) == 0.0
  {
    TurnedSums(p, m);
    FixedByRotation(p.cosine(1), p.sine(1), CosineSum(p, m), SineSum(p, m));
  }

  lemma {:induction false} WindowSumOfCosines(window: Window, p: Angles, n: nat)
    ensures WindowSum(window, p, n) ==
            match window
            case Rectangular => n as real
            case Hann => 0.5 * (n as real - CosineSum(p, n))
            case Hamming => 0.54 * n as real - 0.46 * CosineSum(p, n)
  {
    if n > 0 {
      WindowSumOfCosines(window, p, n - 1);
    }
  }

  /** A window of n values goes around in n - 1 steps, so its values add up to a known number, and not to zero. */
  lemma WindowSumIsExact(window: Window, p: Angles, n: nat)
    requires n > 2 && PhaseLaws(p, n - 1)
    ensures WindowSum(window, p, n) == ExactSum(window, n) > 0.0
  {
    WindowSumOfCosines(window, p, n);
    TurnCancels(p, n - 1);
  }

  /** A window reads the same from both ends. */
  lemma WindowIsSymmetric(window: Window, p: Angles, n: nat, i: nat)
    requires n > 2 && PhaseLaws(p, n - 1) && i < n
    ensures WindowValue(window, p.cosine(i)) == WindowValue(window, p.cosine(n - 1 - i))
  {
    var j := n - 1 - i;
    assert AnglesAdd(p, j, i) && UnitLength(p, i) && j + i == n - 1;
    hide PhaseLaws, AngleLaws;
    Mirror(p.cosine(j), p.sine(j), p.cosine(i), p.sine(i));
  }

  lemma Mirror(a: real, b: real, c: real, s: real)
    requires a * c - b * s == 1.0 && b * c + a * s == 0.0 && c * c + s * s == 1.0
    ensures a == c
  {
    calc {
      a;
      a * (c * c + s * s);
      c * (a * c) + s * (a * s);
      c * (1.0 + b * s) + s * (-(b * c));
      c;
    }
  }
}
