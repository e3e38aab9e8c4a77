/** Reversal of the low bits of an index, and the recurrences its table is built from. */
module BitReversal {
  function Pow2(n: nat): (p: nat)
    ensures p > 0
  {
    if n == 0 then 1 else 2 * Pow2(n - 1)
  }

  /** The low m bits of b in reverse order. */
  function Rev(m: nat, b: nat): nat {
    if m == 0 then 0 else (if b % 2 == 1 then Pow2(m - 1) else 0) + Rev(m - 1, b / 2)
  }

  /** Bit i of b. */
  function Bit(b: nat, i: nat): nat {
    if i == 0 then b % 2 else Bit(b / 2, i - 1)
  }

  lemma {:induction false} RevBound(m: nat, b: nat)
    ensures Rev(m, b) < Pow2(m)
  {
    if m > 0 {
      RevBound(m - 1, b / 2);
    }
  }

  lemma RevOfDouble(m: nat, b: nat)
    ensures Rev(m + 1, 2 * b) == Rev(m, b)
    ensures Rev(m + 1, 2 * b + 1) == Rev(m, b) + Pow2(m)
  {
    assert (2 * b + 1) / 2 == b;
  }

  /** One more bit of width doubles the reversal; a bit set at the top becomes the lowest. */
  lemma {:induction false} RevOfTop(m: nat, b: nat)
    requires b < Pow2(m)
    ensures Rev(m + 1, b) == 2 * Rev(m, b)
    ensures Rev(m + 1, Pow2(m) + b) == 2 * Rev(m, b) + 1
  {
    if m == 0 {
      assert Rev(1, 1) == 1 + Rev(0, 0);
    } else {
      RevOfTop(m - 1, b / 2);
      assert (Pow2(m) + b) / 2 == Pow2(m - 1) + b / 2;
      assert (Pow2(m) + b) % 2 == b % 2;
    }
  }

  lemma {:induction false} RevInvolutive(m: nat, b: nat)
    requires b < Pow2(m)
    ensures Rev(m, Rev(m, b)) == b
  {
    if m > 0 {
      var half := b / 2;
      RevBound(m - 1, half);
      RevInvolutive(m - 1, half);
      RevOfTop(m - 1, Rev(m - 1, half));
    }
  }

  lemma {:induction false} BitOfTop(m: nat, r: nat, i: nat)
    requires r < Pow2(m)
    ensures i < m ==> Bit(Pow2(m) + r, i) == Bit(r, i)
    ensures Bit(Pow2(m) + r, m) == 1 && Bit(r, m) == 0
  {
    if m > 0 {
      assert (Pow2(m) + r) / 2 == Pow2(m - 1) + r / 2;
      BitOfTop(m - 1, r / 2, if i > 0 then i - 1 else 0);
    }
  }

  /** Rev really reverses: bit i of the result is bit m-1-i of the argument. */
  lemma {:induction false} RevMirrorsBits(m: nat, b: nat, i: nat)
    requires i < m
    ensures Bit(Rev(m, b), i) == Bit(b, m - 1 - i)
  {
    RevBound(m - 1, b / 2);
    BitOfTop(m - 1, Rev(m - 1, b / 2), i);
    if i < m - 1 {
      RevMirrorsBits(m - 1, b / 2, i);
    }
  }

  // ---- The recurrences of the table -----------------------------------------------

  lemma {:induction false} RevOfPower(m: nat, i: nat)
    requires i < m
    ensures Rev(m, Pow2(i)) == Pow2(m - 1 - i)
  {
    if i == 0 {
      assert Rev(m - 1, 0) == 0 by { RevOfZero(m - 1); }
    } else {
      assert Pow2(i) / 2 == Pow2(i - 1);
      RevOfPower(m - 1, i - 1);
    }
  }

  lemma {:induction false} RevOfZero(m: nat)
    ensures Rev(m, 0) == 0
  {
    if m > 0 {
      RevOfZero(m - 1);
    }
  }

  lemma {:induction false} RevOfSum(m: nat, i: nat, j: nat)
    requires i < m && j < Pow2(i)
    ensures Rev(m, Pow2(i) + j) == Rev(m, Pow2(i)) + Rev(m, j)
  {
    if i == 0 {
      RevOfZero(m);
    } else {
      assert (Pow2(i) + j) / 2 == Pow2(i - 1) + j / 2;
      assert Pow2(i) / 2 == Pow2(i - 1);
      RevOfSum(m - 1, i - 1, j / 2);
    }
  }

  lemma {:induction false} Pow2Split(a: nat, b: nat)
    ensures Pow2(a + b) == Pow2(a) * Pow2(b)
  {
    if a > 0 {
      Pow2Split(a - 1, b);
    }
  }

  lemma {:induction false} Pow2Grows(a: nat, b: nat)
    requires a <= b
    ensures Pow2(a) <= Pow2(b)
  {
    if a < b {
      Pow2Grows(a, b - 1);
    }
  }
}
