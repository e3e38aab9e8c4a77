/** The order in which spectral bins are ranked, and the energy of a selection of bins. */
module Ranking {
  import Sorting

  /** Every listed bin exists. */
  predicate InRange(mag: seq<real>, s: seq<nat>) {
    forall i :: 0 <= i < |s| ==> s[i] < |mag|
  }

  /** Louder, or equally loud with an index that is not higher. */
  predicate Ahead(mag: seq<real>, a: nat, b: nat)
    requires a < |mag| && b < |mag|
  {
    mag[a] > mag[b] || (mag[a] == mag[b] && a <= b)
  }

  ghost predicate Ordered(mag: seq<real>, s: seq<nat>)
    requires InRange(mag, s)
  {
    forall i, j :: 0 <= i < j < |s| ==> Ahead(mag, s[i], s[j])
  }

  function Level(mag: seq<real>, i: nat): real {
    if i < |mag| then mag[i] else 0.0
  }

  /** The same order on all numbers. */
  function Order(mag: seq<real>): (nat, nat) -> bool {
    (a: nat, b: nat) => Level(mag, a) > Level(mag, b) || (Level(mag, a) == Level(mag, b) && a <= b)
  }

  function Sorted(mag: seq<real>, s: seq<nat>): (r: seq<nat>)
    requires InRange(mag, s)
    ensures InRange(mag, r) && |r| == |s|
  {
    SortedStaysInRange(mag, s);
    Sorting.Sort(Order(mag), s)
  }

  lemma SortedStaysInRange(mag: seq<real>, s: seq<nat>)
    requires InRange(mag, s)
    ensures InRange(mag, Sorting.Sort(Order(mag), s))
  {
    var r := Sorting.Sort(Order(mag), s);
    Sorting.SortProperties(Order(mag), s);
    forall i | 0 <= i < |r| ensures r[i] < |mag| {
      assert r[i] in multiset(s);
    }
  }

  function Upto(n: nat): (s: seq<nat>)
    ensures |s| == n && forall i :: 0 <= i < n ==> s[i] == i
  {
    seq(n, i requires i >= 0 => i)
  }

  /** All bins, loudest first, lower index first among equals. */
  function RankingOf(mag: seq<real>): (r: seq<nat>)
    ensures InRange(mag, r) && |r| == |mag|
  {
    Sorted(mag, Upto(|mag|))
  }

  /** The summed value of the listed bins. */
  function Energy(mag: seq<real>, s: seq<nat>): real
    requires InRange(mag, s)
  {
    if s == [] then 0.0 else Energy(mag, s[..|s| - 1]) + mag[s[|s| - 1]]
  }

  function Without(s: seq<nat>, i: nat): (t: seq<nat>)
    requires i < |s|
    ensures |t| == |s| - 1
  {
    s[..i] + s[i + 1..]
  }

  lemma WithoutOne(s: seq<nat>, i: nat)
    requires i < |s|
    ensures multiset(Without(s, i)) == multiset(s) - multiset{s[i]}
  {
    assert s == s[..i] + [s[i]] + s[i + 1..];
  }

  // ---- Sorting -------------------------------------------------------------------

  lemma AheadIsTotalOrder(mag: seq<real>, a: nat, b: nat, c: nat)
    requires a < |mag| && b < |mag| && c < |mag|
    ensures Ahead(mag, a, b) || Ahead(mag, b, a)
    ensures Ahead(mag, a, b) && Ahead(mag, b, a) ==> a == b
    ensures Ahead(mag, a, b) && Ahead(mag, b, c) ==> Ahead(mag, a, c)
  {
  }

  lemma SortedIsOrdered(mag: seq<real>, s: seq<nat>)
    requires InRange(mag, s)
    ensures Ordered(mag, Sorted(mag, s)) && multiset(Sorted(mag, s)) == multiset(s)
  {
    var r := Sorted(mag, s);
    Sorting.SortProperties(Order(mag), s);
    forall i, j | 0 <= i < j < |r| ensures Ahead(mag, r[i], r[j]) {
      assert Order(mag)(r[i], r[j]);
    }
  }

  /** An ordered arrangement is unique. */
  lemma {:induction false} OrderedUnique(mag: seq<real>, a: seq<nat>, b: seq<nat>)
    requires InRange(mag, a) && InRange(mag, b) && Ordered(mag, a) && Ordered(mag, b)
    requires multiset(a) == multiset(b)
    ensures a == b
  {
    hide Ahead, Without;
    assert |multiset(a)| == |a| && |multiset(b)| == |b|;
    if a != [] {
      FirstIsBest(mag, a, b);
      WithoutOne(a, 0);
      WithoutOne(b, 0);
      DropFirst(a);
      DropFirst(b);
      OrderedUnique(mag, a[1..], b[1..]);
    }
  }

  lemma DropFirst(s: seq<nat>)
    requires s != []
    ensures Without(s, 0) == s[1..] && s == [s[0]] + s[1..]
  {
  }

  lemma FirstIsBest(mag: seq<real>, a: seq<nat>, b: seq<nat>)
    requires a != [] && b != []
    requires InRange(mag, a) && InRange(mag, b) && Ordered(mag, a) && Ordered(mag, b)
    requires multiset(a) == multiset(b)
    ensures a[0] == b[0]
  {
    assert a[0] in multiset(b) && b[0] in multiset(a);
    var i :| 0 <= i < |b| && b[i] == a[0];
    var j :| 0 <= j < |a| && a[j] == b[0];
  }

  // ---- Energy --------------------------------------------------------------------

  lemma {:induction false} EnergyConcat(mag: seq<real>, a: seq<nat>, b: seq<nat>)
    requires InRange(mag, a) && InRange(mag, b)
    ensures InRange(mag, a + b) && Energy(mag, a + b) == Energy(mag, a) + Energy(mag, b)
  {
    if b == [] {
      assert a + b == a;
    } else {
      var c := b[..|b| - 1];
      EnergyConcat(mag, a, c);
      assert (a + b)[..|a + b| - 1] == a + c;
    }
  }

  lemma EnergyOfOne(mag: seq<real>, i: nat)
    requires i < |mag|
    ensures Energy(mag, [i]) == mag[i] && Energy(mag, []) == 0.0
  {
    assert Energy(mag, [i][..0]) == 0.0;
  }

  /** Energy depends on which bins are selected, not on their order. */
  lemma {:induction false} EnergyOfPermutation(mag: seq<real>, a: seq<nat>, b: seq<nat>)
    requires InRange(mag, a) && InRange(mag, b) && multiset(a) == multiset(b)
    ensures Energy(mag, a) == Energy(mag, b)
    decreases |a|
  {
    hide Energy, Without;
    assert |multiset(a)| == |a| && |multiset(b)| == |b|;
    if a == [] {
      assert b == [];
    } else {
      assert a[0] in multiset(b);
      var i :| 0 <= i < |b| && b[i] == a[0];
      WithoutOne(a, 0);
      WithoutOne(b, i);
      EnergyWithout(mag, a, 0);
      EnergyWithout(mag, b, i);
      EnergyOfPermutation(mag, Without(a, 0), Without(b, i));
    }
  }

  lemma EnergyWithout(mag: seq<real>, s: seq<nat>, i: nat)
    requires InRange(mag, s) && i < |s|
    ensures InRange(mag, Without(s, i))
    ensures Energy(mag, s) == Energy(mag, Without(s, i)) + mag[s[i]]
  {
    EnergyConcat(mag, s[..i], s[i + 1..]);
    EnergyConcat(mag, s[..i + 1], s[i + 1..]);
    assert s[..i + 1][..i] == s[..i] && s == s[..i + 1] + s[i + 1..];
  }

  lemma RankingProperties(mag: seq<real>)
    ensures Ordered(mag, RankingOf(mag)) && multiset(RankingOf(mag)) == multiset(Upto(|mag|))
    ensures Energy(mag, RankingOf(mag)) == Energy(mag, Upto(|mag|))
  {
    SortedIsOrdered(mag, Upto(|mag|));
    EnergyOfPermutation(mag, RankingOf(mag), Upto(|mag|));
  }

  // ---- No other selection does better ----------------------------------------------

  predicate Distinct(s: seq<nat>) {
    forall i, j :: 0 <= i < j < |s| ==> s[i] != s[j]
  }

  lemma {:induction false} DistinctOfMultiset(s: seq<nat>, r: seq<nat>)
    requires Distinct(s) && multiset(s) == multiset(r)
    ensures Distinct(r)
  {
    forall i, j | 0 <= i < j < |r| ensures r[i] != r[j] {
      if r[i] == r[j] {
        var x := r[i];
        assert r == r[..i] + [x] + r[i + 1..j] + [x] + r[j + 1..];
        assert multiset(r)[x] >= 2;
        OnceInDistinct(s, x);
      }
    }
  }

  lemma {:induction false} OnceInDistinct(s: seq<nat>, x: nat)
    requires Distinct(s)
    ensures multiset(s)[x] <= 1
  {
    if s != [] {
      var t := s[..|s| - 1];
      OnceInDistinct(t, x);
      assert s == t + [s[|s| - 1]];
      if s[|s| - 1] == x {
        assert x !in t;
      }
    }
  }

  /** In an ordered list, the i-th element of an ordered sub-selection sits at position i or later. */
  lemma {:induction false} SelectionTrails(mag: seq<real>, q: seq<nat>, r: seq<nat>, i: nat) returns (p: nat)
    requires InRange(mag, q) && InRange(mag, r) && Ordered(mag, q) && Ordered(mag, r)
    requires Distinct(q) && i < |q| && forall x :: x in q ==> x in r
    ensures i <= p < |r| && r[p] == q[i]
  {
    assert q[i] in r;
    p :| 0 <= p < |r| && r[p] == q[i];
    if i > 0 {
      var before := SelectionTrails(mag, q, r, i - 1);
      LaterInOrder(mag, r, before, p);
    }
  }

  lemma LaterInOrder(mag: seq<real>, r: seq<nat>, i: nat, j: nat)
    requires InRange(mag, r) && Ordered(mag, r) && i < |r| && j < |r|
    requires Ahead(mag, r[i], r[j]) && r[i] != r[j]
    ensures i < j
  {
  }

  lemma {:induction false} TermwiseLouder(mag: seq<real>, q: seq<nat>, r: seq<nat>)
    requires InRange(mag, q) && InRange(mag, r) && |q| == |r|
    requires forall i :: 0 <= i < |q| ==> mag[q[i]] <= mag[r[i]]
    ensures Energy(mag, q) <= Energy(mag, r)
  {
    if q != [] {
      var last := |q| - 1;
      assert forall i :: 0 <= i < last ==> q[..last][i] == q[i] && r[..last][i] == r[i];
      TermwiseLouder(mag, q[..last], r[..last]);
    }
  }

  /** No selection of distinct bins holds more energy than as many from the front of the ranking. */
  lemma {:induction false} TopIsOptimal(mag: seq<real>, q: seq<nat>)
    requires InRange(mag, q) && Distinct(q)
    ensures |q| <= |mag| && Energy(mag, q) <= Energy(mag, RankingOf(mag)[..|q|])
  {
    var r, s := RankingOf(mag), Sorted(mag, q);
    RankingProperties(mag);
    SortedIsOrdered(mag, q);
    EnergyOfPermutation(mag, q, s);
    DistinctOfMultiset(q, s);
    forall x | x in s ensures x in r {
      assert Upto(|mag|)[x] == x;
      assert x in multiset(Upto(|mag|));
    }
    if s != [] {
      var p := SelectionTrails(mag, s, r, |s| - 1);
    }
    forall i | 0 <= i < |s| ensures mag[s[i]] <= mag[r[i]] {
      var p := SelectionTrails(mag, s, r, i);
      assert p == i || Ahead(mag, r[i], r[p]);
    }
    TermwiseLouder(mag, s, r[..|q|]);
  }
}
