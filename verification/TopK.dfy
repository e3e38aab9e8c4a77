/** Selection of the loudest bins by a heap of indices built, popped and relocated in one buffer. */
module TopK {
  import opened Ranking

  // ---- Heap order ------------------------------------------------------------------

  function Swap(s: seq<nat>, i: nat, j: nat): (t: seq<nat>)
    requires i < |s| && j < |s|
    ensures |t| == |s|
  {
    s[i := s[j]][j := s[i]]
  }

  /** Node i is ahead of both its children within the first m places. */
  predicate NodeOk(mag: seq<real>, s: seq<nat>, i: nat, m: nat)
    requires InRange(mag, s) && i < m <= |s|
  {
    && (2 * i + 1 < m ==> Ahead(mag, s[i], s[2 * i + 1]))
    && (2 * i + 2 < m ==> Ahead(mag, s[i], s[2 * i + 2]))
  }

  ghost predicate HeapFrom(mag: seq<real>, s: seq<nat>, lo: nat, m: nat)
    requires InRange(mag, s) && m <= |s|
  {
    forall i: nat :: lo <= i < m ==> NodeOk(mag, s, i, m)
  }

  /** A heap but for the node i, which is sinking from root. */
  ghost predicate Sifting(mag: seq<real>, s: seq<nat>, root: nat, i: nat, m: nat)
    requires InRange(mag, s) && m <= |s|
  {
    && root <= i < m
    && (forall p: nat :: root <= p < m && p != i ==> NodeOk(mag, s, p, m))
    && (i > root ==>
          && root <= (i - 1) / 2
          && (2 * i + 1 < m ==> Ahead(mag, s[(i - 1) / 2], s[2 * i + 1]))
          && (2 * i + 2 < m ==> Ahead(mag, s[(i - 1) / 2], s[2 * i + 2])))
  }

  lemma SwapKeeps(s: seq<nat>, i: nat, j: nat, m: nat)
    requires i < m <= |s| && j < m
    ensures multiset(Swap(s, i, j)) == multiset(s)
    ensures multiset(Swap(s, i, j)[..m]) == multiset(s[..m]) && Swap(s, i, j)[m..] == s[m..]
  {
    assert Swap(s, i, j)[..m] == Swap(s[..m], i, j);
  }

  lemma SiftStep(mag: seq<real>, s: seq<nat>, root: nat, i: nat, c: nat, m: nat)
    requires InRange(mag, s) && m <= |s| && Sifting(mag, s, root, i, m)
    requires (c == 2 * i + 1 || c == 2 * i + 2) && c < m
    requires 2 * i + 1 < m ==> Ahead(mag, s[c], s[2 * i + 1])
    requires 2 * i + 2 < m ==> Ahead(mag, s[c], s[2 * i + 2])
    requires Ahead(mag, s[c], s[i])
    ensures InRange(mag, Swap(s, i, c)) && Sifting(mag, Swap(s, i, c), root, c, m)
  {
    hide Ahead;
    var t := Swap(s, i, c);
    assert (c - 1) / 2 == i;
    assert NodeOk(mag, s, c, m);
    forall p: nat | root <= p < m && p != c ensures NodeOk(mag, t, p, m) {
      if p != i {
        assert NodeOk(mag, s, p, m);
        assert 2 * p + 1 != c && 2 * p + 2 != c;
      }
    }
  }

  /** The root of a heap is ahead of everything in it. */
  lemma {:induction false} HeapTop(mag: seq<real>, s: seq<nat>, m: nat, j: nat)
    requires InRange(mag, s) && j < m <= |s| && HeapFrom(mag, s, 0, m)
    ensures Ahead(mag, s[0], s[j])
    decreases j
  {
    if j > 0 {
      var parent := (j - 1) / 2;
      HeapTop(mag, s, m, parent);
      assert NodeOk(mag, s, parent, m);
      assert j == 2 * parent + 1 || j == 2 * parent + 2;
    }
  }

  // ---- Heap operations ---------------------------------------------------------------

  /** The first n places are in use; the buffer may be longer. */
  method SwapPlaces(buf: array<nat>, n: nat, i: nat, j: nat)
    requires i < n && j < n <= buf.Length
    modifies buf
    ensures buf[..n] == Swap(old(buf[..n]), i, j) && buf[n..] == old(buf[n..])
  {
    buf[i], buf[j] := buf[j], buf[i];
  }

  method SiftDown(buf: array<nat>, n: nat, mag: seq<real>, root: nat, m: nat)
    requires n <= buf.Length && InRange(mag, buf[..n]) && root < m <= n
    requires HeapFrom(mag, buf[..n], root + 1, m)
    modifies buf
    ensures InRange(mag, buf[..n]) && HeapFrom(mag, buf[..n], root, m)
    ensures multiset(buf[..n][..m]) == old(multiset(buf[..n][..m])) && buf[..n][m..] == old(buf[..n][m..])
    ensures multiset(buf[..n]) == old(multiset(buf[..n])) && buf[n..] == old(buf[n..])
  {
    hide Ahead;
    var i := root;
    while 2 * i + 1 < m
      invariant InRange(mag, buf[..n]) && Sifting(mag, buf[..n], root, i, m)
      invariant multiset(buf[..n][..m]) == old(multiset(buf[..n][..m])) && buf[..n][m..] == old(buf[..n][m..])
      invariant multiset(buf[..n]) == old(multiset(buf[..n])) && buf[n..] == old(buf[n..])
    {
      ghost var s := buf[..n];
      var c := 2 * i + 1;
      if c + 1 < m {
        AheadIsTotalOrder(mag, s[c], s[c + 1], s[c + 1]);
        if Ahead(mag, buf[c + 1], buf[c]) {
          c := c + 1;
        }
      }
      AheadIsTotalOrder(mag, s[c], s[c], s[c]);
      AheadIsTotalOrder(mag, s[i], s[c], s[2 * i + 1]);
      if 2 * i + 2 < m {
        AheadIsTotalOrder(mag, s[i], s[c], s[2 * i + 2]);
      }
      if Ahead(mag, buf[i], buf[c]) {
        assert NodeOk(mag, s, i, m);
        return;
      }
      SiftStep(mag, s, root, i, c, m);
      SwapKeeps(s, i, c, m);
      SwapPlaces(buf, n, i, c);
      i := c;
    }
  }

  /** Stands for std::make_heap. */
  method MakeHeap(buf: array<nat>, n: nat, mag: seq<real>)
    requires n <= buf.Length && InRange(mag, buf[..n])
    modifies buf
    ensures InRange(mag, buf[..n]) && HeapFrom(mag, buf[..n], 0, n)
    ensures multiset(buf[..n]) == old(multiset(buf[..n])) && buf[n..] == old(buf[n..])
  {
    hide Ahead;
    for i := n / 2 downto 0
      invariant InRange(mag, buf[..n]) && HeapFrom(mag, buf[..n], i, n)
      invariant multiset(buf[..n]) == old(multiset(buf[..n])) && buf[n..] == old(buf[n..])
    {
      SiftDown(buf, n, mag, i, n);
    }
  }

  /** Stands for std::pop_heap: the best of the first m moves to place m - 1. */
  method PopHeap(buf: array<nat>, n: nat, mag: seq<real>, m: nat)
    requires n <= buf.Length && InRange(mag, buf[..n]) && 0 < m <= n && HeapFrom(mag, buf[..n], 0, m)
    modifies buf
    ensures InRange(mag, buf[..n]) && HeapFrom(mag, buf[..n], 0, m - 1)
    ensures forall j :: 0 <= j < m ==> Ahead(mag, buf[..n][m - 1], buf[..n][j])
    ensures multiset(buf[..n][..m]) == old(multiset(buf[..n][..m])) && buf[..n][m..] == old(buf[..n][m..])
    ensures multiset(buf[..n]) == old(multiset(buf[..n])) && buf[n..] == old(buf[n..])
  {
    hide Ahead, HeapFrom, InRange, Swap;
    ghost var s := buf[..n];
    SwapKeeps(s, 0, m - 1, m);
    SwappedHeap(mag, s, m);
    SwapPlaces(buf, n, 0, m - 1);
    ghost var t := buf[..n];
    if m > 1 {
      SiftDown(buf, n, mag, 0, m - 1);
    } else {
      EmptyHeap(mag, t);
    }
    PoppedIsBest(mag, s, t, buf[..n], m);
  }

  lemma EmptyHeap(mag: seq<real>, s: seq<nat>)
    requires InRange(mag, s)
    ensures HeapFrom(mag, s, 0, 0)
  {
  }

  lemma PoppedIsBest(mag: seq<real>, s: seq<nat>, t: seq<nat>, u: seq<nat>, m: nat)
    requires InRange(mag, s) && InRange(mag, u) && 0 < m <= |s| == |u| && HeapFrom(mag, s, 0, m)
    requires t == Swap(s, 0, m - 1)
    requires multiset(u[..m - 1]) == multiset(t[..m - 1]) && u[m - 1..] == t[m - 1..]
    ensures forall j :: 0 <= j < m ==> Ahead(mag, u[m - 1], u[j])
    ensures multiset(u[..m]) == multiset(s[..m]) && u[m..] == s[m..]
  {
    hide Ahead, HeapFrom;
    forall j | 0 <= j < m ensures Ahead(mag, s[0], s[..m][j]) {
      HeapTop(mag, s, m, j);
    }
    SwapKeeps(s, 0, m - 1, m);
    SplitAtLast(t, u, m);
    AheadOfAll(mag, s[0], s[..m], u[..m]);
    forall j | 0 <= j < m ensures Ahead(mag, u[m - 1], u[j]) {
      assert u[j] == u[..m][j];
    }
  }

  lemma SwappedHeap(mag: seq<real>, s: seq<nat>, m: nat)
    requires InRange(mag, s) && 0 < m <= |s| && HeapFrom(mag, s, 0, m)
    ensures InRange(mag, Swap(s, 0, m - 1)) && HeapFrom(mag, Swap(s, 0, m - 1), 1, m - 1)
  {
    hide Ahead;
    var t := Swap(s, 0, m - 1);
    var last := m - 1;
    forall i: nat | 1 <= i < last ensures NodeOk(mag, t, i, last) {
      assert NodeOk(mag, s, i, m);
    }
  }

  /** Being ahead of everything in a range does not depend on how the range is arranged. */
  lemma AheadOfAll(mag: seq<real>, x: nat, a: seq<nat>, b: seq<nat>)
    requires x < |mag| && InRange(mag, a) && InRange(mag, b) && multiset(a) == multiset(b)
    requires forall j :: 0 <= j < |a| ==> Ahead(mag, x, a[j])
    ensures forall j :: 0 <= j < |b| ==> Ahead(mag, x, b[j])
  {
    hide Ahead;
    forall j | 0 <= j < |b| ensures Ahead(mag, x, b[j]) {
      assert b[j] in multiset(a);
    }
  }

  lemma SplitAtLast(t: seq<nat>, u: seq<nat>, m: nat)
    requires 0 < m <= |t| == |u| && multiset(t[..m - 1]) == multiset(u[..m - 1]) && t[m - 1..] == u[m - 1..]
    ensures multiset(t[..m]) == multiset(u[..m]) && t[m..] == u[m..] && t[m - 1] == u[m - 1]
  {
    assert t[m - 1] == t[m - 1..][0] && u[m - 1] == u[m - 1..][0];
    assert t[..m] == t[..m - 1] + [t[m - 1]] && u[..m] == u[..m - 1] + [u[m - 1]];
    assert t[m..] == t[m - 1..][1..] && u[m..] == u[m - 1..][1..];
  }

  /** Stands for std::reverse on buf[lo..hi]. */
  method ReverseTail(buf: array<nat>, lo: nat, hi: nat)
    requires lo <= hi <= buf.Length
    modifies buf
    ensures forall t :: 0 <= t < lo || hi <= t < buf.Length ==> buf[t] == old(buf[t])
    ensures forall t :: lo <= t < hi ==> buf[t] == old(buf[lo + hi - 1 - t])
  {
    var i, j := lo, hi;
    while i + 1 < j
      invariant lo <= i && i + j == lo + hi && i <= j + 1
      invariant forall t :: 0 <= t < lo || i <= t < j || hi <= t < buf.Length ==> buf[t] == old(buf[t])
      invariant forall t :: lo <= t < i || j <= t < hi ==> buf[t] == old(buf[lo + hi - 1 - t])
    {
      buf[i], buf[j - 1] := buf[j - 1], buf[i];
      i, j := i + 1, j - 1;
    }
  }

  // ---- The selection -----------------------------------------------------------------

  /** Products of reals; hidden in most proofs so that the solver sees no non-linear arithmetic. */
  function Share(target: real, total: real): real { target * total }

  lemma ShareIsProduct(target: real, total: real)
    ensures Share(target, total) == target * total
  {}

  /** How many bins the selection takes: the least count whose energy reaches the target, or the cap. */
  ghost predicate TopCount(mag: seq<real>, target: real, maxK: nat, k: nat) {
    var total := Energy(mag, Upto(|mag|));
    if |mag| == 0 || maxK == 0 || target <= 0.0 || total <= 0.0 then k == 0
    else
      && k <= |mag| && k <= maxK
      && (forall j: nat :: j < k ==> Energy(mag, RankingOf(mag)[..j]) < Share(target, total))
      && (k < |mag| && k < maxK ==> Energy(mag, RankingOf(mag)[..k]) >= Share(target, total))
  }

  /** The bins popped so far, and what is left in the heap. */
  ghost predicate Popping(mag: seq<real>, s: seq<nat>, popped: seq<nat>, m: nat)
    requires InRange(mag, s) && InRange(mag, popped)
  {
    && m + |popped| == |s| == |mag|
    && multiset(s) == multiset(Upto(|mag|))
    && (forall t :: 0 <= t < |popped| ==> popped[t] == s[|s| - 1 - t])
    && Ordered(mag, popped)
    && (forall t, a :: 0 <= t < |popped| && 0 <= a < m ==> Ahead(mag, popped[t], s[a]))
  }

  lemma PoppedOne(mag: seq<real>, s: seq<nat>, t: seq<nat>, popped: seq<nat>, m: nat)
    requires InRange(mag, s) && InRange(mag, t) && InRange(mag, popped)
    requires 0 < m && Popping(mag, s, popped, m) && |t| == |s|
    requires multiset(t) == multiset(s) && multiset(t[..m]) == multiset(s[..m]) && t[m..] == s[m..]
    requires forall j :: 0 <= j < m ==> Ahead(mag, t[m - 1], t[j])
    ensures InRange(mag, popped + [t[m - 1]]) && Popping(mag, t, popped + [t[m - 1]], m - 1)
  {
    hide Ahead;
    forall i | 0 <= i < |popped| ensures popped[i] == t[|t| - 1 - i] {
      assert s[m..][|s| - 1 - i - m] == t[m..][|s| - 1 - i - m];
    }
    forall i, a | 0 <= i < |popped| && 0 <= a < m ensures Ahead(mag, popped[i], t[a]) {
      AheadOfAll(mag, popped[i], s[..m], t[..m]);
      assert t[a] == t[..m][a];
    }
  }

  /** What has been popped is the front of the ranking. */
  lemma PoppedIsRanking(mag: seq<real>, s: seq<nat>, popped: seq<nat>, m: nat)
    requires InRange(mag, s) && InRange(mag, popped) && Popping(mag, s, popped, m)
    ensures popped == RankingOf(mag)[..|popped|]
  {
    hide Ahead;
    var rest := Sorted(mag, s[..m]);
    var all := popped + rest;
    SortedIsOrdered(mag, s[..m]);
    forall i | 0 <= i < |popped| ensures forall a :: 0 <= a < |rest| ==> Ahead(mag, popped[i], rest[a]) {
      AheadOfAll(mag, popped[i], s[..m], rest);
    }
    assert Ordered(mag, all);
    ReversedTail(s, popped, m);
    RankingProperties(mag);
    OrderedUnique(mag, all, RankingOf(mag));
  }

  lemma {:induction false} ReversedTail(s: seq<nat>, popped: seq<nat>, m: nat)
    requires m + |popped| == |s| && forall t :: 0 <= t < |popped| ==> popped[t] == s[|s| - 1 - t]
    ensures multiset(s[..m]) + multiset(popped) == multiset(s)
  {
    if popped == [] {
      assert s[..m] == s;
    } else {
      var last := |s| - 1;
      assert s == s[..last] + [s[last]] && popped == [popped[0]] + popped[1..];
      assert s[..last][..m] == s[..m];
      ReversedTail(s[..last], popped[1..], m);
    }
  }

  lemma RankingPrefixes(mag: seq<real>, popped: seq<nat>, k: nat)
    requires k <= |mag| && popped == RankingOf(mag)[..k]
    ensures forall j: nat :: j <= k ==> RankingOf(mag)[..j] == popped[..j]
  {
  }

  lemma NothingPopped(mag: seq<real>, s: seq<nat>)
    requires InRange(mag, s) && |s| == |mag| && multiset(s) == multiset(Upto(|mag|))
    ensures Popping(mag, s, [], |mag|) && Energy(mag, []) == 0.0
  {
  }

  lemma OneMorePopped(mag: seq<real>, popped: seq<nat>, x: nat)
    requires InRange(mag, popped) && x < |mag|
    ensures var more := popped + [x];
            InRange(mag, more) && Energy(mag, more) == Energy(mag, popped) + mag[x] &&
            forall j: nat :: j <= |popped| ==> more[..j] == popped[..j]
  {
    assert (popped + [x])[..|popped|] == popped;
  }

  lemma TailIsPopped(mag: seq<real>, s: seq<nat>, popped: seq<nat>, m: nat)
    requires InRange(mag, s) && InRange(mag, popped) && Popping(mag, s, popped, m)
    ensures forall t :: 0 <= t < |popped| ==> s[|s| - 1 - t] == popped[t]
  {
  }

  method TotalSum(mag: seq<real>) returns (total: real)
    ensures total == Energy(mag, Upto(|mag|))
  {
    total := 0.0;
    for i := 0 to |mag|
      invariant InRange(mag, Upto(i)) && total == Energy(mag, Upto(i))
    {
      assert Upto(i + 1)[..i] == Upto(i);
      total := total + mag[i];
    }
  }

  /** Every place holds its own number. */
  method NumberPlaces(buf: array<nat>, n: nat)
    requires n <= buf.Length
    modifies buf
    ensures buf[..n] == Upto(n) && buf[n..] == old(buf[n..])
  {
    for i := 0 to n
      invariant forall t :: 0 <= t < i ==> buf[t] == t
      invariant buf[n..] == old(buf[n..])
    {
      buf[i] := i;
    }
  }

  /** The selection uses as much of the buffer as there are bins, and leaves the rest of it alone. */
  method TopByEnergyFraction(mag: seq<real>, target: real, buf: array<nat>, maxK: nat) returns (k: nat)
    requires |mag| <= buf.Length
    modifies buf
    ensures TopCount(mag, target, maxK, k)
    ensures k <= |mag| && k <= maxK && buf[..k] == RankingOf(mag)[..k] && buf[|mag|..] == old(buf[|mag|..])
    ensures target <= 0.0 || Energy(mag, Upto(|mag|)) <= 0.0 ==> k == 0
    ensures target > 0.0 && Energy(mag, Upto(|mag|)) > 0.0 ==>
              && (forall j: nat :: j < k ==>
                    Energy(mag, RankingOf(mag)[..j]) < target * Energy(mag, Upto(|mag|)))
              && (k < |mag| && k < maxK ==>
                    Energy(mag, RankingOf(mag)[..k]) >= target * Energy(mag, Upto(|mag|)))
  {
    k := SelectTop(mag, target, buf, maxK);
    hide RankingOf, Energy, TopCount;
    TopCountIsLeast(mag, target, maxK, k);
  }

  method SelectTop(mag: seq<real>, target: real, buf: array<nat>, maxK: nat) returns (k: nat)
    requires |mag| <= buf.Length
    modifies buf
    ensures TopCount(mag, target, maxK, k)
    ensures k <= |mag| && buf[..k] == RankingOf(mag)[..k] && buf[|mag|..] == old(buf[|mag|..])
  {
    var n := |mag|;
    if n == 0 || maxK == 0 || target <= 0.0 {
      return 0;
    }
    var total := TotalSum(mag);
    if total <= 0.0 {
      return 0;
    }
    hide HeapFrom, Popping, RankingOf, Share, Ahead;
    NumberPlaces(buf, n);
    MakeHeap(buf, n, mag);
    ghost var popped;
    k, popped := PopUntil(buf, mag, Share(target, total), maxK);
    PoppedIsRanking(mag, buf[..n], popped, n - k);
    Relocate(buf, n, popped, k);
    RankingPrefixes(mag, popped, k);
  }

  /** Pops the loudest bin until the wanted energy, the cap or the last bin is reached. */
  method PopUntil(buf: array<nat>, mag: seq<real>, wanted: real, maxK: nat) returns (k: nat, ghost popped: seq<nat>)
    requires |mag| <= buf.Length && InRange(mag, buf[..|mag|])
    requires HeapFrom(mag, buf[..|mag|], 0, |mag|) && multiset(buf[..|mag|]) == multiset(Upto(|mag|))
    modifies buf
    ensures k <= |mag| && k <= maxK && k == |popped| && buf[|mag|..] == old(buf[|mag|..])
    ensures InRange(mag, buf[..|mag|]) && InRange(mag, popped) && Popping(mag, buf[..|mag|], popped, |mag| - k)
    ensures forall j: nat :: j < k ==> Energy(mag, popped[..j]) < wanted
    ensures k < |mag| && k < maxK ==> Energy(mag, popped) >= wanted
    ensures forall t :: 0 <= t < k ==> buf[|mag| - 1 - t] == popped[t]
  {
    hide HeapFrom, Popping, Ahead, Energy;
    var n := |mag|;
    var acc := 0.0;
    k := 0;
    popped := [];
    NothingPopped(mag, buf[..n]);
    while k < n && k < maxK && acc < wanted
      invariant k <= n && k <= maxK && k == |popped| && buf[n..] == old(buf[n..])
      invariant InRange(mag, buf[..n]) && InRange(mag, popped)
      invariant HeapFrom(mag, buf[..n], 0, n - k) && Popping(mag, buf[..n], popped, n - k)
      invariant acc == Energy(mag, popped)
      invariant forall j: nat :: j < k ==> Energy(mag, popped[..j]) < wanted
    {
      ghost var before := buf[..n];
      PopHeap(buf, n, mag, n - k);
      PoppedOne(mag, before, buf[..n], popped, n - k);
      assert buf[n - k - 1] == buf[..n][n - k - 1];
      OneMorePopped(mag, popped, buf[n - k - 1]);
      acc := acc + mag[buf[n - k - 1]];
      popped := popped + [buf[n - k - 1]];
      k := k + 1;
    }
    TailIsPopped(mag, buf[..n], popped, n - k);
  }

  /** Turns the popped end of the first n places around and moves it to the front, over itself if need be. */
  method Relocate(buf: array<nat>, n: nat, ghost popped: seq<nat>, k: nat)
    requires k == |popped| <= n <= buf.Length
    requires forall t :: 0 <= t < k ==> buf[n - 1 - t] == popped[t]
    modifies buf
    ensures buf[..k] == popped && buf[n..] == old(buf[n..])
  {
    ReverseTail(buf, n - k, n);
    forall i | 0 <= i < k {
      buf[i] := buf[n - k + i];
    }
  }

  /** What the count means, with the wanted energy written out. */
  lemma TopCountIsLeast(mag: seq<real>, target: real, maxK: nat, k: nat)
    requires TopCount(mag, target, maxK, k)
    ensures k <= |mag| && k <= maxK
    ensures target <= 0.0 || Energy(mag, Upto(|mag|)) <= 0.0 ==> k == 0
    ensures target > 0.0 && Energy(mag, Upto(|mag|)) > 0.0 ==>
              && (forall j: nat :: j < k ==>
                    Energy(mag, RankingOf(mag)[..j]) < target * Energy(mag, Upto(|mag|)))
              && (k < |mag| && k < maxK ==>
                    Energy(mag, RankingOf(mag)[..k]) >= target * Energy(mag, Upto(|mag|)))
  {
    hide Share, RankingOf, Energy;
    if target > 0.0 && Energy(mag, Upto(|mag|)) > 0.0 {
      forall j: nat | j < k ensures Energy(mag, RankingOf(mag)[..j]) < target * Energy(mag, Upto(|mag|)) {
        WantedWrittenOut(Energy(mag, RankingOf(mag)[..j]), target, Energy(mag, Upto(|mag|)));
      }
      WantedWrittenOut(Energy(mag, RankingOf(mag)[..k]), target, Energy(mag, Upto(|mag|)));
    }
  }

  lemma WantedWrittenOut(energy: real, target: real, total: real)
    ensures energy < Share(target, total) <==> energy < target * total
  {}

  /** Without a cap, a target within the total is reached, and no smaller selection of bins reaches it. */
  lemma {:induction false} SelectionIsLeast(mag: seq<real>, target: real, maxK: nat, k: nat, q: seq<nat>)
    requires TopCount(mag, target, maxK, k) && 0.0 < target <= 1.0 && |mag| <= maxK
    requires Energy(mag, Upto(|mag|)) > 0.0
    requires InRange(mag, q) && Distinct(q)
    ensures k <= |mag| && Energy(mag, RankingOf(mag)[..k]) >= target * Energy(mag, Upto(|mag|))
    ensures Energy(mag, q) >= target * Energy(mag, Upto(|mag|)) ==> k <= |q|
  {
    hide Share, RankingOf, Ahead, Distinct, Ordered;
    var total := Energy(mag, Upto(|mag|));
    RankingProperties(mag);
    assert RankingOf(mag)[..|mag|] == RankingOf(mag);
    FractionWithin(target, total);
    ShareIsProduct(target, total);
    TopIsOptimal(mag, q);
  }

  lemma FractionWithin(target: real, total: real)
    requires 0.0 < target <= 1.0 && total > 0.0
    ensures Share(target, total) <= total
  {
  }
}
