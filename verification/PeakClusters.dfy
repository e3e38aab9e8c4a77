/** Merging of nearby bins into clusters by sorting a copy and sweeping it once. */
module PeakClusters {
  import opened Ranking
  import Sorting
  import opened TopK

  // ---- The reference: maximal runs of an ascending list ---------------------------------

  ghost predicate Ascending(s: seq<nat>) {
    forall i, j :: 0 <= i < j < |s| ==> s[i] <= s[j]
  }

  predicate AtMost(a: nat, b: nat) {
    a <= b
  }

  function SortedAscending(s: seq<nat>): seq<nat> {
    Sorting.Sort(AtMost, s)
  }

  /** Length of the longest prefix whose neighbours are at most `gap` apart. */
  function RunLength(s: seq<nat>, gap: nat): (n: nat)
    requires s != []
    ensures 0 < n <= |s|
  {
    if |s| == 1 || s[1] - s[0] > gap then 1 else 1 + RunLength(s[1..], gap)
  }

  function Runs(s: seq<nat>, gap: nat): (r: seq<seq<nat>>)
    ensures |r| <= |s|
    ensures forall i :: 0 <= i < |r| ==> r[i] != []
  {
    if s == [] then []
    else
      var n := RunLength(s, gap);
      [s[..n]] + Runs(s[n..], gap)
  }

  function Flatten(r: seq<seq<nat>>): seq<nat> {
    if r == [] then [] else r[0] + Flatten(r[1..])
  }

  /** The loudest bin of a run; the earliest of equals. */
  function Loudest(mag: seq<real>, run: seq<nat>): (best: nat)
    requires run != [] && InRange(mag, run)
    ensures best in run && best < |mag|
  {
    var last := |run| - 1;
    if last == 0 then run[0]
    else
      var before := Loudest(mag, run[..last]);
      if mag[run[last]] > mag[before] then run[last] else before
  }

  // ---- What the reference means -----------------------------------------------------------

  lemma SortedAscendingProperties(s: seq<nat>)
    ensures Ascending(SortedAscending(s)) && multiset(SortedAscending(s)) == multiset(s)
    ensures |SortedAscending(s)| == |s|
  {
    Sorting.SortProperties(AtMost, s);
    var r := SortedAscending(s);
    forall i, j | 0 <= i < j < |r| ensures r[i] <= r[j] {
      assert AtMost(r[i], r[j]);
    }
  }

  /** Neighbours inside a run are close; the bin after the run is not. */
  lemma {:induction false} RunIsMaximal(s: seq<nat>, gap: nat)
    requires s != []
    ensures forall i :: 0 <= i && i + 1 < RunLength(s, gap) ==> s[i + 1] - s[i] <= gap
    ensures RunLength(s, gap) < |s| ==> s[RunLength(s, gap)] - s[RunLength(s, gap) - 1] > gap
  {
    if |s| > 1 && s[1] - s[0] <= gap {
      RunIsMaximal(s[1..], gap);
      forall i | 0 <= i && i + 1 < RunLength(s, gap) ensures s[i + 1] - s[i] <= gap {
        if i > 0 {
          assert s[1..][i - 1 + 1] - s[1..][i - 1] <= gap;
        }
      }
    }
  }

  ghost predicate CloseInside(run: seq<nat>, gap: nat) {
    forall i :: 0 <= i && i + 1 < |run| ==> run[i + 1] - run[i] <= gap
  }

  ghost predicate Separated(a: seq<nat>, b: seq<nat>, gap: nat) {
    a != [] && b != [] && b[0] - a[|a| - 1] > gap
  }

  /** Close inside, separated from one another. */
  ghost predicate MaximalRuns(r: seq<seq<nat>>, gap: nat) {
    && (forall i :: 0 <= i < |r| ==> CloseInside(r[i], gap))
    && (forall i :: 0 < i < |r| ==> Separated(r[i - 1], r[i], gap))
  }

  lemma PrependRun(run: seq<nat>, r: seq<seq<nat>>, gap: nat)
    requires CloseInside(run, gap) && MaximalRuns(r, gap)
    requires r != [] ==> Separated(run, r[0], gap)
    ensures MaximalRuns([run] + r, gap) && Flatten([run] + r) == run + Flatten(r)
  {
    hide CloseInside, Separated;
    var all := [run] + r;
    assert all[1..] == r;
    forall i | 0 < i < |all| ensures Separated(all[i - 1], all[i], gap) {
      if i > 1 {
        assert Separated(r[i - 2], r[i - 1], gap);
      }
    }
  }

  /** The runs cut the list into maximal pieces whose neighbours are close. */
  lemma {:induction false} RunsPartition(s: seq<nat>, gap: nat)
    ensures Flatten(Runs(s, gap)) == s && MaximalRuns(Runs(s, gap), gap)
  {
    if s != [] {
      var n := RunLength(s, gap);
      RunIsMaximal(s, gap);
      RunsPartition(s[n..], gap);
      assert s == s[..n] + s[n..];
      PrependRun(s[..n], Runs(s[n..], gap), gap);
    }
  }

  /** The center of an ascending run is louder than every other bin of it, and the lowest of equals. */
  lemma {:induction false} LoudestIsArgmax(mag: seq<real>, run: seq<nat>)
    requires run != [] && InRange(mag, run) && Ascending(run)
    ensures forall i :: 0 <= i < |run| ==> Ahead(mag, Loudest(mag, run), run[i])
  {
    var last := |run| - 1;
    if last > 0 {
      LoudestIsArgmax(mag, run[..last]);
      forall i | 0 <= i < |run| ensures Ahead(mag, Loudest(mag, run), run[i]) {
        if i < last {
          assert run[..last][i] == run[i];
        }
      }
    }
  }

  function TotalLength(r: seq<seq<nat>>): nat {
    if r == [] then 0 else |r[0]| + TotalLength(r[1..])
  }

  predicate AllInRange(mag: seq<real>, r: seq<seq<nat>>) {
    forall i :: 0 <= i < |r| ==> InRange(mag, r[i])
  }

  function TotalEnergy(mag: seq<real>, r: seq<seq<nat>>): real
    requires AllInRange(mag, r)
  {
    if r == [] then 0.0 else Energy(mag, r[0]) + TotalEnergy(mag, r[1..])
  }

  lemma {:induction false} FlattenConserves(mag: seq<real>, r: seq<seq<nat>>)
    requires AllInRange(mag, r)
    ensures |Flatten(r)| == TotalLength(r)
    ensures InRange(mag, Flatten(r)) && Energy(mag, Flatten(r)) == TotalEnergy(mag, r)
  {
    if r != [] {
      FlattenConserves(mag, r[1..]);
      EnergyConcat(mag, r[0], Flatten(r[1..]));
    }
  }

  lemma InRangeOfPermutation(mag: seq<real>, a: seq<nat>, b: seq<nat>)
    requires InRange(mag, a) && multiset(a) == multiset(b)
    ensures InRange(mag, b)
  {
    forall i | 0 <= i < |b| ensures b[i] < |mag| {
      assert b[i] in multiset(a);
    }
  }

  lemma {:induction false} RunsInRange(mag: seq<real>, s: seq<nat>, gap: nat)
    requires InRange(mag, s)
    ensures AllInRange(mag, Runs(s, gap))
  {
    if s != [] {
      RunsInRange(mag, s[RunLength(s, gap)..], gap);
    }
  }

  /** The clusters that the sweep produces from a selection of bins. */
  function ClustersOf(indices: seq<nat>, gap: nat): seq<seq<nat>> {
    Runs(SortedAscending(indices), gap)
  }

  /** No bin and no energy is lost or counted twice. */
  lemma ClustersConserve(mag: seq<real>, indices: seq<nat>, gap: nat)
    requires InRange(mag, indices)
    ensures AllInRange(mag, ClustersOf(indices, gap))
    ensures TotalLength(ClustersOf(indices, gap)) == |indices|
    ensures TotalEnergy(mag, ClustersOf(indices, gap)) == Energy(mag, indices)
  {
    var s := SortedAscending(indices);
    SortedAscendingProperties(indices);
    InRangeOfPermutation(mag, indices, s);
    RunsInRange(mag, s, gap);
    RunsPartition(s, gap);
    FlattenConserves(mag, Runs(s, gap));
    EnergyOfPermutation(mag, s, indices);
  }

  // ---- The sweep ------------------------------------------------------------------------------

  /** Stands for memcpy followed by std::sort. */
  method CopySorted(indices: array<nat>, k: nat, scratch: array<nat>)
    requires k <= indices.Length && k <= scratch.Length && scratch != indices
    modifies scratch
    ensures scratch[..k] == SortedAscending(old(indices[..k]))
  {
    var s := SortedAscending(indices[..k]);
    SortedAscendingProperties(indices[..k]);
    forall i | 0 <= i < k {
      scratch[i] := s[i];
    }
    assert scratch[..k] == s;
  }

  /** The loudest bin and the energy of scratch[start..end]. */
  method Summarise(mag: seq<real>, scratch: array<nat>, start: nat, end: nat) returns (best: nat, sum: real)
    requires start < end <= scratch.Length && InRange(mag, scratch[start..end])
    ensures best == Loudest(mag, scratch[start..end]) && sum == Energy(mag, scratch[start..end])
  {
    best := scratch[start];
    assert scratch[start..end][0] == scratch[start];
    sum := mag[best];
    OneBin(mag, scratch[start..start + 1]);
    for j := start + 1 to end
      invariant InRange(mag, scratch[start..j])
      invariant best == Loudest(mag, scratch[start..j]) && sum == Energy(mag, scratch[start..j])
    {
      var b := scratch[j];
      assert b == scratch[start..end][j - start];
      assert scratch[start..j + 1][..j - start] == scratch[start..j];
      sum := sum + mag[b];
      if mag[b] > mag[best] {
        best := b;
      }
    }
  }

  lemma OneBin(mag: seq<real>, s: seq<nat>)
    requires |s| == 1 && InRange(mag, s)
    ensures Energy(mag, s) == mag[s[0]] && Loudest(mag, s) == s[0]
  {
    assert s[..0] == [];
  }

  /** The first n clusters are written out: center, energy and count of each. */
  ghost predicate Written(mag: seq<real>, r: seq<seq<nat>>, n: nat,
                          centers: seq<nat>, energies: seq<real>, counts: seq<nat>)
  {
    && n <= |r| && n <= |centers| && n <= |energies| && n <= |counts| && AllInRange(mag, r)
    && forall i :: 0 <= i < n && r[i] != [] ==>
         centers[i] == Loudest(mag, r[i]) && energies[i] == Energy(mag, r[i]) && counts[i] == |r[i]| % 0x1_0000
  }

  /** Writes out the cluster scratch[start..end] at position n. */
  method WriteCluster(mag: seq<real>, scratch: array<nat>, start: nat, end: nat, ghost r: seq<seq<nat>>, n: nat,
                      centers: array<nat>, energies: array<real>, counts: array<nat>)
    requires start < end <= scratch.Length && n < centers.Length && n < energies.Length && n < counts.Length
    requires scratch != centers && scratch != counts && centers != counts
    requires Written(mag, r, n, centers[..], energies[..], counts[..])
    requires n < |r| && r[n] == scratch[start..end]
    modifies centers, energies, counts
    ensures Written(mag, r, n + 1, centers[..], energies[..], counts[..])
  {
    hide Loudest, Energy;
    assert InRange(mag, r[n]);
    var best, sum := Summarise(mag, scratch, start, end);
    WrittenOneMore(mag, r, n, centers[..], energies[..], counts[..], best, sum);
    centers[n] := best;
    energies[n] := sum;
    counts[n] := (end - start) % 0x1_0000;
  }

  method ClusterPeaks(indices: array<nat>, k: nat, mag: seq<real>, gap: nat, scratch: array<nat>,
                      centers: array<nat>, energies: array<real>, counts: array<nat>, cap: nat) returns (n: nat)
    requires k <= indices.Length && k <= scratch.Length && InRange(mag, indices[..k])
    requires cap <= centers.Length && cap <= energies.Length && cap <= counts.Length
    requires scratch != indices && scratch != centers && scratch != counts && centers != counts
    modifies scratch, centers, energies, counts
    ensures var r := ClustersOf(old(indices[..k]), gap);
            n == (if |r| <= cap then |r| else cap) &&
            Written(mag, r, n, centers[..], energies[..], counts[..])
  {
    if k == 0 || cap == 0 {
      ClustersConserve(mag, indices[..k], gap);
      return 0;
    }
    hide ClustersOf, Loudest, Energy, Sweeping, Written, Flatten;
    ghost var picked := indices[..k];
    ClustersConserve(mag, picked, gap);
    CopySorted(indices, k, scratch);
    SweepStarts(mag, picked, scratch[..k], gap, centers[..], energies[..], counts[..]);
    n := Sweep(k, mag, gap, scratch, ClustersOf(picked, gap), centers, energies, counts, cap);
  }

  /** The sweep over the sorted copy; r is what it is to find. */
  method Sweep(k: nat, mag: seq<real>, gap: nat, scratch: array<nat>, ghost r: seq<seq<nat>>,
               centers: array<nat>, energies: array<real>, counts: array<nat>, cap: nat) returns (n: nat)
    requires 0 < k <= scratch.Length
    requires cap <= centers.Length && cap <= energies.Length && cap <= counts.Length
    requires scratch != centers && scratch != counts && centers != counts
    requires Sweeping(scratch[..k], gap, r, 0, 0, 1) && Written(mag, r, 0, centers[..], energies[..], counts[..])
    modifies centers, energies, counts
    ensures n == (if |r| <= cap then |r| else cap) && Written(mag, r, n, centers[..], energies[..], counts[..])
  {
    hide Sweeping, Written;
    ghost var s := scratch[..k];
    n := 0;
    var start := 0;
    var i := 1;
    while i <= k
      invariant 1 <= i <= k + 1 && scratch[..k] == s
      invariant n <= cap && Sweeping(s, gap, r, n, start, i)
      invariant Written(mag, r, n, centers[..], energies[..], counts[..])
      decreases k + 1 - i
    {
      assert scratch[i - 1] == s[i - 1] && (i < k ==> scratch[i] == s[i]);
      var boundary := i == k || scratch[i] - scratch[i - 1] > gap;
      if !boundary {
        StillInside(s, gap, r, n, start, i);
        i := i + 1;
        continue;
      }
      RunFound(s, gap, r, n, start, i);
      if n >= cap {
        break;
      }
      assert scratch[start..i] == scratch[..k][start..i];
      WriteCluster(mag, scratch, start, i, r, n, centers, energies, counts);
      n := n + 1;
      start := i;
      i := i + 1;
    }
    if i == k + 1 {
      SweepEnds(s, gap, r, n, start, i);
    }
  }

  lemma SweepStarts(mag: seq<real>, picked: seq<nat>, s: seq<nat>, gap: nat,
                    centers: seq<nat>, energies: seq<real>, counts: seq<nat>)
    requires InRange(mag, picked) && picked != [] && s == SortedAscending(picked)
    ensures |s| == |picked| && Sweeping(s, gap, ClustersOf(picked, gap), 0, 0, 1)
    ensures Written(mag, ClustersOf(picked, gap), 0, centers, energies, counts)
  {
    SortedAscendingProperties(picked);
    ClustersConserve(mag, picked, gap);
    assert s[0..] == s && |s[0..1]| == 1;
  }

  lemma WrittenOneMore(mag: seq<real>, r: seq<seq<nat>>, n: nat, centers: seq<nat>, energies: seq<real>,
                       counts: seq<nat>, best: nat, sum: real)
    requires Written(mag, r, n, centers, energies, counts)
    requires n < |r| && n < |centers| && n < |energies| && n < |counts| && r[n] != []
    requires best == Loudest(mag, r[n]) && sum == Energy(mag, r[n])
    ensures Written(mag, r, n + 1, centers[n := best], energies[n := sum], counts[n := |r[n]| % 0x1_0000])
  {
    hide Loudest, Energy;
  }

  lemma SweepEnds(s: seq<nat>, gap: nat, r: seq<seq<nat>>, n: nat, start: nat, i: nat)
    requires Sweeping(s, gap, r, n, start, i) && i == |s| + 1
    ensures n == |r|
  {
    assert s[start..] == [];
    assert r[n..] == [];
  }

  /** n runs are finished; the next starts at `start` and has been followed without a gap up to i. */
  ghost predicate Sweeping(s: seq<nat>, gap: nat, r: seq<seq<nat>>, n: nat, start: nat, i: nat) {
    && n <= |r| && start <= |s| && start < i <= |s| + 1
    && r[n..] == Runs(s[start..], gap)
    && (i <= |s| ==> CloseInside(s[start..i], gap))
    && (i == |s| + 1 ==> start == |s|)
  }

  lemma StillInside(s: seq<nat>, gap: nat, r: seq<seq<nat>>, n: nat, start: nat, i: nat)
    requires Sweeping(s, gap, r, n, start, i) && i < |s| && s[i] - s[i - 1] <= gap
    ensures Sweeping(s, gap, r, n, start, i + 1)
  {
    assert s[start..i + 1] == s[start..i] + [s[i]];
    assert s[start..i][i - 1 - start] == s[i - 1];
  }

  lemma {:induction false} RunEndsAtGap(s: seq<nat>, gap: nat, n: nat)
    requires 0 < n <= |s| && CloseInside(s[..n], gap) && (n == |s| || s[n] - s[n - 1] > gap)
    ensures RunLength(s, gap) == n
  {
    if n > 1 {
      assert s[..n][0 + 1] - s[..n][0] <= gap;
      assert s[1..][..n - 1] == s[..n][1..];
      CloseTail(s[..n], gap);
      RunEndsAtGap(s[1..], gap, n - 1);
    }
  }

  lemma CloseTail(s: seq<nat>, gap: nat)
    requires s != [] && CloseInside(s, gap)
    ensures CloseInside(s[1..], gap)
  {
    var t := s[1..];
    forall i: nat | i + 1 < |t| ensures t[i + 1] - t[i] <= gap {
      assert s[i + 1 + 1] - s[i + 1] <= gap;
    }
  }

  lemma RunFound(s: seq<nat>, gap: nat, r: seq<seq<nat>>, n: nat, start: nat, i: nat)
    requires Sweeping(s, gap, r, n, start, i) && i <= |s| && (i == |s| || s[i] - s[i - 1] > gap)
    ensures n < |r| && r[n] == s[start..i] && r[n] != [] && start < i <= |s|
    ensures Sweeping(s, gap, r, n + 1, i, i + 1)
  {
    var t := s[start..];
    assert t[..i - start] == s[start..i] && t[i - start..] == s[i..];
    RunEndsAtGap(t, gap, i - start);
    assert r[n] == r[n..][0] && r[n + 1..] == r[n..][1..];
    if i < |s| {
      assert |s[i..i + 1]| == 1;
    }
  }
}
