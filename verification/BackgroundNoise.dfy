/** The background level of a spectrum: what the selected peaks leave, spread over the other bins. */
module BackgroundNoise {
  import opened Options
  import opened PeakClusters
  import opened Ranking
  import opened TopK

  const UNLIMITED := 0xFFFF_FFFF

  ghost predicate NonNegative(mag: seq<real>) {
    forall i :: 0 <= i < |mag| ==> mag[i] >= 0.0
  }

  function Shifted(s: seq<nat>, offset: nat): (r: seq<nat>)
    ensures |r| == |s| && forall i :: 0 <= i < |s| ==> r[i] == s[i] + offset
  {
    seq(|s|, i requires 0 <= i < |s| => s[i] + offset)
  }

  /** A selection inside a slice holds the same energy when its bins are counted from the whole. */
  lemma {:induction false} ShiftedEnergy(mag: seq<real>, lo: nat, hi: nat, s: seq<nat>)
    requires lo <= hi <= |mag| && InRange(mag[lo..hi], s)
    ensures InRange(mag, Shifted(s, lo)) && Energy(mag, Shifted(s, lo)) == Energy(mag[lo..hi], s)
  {
    if s != [] {
      var front := s[..|s| - 1];
      ShiftedEnergy(mag, lo, hi, front);
      assert Shifted(s, lo)[..|s| - 1] == Shifted(front, lo);
    }
  }

  function Mean(mag: seq<real>, s: seq<nat>): real
    requires InRange(mag, s) && s != []
  {
    Energy(mag, s) / |s| as real
  }

  lemma {:induction false} EnergyBetween(mag: seq<real>, s: seq<nat>, low: real, high: real)
    requires InRange(mag, s) && forall i :: 0 <= i < |s| ==> low <= mag[s[i]] <= high
    ensures low * |s| as real <= Energy(mag, s) <= high * |s| as real
  {
    if s != [] {
      var front := s[..|s| - 1];
      assert forall i :: 0 <= i < |front| ==> front[i] == s[i];
      EnergyBetween(mag, front, low, high);
      assert low * |s| as real == low * |front| as real + low;
      assert high * |s| as real == high * |front| as real + high;
    }
  }

  lemma MeanBetween(mag: seq<real>, s: seq<nat>, low: real, high: real)
    requires InRange(mag, s) && s != [] && forall i :: 0 <= i < |s| ==> low <= mag[s[i]] <= high
    ensures low <= Mean(mag, s) <= high
  {
    EnergyBetween(mag, s, low, high);
    Quotient(Energy(mag, s), low, |s| as real);
    Quotient(Energy(mag, s), high, |s| as real);
  }

  lemma Quotient(total: real, level: real, n: real)
    requires n > 0.0
    ensures total >= level * n ==> total / n >= level
    ensures total <= level * n ==> total / n <= level
  {
    assert total == (total / n) * n;
  }

  /**
   * The mean of the bins left out is not negative, so clamping it at zero never has an effect,
   * and no selected bin lies below it.
   */
  lemma LeftoverMean(band: seq<real>, k: nat, i: nat)
    requires NonNegative(band) && i < k < |band|
    ensures 0.0 <= Mean(band, RankingOf(band)[k..]) <= band[RankingOf(band)[i]]
  {
    var r := RankingOf(band);
    RankingProperties(band);
    forall j | 0 <= j < |r[k..]| ensures 0.0 <= band[r[k..][j]] <= band[r[i]] {
      assert r[k..][j] == r[k + j] && Ahead(band, r[i], r[k + j]);
    }
    MeanBetween(band, r[k..], 0.0, band[r[i]]);
  }

  /** The energy of a band is that of its first k ranked bins and that of the others. */
  lemma {:induction false} BandSplits(band: seq<real>, k: nat)
    requires k <= |band|
    ensures Energy(band, Upto(|band|)) == Energy(band, RankingOf(band)[..k]) + Energy(band, RankingOf(band)[k..])
  {
    hide Energy, Sorted, Ordered;
    var r := RankingOf(band);
    RankingProperties(band);
    EnergyConcat(band, r[..k], r[k..]);
    assert r == r[..k] + r[k..];
  }

  lemma {:induction false} TotalEnergyAppend(mag: seq<real>, r: seq<seq<nat>>, i: nat)
    requires AllInRange(mag, r) && i < |r|
    ensures TotalEnergy(mag, r[..i + 1]) == TotalEnergy(mag, r[..i]) + Energy(mag, r[i])
    decreases i
  {
    hide Energy;
    if i > 0 {
      TotalEnergyAppend(mag, r[1..], i - 1);
      assert r[..i + 1][1..] == r[1..][..i] && r[..i][1..] == r[1..][..i - 1];
    } else {
      assert r[..1][1..] == [] && r[..0] == [];
    }
  }

  /** Adds up the cluster energies. */
  method SumClusters(mag: seq<real>, ghost r: seq<seq<nat>>, energies: array<real>, n: nat) returns (sum: real)
    requires n == |r| <= energies.Length && AllInRange(mag, r)
    requires forall i :: 0 <= i < n ==> energies[i] == Energy(mag, r[i])
    ensures sum == TotalEnergy(mag, r)
  {
    hide Energy;
    sum := 0.0;
    for i := 0 to n
      invariant sum == TotalEnergy(mag, r[..i])
    {
      TotalEnergyAppend(mag, r, i);
      sum := sum + energies[i];
    }
    assert r[..n] == r;
  }

  /** The energies written for the clusters of a selection add up to the energy of that selection. */
  lemma ClusterEnergies(mag: seq<real>, picks: seq<nat>, gap: nat, n: nat,
                        centers: seq<nat>, energies: seq<real>, counts: seq<nat>)
    requires InRange(mag, picks)
    requires Written(mag, ClustersOf(picks, gap), n, centers, energies, counts)
    ensures AllInRange(mag, ClustersOf(picks, gap))
    ensures forall i :: 0 <= i < n ==> energies[i] == Energy(mag, ClustersOf(picks, gap)[i])
    ensures |ClustersOf(picks, gap)| <= |picks| && (picks != [] ==> ClustersOf(picks, gap) != [])
    ensures TotalEnergy(mag, ClustersOf(picks, gap)) == Energy(mag, picks)
  {
    ClustersConserve(mag, picks, gap);
    SortedAscendingProperties(picks);
  }

  /** Adds the offset of the band to the first k bin numbers. */
  method ShiftBins(bins: array<nat>, k: nat, offset: nat)
    requires k <= bins.Length
    modifies bins
    ensures bins[..k] == Shifted(old(bins[..k]), offset) && bins[k..] == old(bins[k..])
  {
    for i := 0 to k
      invariant forall j :: 0 <= j < i ==> bins[j] == old(bins[j]) + offset
      invariant forall j :: i <= j < bins.Length ==> bins[j] == old(bins[j])
    {
      bins[i] := bins[i] + offset;
    }
  }

  /**
   * Selects and merges the peaks of the band kMin..kMax; the centers overwrite the selection. The buffers hold `cap`
   * clusters, at least as many as there are bins in the band.
   */
  method FindPeaks(mag: seq<real>, kMin: nat, kMax: nat, fraction: real, gap: nat, peakBins: array<nat>,
                   scratch: array<nat>, energies: array<real>, counts: array<nat>, cap: nat)
    returns (numTopK: nat, numPeaks: nat, topKEnergy: real)
    requires kMin <= kMax < |mag| <= 0xFFFF && kMax - kMin + 1 <= cap
    requires cap <= peakBins.Length && cap <= scratch.Length && cap <= energies.Length && cap <= counts.Length
    requires scratch != peakBins && scratch != counts && peakBins != counts
    modifies peakBins, scratch, energies, counts
    ensures var band := mag[kMin..kMax + 1];
            && TopCount(band, fraction, UNLIMITED, numTopK) && numTopK <= |band|
            && topKEnergy == Energy(band, RankingOf(band)[..numTopK])
            && var picks := Shifted(RankingOf(band)[..numTopK], kMin);
            InRange(mag, picks) && numPeaks == |ClustersOf(picks, gap)| && (numPeaks > 0 <==> numTopK > 0)
            && Written(mag, ClustersOf(picks, gap), numPeaks, peakBins[..], energies[..], counts[..])
  {
    hide TopCount, RankingOf, ClustersOf, Written, Energy, TotalEnergy;
    ghost var band := mag[kMin..kMax + 1];
    numTopK := TopByEnergyFraction(mag[kMin..kMax + 1], fraction, peakBins, UNLIMITED);
    ShiftBins(peakBins, numTopK, kMin);
    ghost var picks := Shifted(RankingOf(band)[..numTopK], kMin);
    ShiftedEnergy(mag, kMin, kMax + 1, RankingOf(band)[..numTopK]);
    numPeaks := ClusterPeaks(peakBins, numTopK, mag, gap, scratch, peakBins, energies, counts, cap);
    ghost var r := ClustersOf(picks, gap);
    ClusterEnergies(mag, picks, gap, numPeaks, peakBins[..], energies[..], counts[..]);
    ClustersConserve(mag, picks, gap);
    topKEnergy := SumClusters(mag, r, energies, numPeaks);
  }

  /** The per-bin noise of the band, from its whole energy and that of the peaks. */
  method NoisePerBin(ghost band: seq<real>, bandLen: nat, numTopK: nat, numPeaks: nat,
                     bandEnergy: real, topKEnergy: real)
    returns (noise: Option<real>)
    requires NonNegative(band) && bandLen == |band| && numTopK <= bandLen && (numPeaks > 0 <==> numTopK > 0)
    requires bandEnergy == Energy(band, Upto(|band|)) && topKEnergy == Energy(band, RankingOf(band)[..numTopK])
    ensures noise.Some? <==> 0 < numTopK < bandLen
    ensures noise.Some? ==> noise.value == Mean(band, RankingOf(band)[numTopK..])
    ensures noise.Some? ==> noise.value * (bandLen - numTopK) as real == bandEnergy - topKEnergy
  {
    if bandLen > numTopK && numPeaks > 0 {
      hide RankingOf, Energy;
      BandSplits(band, numTopK);
      LeftoverMean(band, numTopK, 0);
      var perBin := (bandEnergy - topKEnergy) / (bandLen - numTopK) as real;
      if perBin < 0.0 {
        perBin := 0.0;
      }
      noise := Some(perBin);
    } else {
      noise := None;
    }
  }

  /** The energy of the band, picked out of a pass over the whole spectrum. */
  method BandEnergy(mag: seq<real>, kMin: nat, kMax: nat) returns (energy: real)
    requires kMin <= kMax < |mag|
    ensures energy == Energy(mag[kMin..kMax + 1], Upto(kMax + 1 - kMin))
  {
    ghost var band := mag[kMin..kMax + 1];
    energy := 0.0;
    for k := 0 to |mag|
      invariant k <= kMin ==> energy == 0.0
      invariant kMin <= k <= kMax + 1 ==> InRange(band, Upto(k - kMin)) && energy == Energy(band, Upto(k - kMin))
      invariant k > kMax ==> energy == Energy(band, Upto(kMax + 1 - kMin))
    {
      if kMin <= k <= kMax {
        assert Upto(k + 1 - kMin)[..k - kMin] == Upto(k - kMin);
        assert band[k - kMin] == mag[k];
        energy := energy + mag[k];
      }
    }
  }

  /**
   * Peaks and background of one spectrum: the background is the mean of exactly the bins that were not selected,
   * it is never negative, and every selected bin is at least as loud.
   */
  method AnalyzeBand(mag: seq<real>, kMin: nat, kMax: nat, fraction: real, gap: nat, peakBins: array<nat>,
                     scratch: array<nat>, energies: array<real>, counts: array<nat>, cap: nat)
    returns (numTopK: nat, numPeaks: nat, noise: Option<real>)
    requires NonNegative(mag) && kMin <= kMax < |mag| <= 0xFFFF && kMax - kMin + 1 <= cap
    requires cap <= peakBins.Length && cap <= scratch.Length && cap <= energies.Length && cap <= counts.Length
    requires scratch != peakBins && scratch != counts && peakBins != counts
    modifies peakBins, scratch, energies, counts
    ensures var band := mag[kMin..kMax + 1];
            && TopCount(band, fraction, UNLIMITED, numTopK) && numTopK <= |band|
            && (forall j: nat :: j < numTopK ==>
                  Energy(band, RankingOf(band)[..j]) < fraction * Energy(band, Upto(|band|)))
            && (0 < numTopK < |band| ==>
                  Energy(band, RankingOf(band)[..numTopK]) >= fraction * Energy(band, Upto(|band|)))
            && (noise.Some? <==> 0 < numTopK < |band|)
            && (noise.Some? ==>
                  noise.value * (|band| - numTopK) as real ==
                  Energy(band, Upto(|band|)) - Energy(band, RankingOf(band)[..numTopK]))
            && (noise.Some? ==> noise.value == Mean(band, RankingOf(band)[numTopK..]) >= 0.0)
            && (noise.Some? ==> forall i :: 0 <= i < numTopK ==> noise.value <= band[RankingOf(band)[i]])
            && var picks := Shifted(RankingOf(band)[..numTopK], kMin);
               InRange(mag, picks) && numPeaks == |ClustersOf(picks, gap)|
               && Written(mag, ClustersOf(picks, gap), numPeaks, peakBins[..], energies[..], counts[..])
  {
    hide TopCount, RankingOf, ClustersOf, Written, Energy, Mean;
    var bandEnergy := BandEnergy(mag, kMin, kMax);
    ghost var band := mag[kMin..kMax + 1];
    var topKEnergy;
    numTopK, numPeaks, topKEnergy :=
      FindPeaks(mag, kMin, kMax, fraction, gap, peakBins, scratch, energies, counts, cap);
    TopCountIsLeast(band, fraction, UNLIMITED, numTopK);
    noise := NoisePerBin(band, kMax - kMin + 1, numTopK, numPeaks, bandEnergy, topKEnergy);
    if noise.Some? {
      forall i | 0 <= i < numTopK ensures 0.0 <= noise.value <= band[RankingOf(band)[i]] {
        LeftoverMean(band, numTopK, i);
      }
      assert noise.value <= band[RankingOf(band)[0]];
    }
  }
}
