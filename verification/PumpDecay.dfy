/** Tracking of when the pump signal may have begun to decay. */
module PumpDecay {
  import opened Clock
  import Sorting

  const REFERENCE_FRAMES := 6
  const MIN_REFERENCE_FRAMES := 4
  const START_DROP_DB := 4.0
  const RECOVERY_DROP_DB := 2.0
  const MAX_CARRY_MS: Millis := 2000

  // ---- The reference and its median ------------------------------------------------------------

  ghost predicate Ascending(s: seq<real>) {
    forall i, j :: 0 <= i < j < |s| ==> s[i] <= s[j]
  }

  predicate NotLouder(a: real, b: real) {
    a <= b
  }

  function Sorted(s: seq<real>): (r: seq<real>)
    ensures |r| == |s|
  {
    Sorting.Sort(NotLouder, s)
  }

  function Median(s: seq<real>): real
    requires s != []
  {
    var middle := |s| / 2;
    if |s| % 2 == 1 then Sorted(s)[middle] else (Sorted(s)[middle - 1] + Sorted(s)[middle]) * 0.5
  }

  function AtMost(s: seq<real>, m: real): nat {
    if s == [] then 0 else (if s[0] <= m then 1 else 0) + AtMost(s[1..], m)
  }

  function AtLeast(s: seq<real>, m: real): nat {
    if s == [] then 0 else (if s[0] >= m then 1 else 0) + AtLeast(s[1..], m)
  }

  lemma {:induction false} InsertCounts(x: real, s: seq<real>, m: real)
    ensures AtMost(Sorting.Insert(NotLouder, x, s), m) == AtMost(s, m) + if x <= m then 1 else 0
    ensures AtLeast(Sorting.Insert(NotLouder, x, s), m) == AtLeast(s, m) + if x >= m then 1 else 0
  {
    if s == [] || x <= s[0] {
      assert ([x] + s)[1..] == s;
    } else {
      InsertCounts(x, s[1..], m);
      var later := Sorting.Insert(NotLouder, x, s[1..]);
      assert ([s[0]] + later)[1..] == later;
    }
  }

  lemma {:induction false} SortCounts(s: seq<real>, m: real)
    ensures AtMost(Sorted(s), m) == AtMost(s, m) && AtLeast(Sorted(s), m) == AtLeast(s, m)
  {
    if s != [] {
      SortCounts(s[1..], m);
      InsertCounts(s[0], Sorted(s[1..]), m);
    }
  }

  lemma SortAscends(s: seq<real>)
    ensures Ascending(Sorted(s))
  {
    Sorting.SortProperties(NotLouder, s);
    var r := Sorted(s);
    forall i, j | 0 <= i < j < |r| ensures r[i] <= r[j] {
      assert NotLouder(r[i], r[j]);
    }
  }

  lemma {:induction false} CountPrefix(s: seq<real>, n: nat, m: real)
    requires n <= |s| && forall i :: 0 <= i < n ==> s[i] <= m
    ensures AtMost(s, m) >= n
  {
    if n > 0 {
      assert forall i :: 0 <= i < n - 1 ==> s[1..][i] == s[i + 1];
      CountPrefix(s[1..], n - 1, m);
    }
  }

  lemma {:induction false} CountSuffix(s: seq<real>, n: nat, m: real)
    requires n <= |s| && forall i :: |s| - n <= i < |s| ==> s[i] >= m
    ensures AtLeast(s, m) >= n
  {
    if s != [] {
      if n == |s| {
        assert s[0] >= m;
        assert forall i :: 0 <= i < n - 1 ==> s[1..][i] == s[i + 1];
        CountSuffix(s[1..], n - 1, m);
      } else {
        assert forall i :: |s| - 1 - n <= i < |s| - 1 ==> s[1..][i] == s[i + 1];
        CountSuffix(s[1..], n, m);
      }
    }
  }

  lemma CountsAround(s: seq<real>, low: nat, high: nat, m: real)
    requires Ascending(s) && low <= |s| && high <= |s|
    requires (low > 0 ==> s[low - 1] <= m) && (high < |s| ==> s[high] >= m)
    ensures AtMost(s, m) >= low && AtLeast(s, m) >= |s| - high
  {
    CountPrefix(s, low, m);
    CountSuffix(s, |s| - high, m);
  }

  /** At least half of the values are at most the median, and at least half are at least the median. */
  lemma {:induction false} MedianSplits(s: seq<real>)
    requires s != []
    ensures 2 * AtMost(s, Median(s)) >= |s| && 2 * AtLeast(s, Median(s)) >= |s|
  {
    hide AtMost, AtLeast, Sorted, Ascending;
    var t, m, middle := Sorted(s), Median(s), |s| / 2;
    SortAscends(s);
    SortCounts(s, m);
    if |s| % 2 == 1 {
      CountsAround(t, middle + 1, middle, m);
    } else {
      InOrder(t, middle - 1, middle);
      CountsAround(t, middle, middle, m);
    }
  }

  /** And it lies in the middle between the two values in the middle, which are one for an odd number of them. */
  lemma {:induction false} MedianIsMiddle(s: seq<real>) returns (low: real, high: real)
    requires s != []
    ensures Median(s) == (low + high) * 0.5
    ensures AtMost(s, low) >= (|s| + 1) / 2 && AtLeast(s, low) >= |s| - (|s| + 1) / 2 + 1
    ensures AtMost(s, high) >= |s| / 2 + 1 && AtLeast(s, high) >= |s| - |s| / 2
  {
    var t, middle := Sorted(s), |s| / 2;
    low, high := if |s| % 2 == 1 then t[middle] else t[middle - 1], t[middle];
    hide AtMost, AtLeast, Sorted, Ascending;
    SortAscends(s);
    SortCounts(s, low);
    SortCounts(s, high);
    CountsAround(t, middle + 1, middle, high);
    if |s| % 2 == 0 {
      CountsAround(t, middle, middle - 1, low);
    }
  }

  lemma InOrder(s: seq<real>, i: nat, j: nat)
    requires Ascending(s) && i < j < |s|
    ensures s[i] <= s[j]
  {}

  function Appended(reference: seq<real>, snr: real): (r: seq<real>)
    ensures |reference| <= REFERENCE_FRAMES ==> |r| <= REFERENCE_FRAMES
  {
    if |reference| < REFERENCE_FRAMES then reference + [snr] else reference[1..] + [snr]
  }

  function LastSix(taken: seq<real>): seq<real> {
    if |taken| <= REFERENCE_FRAMES then taken else taken[|taken| - REFERENCE_FRAMES..]
  }

  /** Appending keeps the last six of everything appended. */
  lemma AppendKeepsLastSix(taken: seq<real>, snr: real)
    ensures Appended(LastSix(taken), snr) == LastSix(taken + [snr])
  {}

  // ---- One frame -----------------------------------------------------------------------------------

  datatype Tracker =
    Tracker(reference: seq<real>, candidate: bool, onsetMs: Millis, accepted: bool, acceptedOnsetMs: Millis)

  datatype Signal = Off | On | DecayCandidate

  const FRESH := Tracker([], false, 0, false, 0)

  /** What the tracker sees of one frame. */
  datatype Sight = Sight(now: Millis, wasActive: bool, isActive: bool, usable: bool, snr: real)

  predicate HasReference(t: Tracker) {
    |t.reference| >= MIN_REFERENCE_FRAMES
  }

  predicate Recovers(t: Tracker, s: Sight) {
    s.usable && HasReference(t) && s.snr >= Median(t.reference) - RECOVERY_DROP_DB
  }

  predicate Expires(t: Tracker, s: Sight) {
    Elapsed(s.now, t.onsetMs) > MAX_CARRY_MS
  }

  /** The signal is gone, or has dropped by START_DROP_DB under a full enough reference. */
  predicate Drops(t: Tracker, s: Sight) {
    HasReference(t) && (!s.usable || s.snr <= Median(t.reference) - START_DROP_DB)
  }

  function Took(t: Tracker, s: Sight): Tracker {
    if s.usable then t.(reference := Appended(t.reference, s.snr)) else t
  }

  /**
   * Inside the window: a candidate is kept until it recovers or expires; otherwise the signal is watched for a drop.
   */
  function Watched(t: Tracker, s: Sight): Tracker {
    if t.candidate then
      if !Recovers(t, s) && !Expires(t, s) then t
      else Took(t.(candidate := false, onsetMs := 0, reference := if Expires(t, s) then [] else t.reference), s)
    else if Drops(t, s) then t.(candidate := true, onsetMs := s.now)
    else Took(t, s)
  }

  function Stepped(t: Tracker, s: Sight): Tracker {
    var w := if s.wasActive then Watched(t, s) else t;
    if !s.wasActive && s.isActive then Took(FRESH, s)
    else if s.wasActive && !s.isActive then
      Tracker([], false, 0, w.candidate, if w.candidate then w.onsetMs else 0)
    else if !s.isActive then w.(reference := [], candidate := false, onsetMs := 0)
    else w
  }

  function SignalOf(t: Tracker, isActive: bool): Signal {
    if !isActive then Off else if t.candidate then DecayCandidate else On
  }

  // ---- The measurements accepted since the reference was last cleared ------------------------------------

  /** Inside the window the reference starts over exactly when a candidate expires. */
  predicate StartsOver(t: Tracker, s: Sight) {
    t.candidate && Expires(t, s)
  }

  /** Inside the window a usable measurement is accepted unless it drops, or a candidate goes on. */
  predicate Admits(t: Tracker, s: Sight) {
    s.usable && if t.candidate then Recovers(t, s) || Expires(t, s) else !Drops(t, s)
  }

  function KeptInWindow(past: seq<real>, t: Tracker, s: Sight): seq<real> {
    (if StartsOver(t, s) then [] else past) + if Admits(t, s) then [s.snr] else []
  }

  /** Outside the window nothing is kept; the frame that opens it is the first that may count. */
  function Kept(past: seq<real>, t: Tracker, s: Sight): seq<real> {
    if !s.isActive then []
    else if !s.wasActive then (if s.usable then [s.snr] else [])
    else KeptInWindow(past, t, s)
  }

  lemma WatchingKeepsLastSix(past: seq<real>, t: Tracker, s: Sight)
    requires t.reference == LastSix(past)
    ensures Watched(t, s).reference == LastSix(KeptInWindow(past, t, s))
  {
    hide Recovers, Expires, Drops;
    AppendKeepsLastSix(past, s.snr);
    AppendKeepsLastSix([], s.snr);
    assert past + [] == past && [] + [s.snr] == [s.snr];
  }

  function Run(h: seq<Sight>): Tracker {
    if h == [] then FRESH else Stepped(Run(h[..|h| - 1]), h[|h| - 1])
  }

  function AcceptedSince(h: seq<Sight>): seq<real> {
    if h == [] then [] else Kept(AcceptedSince(h[..|h| - 1]), Run(h[..|h| - 1]), h[|h| - 1])
  }

  /** After every history the reference is the last six measurements accepted since it was cleared. */
  lemma {:induction false} ReferenceIsLastSix(h: seq<Sight>)
    ensures Run(h).reference == LastSix(AcceptedSince(h))
    ensures var past := AcceptedSince(h); Run(h).reference == if |past| <= 6 then past else past[|past| - 6..]
  {
    if h != [] {
      var before, s := h[..|h| - 1], h[|h| - 1];
      ReferenceIsLastSix(before);
      hide Watched, KeptInWindow;
      WatchingKeepsLastSix(AcceptedSince(before), Run(before), s);
    }
  }

  // ---- Drops, recoveries and expiry, in decibels and milliseconds --------------------------------------

  /** After any history, what a frame inside the window does to a signal that has no candidate. */
  lemma DropsByFour(h: seq<Sight>, s: Sight)
    requires var t := Run(h); !t.candidate && s.wasActive && s.isActive
    ensures var t, later := Run(h), Stepped(Run(h), s);
            && (later.candidate <==> |t.reference| >= 4 && (s.usable ==> s.snr <= Median(t.reference) - 4.0))
            && (later.candidate ==> later.onsetMs == s.now && later.reference == t.reference)
            && (!later.candidate ==> later.reference == if s.usable then Appended(t.reference, s.snr) else t.reference)
  {
    hide Run, Median;
  }

  /** And to one that has: it stays, with its onset, for two seconds or until the signal is back within two decibels. */
  lemma RecoversWithinTwo(h: seq<Sight>, s: Sight)
    requires var t := Run(h); t.candidate && s.wasActive && s.isActive
    ensures var t, later := Run(h), Stepped(Run(h), s);
            var back := s.usable && |t.reference| >= 4 && s.snr >= Median(t.reference) - 2.0;
            var over := Elapsed(s.now, t.onsetMs) > 2000;
            && (later.candidate <==> !back && !over)
            && (later.candidate ==> later == t)
            && (!later.candidate ==>
                  var past := (if over then [] else t.reference) + if s.usable then [s.snr] else [];
                  later.reference == if |past| <= 6 then past else past[1..])
  {
    ReferenceIsLastSix(h);
    hide Run, Median;
  }

  /** Outside the window nothing is kept but what was accepted when it closed. */
  lemma OffIsClear(t: Tracker, s: Sight)
    requires !s.isActive
    ensures var c := s.wasActive && Watched(t, s).candidate;
            Stepped(t, s) == if s.wasActive then Tracker([], false, 0, c, if c then Watched(t, s).onsetMs else 0)
                             else Tracker([], false, 0, t.accepted, t.acceptedOnsetMs)
  {}

  class PumpDecayTracker {
    const reference: array<real>
    var referenceCount: nat
    var candidate: bool
    var onsetMs: Millis
    var accepted: bool
    var acceptedOnsetMs: Millis
    ghost var taken: seq<real>   // the measurements accepted since the reference was last cleared

    /** The reference is always made of the last measurements accepted, six at most. */
    ghost predicate Valid()
      reads this, reference
    {
      && reference.Length == REFERENCE_FRAMES && referenceCount <= REFERENCE_FRAMES
      && reference[..referenceCount] == LastSix(taken)
    }

    ghost function View(): Tracker
      reads this, reference
      requires Valid()
    {
      Tracker(reference[..referenceCount], candidate, onsetMs, accepted, acceptedOnsetMs)
    }

    constructor ()
      ensures Valid() && View() == FRESH && taken == [] && fresh(reference)
    {
      reference := new real[REFERENCE_FRAMES](_ => 0.0);
      referenceCount, candidate, onsetMs, accepted, acceptedOnsetMs := 0, false, 0, false, 0;
      taken := [];
    }

    method AppendReference(snr: real)
      requires Valid()
      modifies `referenceCount, `taken, reference
      ensures Valid() && taken == old(taken) + [snr]
      ensures reference[..referenceCount] == Appended(old(reference[..referenceCount]), snr)
    {
      AppendKeepsLastSix(taken, snr);
      taken := taken + [snr];
      if referenceCount < REFERENCE_FRAMES {
        reference[referenceCount] := snr;
        referenceCount := referenceCount + 1;
        return;
      }
      for i := 1 to REFERENCE_FRAMES
        invariant referenceCount == REFERENCE_FRAMES && taken == old(taken) + [snr]
        invariant forall j :: 0 <= j < i - 1 ==> reference[j] == old(reference[j + 1])
        invariant forall j :: i - 1 <= j < REFERENCE_FRAMES ==> reference[j] == old(reference[j])
      {
        reference[i - 1] := reference[i];
      }
      reference[REFERENCE_FRAMES - 1] := snr;
      assert reference[..referenceCount] == Appended(old(reference[..referenceCount]), snr);
    }

    /** Copies the reference, sorts the copy and takes its middle. */
    method ReferenceMedian() returns (m: real)
      requires Valid() && referenceCount > 0
      ensures m == Median(reference[..referenceCount])
    {
      var sorted := Sorted(reference[..referenceCount]);
      var middle := referenceCount / 2;
      m := if referenceCount % 2 == 1 then sorted[middle] else (sorted[middle - 1] + sorted[middle]) * 0.5;
    }

    method ClearWindowState()
      requires Valid()
      modifies `referenceCount, `taken, `candidate, `onsetMs
      ensures Valid() && View() == old(View()).(reference := [], candidate := false, onsetMs := 0) && taken == []
    {
      referenceCount, candidate, onsetMs := 0, false, 0;
      taken := [];
    }

    method Watch(s: Sight)
      requires Valid()
      modifies `referenceCount, `taken, `candidate, `onsetMs, reference
      ensures Valid() && View() == Watched(old(View()), s)
      ensures taken == KeptInWindow(old(taken), old(View()), s)
    {
      var haveReference := referenceCount >= MIN_REFERENCE_FRAMES;
      var median := 0.0;
      if haveReference {
        median := ReferenceMedian();
      }
      if candidate {
        var recovered := s.usable && haveReference && s.snr >= median - RECOVERY_DROP_DB;
        var expired := Elapsed(s.now, onsetMs) > MAX_CARRY_MS;
        if recovered || expired {
          candidate, onsetMs := false, 0;
          if expired {
            referenceCount, taken := 0, [];
          }
          if s.usable {
            AppendReference(s.snr);
          }
        }
      } else if haveReference && (!s.usable || s.snr <= median - START_DROP_DB) {
        candidate, onsetMs := true, s.now;
      } else if s.usable {
        AppendReference(s.snr);
      }
    }

    method Step(s: Sight) returns (signal: Signal)
      requires Valid()
      modifies this, reference
      ensures Valid() && View() == Stepped(old(View()), s)
      ensures signal == if !s.isActive then Off else if candidate then DecayCandidate else On
      ensures taken == Kept(old(taken), old(View()), s)
    {
      if s.wasActive {
        Watch(s);
      }
      if !s.wasActive && s.isActive {
        ClearWindowState();
        accepted, acceptedOnsetMs := false, 0;
        if s.usable {
          AppendReference(s.snr);
        }
      } else if s.wasActive && !s.isActive {
        accepted, acceptedOnsetMs := candidate, if candidate then onsetMs else 0;
        ClearWindowState();
      } else if !s.isActive {
        ClearWindowState();
      }
      signal := if !s.isActive then Off else if candidate then DecayCandidate else On;
    }
  }
}
