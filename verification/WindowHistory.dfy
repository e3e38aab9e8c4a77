/** When the window opens and closes, in terms of the measured values of the frames. */
module WindowHistory {
  import opened Options
  import opened WindowTrigger

  /** At rest, in the pump band, and at least so far above the noise. */
  predicate Pumping(f: Features, snrDb: real) {
    && f.stationary && f.snrDb.Some? && f.snrDb.value >= snrDb
    && f.peakHz.Some? && 90.0 <= f.peakHz.value <= 130.0
  }

  /** The frame keeps an open window open. */
  predicate Holds(f: Features) {
    Pumping(f, 11.0)
  }

  /** The frame counts towards opening the window. */
  predicate Strong(f: Features) {
    Pumping(f, 14.0)
  }

  /** The one condition that a failure names is violated. */
  predicate Violates(f: Features, failure: Failure) {
    match failure
    case Moving => !f.stationary
    case SnrInvalid => f.snrDb.None?
    case LowSnr => f.snrDb.Some? && f.snrDb.value < 11.0
    case PeakInvalid => f.peakHz.None?
    case PeakOutOfRange => f.peakHz.Some? && (f.peakHz.value < 90.0 || f.peakHz.value > 130.0)
  }

  /** What the trigger's two tests mean; a frame that enters never fails. */
  lemma TestsMean(f: Features)
    ensures (Fails(f) <==> !Holds(f)) && (Enters(f) <==> Strong(f)) && (Strong(f) ==> Holds(f))
    ensures forall x :: x in FailuresOf(f) <==> Violates(f, x)
  {
    if !Holds(f) {
      var x := if !f.stationary then Moving
               else if f.snrDb.None? then SnrInvalid
               else if f.snrDb.value < 11.0 then LowSnr
               else if f.peakHz.None? then PeakInvalid
               else PeakOutOfRange;
      assert x in FailuresOf(f);
    }
  }

  lemma {:induction false} FailingCounts(r: seq<Features>, n: nat)
    requires n <= |r|
    ensures Failing(r) >= n <==> forall i :: |r| - n <= i < |r| ==> !Holds(r[i])
  {
    if n > 0 {
      TestsMean(r[|r| - 1]);
      FailingCounts(r[..|r| - 1], n - 1);
      assert forall i :: 0 <= i < |r| - 1 ==> r[..|r| - 1][i] == r[i];
    }
  }

  lemma {:induction false} EnteringCounts(r: seq<Features>, n: nat)
    requires n <= |r|
    ensures Entering(r) >= n <==> forall i :: |r| - n <= i < |r| ==> Strong(r[i])
  {
    if n > 0 {
      TestsMean(r[|r| - 1]);
      EnteringCounts(r[..|r| - 1], n - 1);
      assert forall i :: 0 <= i < |r| - 1 ==> r[..|r| - 1][i] == r[i];
    }
  }

  lemma {:induction false} AllFailuresMeans(r: seq<Features>, x: Failure)
    ensures x in AllFailures(r) <==> exists i :: 0 <= i < |r| && Violates(r[i], x)
  {
    if r != [] {
      var n := |r| - 1;
      TestsMean(r[n]);
      AllFailuresMeans(r[..n], x);
      hide FailuresOf, Violates;
      if x in AllFailures(r[..n]) {
        var i :| 0 <= i < n && Violates(r[..n][i], x);
        assert Violates(r[i], x);
      }
      if i :| 0 <= i < |r| && Violates(r[i], x) {
        if i < n {
          assert Violates(r[..n][i], x);
        }
      }
    }
  }

  /** Frame p is the last edge of the history, or there is none and p is -1. */
  ghost predicate LastEdge(h: seq<Features>, p: int, edge: Event) {
    && -1 <= p < |h| && (p == -1 <==> edge.NoEvent?)
    && (p >= 0 ==> EventAt(h, p) == edge)
    && forall n :: p < n < |h| ==> EventAt(h, n).NoEvent?
  }

  /** Every history has one. */
  lemma {:induction false} FindLastEdge(h: seq<Features>) returns (p: int, edge: Event)
    ensures LastEdge(h, p, edge)
  {
    if h == [] {
      p, edge := -1, NoEvent;
    } else if EventAt(h, |h| - 1).NoEvent? {
      p, edge := FindLastEdge(h[..|h| - 1]);
      OneMoreQuiet(h, p, edge);
    } else {
      EdgeIsLast(h);
      p, edge := |h| - 1, EventAt(h, |h| - 1);
    }
  }

  lemma LastFrame(h: seq<Features>)
    requires h != []
    ensures var n := |h| - 1;
            var before, event := h[..n], EventAt(h, n);
            && Run(h).active == (event.Opened? || (event.NoEvent? && Run(before).active))
            && Recent(h) == (if event.NoEvent? then Recent(before) + [h[n]] else [])
            && forall i: nat :: i < n ==> EventAt(before, i) == EventAt(h, i)
  {
    var n := |h| - 1;
    forall i: nat | i < n ensures EventAt(h[..n], i) == EventAt(h, i) {
      assert h[..n][..i] == h[..i];
    }
    hide FailuresOf, Enters, Fails;
  }

  lemma LastEdgeBefore(h: seq<Features>, p: int, edge: Event)
    requires h != [] && LastEdge(h, p, edge)
    ensures var n := |h| - 1;
            if p == n then EventAt(h, n) == edge && !edge.NoEvent?
            else LastEdge(h[..n], p, edge) && EventAt(h, n).NoEvent?
  {
    LastFrame(h);
    var n := |h| - 1;
    assert p < n ==> EventAt(h, n).NoEvent?;
    hide EventAt, Recent, Run, Stepped;
    assert p == n && p >= 0 ==> !edge.NoEvent?;
  }

  /** The frames since the last edge are those after it, and the window is open exactly if it was an opening. */
  lemma {:induction false} RecentIsSince(h: seq<Features>, p: int, edge: Event)
    requires LastEdge(h, p, edge)
    ensures -1 <= p < |h|
    ensures Recent(h) == h[p + 1..] && (Run(h).active <==> edge.Opened?)
  {
    if h != [] {
      SinceBefore(h, p, edge);
      hide Run, Recent, EventAt, Stepped, LastEdge;
      if p < |h| - 1 {
        RecentIsSince(h[..|h| - 1], p, edge);
        OneMoreFrame(h, p);
      }
    }
  }

  lemma SinceBefore(h: seq<Features>, p: int, edge: Event)
    requires h != [] && LastEdge(h, p, edge)
    ensures var n := |h| - 1;
            && -1 <= p <= n
            && (p == n ==> Recent(h) == [] && (Run(h).active <==> edge.Opened?))
            && (p < n ==> LastEdge(h[..n], p, edge) && Run(h).active == Run(h[..n]).active
                          && Recent(h) == Recent(h[..n]) + [h[n]])
  {
    assert -1 <= p < |h|;
    LastFrame(h);
    LastEdgeBefore(h, p, edge);
  }

  lemma OneMoreFrame(h: seq<Features>, p: int)
    requires -1 <= p < |h| - 1
    ensures h[p + 1..] == h[..|h| - 1][p + 1..] + [h[|h| - 1]]
  {}

  /**
   * An open window is closed by a frame exactly if that frame and the three before it, all after the frame that opened
   * it, fail to hold it; the mask then names exactly the conditions that one of the four violates.
   */
  lemma {:induction false} ClosesAfterFourLost(h: seq<Features>, p: int, f: Features)
    requires LastEdge(h, p, Opened)
    ensures var outcome, r := Stepped(Run(h), f), h + [f];
            && (outcome.event.Closed? <==>
                  p + 4 < |r| && !Holds(r[|r| - 1]) && !Holds(r[|r| - 2]) && !Holds(r[|r| - 3]) && !Holds(r[|r| - 4]))
            && (outcome.event.Closed? ==>
                  forall x :: x in outcome.closeFailures <==>
                    Violates(r[|r| - 1], x) || Violates(r[|r| - 2], x) || Violates(r[|r| - 3], x)
                    || Violates(r[|r| - 4], x))
            && (!outcome.event.Closed? ==> outcome.event.NoEvent?)
  {
    RecentIsSince(h, p, Opened);
    hide Stepped, Run, Recent, Failing, AllFailures, Holds, Violates, LastEdge, EventAt;
    ClosesOnFourthFailure(h, f);
    AtMostFour(h, f);
    OpenStaysOrCloses(Run(h), f);
    OneMoreSince(h, p, f);
    if p + 4 < |h| + 1 {
      FourFail(h + [f], p);
    }
  }

  lemma OneMoreSince(h: seq<Features>, p: int, f: Features)
    requires -1 <= p < |h|
    ensures h[p + 1..] + [f] == (h + [f])[p + 1..]
  {}

  lemma FourFail(r: seq<Features>, p: int)
    requires -1 <= p && p + 4 < |r|
    ensures Failing(r[p + 1..]) >= 4 <==>
            !Holds(r[|r| - 1]) && !Holds(r[|r| - 2]) && !Holds(r[|r| - 3]) && !Holds(r[|r| - 4])
    ensures var failures := AllFailures(Last(r[p + 1..], 4));
            forall x :: x in failures <==>
              Violates(r[|r| - 1], x) || Violates(r[|r| - 2], x) || Violates(r[|r| - 3], x) || Violates(r[|r| - 4], x)
  {
    hide Failing, AllFailures, Holds, Violates;
    FailingCounts(r[p + 1..], 4);
    LastFour(r[p + 1..]);
  }

  lemma OpenStaysOrCloses(t: Trigger, f: Features)
    requires t.active
    ensures !Stepped(t, f).event.Opened?
  {}

  lemma AtMostFour(h: seq<Features>, f: Features)
    requires Run(h).active
    ensures Failing(Recent(h) + [f]) <= N_OFF
  {
    hide Run, Recent;
    RunsAreCounted(h);
    Longer(Recent(h), f);
  }

  lemma LastFour(r: seq<Features>)
    requires |r| >= 4
    ensures (forall i :: |r| - 4 <= i < |r| ==> !Holds(r[i])) <==>
            !Holds(r[|r| - 1]) && !Holds(r[|r| - 2]) && !Holds(r[|r| - 3]) && !Holds(r[|r| - 4])
    ensures forall x :: x in AllFailures(Last(r, 4)) <==>
              Violates(r[|r| - 1], x) || Violates(r[|r| - 2], x) || Violates(r[|r| - 3], x) || Violates(r[|r| - 4], x)
  {
    hide Holds, Violates;
    var four := Last(r, 4);
    forall x ensures x in AllFailures(four) <==>
      Violates(r[|r| - 1], x) || Violates(r[|r| - 2], x) || Violates(r[|r| - 3], x) || Violates(r[|r| - 4], x)
    {
      AllFailuresMeans(four, x);
      assert four[0] == r[|r| - 4] && four[1] == r[|r| - 3] && four[2] == r[|r| - 2] && four[3] == r[|r| - 1];
    }
  }

  /** A closed window is opened by a frame exactly if that frame and the one before it, since it closed, are strong. */
  lemma {:induction false} OpensOnTwoStrong(h: seq<Features>, p: int, edge: Event, f: Features)
    requires LastEdge(h, p, edge) && !edge.Opened?
    ensures Stepped(Run(h), f).event.Opened? <==> p + 2 < |h| + 1 && Strong(f) && Strong(h[|h| - 1])
  {
    RecentIsSince(h, p, edge);
    OpensOnSecondEntry(h, f);
    AtMostTwo(h, f);
    hide Stepped, Run, Recent, Entering, Strong, LastEdge;
    var r := Recent(h) + [f];
    if |r| >= 2 {
      EnteringCounts(r, 2);
    }
  }

  lemma AtMostTwo(h: seq<Features>, f: Features)
    requires !Run(h).active
    ensures Entering(Recent(h) + [f]) <= N_ON
  {
    hide Run, Recent;
    RunsAreCounted(h);
    Longer(Recent(h), f);
  }

  /** Among any four frames in a row after frame p there is one that holds the window. */
  ghost predicate Sustained(h: seq<Features>, p: int) {
    forall i :: p < i && i + 3 < |h| && 0 <= i ==> Holds(h[i]) || Holds(h[i + 1]) || Holds(h[i + 2]) || Holds(h[i + 3])
  }

  /** So an open window stays open for as long as the vibration is sustained. */
  lemma {:induction false} StaysOpenWhileSustained(h: seq<Features>, p: nat)
    requires p < |h| && EventAt(h, p).Opened? && Sustained(h, p)
    ensures Run(h).active && LastEdge(h, p, Opened)
  {
    var n := |h| - 1;
    if p == n {
      EdgeIsLast(h);
    } else {
      SustainedBefore(h, p);
      EventBefore(h, p);
      hide Stepped, Run, Recent, EventAt, Holds, Sustained, LastEdge, Violates;
      StaysOpenWhileSustained(h[..n], p);
      NextIsQuiet(h, p);
    }
    hide Stepped, Run, Recent, EventAt, Holds, Sustained, LastEdge, Violates;
    RecentIsSince(h, p, Opened);
  }

  lemma NextIsQuiet(h: seq<Features>, p: nat)
    requires p + 1 < |h| && LastEdge(h[..|h| - 1], p, Opened)
    requires var n := |h| - 1; p + 4 < |h| ==> Holds(h[n]) || Holds(h[n - 1]) || Holds(h[n - 2]) || Holds(h[n - 3])
    ensures LastEdge(h, p, Opened)
  {
    hide Stepped, Run, Recent, EventAt, Holds, Sustained, LastEdge, Violates;
    var n := |h| - 1;
    ClosesAfterFourLost(h[..n], p, h[n]);
    assert h[..n] + [h[n]] == h;
    EventBefore(h, p);
    OneMoreQuiet(h, p, Opened);
  }

  lemma EventBefore(h: seq<Features>, p: nat)
    requires p + 1 < |h|
    ensures var n := |h| - 1;
            EventAt(h[..n], p) == EventAt(h, p) && EventAt(h, n) == Stepped(Run(h[..n]), h[n]).event
  {
    hide Stepped, Run;
    assert h[..|h| - 1][..p] == h[..p];
  }

  lemma SustainedBefore(h: seq<Features>, p: nat)
    requires p + 1 < |h| && Sustained(h, p)
    ensures Sustained(h[..|h| - 1], p)
    ensures p + 4 < |h| ==> var n := |h| - 1; Holds(h[n]) || Holds(h[n - 1]) || Holds(h[n - 2]) || Holds(h[n - 3])
  {
    hide Holds;
    var i := |h| - 4;
    if p + 4 < |h| {
      assert Holds(h[i]) || Holds(h[i + 1]) || Holds(h[i + 2]) || Holds(h[i + 3]);
    }
  }

  lemma EdgeIsLast(h: seq<Features>)
    requires h != [] && !EventAt(h, |h| - 1).NoEvent?
    ensures LastEdge(h, |h| - 1, EventAt(h, |h| - 1))
  {}

  lemma OneMoreQuiet(h: seq<Features>, p: int, edge: Event)
    requires h != [] && LastEdge(h[..|h| - 1], p, edge) && EventAt(h, |h| - 1).NoEvent?
    ensures LastEdge(h, p, edge)
  {
    hide Run, Stepped;
    var n := |h| - 1;
    forall i: nat | i < n ensures EventAt(h[..n], i) == EventAt(h, i) {
      assert h[..n][..i] == h[..i];
    }
  }
}
