/** The window trigger and the decay tracker chained frame by frame, and what an accepted onset means. */
module PumpSignal {
  import opened Clock
  import opened Options
  import Decay = PumpDecay
  import Window = WindowTrigger

  /** One analysed frame at an absolute time: the trigger's features and the raw measurement of the pump cluster. */
  datatype Frame = Frame(time: nat, features: Window.Features, hasCluster: bool, rawSnrDb: Option<real>)

  predicate Usable(f: Frame) {
    && f.features.stationary && f.hasCluster && f.rawSnrDb.Some?
    && f.features.peakHz.Some? && Window.PEAK_MIN_HZ <= f.features.peakHz.value <= Window.PEAK_MAX_HZ
  }

  function SightOf(f: Frame, wasActive: bool, isActive: bool): Decay.Sight {
    Decay.Sight(At(f.time), wasActive, isActive, Usable(f), match f.rawSnrDb case None => 0.0 case Some(snr) => snr)
  }

  datatype Chain = Chain(trigger: Window.Trigger, tracker: Decay.Tracker)

  function Stepped(c: Chain, f: Frame): Chain {
    var outcome := Window.Stepped(c.trigger, f.features);
    Chain(outcome.trigger, Decay.Stepped(c.tracker, SightOf(f, c.trigger.active, outcome.trigger.active)))
  }

  method ProcessFrame(trigger: Window.VibrationWindowTrigger, tracker: Decay.PumpDecayTracker, f: Frame)
    returns (event: Window.Event, closeFailures: Window.Failures, signal: Decay.Signal)
    requires tracker.Valid()
    modifies trigger, tracker, tracker.reference
    ensures tracker.Valid()
    ensures Chain(trigger.View(), tracker.View()) == Stepped(old(Chain(trigger.View(), tracker.View())), f)
    ensures event == Window.Stepped(old(trigger.View()), f.features).event
    ensures signal == Decay.SignalOf(tracker.View(), trigger.active)
    ensures signal ==
            if !trigger.active then Decay.Off else if tracker.candidate then Decay.DecayCandidate else Decay.On
    ensures tracker.taken == Decay.Kept(old(tracker.taken), old(tracker.View()),
                                        SightOf(f, old(trigger.active), trigger.active))
  {
    var wasActive := trigger.active;
    event, closeFailures := trigger.StepDetailed(f.features);
    signal := tracker.Step(SightOf(f, wasActive, trigger.active));
  }

  function Run(h: seq<Frame>): Chain {
    if h == [] then Chain(Window.CLOSED, Decay.FRESH) else Stepped(Run(h[..|h| - 1]), h[|h| - 1])
  }

  /** Trigger and tracker taken through a history of frames. */
  method ProcessAll(h: seq<Frame>) returns (trigger: Window.VibrationWindowTrigger, tracker: Decay.PumpDecayTracker)
    ensures tracker.Valid() && Chain(trigger.View(), tracker.View()) == Run(h)
  {
    trigger := new Window.VibrationWindowTrigger();
    tracker := new Decay.PumpDecayTracker();
    hide Stepped;
    for i := 0 to |h|
      invariant tracker.Valid() && fresh(trigger) && fresh(tracker) && fresh(tracker.reference)
      invariant Chain(trigger.View(), tracker.View()) == Run(h[..i])
    {
      assert h[..i + 1][..i] == h[..i];
      var event, closeFailures, signal := ProcessFrame(trigger, tracker, h[i]);
    }
    assert h[..|h|] == h;
  }

  /** What the tracker sees of frame n. */
  function SightAt(h: seq<Frame>, n: nat): Decay.Sight
    requires n < |h|
  {
    SightOf(h[n], Run(h[..n]).trigger.active, Run(h[..n + 1]).trigger.active)
  }

  /** What the tracker sees of a history of frames. */
  function Sights(h: seq<Frame>): seq<Decay.Sight> {
    if h == [] then [] else Sights(h[..|h| - 1]) + [SightAt(h, |h| - 1)]
  }

  lemma {:induction false} TrackerSeesSights(h: seq<Frame>)
    ensures Decay.Run(Sights(h)) == Run(h).tracker
  {
    if h != [] {
      var n := |h| - 1;
      TrackerSeesSights(h[..n]);
      assert h[..n + 1] == h && Sights(h)[..|Sights(h)| - 1] == Sights(h[..n]);
    }
  }

  /** After every history of frames the reference is the last six measurements accepted since it was cleared. */
  lemma ReferenceOfFrames(h: seq<Frame>)
    ensures Run(h).tracker.reference == Decay.LastSix(Decay.AcceptedSince(Sights(h)))
  {
    TrackerSeesSights(h);
    Decay.ReferenceIsLastSix(Sights(h));
  }

  /** The candidate at frame n, before the window edge is dealt with. */
  function CandidateAt(h: seq<Frame>, n: nat): bool
    requires n < |h|
  {
    var before := Run(h[..n]);
    before.trigger.active && Decay.Watched(before.tracker, SightAt(h, n)).candidate
  }

  predicate ClosesAt(h: seq<Frame>, n: nat)
    requires n < |h|
  {
    Window.Stepped(Run(h[..n]).trigger, h[n].features).event.Closed?
  }

  /**
   * Frames at which the latest window opened and closed, and at which the latest candidate and the accepted one arose.
   */
  datatype Story = Story(openedAt: int, closedAt: int, onsetAt: int, acceptedAt: int)

  function StoryOf(h: seq<Frame>): Story {
    if h == [] then Story(-1, -1, -1, -1)
    else
      var n := |h| - 1;
      var before, past := Run(h[..n]), StoryOf(h[..n]);
      var event := Window.Stepped(before.trigger, h[n].features).event;
      var onset := if CandidateAt(h, n) && !before.tracker.candidate then n else past.onsetAt;
      Story(if event.Opened? then n else past.openedAt, if event.Closed? then n else past.closedAt, onset,
            if event.Closed? then onset else past.acceptedAt)
  }

  /** Time does not run backwards, and no pause is longer than the carry check can tell on the wrapping counter. */
  ghost predicate Paced(h: seq<Frame>) {
    forall i :: 0 <= i && i + 1 < |h| ==> h[i].time <= h[i + 1].time < h[i].time + WRAP - Decay.MAX_CARRY_MS
  }

  /** Times read off a history, for positions that may be unset. */
  ghost function TimeAt(h: seq<Frame>, i: int): nat {
    if 0 <= i < |h| then h[i].time else 0
  }

  /** What the state of the chain says about the history, `now` being the time of the last frame. */
  ghost predicate Told(c: Chain, s: Story, h: seq<Frame>, now: nat) {
    && s.openedAt < |h| && s.closedAt < |h| && s.onsetAt < |h|
    && (c.trigger.active ==> s.closedAt < s.openedAt && 0 <= s.openedAt)
    && (c.tracker.candidate ==>
          && c.trigger.active && s.openedAt < s.onsetAt
          && c.tracker.onsetMs == At(TimeAt(h, s.onsetAt))
          && TimeAt(h, s.onsetAt) <= now <= TimeAt(h, s.onsetAt) + Decay.MAX_CARRY_MS)
    && (c.tracker.accepted ==>
          && !c.trigger.active && 0 <= s.openedAt < s.acceptedAt <= s.closedAt
          && c.tracker.acceptedOnsetMs == At(TimeAt(h, s.acceptedAt))
          && TimeAt(h, s.acceptedAt) <= TimeAt(h, s.closedAt) <= TimeAt(h, s.acceptedAt) + Decay.MAX_CARRY_MS)
  }

  lemma FirstFrame(h: seq<Frame>)
    requires |h| == 1
    ensures Told(Run(h), StoryOf(h), h, h[0].time)
  {
    assert h[..0] == [] && h[..1] == h;
  }

  /** Everything the history says stays said when it grows. */
  lemma SameTimes(h: seq<Frame>, n: nat)
    requires n == |h| - 1
    ensures forall i :: i < n ==> TimeAt(h[..n], i) == TimeAt(h, i)
  {}

  lemma WatchKeepsPace(t: Decay.Tracker, s: Decay.Sight, onset: nat, before: nat, now: nat)
    requires t.candidate && t.onsetMs == At(onset) && onset <= before <= onset + Decay.MAX_CARRY_MS
    requires before <= now < before + WRAP - Decay.MAX_CARRY_MS && s.now == At(now)
    ensures Decay.Watched(t, s).candidate ==> now <= onset + Decay.MAX_CARRY_MS && Decay.Watched(t, s) == t
  {
    ElapsedIsDistance(now, onset);
  }

  lemma OneMoreFrame(h: seq<Frame>)
    requires |h| > 1 && Paced(h)
    requires var g := h[..|h| - 1]; Told(Run(g), StoryOf(g), g, g[|g| - 1].time)
    ensures Told(Run(h), StoryOf(h), h, h[|h| - 1].time)
  {
    var n := |h| - 1;
    var g, f := h[..n], h[n];
    var before, past := Run(g), StoryOf(g);
    var seen := SightAt(h, n);
    SameTimes(h, n);
    assert h[..n + 1] == h;
    assert h[n - 1].time <= h[n - 1 + 1].time;
    if before.tracker.candidate {
      WatchKeepsPace(before.tracker, seen, TimeAt(h, past.onsetAt), h[n - 1].time, f.time);
    }
    hide Window.FailuresOf, Window.Enters, Decay.Median, Decay.Recovers, Decay.Expires, Decay.Drops, Usable, Paced;
    StepEffects(before, f);
  }

  /** The edges of the trigger, in terms of its activity. */
  lemma StepEffects(c: Chain, f: Frame)
    ensures var o := Window.Stepped(c.trigger, f.features);
            && (o.event.Opened? <==> !c.trigger.active && o.trigger.active)
            && (o.event.Closed? <==> c.trigger.active && !o.trigger.active)
  {}

  lemma PacedPrefix(h: seq<Frame>)
    requires h != [] && Paced(h)
    ensures Paced(h[..|h| - 1])
  {
    var g := h[..|h| - 1];
    forall i | 0 <= i && i + 1 < |g| ensures g[i].time <= g[i + 1].time < g[i].time + WRAP - Decay.MAX_CARRY_MS {
      assert h[i].time <= h[i + 1].time;
    }
  }

  /** In every paced history, the state means what Told says. */
  lemma {:induction false} HistoryIsTold(h: seq<Frame>)
    requires h != [] && Paced(h)
    ensures Told(Run(h), StoryOf(h), h, h[|h| - 1].time)
  {
    hide Run, StoryOf, Told;
    if |h| == 1 {
      FirstFrame(h);
    } else {
      PacedPrefix(h);
      hide Paced;
      HistoryIsTold(h[..|h| - 1]);
      OneMoreFrame(h);
    }
  }

  /**
   * An accepted onset exists only while the pump is off; it is the time of a frame inside the window that closed
   * last, after the frame that opened that window, and it leads the close by at most two seconds of true time.
   */
  lemma {:induction false} AcceptedOnset(h: seq<Frame>)
    requires h != [] && Paced(h) && Run(h).tracker.accepted
    ensures var c, s := Run(h), StoryOf(h);
            && !c.trigger.active && Decay.SignalOf(c.tracker, c.trigger.active).Off?
            && 0 <= s.openedAt < s.acceptedAt <= s.closedAt < |h|
            && c.tracker.acceptedOnsetMs == At(h[s.acceptedAt].time)
            && h[s.acceptedAt].time <= h[s.closedAt].time <= h[s.acceptedAt].time + 2000
  {
    HistoryIsTold(h);
  }

  // ---- Where candidates come from ------------------------------------------------------------------

  /** Whether frame n recovers the signal, against the reference as it stood before the frame. */
  ghost predicate RecoversAt(h: seq<Frame>, n: nat)
    requires n < |h|
  {
    Decay.Recovers(Run(h[..n]).tracker, SightAt(h, n))
  }

  ghost predicate DropsAt(h: seq<Frame>, n: nat)
    requires n < |h|
  {
    Decay.Drops(Run(h[..n]).tracker, SightAt(h, n))
  }

  /** A frame from the pump that is at least so loud: at rest, in its band, with a finite measurement. */
  predicate Heard(f: Frame, snrDb: real) {
    && f.features.stationary && f.hasCluster && f.rawSnrDb.Some? && f.rawSnrDb.value >= snrDb
    && f.features.peakHz.Some? && 90.0 <= f.features.peakHz.value <= 130.0
  }

  /** What loss and return mean for the frames themselves, against the median of the last measurements accepted. */
  lemma LossAndReturn(h: seq<Frame>, n: nat)
    requires n < |h|
    ensures var past := Decay.AcceptedSince(Sights(h[..n]));
            var last := if |past| <= 6 then past else past[|past| - 6..];
            if |past| < 4 then !DropsAt(h, n) && !RecoversAt(h, n)
            else
              var median := Decay.Median(last);
              && (RecoversAt(h, n) <==> Heard(h[n], median - 2.0))
              && (DropsAt(h, n) <==> !Heard(h[n], median - 4.0) || h[n].rawSnrDb.value == median - 4.0)
  {
    hide Run, Sights, Decay.AcceptedSince, Decay.Median, Heard, Decay.Recovers, Decay.Drops, SightOf;
    LastMeasurements(h[..n]);
    SightMeans(Run(h[..n]).tracker, h[n], Run(h[..n]).trigger.active, Run(h[..n + 1]).trigger.active);
  }

  lemma LastMeasurements(h: seq<Frame>)
    ensures var past := Decay.AcceptedSince(Sights(h));
            Run(h).tracker.reference == if |past| <= 6 then past else past[|past| - 6..]
  {
    hide Run, Sights, Decay.AcceptedSince;
    TrackerSeesSights(h);
    Decay.ReferenceIsLastSix(Sights(h));
  }

  lemma SightMeans(t: Decay.Tracker, f: Frame, wasActive: bool, isActive: bool)
    ensures var s := SightOf(f, wasActive, isActive);
            if |t.reference| < 4 then !Decay.Drops(t, s) && !Decay.Recovers(t, s)
            else
              var median := Decay.Median(t.reference);
              && (Decay.Recovers(t, s) <==> Heard(f, median - 2.0))
              && (Decay.Drops(t, s) <==> !Heard(f, median - 4.0) || f.rawSnrDb.value == median - 4.0)
  {
    hide Decay.Median;
  }

  /** The signal dropped at frame `onset`, and no frame from there up to m has brought it back. */
  ghost predicate Lost(h: seq<Frame>, onset: int, m: nat)
    requires m <= |h|
  {
    0 <= onset < m && DropsAt(h, onset) && forall i :: onset < i < m ==> !RecoversAt(h, i)
  }

  lemma Earlier(h: seq<Frame>, m: nat, n: nat)
    requires n < m <= |h|
    ensures RecoversAt(h[..m], n) == RecoversAt(h, n) && DropsAt(h[..m], n) == DropsAt(h, n)
  {
    assert h[..m][..n] == h[..n] && h[..m][..n + 1] == h[..n + 1];
  }

  lemma LostInPrefix(h: seq<Frame>, onset: int, n: nat)
    requires n <= |h| && Lost(h[..n], onset, n)
    ensures Lost(h, onset, n)
  {
    hide RecoversAt, DropsAt;
    forall i | onset <= i < n ensures RecoversAt(h[..n], i) == RecoversAt(h, i) && DropsAt(h[..n], i) == DropsAt(h, i) {
      Earlier(h, n, i);
    }
  }

  /** A frame with a candidate either starts it with a drop or continues one without bringing the signal back. */
  lemma CandidateSteps(h: seq<Frame>, n: nat)
    requires n < |h| && CandidateAt(h, n)
    ensures if Run(h[..n]).tracker.candidate then !RecoversAt(h, n) else DropsAt(h, n)
  {
    hide Run;
  }

  lemma LostAt(h: seq<Frame>, past: int, n: nat)
    requires n < |h| && CandidateAt(h, n)
    requires Run(h[..n]).tracker.candidate ==> Lost(h[..n], past, n)
    ensures Lost(h, if Run(h[..n]).tracker.candidate then past else n, n + 1)
  {
    CandidateSteps(h, n);
    hide Run, RecoversAt, DropsAt, CandidateAt, Lost;
    if Run(h[..n]).tracker.candidate {
      LostInPrefix(h, past, n);
      LostExtends(h, past, n);
    } else {
      LostStarts(h, n);
    }
  }

  lemma LostExtends(h: seq<Frame>, onset: int, n: nat)
    requires n < |h| && Lost(h, onset, n) && !RecoversAt(h, n)
    ensures Lost(h, onset, n + 1)
  {
    hide RecoversAt, DropsAt;
  }

  lemma LostStarts(h: seq<Frame>, n: nat)
    requires n < |h| && DropsAt(h, n)
    ensures Lost(h, n, n + 1)
  {
    hide RecoversAt, DropsAt;
  }

  /** A candidate shown after a frame was one at that frame; so was an onset accepted there. */
  lemma ShownCandidate(h: seq<Frame>)
    requires h != []
    requires Run(h).tracker.candidate || (ClosesAt(h, |h| - 1) && Run(h).tracker.accepted)
    ensures CandidateAt(h, |h| - 1)
  {
    assert h[..|h| - 1 + 1] == h;
    StepEffects(Run(h[..|h| - 1]), h[|h| - 1]);
  }

  lemma OnsetOf(h: seq<Frame>)
    requires h != [] && CandidateAt(h, |h| - 1)
    ensures var n := |h| - 1;
            StoryOf(h).onsetAt == if Run(h[..n]).tracker.candidate then StoryOf(h[..n]).onsetAt else n
    ensures ClosesAt(h, |h| - 1) ==> StoryOf(h).acceptedAt == StoryOf(h).onsetAt
  {
    hide Run, CandidateAt;
  }

  /** A candidate arose at a frame where the signal dropped, and no frame since has brought it back. */
  lemma {:induction false} CandidateIsADrop(h: seq<Frame>)
    requires Run(h).tracker.candidate
    ensures Lost(h, StoryOf(h).onsetAt, |h|)
  {
    assert h != [];
    var n := |h| - 1;
    ShownCandidate(h);
    OnsetOf(h);
    hide Run, Lost, StoryOf, CandidateAt;
    if Run(h[..n]).tracker.candidate {
      CandidateIsADrop(h[..n]);
    }
    LostAt(h, StoryOf(h[..n]).onsetAt, n);
  }

  /** So an accepted onset is a drop from which the signal had not recovered when the window closed. */
  lemma {:induction false} AcceptedOnsetIsADrop(h: seq<Frame>)
    requires h != [] && ClosesAt(h, |h| - 1) && Run(h).tracker.accepted
    ensures Lost(h, StoryOf(h).acceptedAt, |h|)
  {
    var n := |h| - 1;
    ShownCandidate(h);
    OnsetOf(h);
    hide Run, Lost, StoryOf, CandidateAt;
    if Run(h[..n]).tracker.candidate {
      CandidateIsADrop(h[..n]);
    }
    LostAt(h, StoryOf(h[..n]).onsetAt, n);
  }
}
