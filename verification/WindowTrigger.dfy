/**
 * Detection of a sustained vibration in the pump band: two entering frames open the window, four failing ones close
 * it.
 */
module WindowTrigger {
  import opened Options

  const SNR_ON_DB := 14.0
  const SNR_STAY_DB := 11.0
  const PEAK_MIN_HZ := 90.0
  const PEAK_MAX_HZ := 130.0
  const N_ON := 2
  const N_OFF := 4

  datatype Event = NoEvent | Opened | Closed

  datatype Failure = Moving | LowSnr | SnrInvalid | PeakOutOfRange | PeakInvalid

  /** A mask of failures. */
  type Failures = set<Failure>

  /** The features of one frame; None stands for a value that is not finite. */
  datatype Features = Features(stationary: bool, snrDb: Option<real>, peakHz: Option<real>)

  function FailuresOf(f: Features): Failures {
    (if !f.stationary then {Moving} else {})
    + (match f.snrDb case None => {SnrInvalid} case Some(snr) => if snr < SNR_STAY_DB then {LowSnr} else {})
    + (match f.peakHz
       case None => {PeakInvalid}
       case Some(peak) => if peak < PEAK_MIN_HZ || peak > PEAK_MAX_HZ then {PeakOutOfRange} else {})
  }

  predicate Enters(f: Features) {
    && f.stationary && f.snrDb.Some? && f.snrDb.value >= SNR_ON_DB
    && f.peakHz.Some? && PEAK_MIN_HZ <= f.peakHz.value <= PEAK_MAX_HZ
  }

  predicate Fails(f: Features) {
    FailuresOf(f) != {}
  }

  datatype Trigger = Trigger(active: bool, onCount: nat, offCount: nat, offFailures: Failures)

  datatype Outcome = Outcome(trigger: Trigger, event: Event, closeFailures: Failures)

  const CLOSED := Trigger(false, 0, 0, {})

  function Stepped(t: Trigger, f: Features): Outcome {
    if !t.active then
      if !Enters(f) then Outcome(t.(onCount := 0), NoEvent, {})
      else if t.onCount + 1 >= N_ON then Outcome(Trigger(true, t.onCount + 1, 0, {}), Opened, {})
      else Outcome(t.(onCount := t.onCount + 1), NoEvent, {})
    else if !Fails(f) then Outcome(t.(offCount := 0, offFailures := {}), NoEvent, {})
    else if t.offCount + 1 >= N_OFF then Outcome(CLOSED, Closed, t.offFailures + FailuresOf(f))
    else Outcome(t.(offCount := t.offCount + 1, offFailures := t.offFailures + FailuresOf(f)), NoEvent, {})
  }

  class VibrationWindowTrigger {
    var active: bool
    var onCount: nat
    var offCount: nat
    var offFailureMask: Failures

    ghost function View(): Trigger
      reads this
    {
      Trigger(active, onCount, offCount, offFailureMask)
    }

    constructor ()
      ensures View() == CLOSED
    {
      active, onCount, offCount, offFailureMask := false, 0, 0, {};
    }

    method StepDetailed(f: Features) returns (event: Event, closeFailureMask: Failures)
      modifies this
      ensures Outcome(View(), event, closeFailureMask) == Stepped(old(View()), f)
    {
      var failureMask := FailuresOf(f);
      var stay := failureMask == {};
      event, closeFailureMask := NoEvent, {};
      if !active {
        if Enters(f) {
          onCount := onCount + 1;
          if onCount >= N_ON {
            active, offCount, offFailureMask, event := true, 0, {}, Opened;
          }
        } else {
          onCount := 0;
        }
      } else if stay {
        offCount, offFailureMask := 0, {};
      } else {
        offCount := offCount + 1;
        offFailureMask := offFailureMask + failureMask;
        if offCount >= N_OFF {
          closeFailureMask := offFailureMask;
          active, onCount, offCount, offFailureMask := false, 0, 0, {};
          event := Closed;
        }
      }
    }
  }

  // ---- What the counters mean ------------------------------------------------------------------

  function Run(h: seq<Features>): Trigger {
    if h == [] then CLOSED else Stepped(Run(h[..|h| - 1]), h[|h| - 1]).trigger
  }

  function EventAt(h: seq<Features>, n: nat): Event
    requires n < |h|
  {
    Stepped(Run(h[..n]), h[n]).event
  }

  /** The frames since the last edge. */
  function Recent(h: seq<Features>): (r: seq<Features>)
    ensures |r| <= |h| && r == h[|h| - |r|..]
  {
    if h == [] then []
    else
      var n := |h| - 1;
      if EventAt(h, n).NoEvent? then Recent(h[..n]) + [h[n]] else []
  }

  /** The number of entering frames at the end. */
  function Entering(h: seq<Features>): (n: nat)
    ensures n <= |h|
  {
    if h == [] || !Enters(h[|h| - 1]) then 0 else Entering(h[..|h| - 1]) + 1
  }

  /** The number of failing frames at the end. */
  function Failing(h: seq<Features>): (n: nat)
    ensures n <= |h|
  {
    if h == [] || !Fails(h[|h| - 1]) then 0 else Failing(h[..|h| - 1]) + 1
  }

  function AllFailures(h: seq<Features>): Failures {
    if h == [] then {} else AllFailures(h[..|h| - 1]) + FailuresOf(h[|h| - 1])
  }

  function Last(h: seq<Features>, n: nat): seq<Features>
    requires n <= |h|
  {
    h[|h| - n..]
  }

  /**
   * The counters count the frames at the end of the history since the last edge, and the mask collects exactly theirs.
   */
  ghost predicate Counted(t: Trigger, r: seq<Features>) {
    if t.active then t.offCount == Failing(r) < N_OFF && t.offFailures == AllFailures(Last(r, Failing(r)))
    else t.onCount == Entering(r) < N_ON
  }

  lemma Longer(r: seq<Features>, f: Features)
    ensures Entering(r + [f]) == if Enters(f) then Entering(r) + 1 else 0
    ensures Failing(r + [f]) == if Fails(f) then Failing(r) + 1 else 0
    ensures AllFailures(Last(r + [f], Failing(r + [f]))) ==
            if Fails(f) then AllFailures(Last(r, Failing(r))) + FailuresOf(f) else {}
  {
    assert (r + [f])[..|r|] == r;
    var k := Failing(r + [f]);
    var tail := Last(r + [f], k);
    if k > 0 {
      assert tail[..k - 1] == Last(r, k - 1) && tail[k - 1] == f;
    }
  }

  lemma StepCounts(t: Trigger, r: seq<Features>, f: Features)
    requires Counted(t, r)
    ensures Counted(Stepped(t, f).trigger, if Stepped(t, f).event.NoEvent? then r + [f] else [])
  {
    Longer(r, f);
  }

  lemma {:induction false} RunsAreCounted(h: seq<Features>)
    ensures Counted(Run(h), Recent(h))
  {
    if h != [] {
      var n := |h| - 1;
      RunsAreCounted(h[..n]);
      StepCounts(Run(h[..n]), Recent(h[..n]), h[n]);
    }
  }

  /**
   * After any history, the next frame closes the window exactly if it is the fourth failing frame in a row since the
   * window opened, and the reported mask is the union of the failures of exactly those four frames.
   */
  lemma {:induction false} ClosesOnFourthFailure(h: seq<Features>, f: Features)
    ensures var r := Recent(h) + [f];
            var outcome := Stepped(Run(h), f);
            && (outcome.event.Closed? <==> Run(h).active && Failing(r) == N_OFF)
            && (outcome.event.Closed? ==> outcome.closeFailures == AllFailures(Last(r, N_OFF)))
            && (!outcome.event.Closed? ==> outcome.closeFailures == {})
  {
    hide Run, Recent;
    RunsAreCounted(h);
    Longer(Recent(h), f);
  }

  /** And it opens the window exactly if it is the second entering frame in a row since the window closed. */
  lemma {:induction false} OpensOnSecondEntry(h: seq<Features>, f: Features)
    ensures Stepped(Run(h), f).event.Opened? <==> !Run(h).active && Entering(Recent(h) + [f]) == N_ON
  {
    hide Run, Recent;
    RunsAreCounted(h);
    Longer(Recent(h), f);
  }

  /** The edges of a history, in order. */
  function Edges(h: seq<Features>): seq<Event> {
    if h == [] then []
    else
      var n := |h| - 1;
      var event := EventAt(h, n);
      Edges(h[..n]) + if event.NoEvent? then [] else [event]
  }

  /** Opens and closes alternate, an open first; the window is active exactly after an open. */
  lemma {:induction false} EdgesAlternate(h: seq<Features>)
    ensures forall i :: 0 <= i < |Edges(h)| ==> Edges(h)[i] == if i % 2 == 0 then Opened else Closed
    ensures Run(h).active <==> |Edges(h)| % 2 == 1
  {
    if h != [] {
      EdgesAlternate(h[..|h| - 1]);
    }
  }
}
