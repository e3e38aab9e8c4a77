/** The backflush routine: five pump periods with rests between, timed from pump detection reports. */
module Backflush {
  import opened Clock

  const CYCLE_COUNT := 5
  const PHASE_TARGET_MS: Millis := 10000
  const BEFORE_TARGET_CONFIRM_MS: Millis := 5000
  const AFTER_TARGET_CONFIRM_MS: Millis := 1500

  datatype Phase = WaitingForPump | PumpOn | PumpOff | Complete

  datatype Instruction = StartPump | KeepPumping | StopPump | Wait | Finished

  /** The state of a routine; the durations are those of the five periods of each kind. */
  datatype Cycle = Cycle(phase: Phase, index: nat, phaseStartedMs: Millis, pending: bool, changeStartedMs: Millis,
                         onMs: seq<Millis>, offMs: seq<Millis>)

  const FRESH := Cycle(WaitingForPump, 0, 0, false, 0, [0, 0, 0, 0, 0], [0, 0, 0, 0, 0])

  predicate WellFormed(c: Cycle) {
    |c.onMs| == CYCLE_COUNT && |c.offMs| == CYCLE_COUNT && c.index < CYCLE_COUNT
    && (c.phase.PumpOff? ==> c.index + 1 < CYCLE_COUNT)
  }

  function PhaseElapsed(c: Cycle, now: Millis): Millis {
    if c.phase.PumpOn? || c.phase.PumpOff? then Elapsed(now, c.phaseStartedMs) else 0
  }

  function DisplayPhase(c: Cycle): Phase {
    if !c.pending then c.phase
    else match c.phase
      case PumpOn => if c.index + 1 < CYCLE_COUNT then PumpOff else PumpOn
      case PumpOff => PumpOn
      case _ => c.phase
  }

  function DisplayElapsed(c: Cycle, now: Millis): Millis {
    if DisplayPhase(c) != c.phase then Elapsed(now, c.changeStartedMs) else PhaseElapsed(c, now)
  }

  function DisplayIndex(c: Cycle): nat {
    if c.pending && c.phase.PumpOff? then c.index + 1 else c.index
  }

  function Instructed(c: Cycle, now: Millis): Instruction {
    match c.phase
    case WaitingForPump => StartPump
    case PumpOn => if PhaseElapsed(c, now) >= PHASE_TARGET_MS then StopPump else KeepPumping
    case PumpOff => if PhaseElapsed(c, now) >= PHASE_TARGET_MS then StartPump else Wait
    case Complete => Finished
  }

  function DisplayInstruction(c: Cycle, now: Millis): Instruction {
    if !c.pending then Instructed(c, now)
    else if c.phase.PumpOn? && c.index + 1 == CYCLE_COUNT then StopPump
    else match DisplayPhase(c)
      case PumpOn => KeepPumping
      case PumpOff => Wait
      case _ => Instructed(c, now)
  }

  predicate OnRecorded(c: Cycle, k: nat) {
    k < CYCLE_COUNT && k <= c.index && (k < c.index || c.phase.PumpOff? || c.phase.Complete?)
  }

  predicate OffRecorded(c: Cycle, k: nat) {
    k < CYCLE_COUNT && k < c.index
  }

  /** How long a contrary report must persist; settled by when it first came. */
  function Window(c: Cycle, since: Millis): Millis {
    if Elapsed(since, c.phaseStartedMs) >= PHASE_TARGET_MS then AFTER_TARGET_CONFIRM_MS else BEFORE_TARGET_CONFIRM_MS
  }

  /** A report that contradicts the running period. */
  predicate Contrary(c: Cycle, pump: bool) {
    (c.phase.PumpOn? && !pump) || (c.phase.PumpOff? && pump)
  }

  predicate Running(c: Cycle) {
    c.phase.PumpOn? || c.phase.PumpOff?
  }

  /** The period ends at the moment the pump change was first seen. */
  function Ended(c: Cycle, at: Millis): Cycle
    requires WellFormed(c) && Running(c)
  {
    var lasted := Elapsed(at, c.phaseStartedMs);
    var settled := c.(phaseStartedMs := at, pending := false, changeStartedMs := 0);
    if c.phase.PumpOn? then
      settled.(phase := if c.index + 1 == CYCLE_COUNT then Complete else PumpOff, onMs := c.onMs[c.index := lasted])
    else
      settled.(phase := PumpOn, index := c.index + 1, offMs := c.offMs[c.index := lasted])
  }

  /** One report: what it leads to, and whether a period began or the run finished. */
  function Reported(c: Cycle, now: Millis, pump: bool): (Cycle, bool)
    requires WellFormed(c)
  {
    match c.phase
    case WaitingForPump =>
      if !pump then (c, false)
      else (c.(phase := PumpOn, phaseStartedMs := now, pending := false, changeStartedMs := 0), true)
    case Complete => (c, false)
    case _ =>
      if !Contrary(c, pump) then (c.(pending := false, changeStartedMs := 0), false)
      else
        var since := if c.pending then c.changeStartedMs else now;
        if Elapsed(now, since) >= Window(c, since) then (Ended(c, since), true)
        else (c.(pending := true, changeStartedMs := since), false)
  }

  class BackflushCycle {
    var phase: Phase
    var cycleIndex: nat
    var phaseStartedMs: Millis
    var pumpChangeStartedMs: Millis
    var pumpChangePending: bool
    const onMs: array<Millis>
    const offMs: array<Millis>

    ghost predicate Valid()
      reads this, onMs, offMs
    {
      onMs != offMs && onMs.Length == CYCLE_COUNT && offMs.Length == CYCLE_COUNT && WellFormed(View())
    }

    ghost function View(): Cycle
      reads this, onMs, offMs
    {
      Cycle(phase, cycleIndex, phaseStartedMs, pumpChangePending, pumpChangeStartedMs, onMs[..], offMs[..])
    }

    constructor ()
      ensures Valid() && View() == FRESH && fresh(onMs) && fresh(offMs)
    {
      onMs := new Millis[CYCLE_COUNT](_ => 0);
      offMs := new Millis[CYCLE_COUNT](_ => 0);
      phase, cycleIndex, phaseStartedMs := WaitingForPump, 0, 0;
      pumpChangeStartedMs, pumpChangePending := 0, false;
    }

    method BeginPhase(p: Phase, startedMs: Millis)
      modifies `phase, `phaseStartedMs, `pumpChangePending, `pumpChangeStartedMs
      ensures phase == p && phaseStartedMs == startedMs && !pumpChangePending && pumpChangeStartedMs == 0
    {
      phase, phaseStartedMs := p, startedMs;
      ClearPumpChange();
    }

    method RememberPumpChange(now: Millis)
      modifies `pumpChangePending, `pumpChangeStartedMs
      ensures pumpChangePending
      ensures pumpChangeStartedMs == if old(pumpChangePending) then old(pumpChangeStartedMs) else now
    {
      if !pumpChangePending {
        pumpChangePending, pumpChangeStartedMs := true, now;
      }
    }

    method ClearPumpChange()
      modifies `pumpChangePending, `pumpChangeStartedMs
      ensures !pumpChangePending && pumpChangeStartedMs == 0
    {
      pumpChangePending, pumpChangeStartedMs := false, 0;
    }

    function ShouldApplyPumpChange(now: Millis): bool
      reads this
    {
      if !pumpChangePending then false
      else
        var beganAfterTarget := Elapsed(pumpChangeStartedMs, phaseStartedMs) >= PHASE_TARGET_MS;
        var confirmMs := if beganAfterTarget then AFTER_TARGET_CONFIRM_MS else BEFORE_TARGET_CONFIRM_MS;
        Elapsed(now, pumpChangeStartedMs) >= confirmMs
    }

    method Update(now: Millis, pumpDetected: bool) returns (changed: bool)
      requires Valid()
      modifies this, onMs, offMs
      ensures Valid() && (View(), changed) == Reported(old(View()), now, pumpDetected)
    {
      match phase {
        case WaitingForPump =>
          if !pumpDetected {
            return false;
          }
          BeginPhase(PumpOn, now);
          return true;
        case PumpOn =>
          if pumpDetected {
            ClearPumpChange();
            return false;
          }
          RememberPumpChange(now);
          if !ShouldApplyPumpChange(now) {
            return false;
          }
          onMs[cycleIndex] := Elapsed(pumpChangeStartedMs, phaseStartedMs);
          if cycleIndex + 1 == CYCLE_COUNT {
            BeginPhase(Complete, pumpChangeStartedMs);
            return true;
          }
          BeginPhase(PumpOff, pumpChangeStartedMs);
          return true;
        case PumpOff =>
          if !pumpDetected {
            ClearPumpChange();
            return false;
          }
          RememberPumpChange(now);
          if !ShouldApplyPumpChange(now) {
            return false;
          }
          offMs[cycleIndex] := Elapsed(pumpChangeStartedMs, phaseStartedMs);
          cycleIndex := cycleIndex + 1;
          BeginPhase(PumpOn, pumpChangeStartedMs);
          return true;
        case Complete =>
          return false;
      }
    }
  }

  // ---- Runs --------------------------------------------------------------------------------------

  datatype Report = Report(now: Millis, pump: bool)

  function Run(c: Cycle, reports: seq<Report>): (d: Cycle)
    requires WellFormed(c)
    ensures WellFormed(d)
  {
    if reports == [] then c
    else
      var n := |reports| - 1;
      Reported(Run(c, reports[..n]), reports[n].now, reports[n].pump).0
  }

  /** The moments at which periods began, as the routine dates them; the last may be the end of the run. */
  function Boundaries(reports: seq<Report>): seq<Millis> {
    if reports == [] then []
    else
      var n := |reports| - 1;
      var step := Reported(Run(FRESH, reports[..n]), reports[n].now, reports[n].pump);
      Boundaries(reports[..n]) + if step.1 then [step.0.phaseStartedMs] else []
  }

  /** The recorded durations in the order in which the periods ran. */
  function Recorded(c: Cycle, i: nat): Millis
    requires WellFormed(c) && i < 2 * CYCLE_COUNT
  {
    if i % 2 == 0 then c.onMs[i / 2] else c.offMs[i / 2]
  }

  /** How the state of a run relates to its boundaries. */
  ghost predicate Dated(c: Cycle, b: seq<Millis>) {
    && WellFormed(c) && |b| <= 2 * CYCLE_COUNT
    && |b| == (match c.phase
               case WaitingForPump => 0
               case PumpOn => 2 * c.index + 1
               case PumpOff => 2 * c.index + 2
               case Complete => 2 * CYCLE_COUNT)
    && (c.phase.WaitingForPump? ==> c.index == 0) && (c.phase.Complete? ==> c.index == CYCLE_COUNT - 1)
    && (b != [] ==> c.phaseStartedMs == b[|b| - 1])
    && forall i :: 0 <= i && i + 1 < |b| ==> Recorded(c, i) == Elapsed(b[i + 1], b[i])
  }

  lemma ReportKeepsDates(c: Cycle, b: seq<Millis>, r: Report)
    requires Dated(c, b)
    ensures var step := Reported(c, r.now, r.pump);
            Dated(step.0, b + if step.1 then [step.0.phaseStartedMs] else [])
  {
    var step := Reported(c, r.now, r.pump);
    if step.1 && |b| > 0 {
      EndKeepsDates(c, b, step.0.phaseStartedMs);
    }
  }

  lemma EndKeepsDates(c: Cycle, b: seq<Millis>, at: Millis)
    requires Dated(c, b) && Running(c)
    ensures Dated(Ended(c, at), b + [at])
  {
    var d := Ended(c, at);
    var m := |b| - 1;
    assert m == if c.phase.PumpOn? then 2 * c.index else 2 * c.index + 1;
    forall i | 0 <= i && i + 1 < |b + [at]| ensures Recorded(d, i) == Elapsed((b + [at])[i + 1], (b + [at])[i]) {
      if i < m {
        assert Recorded(d, i) == Recorded(c, i);
      }
    }
  }

  /** In every run the durations recorded so far are the distances between consecutive boundaries. */
  lemma {:induction false} RunsAreDated(reports: seq<Report>)
    ensures Dated(Run(FRESH, reports), Boundaries(reports))
  {
    if reports != [] {
      var n := |reports| - 1;
      RunsAreDated(reports[..n]);
      hide Reported, Dated;
      ReportKeepsDates(Run(FRESH, reports[..n]), Boundaries(reports[..n]), reports[n]);
    }
  }

  function Changes(reports: seq<Report>): nat {
    if reports == [] then 0
    else
      var n := |reports| - 1;
      Changes(reports[..n]) + if Reported(Run(FRESH, reports[..n]), reports[n].now, reports[n].pump).1 then 1 else 0
  }

  /** A run reports at most ten changes, and exactly the periods before the running one have a recorded duration. */
  lemma {:induction false} AtMostTenChanges(reports: seq<Report>)
    ensures Changes(reports) == |Boundaries(reports)| <= 10
    ensures var c := Run(FRESH, reports);
            forall k: nat ::
              && (OnRecorded(c, k) <==> 2 * k + 1 < Changes(reports))
              && (OffRecorded(c, k) <==> 2 * k + 2 < Changes(reports))
  {
    RunsAreDated(reports);
    if reports != [] {
      AtMostTenChanges(reports[..|reports| - 1]);
    }
  }

  function Total(c: Cycle, n: nat): nat
    requires WellFormed(c) && n <= 2 * CYCLE_COUNT
  {
    if n == 0 then 0 else Total(c, n - 1) + Recorded(c, n - 1)
  }

  lemma {:induction false} TotalTelescopes(c: Cycle, b: seq<Millis>, n: nat)
    requires Dated(c, b) && n < |b|
    ensures At(Total(c, n)) == Elapsed(b[n], b[0])
  {
    if n > 0 {
      TotalTelescopes(c, b, n - 1);
      Chain(b[0], b[n - 1], b[n], Total(c, n - 1));
    }
  }

  /** Distances add up on the wrapping counter. */
  lemma Chain(first: Millis, middle: Millis, last: Millis, total: nat)
    requires At(total) == Elapsed(middle, first)
    ensures At(total + Elapsed(last, middle)) == Elapsed(last, first)
  {
    var q := total / WRAP;
    var d := Elapsed(middle, first) + Elapsed(last, middle);
    assert total == q * WRAP + At(total);
    if d < WRAP {
      Residue(q, d);
    } else {
      Residue(q + 1, d - WRAP);
    }
  }

  /**
   * The recorded durations of a run add up to the time from the first pump start to the start of the running period,
   * modulo 2^32.
   */
  lemma {:induction false} DurationsTelescope(reports: seq<Report>)
    requires Boundaries(reports) != []
    ensures var c, n := Run(FRESH, reports), Changes(reports);
            0 < n <= 10 && At(Total(c, n - 1)) == Elapsed(c.phaseStartedMs, Boundaries(reports)[0])
  {
    hide Run, Boundaries, Changes, Total, Recorded, Elapsed, OnRecorded, OffRecorded;
    RunsAreDated(reports);
    AtMostTenChanges(reports);
    TotalTelescopes(Run(FRESH, reports), Boundaries(reports), |Boundaries(reports)| - 1);
  }

  /** The routine starts with the first report of a running pump, and no earlier. */
  lemma {:induction false} StartsWithPump(reports: seq<Report>, last: Report)
    requires forall i :: 0 <= i < |reports| ==> !reports[i].pump
    ensures Run(FRESH, reports) == FRESH
    ensures Run(FRESH, reports + [last]) ==
            if last.pump then FRESH.(phase := PumpOn, phaseStartedMs := last.now) else FRESH
  {
    if reports != [] {
      var n := |reports| - 1;
      assert (reports[..n] + [reports[n]]) == reports;
      StartsWithPump(reports[..n], reports[n]);
    }
    assert (reports + [last])[..|reports|] == reports;
  }

  // ---- Confirmation and withdrawal -------------------------------------------------------------------

  /**
   * Contrary reports that all come too early to confirm the change: within five seconds of the first of them, or one
   * and a half if the period had already lasted its ten seconds.
   */
  ghost predicate Unconfirmed(c: Cycle, reports: seq<Report>) {
    forall i :: 0 <= i < |reports| ==>
      && reports[i].pump != c.phase.PumpOn?
      && Elapsed(reports[i].now, reports[0].now) <
         if Elapsed(reports[0].now, c.phaseStartedMs) >= 10000 then 1500 else 5000
  }

  /** They only leave a note of the first. */
  lemma {:induction false} UnconfirmedWaits(c: Cycle, reports: seq<Report>)
    requires WellFormed(c) && Running(c) && !c.pending && reports != [] && Unconfirmed(c, reports)
    ensures Run(c, reports) == c.(pending := true, changeStartedMs := reports[0].now)
  {
    var n := |reports| - 1;
    assert reports[n].pump != c.phase.PumpOn?;
    if n > 0 {
      assert reports[..n][0] == reports[0];
      UnconfirmedWaits(c, reports[..n]);
    } else {
      assert reports[..0] == [];
    }
  }

  lemma WithdrawalRestores(c: Cycle, reports: seq<Report>, agreeing: Report)
    requires WellFormed(c) && Running(c) && !c.pending && c.changeStartedMs == 0
    requires Unconfirmed(c, reports) && agreeing.pump == c.phase.PumpOn?
    ensures Run(c, reports + [agreeing]) == c
  {
    assert (reports + [agreeing])[..|reports|] == reports;
    if reports != [] {
      UnconfirmedWaits(c, reports);
    }
  }

  /** In every run a change is dated only while it is pending. */
  lemma {:induction false} OnlyPendingIsDated(reports: seq<Report>)
    ensures !Run(FRESH, reports).pending ==> Run(FRESH, reports).changeStartedMs == 0
  {
    if reports != [] {
      OnlyPendingIsDated(reports[..|reports| - 1]);
    }
  }

  lemma {:induction false} RunJoined(c: Cycle, first: seq<Report>, second: seq<Report>)
    requires WellFormed(c)
    ensures Run(c, first + second) == Run(Run(c, first), second)
  {
    hide Reported;
    if second == [] {
      assert first + second == first;
    } else {
      var n := |second| - 1;
      RunJoined(c, first, second[..n]);
      assert (first + second)[..|first + second| - 1] == first + second[..n];
    }
  }

  /** In every run a contrary report withdrawn in time leaves the routine as if it had never been made. */
  lemma {:induction false} WithdrawnLeavesNoTrace(history: seq<Report>, reports: seq<Report>, agreeing: Report)
    requires var c := Run(FRESH, history);
             Running(c) && !c.pending && Unconfirmed(c, reports) && agreeing.pump == c.phase.PumpOn?
    ensures Run(FRESH, history + (reports + [agreeing])) == Run(FRESH, history)
  {
    OnlyPendingIsDated(history);
    RunJoined(FRESH, history, reports + [agreeing]);
    hide Run;
    WithdrawalRestores(Run(FRESH, history), reports, agreeing);
  }

  /**
   * A change that persists for its time ends the period at the moment it was first seen, and not a report earlier.
   */
  lemma {:induction false} PersistentChangeEnds(c: Cycle, reports: seq<Report>, last: Report)
    requires WellFormed(c) && Running(c) && !c.pending && reports != [] && Unconfirmed(c, reports)
    requires last.pump != c.phase.PumpOn?
    requires Elapsed(last.now, reports[0].now) >=
             if Elapsed(reports[0].now, c.phaseStartedMs) >= 10000 then 1500 else 5000
    ensures Run(c, reports) == c.(pending := true, changeStartedMs := reports[0].now)
    ensures Run(c, reports + [last]) == Ended(c, reports[0].now)
  {
    UnconfirmedWaits(c, reports);
    assert (reports + [last])[..|reports|] == reports;
  }

  // ---- Display ---------------------------------------------------------------------------------------

  /**
   * When a change that does not finish the run is confirmed, the display goes on with the same phase, cycle and
   * elapsed time.
   */
  lemma DisplayIsContinuous(c: Cycle, now: Millis, pump: bool)
    requires WellFormed(c) && Running(c) && Reported(c, now, pump).1 && !Reported(c, now, pump).0.phase.Complete?
    ensures var d := Reported(c, now, pump).0;
            && c.pending && DisplayPhase(c) == DisplayPhase(d) == d.phase && DisplayIndex(c) == DisplayIndex(d)
            && DisplayElapsed(c, now) == DisplayElapsed(d, now)
            && (DisplayInstruction(c, now) == DisplayInstruction(d, now) <==> DisplayElapsed(d, now) < 10000)
  {}

  /** When the running period began, in absolute time, and when a pending change was first seen. */
  ghost predicate Placed(c: Cycle, began: nat, changed: nat, now: nat) {
    && c.phaseStartedMs == At(began) && (c.pending ==> c.changeStartedMs == At(changed))
    && began <= changed <= now < began + WRAP
  }

  /**
   * What the user is shown, in true time within one turn of the counter. A settled period shows its own duration and
   * asks for the next step after ten seconds; a pending change shows the next period from the moment it was first seen,
   * but for the last one, which is told to stop.
   */
  lemma ShownToUser(c: Cycle, began: nat, changed: nat, now: nat)
    requires WellFormed(c) && Running(c) && Placed(c, began, changed, now)
    ensures var told, shown := DisplayInstruction(c, At(now)), DisplayElapsed(c, At(now));
            if !c.pending then
              && shown == now - began && DisplayPhase(c) == c.phase && DisplayIndex(c) == c.index
              && told == if now - began < 10000 then (if c.phase.PumpOn? then KeepPumping else Wait)
                         else if c.phase.PumpOn? then StopPump
                         else StartPump
            else if c.phase.PumpOn? && c.index == 4 then
              && shown == now - began && DisplayPhase(c).PumpOn? && DisplayIndex(c) == 4 && told == StopPump
            else
              && shown == now - changed
              && DisplayPhase(c) == (if c.phase.PumpOn? then PumpOff else PumpOn)
              && DisplayIndex(c) == (if c.phase.PumpOn? then c.index else c.index + 1)
              && told == if c.phase.PumpOn? then Wait else KeepPumping
  {
    ElapsedIsDistance(now, began);
    ElapsedIsDistance(now, changed);
  }

  /** Before the first period and after the last nothing is measured. */
  lemma ShownOutside(c: Cycle, now: Millis)
    requires WellFormed(c) && !Running(c) && !c.pending
    ensures DisplayElapsed(c, now) == 0 && DisplayPhase(c) == c.phase
    ensures DisplayInstruction(c, now) == if c.phase.WaitingForPump? then StartPump else Finished
  {}
}
