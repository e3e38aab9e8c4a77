/** Runs of the radio machine under the decision chain of its caller, with every answer of the environment left open. */
module RadioRuns {
  import opened Clock
  import opened ControllerTransition
  import opened ScaleRadio

  /** What the caller does with the machine: poll it and carry out the chain, report activity, select a policy. */
  datatype Turn =
    | Polled(seen: Inputs, accepted: bool, after: Inputs)
    | Activity
    | Selecting(policy: Policy, controller: Controller)

  /** One decision chain: an update, and the answer to the request it made, if any. */
  function Chained(r: Radio, seen: Inputs, accepted: bool, after: Inputs): Radio {
    var m := Next(r, seen);
    Resolved(m.radio, m.decision.action, accepted, after).radio
  }

  /** Handing over also needs a controller that runs. */
  predicate HandoverAllowed(r: Radio, policy: Policy, controller: Controller) {
    policy.ExternalControl? && !r.policy.ExternalControl? ==> controller.Running?
  }

  function After(r: Radio, t: Turn): Radio {
    match t
    case Polled(seen, accepted, after) => Chained(r, seen, accepted, after)
    case Activity => r.(activityPending := true)
    case Selecting(policy, controller) => if HandoverAllowed(r, policy, controller) then Selected(r, policy) else r
  }

  function Run(r: Radio, turns: seq<Turn>): Radio {
    if turns == [] then r else After(Run(r, turns[..|turns| - 1]), turns[|turns| - 1])
  }

  /** A new machine taken through the turns is in the state of their run. */
  method Play(turns: seq<Turn>) returns (m: ScaleRadioStateMachine)
    ensures m.View() == Run(FRESH, turns)
  {
    m := new ScaleRadioStateMachine();
    hide Next, Resolved, Selected, PolicyAllowed;
    for i := 0 to |turns|
      invariant fresh(m) && fresh(m.wait) && m.View() == Run(FRESH, turns[..i])
    {
      assert turns[..i + 1][..i] == turns[..i];
      match turns[i] {
        case Polled(seen, accepted, after) =>
          var d := m.Update(seen);
          d := m.Resolve(d.action, accepted, after);
        case Activity => m.NotifyActivity();
        case Selecting(policy, controller) =>
          if !policy.ExternalControl? || m.policy.ExternalControl? || controller.Running? {
            var taken := m.SetPolicy(policy);
          }
      }
    }
    assert turns[..|turns|] == turns;
  }

  /** A wait is pending exactly in the two stages that wait for the controller, and it waits for the right thing. */
  ghost predicate Consistent(r: Radio) {
    && (r.wait.result.Pending? <==> r.state.Stopping? || r.state.Starting?)
    && (r.wait.result.Pending? || r.wait.result.Inactive?)
    && (r.wait.result.Pending? ==> r.wait.timeoutMs == 5000)
    && (r.state.Stopping? ==> r.wait.target.ToStopped?)
    && (r.state.Starting? ==> r.wait.target.ToRunning?)
    && (r.policy.ExternalControl? ==> r.state.Monitoring?)
  }

  // ---- Safety of every run ----------------------------------------------------------------

  lemma TurnKeepsConsistency(r: Radio, t: Turn)
    requires Consistent(r)
    ensures Consistent(After(r, t))
  {}

  lemma {:induction false} RunsStayConsistent(r: Radio, turns: seq<Turn>)
    requires Consistent(r)
    ensures Consistent(Run(r, turns))
  {
    if turns != [] {
      RunsStayConsistent(r, turns[..|turns| - 1]);
      TurnKeepsConsistency(Run(r, turns[..|turns| - 1]), turns[|turns| - 1]);
    }
  }

  predicate SaysBusy(d: Decision) {
    d.event.Failure? && (d.event.reason.StopWaitBusy? || d.event.reason.StartWaitBusy?)
  }

  /** In every reachable state a chain ends with the answer to its only request, and no wait is ever found busy. */
  lemma ChainsEndWithoutConflict(turns: seq<Turn>, seen: Inputs, accepted: bool, after: Inputs)
    ensures var r := Run(FRESH, turns);
            var m := Next(r, seen);
            var answer := Resolved(m.radio, m.decision.action, accepted, after);
            && answer.decision.action.NoAction?
            && !SaysBusy(m.decision) && !SaysBusy(answer.decision)
            && (m.decision.event.Failure? ==> m.decision.action.NoAction?)
  {
    RunsStayConsistent(FRESH, turns);
    hide Run;
  }

  /**
   * What the events say: each tells of one move of the machine and of nothing else, a failure of where it came from;
   * and the activity is spent by a start, by its success and by every failure.
   */
  lemma EventsTell(r: Radio, c: Inputs)
    requires Consistent(r)
    ensures var m := Next(r, c);
            var from, to, e := r.state, m.radio.state, m.decision.event;
            && (e.StopStarted? <==> from.Monitoring? && to.Suspending?)
            && (e.ControllerReleased? <==> (from.Suspending? || from.Stopping?) && to.ControllerStopped?)
            && (e.ControllerRestarted? <==> from.Starting? && to.Monitoring?)
            && (e.WakeRequested? <==> from.ControllerStopped? && to.Starting?)
            && (e.Failure? <==> !from.Failed? && to.Failed?)
            && (e.Failure? ==>
                  && e.area == (match from
                                case Monitoring => ControllerUnusable
                                case Suspending => if c.service.Off? then ControllerStop else ServiceStop
                                case Stopping => ControllerStop
                                case _ => ControllerStart)
                  && e.reason == (match from
                                  case Monitoring => Unusable
                                  case Suspending =>
                                    if !c.service.Off? then ServiceStopTimedOut
                                    else if c.controller.Failed? then StopUnavailable
                                    else StopBusy
                                  case Stopping => if c.controller.Failed? then StopFailed else StopTimedOut
                                  case ControllerStopped => StartUnavailable
                                  case _ => if c.controller.Failed? then StartFailed else StartTimedOut))
            && (m.radio.activityPending <==>
                  r.activityPending && !e.Failure? && !e.ControllerRestarted? && !e.WakeRequested?)
  {}

  /** And what the answer to a request comes to. */
  lemma AnswersTell(r: Radio, accepted: bool, c: Inputs)
    requires r.wait.result.Inactive?
    ensures var m := Resolved(r, StopController, accepted, c);
            match c.controller
            case Stopped => m.radio.state.ControllerStopped? && m.decision.event.ControllerReleased?
            case Failed => m.radio.state.Failed? && m.decision.event == Failure(ControllerStop, StopFailed)
            case Stopping => m.radio.state.Stopping? && m.decision == NOTHING
            case _ => if accepted then m.radio.state.Stopping? && m.decision == NOTHING
                      else m.radio.state.Failed? && m.decision.event == Failure(ControllerStop, StopRejected)
    ensures var m := Resolved(r, StartController, accepted, c);
            match c.controller
            case Running => m.radio.state.Monitoring? && m.decision.event.ControllerRestarted?
            case Failed => m.radio.state.Failed? && m.decision.event == Failure(ControllerStart, StartFailed)
            case Starting => m.radio.state.Starting? && m.decision == NOTHING
            case _ => if accepted then m.radio.state.Starting? && m.decision == NOTHING
                      else m.radio.state.Failed? && m.decision.event == Failure(ControllerStart, StartRejected)
  {}

  /** What a poll must have seen to enter Suspending or ControllerStopped. */
  ghost predicate EntryReason(r: Radio, t: Turn, state: State) {
    && t.Polled?
    && if state.Suspending? then
         r.state.Monitoring? && t.seen.controller.Running? && !RadioTarget(r.policy, t.seen)
       else
         t.seen.controller.Stopped? || t.after.controller.Stopped?
  }

  /** The state was entered for its reason at turn i and held ever since; every poll since found the radio unwanted. */
  ghost predicate UnwantedSince(turns: seq<Turn>, i: nat, state: State) {
    && i < |turns|
    && Run(FRESH, turns[..i]).state != state && EntryReason(Run(FRESH, turns[..i]), turns[i], state)
    && forall j :: i < j < |turns| ==>
         var r := Run(FRESH, turns[..j]);
         r.state == state && (turns[j].Polled? ==> !RadioTarget(r.policy, turns[j].seen))
  }

  lemma StayIsUnwanted(r: Radio, t: Turn)
    requires Consistent(r) && (After(r, t).state.Suspending? || After(r, t).state.ControllerStopped?)
    ensures r.state != After(r, t).state ==> EntryReason(r, t, After(r, t).state)
    ensures r.state == After(r, t).state && t.Polled? ==> !RadioTarget(r.policy, t.seen)
  {}

  lemma {:induction false} StayHasReason(turns: seq<Turn>) returns (i: nat)
    requires Run(FRESH, turns).state.Suspending? || Run(FRESH, turns).state.ControllerStopped?
    ensures UnwantedSince(turns, i, Run(FRESH, turns).state)
  {
    var n := |turns| - 1;
    var r, t := Run(FRESH, turns[..n]), turns[n];
    RunsStayConsistent(FRESH, turns[..n]);
    StayIsUnwanted(r, t);
    hide After, Consistent, EntryReason, RadioTarget;
    if r.state != Run(FRESH, turns).state {
      i := n;
    } else {
      i := StayHasReason(turns[..n]);
      hide Run, UnwantedSince;
      StayGoesOn(turns, i, r.state);
    }
  }

  lemma StayGoesOn(turns: seq<Turn>, i: nat, state: State)
    requires turns != []
    requires var n := |turns| - 1;
             var r := Run(FRESH, turns[..n]);
             && UnwantedSince(turns[..n], i, state) && r.state == state
             && (turns[n].Polled? ==> !RadioTarget(r.policy, turns[n].seen))
    ensures UnwantedSince(turns, i, state)
  {
    hide Run, EntryReason, RadioTarget;
    var n := |turns| - 1;
    assert turns[..n][..i] == turns[..i];
    forall j | i < j < n
      ensures Run(FRESH, turns[..j]).state == state
      ensures turns[j].Polled? ==> !RadioTarget(Run(FRESH, turns[..j]).policy, turns[j].seen)
    {
      assert turns[..n][..j] == turns[..j] && turns[..n][j] == turns[j];
    }
  }

  /**
   * A stop is requested exactly when the radio is unwanted and the suspended service has let go of a running
   * controller; the suspension began with an unwanted running radio, and no poll since has found the radio wanted.
   */
  lemma StopIsDeliberate(turns: seq<Turn>, c: Inputs)
    ensures var r := Run(FRESH, turns);
            && (Next(r, c).decision.action.StopController? <==>
                 && r.state.Suspending? && WantsServiceSuspended(r.state)
                 && !RadioTarget(r.policy, c) && c.service.Off? && c.controller.Running?)
            && (Next(r, c).decision.action.StopController? ==> exists i :: UnwantedSince(turns, i, Suspending))
  {
    RunsStayConsistent(FRESH, turns);
    if Run(FRESH, turns).state.Suspending? {
      var i := StayHasReason(turns);
    }
    hide Run, UnwantedSince;
  }

  /**
   * A start is requested exactly when a wanted radio was last seen stopped and is not already on its way; since it was
   * seen stopped, no poll has found it wanted.
   */
  lemma StartIsDeliberate(turns: seq<Turn>, c: Inputs)
    ensures var r := Run(FRESH, turns);
            && (Next(r, c).decision.action.StartController? <==>
                 && r.state.ControllerStopped? && RadioTarget(r.policy, c)
                 && (c.controller.Stopped? || c.controller.Stopping?))
            && (Next(r, c).decision.action.StartController? ==> exists i :: UnwantedSince(turns, i, ControllerStopped))
  {
    RunsStayConsistent(FRESH, turns);
    if Run(FRESH, turns).state.ControllerStopped? {
      var i := StayHasReason(turns);
    }
    hide Run, UnwantedSince;
  }

  /**
   * Once handed over, the machine stays in Monitoring under external control and requests nothing, whatever happens.
   */
  lemma {:induction false} HandoverIsFinal(before: seq<Turn>, later: seq<Turn>, c: Inputs)
    requires Run(FRESH, before).policy.ExternalControl?
    ensures var r := Run(Run(FRESH, before), later);
            r.policy.ExternalControl? && r.state.Monitoring? && Next(r, c) == Move(r, NOTHING)
  {
    if later == [] {
      RunsStayConsistent(FRESH, before);
    } else {
      var n := |later| - 1;
      var t := later[n];
      HandoverIsFinal(before, later[..n], if t.Polled? then t.seen else c);
      HandoverIsFinal(before, later[..n], c);
    }
  }

  // ---- Every stage is bounded in time --------------------------------------------------------

  /** The turns carry the absolute times at which they happen. */
  ghost predicate Timed(turns: seq<Turn>, times: seq<nat>) {
    && |turns| == |times|
    && (forall i :: 0 < i < |times| ==> times[i - 1] <= times[i])
    && (forall i :: 0 <= i < |turns| && turns[i].Polled? ==>
          turns[i].seen.nowMs == At(times[i]) && turns[i].after.nowMs == At(times[i]))
  }

  /** When the machine entered the state it is in. */
  ghost function EnteredAt(turns: seq<Turn>, times: seq<nat>): nat
    requires |turns| == |times|
  {
    if turns == [] then 0
    else
      var n := |turns| - 1;
      if Run(FRESH, turns).state == Run(FRESH, turns[..n]).state then EnteredAt(turns[..n], times[..n]) else times[n]
  }

  /** When the machine was last polled. */
  ghost function LastPoll(turns: seq<Turn>, times: seq<nat>): nat
    requires |turns| == |times|
  {
    if turns == [] then 0
    else
      var n := |turns| - 1;
      if turns[n].Polled? then times[n] else LastPoll(turns[..n], times[..n])
  }

  /** No two polls are further apart than the counter can tell. */
  ghost predicate PolledOften(turns: seq<Turn>, times: seq<nat>)
    requires |turns| == |times|
  {
    forall i :: 0 <= i < |turns| && turns[i].Polled? ==> times[i] < LastPoll(turns[..i], times[..i]) + WRAP - TIMEOUT_MS
  }

  /** The counter value that the stage the machine is in measures from. */
  function StageClock(r: Radio): Millis {
    if r.state.Suspending? then r.stageStartedMs else r.wait.startedMs
  }

  /**
   * A stage entered at `entered` is left at the first poll 5000 ms or more later; a stage entered anew starts its
   * clock now.
   */
  lemma PollEndsStage(r: Radio, t: Turn, entered: nat, now: nat)
    requires Consistent(r) && t.Polled? && t.seen.nowMs == At(now) && t.after.nowMs == At(now)
    requires InTransition(r.state) ==> StageClock(r) == At(entered) && entered <= now < entered + WRAP
    ensures InTransition(r.state) && After(r, t).state == r.state ==>
              now < entered + 5000 && StageClock(After(r, t)) == StageClock(r)
    ensures InTransition(After(r, t).state) && After(r, t).state != r.state ==> StageClock(After(r, t)) == At(now)
  {
    if InTransition(r.state) {
      ElapsedIsDistance(now, entered);
    }
  }

  /**
   * In every run that is polled often enough, a stage has been polled for less than 5000 ms:
   * the first poll at or beyond 5000 ms after its entry has ended it, however often the counter wrapped.
   */
  lemma {:induction false} StagesAreBounded(turns: seq<Turn>, times: seq<nat>)
    requires Timed(turns, times) && PolledOften(turns, times)
    ensures var r := Run(FRESH, turns);
            var entered := EnteredAt(turns, times);
            && LastPoll(turns, times) <= (if times == [] then 0 else times[|times| - 1])
            && (InTransition(r.state) ==>
                  StageClock(r) == At(entered) && entered <= LastPoll(turns, times) < entered + 5000)
  {
    if turns != [] {
      var n := |turns| - 1;
      var r, t := Run(FRESH, turns[..n]), turns[n];
      ShorterRun(turns, times);
      StagesAreBounded(turns[..n], times[..n]);
      RunsStayConsistent(FRESH, turns[..n]);
      hide Next, Resolved, Selected, Consistent, Timed, PolledOften;
      if t.Polled? {
        PollEndsStage(r, t, EnteredAt(turns[..n], times[..n]), times[n]);
      } else {
        OnlyPollsMove(r, t);
      }
    }
  }

  lemma OnlyPollsMove(r: Radio, t: Turn)
    requires !t.Polled?
    ensures After(r, t).state == r.state && After(r, t).wait == r.wait && After(r, t).stageStartedMs == r.stageStartedMs
  {}

  lemma ShorterRun(turns: seq<Turn>, times: seq<nat>)
    requires Timed(turns, times) && PolledOften(turns, times) && turns != []
    ensures var n := |turns| - 1;
            && Timed(turns[..n], times[..n]) && PolledOften(turns[..n], times[..n])
            && (n > 0 ==> times[n - 1] <= times[n])
            && (turns[n].Polled? ==>
                  && turns[n].seen.nowMs == At(times[n]) && turns[n].after.nowMs == At(times[n])
                  && times[n] < LastPoll(turns[..n], times[..n]) + WRAP - TIMEOUT_MS)
  {
    hide LastPoll, EnteredAt, Run;
    var n := |turns| - 1;
    forall i | 0 <= i < n && turns[..n][i].Polled?
      ensures times[..n][i] < LastPoll(turns[..n][..i], times[..n][..i]) + WRAP - TIMEOUT_MS
    {
      assert turns[..n][..i] == turns[..i] && times[..n][..i] == times[..i];
      assert turns[i].Polled?;
    }
  }

  // ---- What "settled" means ----------------------------------------------------------------------

  predicate AtTarget(c: Inputs, shouldRun: bool) {
    if shouldRun then c.controller.Running? else c.controller.Stopped?
  }

  predicate Settled(r: Radio, c: Inputs) {
    !r.state.Failed? && !InTransition(r.state) && AtTarget(c, RadioTarget(r.policy, c))
  }

  /** The same observation at another time. */
  function Later(c: Inputs, now: Millis): Inputs {
    c.(nowMs := now)
  }

  /** A settled radio stays settled, and asks for nothing, as long as the observation stays what it is. */
  lemma SettledIsStable(r: Radio, c: Inputs, now: Millis, accepted: bool, after: Inputs)
    requires Consistent(r) && Settled(r, c)
    ensures Next(r, Later(c, now)).decision == NOTHING
    ensures Settled(Chained(r, Later(c, now), accepted, after), Later(c, now))
  {}

  /**
   * Under a steady observation that already meets the policy, whatever the machine was waiting for,
   * two polls past the deadline of its stage settle it.
   */
  lemma SteadyRadioSettles(r: Radio, c: Inputs, entered: nat, first: nat, second: nat)
    requires Consistent(r) && !r.policy.ExternalControl? && AtTarget(c, RadioTarget(r.policy, c))
    requires InTransition(r.state) ==> StageClock(r) == At(entered)
    requires entered + 5000 <= first <= second < entered + WRAP
    ensures var c1, c2 := Later(c, At(first)), Later(c, At(second));
            Settled(Chained(Chained(r, c1, true, c1), c2, true, c2), c2)
  {
    var c1 := Later(c, At(first));
    if InTransition(r.state) {
      ElapsedIsDistance(first, entered);
    }
    assert RadioTarget(r.policy, c1) == RadioTarget(r.policy, c);
  }
}
