/** The state machine that keeps the Bluetooth controller in the state the selected policy asks for. */
module ScaleRadio {
  import opened Clock
  import opened ControllerTransition

  datatype ServiceState = Off | Disconnected | Connecting | Ready

  datatype Policy = Demand | ForceRunning | ForceStopped | ExternalControl

  /** One observation of everything the machine decides from. */
  datatype Inputs = Inputs(service: ServiceState, controller: Controller, nowMs: Millis, screenDimmed: bool,
                           connectWanted: bool, diagnosticScanWanted: bool)

  function ControllerShouldRun(c: Inputs): bool {
    if c.diagnosticScanWanted then true
    else if !c.connectWanted then false
    else if !c.screenDimmed then true
    else c.service.Ready? || c.service.Connecting?
  }

  function RadioTarget(policy: Policy, c: Inputs): bool {
    match policy
    case ForceRunning => true
    case ForceStopped => false
    case ExternalControl => false
    case Demand => ControllerShouldRun(c)
  }

  datatype State = Monitoring | Suspending | Stopping | ControllerStopped | Starting | Failed

  datatype Action = NoAction | StopController | StartController

  datatype FailureArea = ServiceStop | ControllerStop | ControllerStart | ControllerUnusable

  datatype Reason =
    | StopUnavailable
    | StopBusy
    | StopWaitBusy
    | StopRejected
    | StopFailed
    | StopTimedOut
    | StartUnavailable
    | StartWaitBusy
    | StartRejected
    | StartFailed
    | StartTimedOut
    | Unusable
    | ServiceStopTimedOut

  datatype Event =
    | NoEvent
    | StopStarted
    | ControllerReleased
    | WakeRequested
    | ControllerRestarted
    | Failure(area: FailureArea, reason: Reason)

  datatype Decision = Decision(action: Action, event: Event)

  const NOTHING := Decision(NoAction, NoEvent)

  // ---- The transition table ------------------------------------------------------------

  datatype Radio = Radio(state: State, policy: Policy, activityPending: bool, stageStartedMs: Millis, wait: Wait)

  datatype Move = Move(radio: Radio, decision: Decision)

  function Quietly(r: Radio): Move {
    Move(r, NOTHING)
  }

  function Reporting(r: Radio, event: Event): Move {
    Move(r, Decision(NoAction, event))
  }

  function Failing(r: Radio, area: FailureArea, reason: Reason): Move {
    var failed := r.(state := State.Failed, activityPending := false, wait := r.wait.(result := Inactive));
    Reporting(failed, Failure(area, reason))
  }

  /** Enters a stage that waits for the controller, unless another wait is still pending. */
  function Waiting(r: Radio, stage: State, target: Target, now: Millis, event: Event, area: FailureArea,
                   busy: Reason): Move
  {
    if r.wait.result.Pending? then Failing(r, area, busy)
    else Reporting(r.(state := stage, wait := Wait(Pending, target, now, TIMEOUT_MS)), event)
  }

  /** Stopping and Starting: nothing but the pending wait decides. */
  function FromStage(r: Radio, c: Inputs): Move {
    var starting := r.state.Starting?;
    var area := if starting then ControllerStart else ControllerStop;
    var result := Outcome(r.wait, c.controller, c.nowMs);
    var waited := r.(wait := r.wait.(result := result));
    if !r.wait.result.Pending? then Quietly(r)
    else match result
      case Succeeded =>
        var landed := waited.(wait := waited.wait.(result := Inactive));
        if starting then Reporting(landed.(state := Monitoring, activityPending := false), ControllerRestarted)
        else Reporting(landed.(state := ControllerStopped), ControllerReleased)
      case WaitFailed => Failing(r, area, if starting then StartFailed else StopFailed)
      case TimedOut => Failing(r, area, if starting then StartTimedOut else StopTimedOut)
      case _ => Quietly(waited)
  }

  function FromMonitoring(r: Radio, c: Inputs, shouldRun: bool): Move {
    match c.controller
    case Stopped => Quietly(r.(state := ControllerStopped))
    case Failed => Failing(r, FailureArea.ControllerUnusable, Unusable)
    case Running =>
      if shouldRun then Quietly(r) else Reporting(r.(state := Suspending, stageStartedMs := c.nowMs), StopStarted)
    case _ => Quietly(r)
  }

  function FromSuspending(r: Radio, c: Inputs, shouldRun: bool): Move {
    if shouldRun then Quietly(r.(state := Monitoring))
    else if c.service.Off? then
      match c.controller
      case Stopped => Reporting(r.(state := ControllerStopped), ControllerReleased)
      case Failed => Failing(r, ControllerStop, StopUnavailable)
      case Starting => Failing(r, ControllerStop, StopBusy)
      case Running => Move(r.(state := State.Stopping), Decision(StopController, NoEvent))
      case Stopping => Waiting(r, State.Stopping, ToStopped, c.nowMs, NoEvent, ControllerStop, StopWaitBusy)
    else if Elapsed(c.nowMs, r.stageStartedMs) >= TIMEOUT_MS then Failing(r, ServiceStop, ServiceStopTimedOut)
    else Quietly(r)
  }

  function FromControllerStopped(r: Radio, c: Inputs, shouldRun: bool): Move {
    if c.controller.Running? then Quietly(r.(state := Monitoring))
    else if !shouldRun then Quietly(r)
    else
      var woken := r.(activityPending := false);
      match c.controller
      case Failed => Failing(woken, ControllerStart, StartUnavailable)
      case Starting => Waiting(woken, State.Starting, ToRunning, c.nowMs, WakeRequested, ControllerStart, StartWaitBusy)
      case _ => Move(woken.(state := State.Starting), Decision(StartController, WakeRequested))
  }

  function FromFailed(r: Radio, c: Inputs, shouldRun: bool): Move {
    var running := c.controller.Running?;
    if !running && !c.controller.Stopped? then Quietly(r)
    else if running != shouldRun && !r.activityPending then Quietly(r)
    else Quietly(r.(state := if running then Monitoring else ControllerStopped))
  }

  /** One update. */
  function Next(r: Radio, c: Inputs): Move {
    var shouldRun := RadioTarget(r.policy, c);
    if r.policy.ExternalControl? then Quietly(r)
    else match r.state
      case Monitoring => FromMonitoring(r, c, shouldRun)
      case Suspending => FromSuspending(r, c, shouldRun)
      case ControllerStopped => FromControllerStopped(r, c, shouldRun)
      case Failed => FromFailed(r, c, shouldRun)
      case _ => FromStage(r, c)
  }

  /** The answer to a request, accepted or refused, under a fresh observation. */
  function Resolved(r: Radio, action: Action, accepted: bool, c: Inputs): Move {
    match action
    case NoAction => Quietly(r)
    case StopController =>
      if c.controller.Stopped? then Reporting(r.(state := ControllerStopped), ControllerReleased)
      else if c.controller.Failed? then Failing(r, ControllerStop, StopFailed)
      else if !accepted && !c.controller.Stopping? then Failing(r, ControllerStop, StopRejected)
      else Waiting(r, State.Stopping, ToStopped, c.nowMs, NoEvent, ControllerStop, StopWaitBusy)
    case StartController =>
      if c.controller.Running? then Reporting(r.(state := Monitoring), ControllerRestarted)
      else if c.controller.Failed? then Failing(r, ControllerStart, StartFailed)
      else if !accepted && !c.controller.Starting? then Failing(r, ControllerStart, StartRejected)
      else Waiting(r, State.Starting, ToRunning, c.nowMs, NoEvent, ControllerStart, StartWaitBusy)
  }

  predicate WantsServiceSuspended(s: State) {
    s.Suspending? || s.Stopping? || s.ControllerStopped? || s.Starting?
  }

  predicate InTransition(s: State) {
    s.Suspending? || s.Stopping? || s.Starting?
  }

  /** Handing over is refused while the machine still asserts something; nothing is taken back afterwards. */
  predicate PolicyAllowed(r: Radio, policy: Policy) {
    || policy == r.policy
    || (!r.policy.ExternalControl? && (policy.ExternalControl? ==> r.state.Monitoring?))
  }

  function Selected(r: Radio, policy: Policy): Radio {
    if policy == r.policy || !PolicyAllowed(r, policy) then r else r.(policy := policy, activityPending := true)
  }

  const FRESH := Radio(Monitoring, Demand, false, 0, IDLE)

  // ---- The machine -------------------------------------------------------------------------

  class ScaleRadioStateMachine {
    const wait: ControllerWait
    var state: State
    var policy: Policy
    var activityPending: bool
    var stageStartedMs: Millis

    ghost function View(): Radio
      reads this, wait
    {
      Radio(state, policy, activityPending, stageStartedMs, wait.View())
    }

    constructor ()
      ensures View() == FRESH && fresh(wait)
    {
      wait := new ControllerWait();
      state, policy, activityPending, stageStartedMs := Monitoring, Demand, false, 0;
    }

    method NotifyActivity()
      modifies this
      ensures View() == old(View()).(activityPending := true)
    {
      activityPending := true;
    }

    method SetPolicy(p: Policy) returns (taken: bool)
      modifies this
      ensures taken == PolicyAllowed(old(View()), p) && View() == Selected(old(View()), p)
      ensures taken <==>
                p == old(policy) || (!old(policy).ExternalControl? && (p.ExternalControl? ==> state.Monitoring?))
      ensures policy == (if taken then p else old(policy)) && state == old(state)
      ensures activityPending <==> old(activityPending) || (taken && p != old(policy))
    {
      if p == policy {
        return true;
      }
      if policy.ExternalControl? {
        return false;
      }
      if p.ExternalControl? && (InTransition(state) || state.Failed? || WantsServiceSuspended(state)) {
        return false;
      }
      policy, activityPending := p, true;
      return true;
    }

    method Fail(area: FailureArea, reason: Reason) returns (d: Decision)
      modifies this, wait
      ensures Move(View(), d) == Failing(old(View()), area, reason)
    {
      wait.Reset();
      state, activityPending := State.Failed, false;
      d := Decision(NoAction, Failure(area, reason));
    }

    method BeginControllerStop(c: Inputs) returns (d: Decision)
      requires c.service.Off?
      modifies this, wait
      ensures Move(View(), d) == FromSuspending(old(View()), c, false)
    {
      if c.controller.Stopped? {
        state := ControllerStopped;
        return Decision(NoAction, ControllerReleased);
      }
      if c.controller.Failed? {
        d := Fail(ControllerStop, StopUnavailable);
        return;
      }
      if c.controller.Starting? {
        d := Fail(ControllerStop, StopBusy);
        return;
      }
      if c.controller.Running? {
        state := State.Stopping;
        return Decision(StopController, NoEvent);
      }
      var begun := wait.Begin(ToStopped, c.nowMs);
      if !begun {
        d := Fail(ControllerStop, StopWaitBusy);
        return;
      }
      state := State.Stopping;
      return NOTHING;
    }

    method BeginControllerStart(c: Inputs) returns (d: Decision)
      requires !c.controller.Running?
      modifies this, wait
      ensures Move(View(), d) == FromControllerStopped(old(View()), c, true)
    {
      activityPending := false;
      if c.controller.Failed? {
        d := Fail(ControllerStart, StartUnavailable);
        return;
      }
      if c.controller.Starting? {
        var begun := wait.Begin(ToRunning, c.nowMs);
        if !begun {
          d := Fail(ControllerStart, StartWaitBusy);
          return;
        }
        state := State.Starting;
        return Decision(NoAction, WakeRequested);
      }
      state := State.Starting;
      return Decision(StartController, WakeRequested);
    }

    method AdvanceTransition(c: Inputs) returns (d: Decision)
      requires (state.Stopping? || state.Starting?) && wait.result.Pending?
      modifies this, wait
      ensures Move(View(), d) == FromStage(old(View()), c)
    {
      var starting := state.Starting?;
      var area := if starting then ControllerStart else ControllerStop;
      var result := wait.Update(c.controller, c.nowMs);
      if result.Succeeded? {
        wait.Reset();
        if starting {
          state, activityPending := Monitoring, false;
          return Decision(NoAction, ControllerRestarted);
        }
        state := ControllerStopped;
        return Decision(NoAction, ControllerReleased);
      }
      if result.WaitFailed? {
        d := Fail(area, if starting then StartFailed else StopFailed);
        return;
      }
      if result.TimedOut? {
        d := Fail(area, if starting then StartTimedOut else StopTimedOut);
        return;
      }
      return NOTHING;
    }

    method UpdateMonitoring(c: Inputs, shouldRun: bool) returns (d: Decision)
      modifies this, wait
      ensures Move(View(), d) == FromMonitoring(old(View()), c, shouldRun)
    {
      if c.controller.Stopped? {
        state := ControllerStopped;
        return NOTHING;
      }
      if c.controller.Failed? {
        d := Fail(FailureArea.ControllerUnusable, Unusable);
        return;
      }
      if shouldRun || !c.controller.Running? {
        return NOTHING;
      }
      state, stageStartedMs := Suspending, c.nowMs;
      return Decision(NoAction, StopStarted);
    }

    method UpdateSuspending(c: Inputs, shouldRun: bool) returns (d: Decision)
      modifies this, wait
      ensures Move(View(), d) == FromSuspending(old(View()), c, shouldRun)
    {
      if shouldRun {
        state := Monitoring;
        return NOTHING;
      }
      if c.service.Off? {
        d := BeginControllerStop(c);
        return;
      }
      if Elapsed(c.nowMs, stageStartedMs) >= TIMEOUT_MS {
        d := Fail(ServiceStop, ServiceStopTimedOut);
        return;
      }
      return NOTHING;
    }

    method UpdateControllerStopped(c: Inputs, shouldRun: bool) returns (d: Decision)
      modifies this, wait
      ensures Move(View(), d) == FromControllerStopped(old(View()), c, shouldRun)
    {
      if c.controller.Running? {
        state := Monitoring;
        return NOTHING;
      }
      if !shouldRun {
        return NOTHING;
      }
      d := BeginControllerStart(c);
    }

    method UpdateFailed(c: Inputs, shouldRun: bool) returns (d: Decision)
      modifies this
      ensures Move(View(), d) == FromFailed(old(View()), c, shouldRun)
    {
      var running, stopped := c.controller.Running?, c.controller.Stopped?;
      if !running && !stopped {
        return NOTHING;
      }
      var nothingToRetry := running == shouldRun;
      if !nothingToRetry && !activityPending {
        return NOTHING;
      }
      state := if running then Monitoring else ControllerStopped;
      return NOTHING;
    }

    method Update(c: Inputs) returns (d: Decision)
      modifies this, wait
      ensures Move(View(), d) == Next(old(View()), c)
    {
      if policy.ExternalControl? {
        return NOTHING;
      }
      if state.Stopping? || state.Starting? {
        if wait.result.Pending? {
          d := AdvanceTransition(c);
          return;
        }
        return NOTHING;
      }
      var shouldRun := RadioTarget(policy, c);
      match state {
        case Monitoring => d := UpdateMonitoring(c, shouldRun);
        case Suspending => d := UpdateSuspending(c, shouldRun);
        case ControllerStopped => d := UpdateControllerStopped(c, shouldRun);
        case Failed => d := UpdateFailed(c, shouldRun);
        case _ => d := NOTHING;
      }
    }

    method Resolve(action: Action, accepted: bool, c: Inputs) returns (d: Decision)
      modifies this, wait
      ensures Move(View(), d) == Resolved(old(View()), action, accepted, c)
    {
      if action.StopController? {
        if c.controller.Stopped? {
          state := ControllerStopped;
          return Decision(NoAction, ControllerReleased);
        }
        if c.controller.Failed? {
          d := Fail(ControllerStop, StopFailed);
          return;
        }
        if !accepted && !c.controller.Stopping? {
          d := Fail(ControllerStop, StopRejected);
          return;
        }
        var begun := wait.Begin(ToStopped, c.nowMs);
        if !begun {
          d := Fail(ControllerStop, StopWaitBusy);
          return;
        }
        state := State.Stopping;
        return NOTHING;
      }
      if action.StartController? {
        if c.controller.Running? {
          state := Monitoring;
          return Decision(NoAction, ControllerRestarted);
        }
        if c.controller.Failed? {
          d := Fail(ControllerStart, StartFailed);
          return;
        }
        if !accepted && !c.controller.Starting? {
          d := Fail(ControllerStart, StartRejected);
          return;
        }
        var begun := wait.Begin(ToRunning, c.nowMs);
        if !begun {
          d := Fail(ControllerStart, StartWaitBusy);
          return;
        }
        state := State.Starting;
      }
      return NOTHING;
    }
  }
}
