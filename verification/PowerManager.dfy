/** The part of the power manager that drives the radio machine against the BLE service. */
module PowerManager {
  import opened Clock
  import opened ControllerTransition
  import opened RadioRuns
  import opened RadioWorld
  import opened ScaleRadio
  import Ble = BleLifecycle
  import opened BleService

  const DECISION_CYCLE_LIMIT := 4

  datatype RadioStatus =
    RadioStatus(policy: Policy, controller: Controller, shouldRun: bool, settled: bool, failed: bool)

  function StatusOf(r: Radio, c: Inputs): RadioStatus {
    RadioStatus(r.policy, c.controller, RadioTarget(r.policy, c), Settled(r, c), r.state.Failed?)
  }

  function ServiceStateOf(link: Link): ServiceState {
    match link
    case Off => ServiceState.Off
    case Scanning => Disconnected
    case Reconnecting => Disconnected
    case Connecting => ServiceState.Connecting
    case Ready => ServiceState.Ready
  }

  /** A lease counts as demand while its deadline lies ahead. */
  predicate LeaseAhead(deadline: Millis, now: Millis) {
    deadline != 0 && 0 < Elapsed(deadline, now) < HALF
  }

  class PowerManager {
    const radio: ScaleRadioStateMachine
    const service: BleScaleService
    var appliedServiceSuspended: bool
    var status: RadioStatus

    ghost predicate Valid()
      reads this, radio, radio.wait, service, service.receiver, service.receiver.buf
    {
      service.Valid() && Consistent(radio.View())
    }

    /** The service is kept suspended exactly as the machine wants it. */
    ghost predicate Applied()
      reads this, radio, service
    {
      appliedServiceSuspended == service.powerSuspended == WantsServiceSuspended(radio.state)
    }

    ghost function Whole(): World
      reads radio, radio.wait, service
    {
      World(radio.View(), service.Life(), Phase.Idle)
    }

    constructor (s: BleScaleService)
      requires s.Valid() && !s.powerSuspended
      ensures Valid() && Applied() && service == s && radio.View() == FRESH && fresh(radio) && fresh(radio.wait)
      ensures s.controller.Running? || !Waking(s.Life()) ==> Linked(Whole())
      ensures status == RadioStatus(Demand, Controller.Stopped, false, false, false)
    {
      radio := new ScaleRadioStateMachine();
      service := s;
      appliedServiceSuspended := false;
      status := RadioStatus(Demand, Controller.Stopped, false, false, false);
    }

    function RadioInputs(now: Millis, dimmed: bool): Inputs
      reads service
    {
      Inputs(ServiceStateOf(service.state), service.controller, now, dimmed, service.connectWanted,
             LeaseAhead(service.diagScanDeadlineMs, now))
    }

    method Request(action: Action) returns (accepted: bool)
      requires service.Valid() && !action.NoAction?
      modifies service`queue, service`stamps, service`controllerRequestPending
      ensures service.Valid() && accepted == Ble.Acceptable(old(service.Life()), RequestFor(action))
      ensures service.Life() == Ble.Requested(old(service.Life()), RequestFor(action))
    {
      accepted := service.RequestController(RequestFor(action));
    }

    /**
     * Carries out a decision until nothing more is asked for. In a state that the machine's own updates lead to,
     * one request is answered and the limit on the number of rounds is never met.
     */
    method ApplyRadioDecision(first: Decision, now: Millis, dimmed: bool) returns (exceeded: bool)
      requires service.Valid()
      requires first.action.NoAction? ==> Consistent(radio.View())
      requires !first.action.NoAction? ==> MidChain(radio.View(), first.action)
      modifies radio, radio.wait, service`queue, service`stamps, service`controllerRequestPending
      ensures Valid() && !exceeded
      ensures first.action.NoAction? ==> radio.View() == old(radio.View()) && service.Life() == old(service.Life())
      ensures !first.action.NoAction? ==>
                Whole() == Concluded(Requested(World(old(radio.View()), old(service.Life()), Asking(first.action))),
                                     RadioInputs(now, dimmed))
    {
      var decision := first;
      var step := 0;
      while step < DECISION_CYCLE_LIMIT
        invariant service.Valid() && step <= 1
        invariant step == 0 ==>
                    decision == first && radio.View() == old(radio.View()) && service.Life() == old(service.Life())
        invariant step == 1 ==> decision.action.NoAction? && !first.action.NoAction? && Consistent(radio.View())
        invariant step == 1 ==>
                    Whole() == Concluded(Requested(World(old(radio.View()), old(service.Life()), Asking(first.action))),
                                         RadioInputs(now, dimmed))
        decreases DECISION_CYCLE_LIMIT - step
      {
        if decision.action.NoAction? {
          return false;
        }
        var accepted := Request(decision.action);
        decision := radio.Resolve(decision.action, accepted, RadioInputs(now, dimmed));
        step := step + 1;
      }
      exceeded := true;
    }

    method ApplyRadioSuspension()
      requires Valid() && appliedServiceSuspended == service.powerSuspended
      modifies `appliedServiceSuspended, service`powerSuspended
      ensures Valid() && Applied()
    {
      var suspended := WantsServiceSuspended(radio.state);
      if suspended != appliedServiceSuspended {
        appliedServiceSuspended := suspended;
        service.SetPowerSuspended(suspended);
      }
    }

    method RefreshRadioStatus(now: Millis, dimmed: bool)
      modifies `status
      ensures status == StatusOf(radio.View(), RadioInputs(now, dimmed))
    {
      var c := RadioInputs(now, dimmed);
      var shouldRun := RadioTarget(radio.policy, c);
      var failed := radio.state.Failed?;
      var atTarget := if shouldRun then c.controller.Running? else c.controller.Stopped?;
      var settled := !failed && !InTransition(radio.state) && atTarget;
      status := RadioStatus(radio.policy, c.controller, shouldRun, settled, failed);
    }

    /** External control is handed over only with a running controller and only by a machine that holds nothing. */
    method SetScaleRadioPolicy(policy: Policy, now: Millis, dimmed: bool) returns (taken: bool)
      requires Valid() && appliedServiceSuspended == service.powerSuspended
      modifies this, radio, service`powerSuspended
      ensures Valid() && radio.View() == After(old(radio.View()), Selecting(policy, service.controller))
      ensures taken <==>
                var r := old(radio.View());
                HandoverAllowed(r, policy, service.controller) && PolicyAllowed(r, policy)
      ensures taken <==>
                || policy == old(radio.policy)
                || (!old(radio.policy).ExternalControl?
                    && (policy.ExternalControl? ==> old(radio.state).Monitoring? && service.controller.Running?))
      ensures taken ==> Applied() && status == StatusOf(radio.View(), RadioInputs(now, dimmed))
      ensures !taken ==> status == old(status)
      ensures !taken ==> appliedServiceSuspended == old(appliedServiceSuspended) == service.powerSuspended
      ensures old(Linked(Whole())) && !policy.ExternalControl? ==> Linked(Whole())
    {
      hide BleScaleService.Valid, ControllerShouldRun, Settled;
      if policy.ExternalControl? && !radio.policy.ExternalControl? && !service.controller.Running? {
        return false;
      }
      taken := radio.SetPolicy(policy);
      if !taken {
        return;
      }
      ApplyRadioSuspension();
      RefreshRadioStatus(now, dimmed);
    }

    /** One poll of the radio: a whole decision chain, then the suspension and the status that follow from it. */
    method UpdateRadio(now: Millis, dimmed: bool)
      requires Valid() && appliedServiceSuspended == service.powerSuspended
      modifies this, radio, radio.wait, service`queue, service`stamps, service`controllerRequestPending,
               service`powerSuspended
      ensures Valid() && Applied() && status == StatusOf(radio.View(), RadioInputs(now, dimmed))
      ensures var observed := Observed(old(Whole()), old(RadioInputs(now, dimmed)));
              Whole() == if observed.phase.Idle? then observed
                         else Concluded(Requested(observed), old(RadioInputs(now, dimmed)))
      ensures old(Linked(Whole())) ==> Linked(Whole())
    {
      hide BleScaleService.Valid, Next, Consistent, MidChain, Resolved, Settled, ControllerShouldRun, Linked;
      hide Ble.Requested, Ble.Acceptable;
      PollKeepsLink(Whole(), RadioInputs(now, dimmed));
      ghost var seen := RadioInputs(now, dimmed);
      PollKeepsOrder(radio.View(), seen);
      var decision := radio.Update(RadioInputs(now, dimmed));
      var exceeded := ApplyRadioDecision(decision, now, dimmed);
      ApplyRadioSuspension();
      RefreshRadioStatus(now, dimmed);
    }
  }

  /** A whole decision chain, taken in one go, keeps machine and lifecycle linked. */
  lemma PollKeepsLink(w: World, c: Inputs)
    requires w.phase.Idle?
    ensures var seen := Observed(w, c);
            Linked(w) ==> Linked(if seen.phase.Idle? then seen else Concluded(Requested(seen), c))
  {
    if Linked(w) {
      var seen := Observed(w, c);
      ObservingKeepsLink(w, c);
      if !seen.phase.Idle? {
        RequestingKeepsLink(seen);
        ConcludingKeepsLink(Requested(seen), c);
      }
    }
  }

  lemma PollKeepsOrder(r: Radio, c: Inputs)
    requires Consistent(r)
    ensures var m := Next(r, c);
            if m.decision.action.NoAction? then Consistent(m.radio) else MidChain(m.radio, m.decision.action)
  {}
}
