/** The radio machine and the BLE service together: every interleaving of one requester with the manager task. */
module RadioWorld {
  import opened Clock
  import opened ControllerTransition
  import opened ScaleRadio
  import opened RadioRuns
  import Ble = BleLifecycle

  /** Where the requester stands in its decision chain. */
  datatype Phase = Idle | Asking(action: Action) | Answered(action: Action, accepted: bool)

  datatype World = World(radio: Radio, life: Ble.Lifecycle, phase: Phase)

  /** The machine that has just been built, beside a freshly started service. */
  const NEW_WORLD := World(FRESH, Ble.Lifecycle(Controller.Running, false, []), Idle)

  /**
   * One atomic step of either side. The requester observes, asks and takes the answer; activity and policy
   * changes come from the same task and so only between two chains. Everything else is the manager's.
   */
  datatype Happening =
    | Observing(seen: Inputs)
    | Requesting
    | Concluding(after: Inputs)
    | Touched
    | Choosing(policy: Policy)
    | Managing(step: Ble.Step)

  /** What an observation shows of the controller is what the service publishes. */
  function Shown(w: World, c: Inputs): Inputs {
    c.(controller := w.life.controller)
  }

  function RequestFor(action: Action): Ble.Command
    requires !action.NoAction?
  {
    if action.StopController? then Ble.Command.StopController else Ble.Command.StartController
  }

  ghost predicate ManagerStep(s: Ble.Step) {
    Ble.WellFormed(s) && !s.Asking?
  }

  ghost predicate SingleRequester(h: Happening) {
    (h.Managing? ==> ManagerStep(h.step)) && (h.Choosing? ==> !h.policy.ExternalControl?)
  }

  ghost function Observed(w: World, seen: Inputs): World {
    var m := Next(w.radio, Shown(w, seen));
    World(m.radio, w.life, if m.decision.action.NoAction? then Idle else Asking(m.decision.action))
  }

  ghost function Requested(w: World): World
    requires w.phase.Asking? && !w.phase.action.NoAction?
  {
    var request := RequestFor(w.phase.action);
    World(w.radio, Ble.Requested(w.life, request), Answered(w.phase.action, Ble.Acceptable(w.life, request)))
  }

  ghost function Concluded(w: World, after: Inputs): World
    requires w.phase.Answered?
  {
    World(Resolved(w.radio, w.phase.action, w.phase.accepted, Shown(w, after)).radio, w.life, Idle)
  }

  /** A step that does not fit the phase leaves the world alone. */
  ghost function Happened(w: World, h: Happening): World
    requires SingleRequester(h)
  {
    match h
    case Observing(seen) => if w.phase.Idle? then Observed(w, seen) else w
    case Requesting => if w.phase.Asking? && !w.phase.action.NoAction? then Requested(w) else w
    case Concluding(after) => if w.phase.Answered? then Concluded(w, after) else w
    case Touched => if w.phase.Idle? then w.(radio := w.radio.(activityPending := true)) else w
    case Choosing(policy) => if w.phase.Idle? then w.(radio := Selected(w.radio, policy)) else w
    case Managing(step) => w.(life := Ble.Stepped(w.life, step))
  }

  ghost predicate Fair(hs: seq<Happening>) {
    forall i :: 0 <= i < |hs| ==> SingleRequester(hs[i])
  }

  ghost function Course(w: World, hs: seq<Happening>): World
    requires Fair(hs)
    decreases |hs|
  {
    if hs == [] then w else Happened(Course(w, hs[..|hs| - 1]), hs[|hs| - 1])
  }

  // ---- No wait is orphaned -----------------------------------------------------------------

  /** A stop is on its way: queued, or being carried out. */
  ghost predicate Releasing(l: Ble.Lifecycle) {
    l.controller.Stopping? || Ble.Command.StopController in l.queue
  }

  ghost predicate Waking(l: Ble.Lifecycle) {
    l.controller.Starting? || Ble.Command.StartController in l.queue
  }

  /**
   * Stages and lifecycle agree on the direction; in a stage without a change on its way, the controller has arrived or
   * failed.
   */
  ghost predicate Attuned(state: State, l: Ble.Lifecycle, asked: bool) {
    && (Waking(l) ==> state.Starting? || state.Failed? || state.ControllerStopped?)
    && (Releasing(l) ==> state.Stopping? || state.Failed? || state.Monitoring? || state.Suspending?)
    && (asked && state.Stopping? && !Releasing(l) ==> l.controller.Stopped? || l.controller.Failed?)
    && (asked && state.Starting? && !Waking(l) ==> l.controller.Running? || l.controller.Failed?)
  }

  /** In the middle of a chain the machine is in the stage it asked for, and not waiting yet. */
  ghost predicate MidChain(r: Radio, action: Action) {
    && !r.policy.ExternalControl? && r.wait.result.Inactive?
    && (action.StopController? ==> r.state.Stopping?)
    && (action.StartController? ==> r.state.Starting?)
    && !action.NoAction?
  }

  ghost predicate Linked(w: World) {
    && Ble.Coherent(w.life) && !w.radio.policy.ExternalControl?
    && match w.phase
       case Idle => Consistent(w.radio) && Attuned(w.radio.state, w.life, true)
       case Asking(action) => MidChain(w.radio, action) && Attuned(w.radio.state, w.life, false)
       case Answered(action, accepted) => MidChain(w.radio, action) && Attuned(w.radio.state, w.life, accepted)
  }

  lemma LifecycleKeepsAttuned(state: State, l: Ble.Lifecycle, asked: bool, step: Ble.Step)
    requires Ble.Coherent(l) && Attuned(state, l, asked) && ManagerStep(step)
    ensures Ble.Coherent(Ble.Stepped(l, step)) && Attuned(state, Ble.Stepped(l, step), asked)
  {
    Ble.StepKeepsCoherence(l, step);
    match step
    case Posting(command) =>
      assert forall c :: c in Ble.Posted(l, command).queue && Ble.IsLifecycle(c) ==> c in l.queue;
      assert forall c :: c in l.queue ==> c in Ble.Posted(l, command).queue;
    case Draining => Ble.DrainCarriesOut(l);
    case Processing(works) =>
  }

  lemma ObservingKeepsLink(w: World, seen: Inputs)
    requires Linked(w) && w.phase.Idle?
    ensures Linked(Observed(w, seen))
  {
    TurnKeepsConsistency(w.radio, Polled(Shown(w, seen), false, Shown(w, seen)));
  }

  lemma RequestingKeepsLink(w: World)
    requires Linked(w) && w.phase.Asking?
    ensures Linked(Requested(w))
  {
    Ble.RequestKeepsCoherence(w.life, RequestFor(w.phase.action));
  }

  lemma ConcludingKeepsLink(w: World, after: Inputs)
    requires Linked(w) && w.phase.Answered?
    ensures Linked(Concluded(w, after))
  {}

  lemma HappeningKeepsLink(w: World, h: Happening)
    requires Linked(w) && SingleRequester(h)
    ensures Linked(Happened(w, h))
  {
    match h
    case Observing(seen) => if w.phase.Idle? { ObservingKeepsLink(w, seen); }
    case Requesting => if w.phase.Asking? { RequestingKeepsLink(w); }
    case Concluding(after) => if w.phase.Answered? { ConcludingKeepsLink(w, after); }
    case Touched =>
    case Choosing(policy) =>
    case Managing(step) =>
      var asked := w.phase.Idle? || (w.phase.Answered? && w.phase.accepted);
      LifecycleKeepsAttuned(w.radio.state, w.life, asked, step);
  }

  /** In every interleaving the two sides stay linked: no wait is left without the change it waits for. */
  lemma {:induction false} CoursesStayLinked(w: World, hs: seq<Happening>)
    requires Linked(w) && Fair(hs)
    ensures Linked(Course(w, hs))
    decreases |hs|
  {
    if hs != [] {
      CoursesStayLinked(w, hs[..|hs| - 1]);
      HappeningKeepsLink(Course(w, hs[..|hs| - 1]), hs[|hs| - 1]);
    }
  }

  /** A machine that has just been built beside a freshly started service is linked to it. */
  lemma FreshWorldIsLinked()
    ensures Linked(NEW_WORLD)
  {}

  // ---- Retries are paid for --------------------------------------------------------------------

  /** Requests made in a course. */
  ghost function Requests(w: World, hs: seq<Happening>): nat
    requires Fair(hs)
    decreases |hs|
  {
    if hs == [] then 0
    else
      var n := |hs| - 1;
      var before := Course(w, hs[..n]);
      Requests(w, hs[..n]) + if hs[n].Requesting? && before.phase.Asking? then 1 else 0
  }

  /** Activity reports and policy changes in a course. */
  function Occasions(hs: seq<Happening>): nat {
    if hs == [] then 0
    else Occasions(hs[..|hs| - 1]) + if hs[|hs| - 1].Touched? || hs[|hs| - 1].Choosing? then 1 else 0
  }

  /** Every observation made in the course wants the radio to be in the same state. */
  ghost predicate SteadyTarget(w: World, hs: seq<Happening>, target: bool)
    requires Fair(hs)
    decreases |hs|
  {
    hs == [] ||
    var n := |hs| - 1;
    var before := Course(w, hs[..n]);
    && SteadyTarget(w, hs[..n], target)
    && (hs[n].Observing? ==> RadioTarget(before.radio.policy, Shown(before, hs[n].seen)) == target)
  }

  /** The request that works against the target still waits in the command queue. */
  ghost predicate ContraryQueued(l: Ble.Lifecycle, target: bool) {
    (if target then Ble.Command.StopController else Ble.Command.StartController) in l.queue
  }

  /** What the machine may still request on its own account. */
  ghost function Allowance(w: World, target: bool): nat {
    match w.phase
    case Asking(_) => 1
    case Answered(_, _) => 0
    case Idle =>
      var l := w.life;
      var open :=
        match w.radio.state
        case Monitoring => !target || Releasing(l) || l.controller.Stopped?
        case Suspending => !target || Releasing(l) || l.controller.Stopped?
        case Stopping => target
        case ControllerStopped => target || Waking(l) || l.controller.Running?
        case Starting => !target
        case Failed => w.radio.activityPending || ContraryQueued(l, target);
      if open then 1 else 0
  }

  /** In mid-chain the request is the one the target calls for. */
  ghost predicate Facing(w: World, target: bool) {
    w.phase.Idle? || (if target then w.phase.action.StartController? else w.phase.action.StopController?)
  }

  lemma ObservingSpends(w: World, seen: Inputs, target: bool)
    requires Linked(w) && w.phase.Idle? && RadioTarget(w.radio.policy, Shown(w, seen)) == target
    ensures Facing(Observed(w, seen), target) && Allowance(Observed(w, seen), target) <= Allowance(w, target)
  {}

  lemma ConcludingSpends(w: World, after: Inputs, target: bool)
    requires Linked(w) && w.phase.Answered? && Facing(w, target)
    ensures Allowance(Concluded(w, after), target) == 0
  {}

  lemma ManagingSpends(w: World, step: Ble.Step, target: bool)
    requires Linked(w) && ManagerStep(step)
    ensures Allowance(Happened(w, Managing(step)), target) <= Allowance(w, target)
  {
    match step
    case Posting(command) =>
      assert forall c :: c in Ble.Posted(w.life, command).queue && Ble.IsLifecycle(c) ==> c in w.life.queue;
    case Draining => Ble.DrainCarriesOut(w.life);
    case Processing(works) =>
  }

  lemma StepSpends(w: World, h: Happening, target: bool)
    requires Linked(w) && SingleRequester(h) && Facing(w, target)
    requires h.Observing? && w.phase.Idle? ==> RadioTarget(w.radio.policy, Shown(w, h.seen)) == target
    ensures Facing(Happened(w, h), target)
    ensures (if h.Requesting? && w.phase.Asking? then 1 else 0) + Allowance(Happened(w, h), target)
            <= Allowance(w, target) + if h.Touched? || h.Choosing? then 1 else 0
  {
    match h
    case Observing(seen) => if w.phase.Idle? { ObservingSpends(w, seen, target); }
    case Requesting =>
    case Concluding(after) => if w.phase.Answered? { ConcludingSpends(w, after, target); }
    case Touched =>
    case Choosing(policy) =>
    case Managing(step) => ManagingSpends(w, step, target);
  }

  lemma {:induction false} RetriesArePaidFor(w: World, hs: seq<Happening>, target: bool)
    requires Linked(w) && Fair(hs) && Facing(w, target) && SteadyTarget(w, hs, target)
    ensures Facing(Course(w, hs), target)
    ensures Requests(w, hs) + Allowance(Course(w, hs), target) <= Allowance(w, target) + Occasions(hs)
    decreases |hs|
  {
    if hs != [] {
      var n := |hs| - 1;
      RetriesArePaidFor(w, hs[..n], target);
      CoursesStayLinked(w, hs[..n]);
      hide Linked, Allowance, Facing;
      StepSpends(Course(w, hs[..n]), hs[n], target);
    }
  }

  /**
   * After a failure, while the target stays the same, the machine makes at most one request for each activity
   * report or policy change, provided that no contrary request still waits in the queue.
   */
  lemma {:induction false} OneRequestPerOccasion(w: World, hs: seq<Happening>, target: bool)
    requires Linked(w) && Fair(hs) && SteadyTarget(w, hs, target)
    requires w.phase.Idle? && w.radio.state.Failed? && !w.radio.activityPending && !ContraryQueued(w.life, target)
    ensures Requests(w, hs) <= Occasions(hs)
  {
    RetriesArePaidFor(w, hs, target);
  }

  /** Whether a course without activity or policy change, under a steady target, makes a request. */
  ghost predicate FreeRequest(w: World, hs: seq<Happening>, target: bool) {
    Fair(hs) && SteadyTarget(w, hs, target) && Occasions(hs) == 0 && Requests(w, hs) > 0
  }

  /** The proviso is needed: a contrary request still in the queue buys one request that nothing else paid for. */
  lemma ContraryRequestCostsOne(w: World, seen: Inputs, target: bool) returns (hs: seq<Happening>)
    requires Linked(w) && w.phase.Idle? && w.radio.state.Failed? && ContraryQueued(w.life, target)
    requires seen.service.Off? && RadioTarget(w.radio.policy, seen) == target
    ensures FreeRequest(w, hs, target)
  {
    hide Course, SteadyTarget, Occasions, Requests, Attuned, Consistent, Ble.Drained;
    hs := NothingYet(w, target);
    var look, drain, carryOut := Observing(seen), Managing(Ble.Draining), Managing(Ble.Processing(true));
    hs := Extended(w, hs, look, target);
    DrainDelivers(w, target);
    hs := Extended(w, hs, drain, target);
    hs := Extended(w, hs, carryOut, target);
    hs := Extended(w, hs, look, target);
    hs := Extended(w, hs, look, target);
    if !target {
      hs := Extended(w, hs, look, target);
    }
    hs := Extended(w, hs, Requesting, target);
  }

  lemma NothingYet(w: World, target: bool) returns (hs: seq<Happening>)
    ensures hs == [] && Fair(hs) && SteadyTarget(w, hs, target) && Occasions(hs) == 0
    ensures Course(w, hs) == w && Requests(w, hs) == 0
  {
    hs := [];
  }

  lemma DrainDelivers(w: World, target: bool)
    requires Linked(w) && ContraryQueued(w.life, target)
    ensures w.life.controller == if target then Controller.Running else Controller.Stopped
    ensures Ble.Drained(w.life).controller == if target then Controller.Stopping else Controller.Starting
  {
    Ble.DrainCarriesOut(w.life);
  }

  /** One more step, which is no occasion. */
  lemma Extended(w: World, hs: seq<Happening>, h: Happening, target: bool) returns (more: seq<Happening>)
    requires Fair(hs) && SteadyTarget(w, hs, target) && Occasions(hs) == 0
    requires SingleRequester(h) && !h.Touched? && !h.Choosing?
    requires h.Observing? ==> RadioTarget(Course(w, hs).radio.policy, Shown(Course(w, hs), h.seen)) == target
    ensures Fair(more) && SteadyTarget(w, more, target) && Occasions(more) == 0
    ensures Course(w, more) == Happened(Course(w, hs), h)
    ensures Requests(w, more) == Requests(w, hs) + if h.Requesting? && Course(w, hs).phase.Asking? then 1 else 0
  {
    more := hs + [h];
    assert more[..|hs|] == hs;
  }

  /**
   * The exact condition: a failed machine without pending activity requests something for free iff a contrary request
   * is queued.
   */
  lemma {:induction false} FreeRequestExactly(w: World, seen: Inputs, target: bool)
    requires Linked(w) && w.phase.Idle? && w.radio.state.Failed? && !w.radio.activityPending
    requires seen.service.Off? && RadioTarget(w.radio.policy, seen) == target
    ensures (exists hs :: FreeRequest(w, hs, target)) <==> ContraryQueued(w.life, target)
  {
    if ContraryQueued(w.life, target) {
      var hs := ContraryRequestCostsOne(w, seen, target);
    } else {
      forall hs ensures !FreeRequest(w, hs, target) {
        if FreeRequest(w, hs, target) {
          OneRequestPerOccasion(w, hs, target);
        }
      }
    }
  }

  // ---- And such a world is reached ----------------------------------------------------------------

  /** An observation of a service that has let go, in which only the diagnostic scan may want the radio. */
  function Look(wanted: bool, now: Millis): Inputs {
    Inputs(ServiceState.Off, Controller.Running, now, false, false, wanted)
  }

  lemma Proceeding(w: World, hs: seq<Happening>, h: Happening)
    requires Fair(hs) && SingleRequester(h)
    ensures Fair(hs + [h]) && Course(w, hs + [h]) == Happened(Course(w, hs), h)
  {
    assert (hs + [h])[..|hs|] == hs;
  }

  /** A fair course from the fresh world to a machine that waits for a stop still in the queue. */
  lemma StopIsWaitedFor() returns (hs: seq<Happening>)
    ensures Fair(hs)
    ensures var w := Course(NEW_WORLD, hs);
            && w.phase.Idle?
            && w.radio == Radio(State.Stopping, Demand, false, 0, Wait(Pending, ToStopped, 0, TIMEOUT_MS))
            && w.life == Ble.Lifecycle(Controller.Running, true, [Ble.Command.StopController])
  {
    hide Course;
    var unwanted := Observing(Look(false, 0));
    hs := NothingYet(NEW_WORLD, false);
    Proceeding(NEW_WORLD, hs, unwanted);
    hs := hs + [unwanted];
    Proceeding(NEW_WORLD, hs, unwanted);
    hs := hs + [unwanted];
    Proceeding(NEW_WORLD, hs, Requesting);
    hs := hs + [Requesting];
    Proceeding(NEW_WORLD, hs, Concluding(Look(false, 0)));
    hs := hs + [Concluding(Look(false, 0))];
  }

  /** The same for a start: the stop is carried out first, and then the radio is wanted again. */
  lemma StartIsWaitedFor() returns (hs: seq<Happening>)
    ensures Fair(hs)
    ensures var w := Course(NEW_WORLD, hs);
            && w.phase.Idle?
            && w.radio == Radio(State.Starting, Demand, false, 0, Wait(Pending, ToRunning, 0, TIMEOUT_MS))
            && w.life == Ble.Lifecycle(Controller.Stopped, true, [Ble.Command.StartController])
  {
    hide Course;
    hs := StopIsWaitedFor();
    var wanted := Observing(Look(true, 0));
    Proceeding(NEW_WORLD, hs, Managing(Ble.Draining));
    hs := hs + [Managing(Ble.Draining)];
    Proceeding(NEW_WORLD, hs, Managing(Ble.Processing(true)));
    hs := hs + [Managing(Ble.Processing(true))];
    Proceeding(NEW_WORLD, hs, wanted);
    hs := hs + [wanted];
    Proceeding(NEW_WORLD, hs, wanted);
    hs := hs + [wanted];
    Proceeding(NEW_WORLD, hs, Requesting);
    hs := hs + [Requesting];
    Proceeding(NEW_WORLD, hs, Concluding(Look(true, 0)));
    hs := hs + [Concluding(Look(true, 0))];
  }

  /**
   * A fair course from the fresh world, for either target, to a failed machine with no activity pending, from which
   * the contrary request still in the queue buys a request that nothing paid for: the retry bound has a reachable
   * exception.
   */
  lemma FreeRequestHappens(target: bool) returns (before: seq<Happening>, later: seq<Happening>)
    ensures Fair(before)
    ensures var w := Course(NEW_WORLD, before);
            && w.phase.Idle? && w.radio.state.Failed? && !w.radio.activityPending && ContraryQueued(w.life, target)
            && FreeRequest(w, later, target)
  {
    hide Course, FreeRequest;
    if target {
      before := StopIsWaitedFor();
    } else {
      before := StartIsWaitedFor();
    }
    var late := Observing(Look(target, 5000));
    Proceeding(NEW_WORLD, before, late);
    before := before + [late];
    FreshWorldIsLinked();
    CoursesStayLinked(NEW_WORLD, before);
    later := ContraryRequestCostsOne(Course(NEW_WORLD, before), Look(target, 0), target);
  }
}
