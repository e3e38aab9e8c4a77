/** The command queue of the BLE service and the controller lifecycle that runs through it. */
module BleLifecycle {
  import opened Clock
  import opened ControllerTransition

  const QUEUE_DEPTH := 8

  datatype ScanPolicy = ScanPolicy(intervalMs: nat, windowMs: nat, durationMs: nat, pauseMs: nat)

  datatype Command =
    | Tare(epoch: Millis)
    | LogArm
    | LogDisarm
    | SetScanPolicy(policy: ScanPolicy)
    | StopController
    | StartController

  predicate IsLifecycle(c: Command) {
    c.StopController? || c.StartController?
  }

  /** The published controller state, the pending flag and the queued commands. */
  datatype Lifecycle = Lifecycle(controller: Controller, pending: bool, queue: seq<Command>)

  /** A request needs the right source state, no request in flight and room in the queue. */
  predicate Acceptable(l: Lifecycle, c: Command)
    requires IsLifecycle(c)
  {
    && !l.pending && |l.queue| < QUEUE_DEPTH
    && (if c.StopController? then l.controller.Running? else l.controller.Stopped?)
  }

  function Requested(l: Lifecycle, c: Command): Lifecycle
    requires IsLifecycle(c)
  {
    if Acceptable(l, c) then Lifecycle(l.controller, true, l.queue + [c]) else l
  }

  /** Any other command, dropped when the queue is full. */
  function Posted(l: Lifecycle, c: Command): Lifecycle {
    if |l.queue| < QUEUE_DEPTH then l.(queue := l.queue + [c]) else l
  }

  /** What taking one command off the queue does to the controller and the flag. */
  function Handled(l: Lifecycle, c: Command): Lifecycle {
    match c
    case StopController =>
      l.(pending := false, controller := if l.controller.Running? then Controller.Stopping else l.controller)
    case StartController =>
      l.(pending := false, controller := if l.controller.Stopped? then Controller.Starting else l.controller)
    case _ => l
  }

  function Drained(l: Lifecycle): Lifecycle
    decreases |l.queue|
  {
    if l.queue == [] then l else Drained(Handled(l, l.queue[0]).(queue := l.queue[1..]))
  }

  /** The manager carries out a transition; `works` is what the Bluetooth stack answers. */
  function Processed(l: Lifecycle, works: bool): Lifecycle {
    match l.controller
    case Stopping => l.(controller := if works then Controller.Stopped else Controller.Failed)
    case Starting => l.(controller := if works then Controller.Running else Controller.Failed)
    case _ => l
  }

  /** How many lifecycle commands are queued. */
  function InFlight(q: seq<Command>): nat {
    if q == [] then 0 else (if IsLifecycle(q[0]) then 1 else 0) + InFlight(q[1..])
  }

  /** One lifecycle command is queued exactly while the flag is up, and its source state still holds. */
  ghost predicate Coherent(l: Lifecycle) {
    && |l.queue| <= QUEUE_DEPTH
    && InFlight(l.queue) == (if l.pending then 1 else 0)
    && (Command.StopController in l.queue ==> l.controller.Running?)
    && (Command.StartController in l.queue ==> l.controller.Stopped?)
  }

  lemma {:induction false} InFlightAppend(q: seq<Command>, c: Command)
    ensures InFlight(q + [c]) == InFlight(q) + if IsLifecycle(c) then 1 else 0
  {
    if q == [] {
      assert q + [c] == [c];
    } else {
      InFlightAppend(q[1..], c);
      assert (q + [c])[1..] == q[1..] + [c];
    }
  }

  lemma {:induction false} NoneInFlight(q: seq<Command>)
    ensures InFlight(q) == 0 <==> (Command.StopController !in q && Command.StartController !in q)
  {
    if q != [] {
      NoneInFlight(q[1..]);
      assert q == [q[0]] + q[1..];
    }
  }

  lemma RequestKeepsCoherence(l: Lifecycle, c: Command)
    requires Coherent(l) && IsLifecycle(c)
    ensures Coherent(Requested(l, c))
  {
    InFlightAppend(l.queue, c);
    NoneInFlight(l.queue);
  }

  lemma PostKeepsCoherence(l: Lifecycle, c: Command)
    requires Coherent(l) && !IsLifecycle(c)
    ensures Coherent(Posted(l, c))
  {
    InFlightAppend(l.queue, c);
  }

  lemma ProcessKeepsCoherence(l: Lifecycle, works: bool)
    requires Coherent(l)
    ensures Coherent(Processed(l, works))
  {}

  lemma HandleKeepsCoherence(l: Lifecycle)
    requires Coherent(l) && l.queue != []
    ensures Coherent(Handled(l, l.queue[0]).(queue := l.queue[1..]))
  {
    NoneInFlight(l.queue[1..]);
    assert l.queue == [l.queue[0]] + l.queue[1..];
  }

  /** Draining carries out the queued request, if there is one, and nothing else. */
  lemma {:induction false} DrainCarriesOut(l: Lifecycle)
    requires Coherent(l)
    ensures Coherent(Drained(l)) && Drained(l).queue == [] && !Drained(l).pending
    ensures Drained(l).controller ==
            if Command.StopController in l.queue then Controller.Stopping
            else if Command.StartController in l.queue then Controller.Starting
            else l.controller
    decreases |l.queue|
  {
    if l.queue != [] {
      HandleKeepsCoherence(l);
      NoneInFlight(l.queue[1..]);
      var c := l.queue[0];
      assert l.queue == [c] + l.queue[1..];
      DrainCarriesOut(Handled(l, c).(queue := l.queue[1..]));
    }
  }

  // ---- Runs -----------------------------------------------------------------------------------

  datatype Step =
    | Asking(request: Command)
    | Posting(command: Command)
    | Draining
    | Processing(works: bool)

  ghost predicate WellFormed(s: Step) {
    (s.Asking? ==> IsLifecycle(s.request)) && (s.Posting? ==> !IsLifecycle(s.command))
  }

  ghost function Stepped(l: Lifecycle, s: Step): Lifecycle
    requires WellFormed(s)
  {
    match s
    case Asking(request) => Requested(l, request)
    case Posting(command) => Posted(l, command)
    case Draining => Drained(l)
    case Processing(works) => Processed(l, works)
  }

  ghost function Ran(l: Lifecycle, steps: seq<Step>): Lifecycle
    requires forall i :: 0 <= i < |steps| ==> WellFormed(steps[i])
    decreases |steps|
  {
    if steps == [] then l else Stepped(Ran(l, steps[..|steps| - 1]), steps[|steps| - 1])
  }

  /** A run is its steps, one after the other. */
  lemma RanOnce(l: Lifecycle, steps: seq<Step>, last: Step)
    requires WellFormed(last) && forall i :: 0 <= i < |steps| ==> WellFormed(steps[i])
    ensures Ran(l, []) == l && Ran(l, steps + [last]) == Stepped(Ran(l, steps), last)
  {
    assert (steps + [last])[..|steps|] == steps;
  }

  lemma StepKeepsCoherence(l: Lifecycle, s: Step)
    requires Coherent(l) && WellFormed(s)
    ensures Coherent(Stepped(l, s))
  {
    match s
    case Asking(request) => RequestKeepsCoherence(l, request);
    case Posting(command) => PostKeepsCoherence(l, command);
    case Draining => DrainCarriesOut(l);
    case Processing(works) => ProcessKeepsCoherence(l, works);
  }

  lemma {:induction false} RunsStayCoherent(l: Lifecycle, steps: seq<Step>)
    requires Coherent(l) && forall i :: 0 <= i < |steps| ==> WellFormed(steps[i])
    ensures Coherent(Ran(l, steps))
    decreases |steps|
  {
    if steps != [] {
      RunsStayCoherent(l, steps[..|steps| - 1]);
      StepKeepsCoherence(Ran(l, steps[..|steps| - 1]), steps[|steps| - 1]);
    }
  }

  /** The only moves of the controller. */
  predicate Edge(from: Controller, to: Controller) {
    || from == to
    || (from.Running? && to.Stopping?)
    || (from.Stopping? && (to.Stopped? || to.Failed?))
    || (from.Stopped? && to.Starting?)
    || (from.Starting? && (to.Running? || to.Failed?))
  }

  /** In every run each step moves the controller along one edge at most. */
  lemma ControllerMovesAlongEdges(l: Lifecycle, steps: seq<Step>, next: Step)
    requires Coherent(l) && WellFormed(next) && forall i :: 0 <= i < |steps| ==> WellFormed(steps[i])
    ensures Edge(Ran(l, steps).controller, Stepped(Ran(l, steps), next).controller)
  {
    RunsStayCoherent(l, steps);
    DrainCarriesOut(Ran(l, steps));
  }

  /** Steps that leave the queue alone but for adding to it. */
  ghost predicate BeforeDrain(steps: seq<Step>) {
    forall i :: 0 <= i < |steps| ==> WellFormed(steps[i]) && !steps[i].Draining?
  }

  /** While a request waits in the queue, nothing but the drain changes the controller or withdraws the request. */
  lemma {:induction false} RequestWaits(l: Lifecycle, request: Command, steps: seq<Step>)
    requires Coherent(l) && IsLifecycle(request) && request in l.queue && BeforeDrain(steps)
    ensures request in Ran(l, steps).queue && Ran(l, steps).controller == l.controller
    decreases |steps|
  {
    if steps != [] {
      RequestWaits(l, request, steps[..|steps| - 1]);
      RunsStayCoherent(l, steps[..|steps| - 1]);
    }
  }

  /** Every accepted request takes effect at the next drain, whatever is asked or posted in between. */
  lemma AcceptedRequestTakesEffect(l: Lifecycle, request: Command, steps: seq<Step>)
    requires Coherent(l) && IsLifecycle(request) && Acceptable(l, request) && BeforeDrain(steps)
    ensures Drained(Ran(Requested(l, request), steps)).controller ==
            if request.StopController? then Controller.Stopping else Controller.Starting
  {
    var asked := Requested(l, request);
    RequestKeepsCoherence(l, request);
    RequestWaits(asked, request, steps);
    RunsStayCoherent(asked, steps);
    DrainCarriesOut(Ran(asked, steps));
  }
}
