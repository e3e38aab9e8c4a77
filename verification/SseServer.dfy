/**
 * The event-stream server as the interleaving of its owner, its own task, a sleeper and any number of ticket routes.
 */
module SseServer {
  import opened Clock
  import opened SseTickets

  datatype Reason = NoReason | Replaced | Shutdown | Sleeping

  /** Where the task that calls begin() and stop() stands; each point is one access to a shared variable. */
  datatype Owner =
    | Resting
    | BeginLoads
    | BeginAwaitsExit
    | BeginClearsExit
    | BeginClearsReason
    | BeginSetsRun
    | BeginSpawns
    | BeginRevokesRun   // the task could not be spawned
    | BeginRestoresExit
    | StopLoads
    | StopClearsRun
    | StopSetsReason
    | StopAwaitsExit

  /** Where a server task stands. */
  datatype Task =
    | Entered
    | LoopTest
    | HandlingClient
    | RouteChecksRun
    | RouteConsumes
    | RouteDowngrades
    | SessionOpens
    | PollLoadsReason
    | PollLoadsRun
    | SessionCloses
    | ReadsReason
    | ClearsSleeping
    | Closing
    | Exiting

  datatype Sleeper = Awake | SleepLoads | SleepStores | SleepWaits | SleepWithdraws

  datatype Server = Server(shouldRun: bool, taskExited: bool, stopReason: Reason, sessionActive: bool, tickets: Tickets,
                           owner: Owner, tasks: seq<Task>, sleeper: Sleeper, mints: nat, admitted: seq<nat>,
                           told: seq<Reason>)   // the last frames of the sessions that got one

  const INITIAL := Server(false, true, NoReason, false, NO_TICKET, Resting, [], Awake, 0, [], [])

  /** What the environment answers to one step of a task. */
  datatype Answer = Answer(arrives: bool, offered: string, now: Millis, leaves: bool, connected: bool)

  datatype Step =
    | CallBegin
    | CallStop
    | OwnerStep(spawned: bool)
    | ForceStop
    | MintTicket(token: string, now: Millis)
    | CallSleep
    | SleeperStep(timedOut: bool)
    | TaskStep(i: nat, answer: Answer)

  function CompareExchange(r: Reason, expected: Reason, to: Reason): Reason {
    if r == expected then to else r
  }

  function OwnerMoves(s: Server, spawned: bool): Server {
    match s.owner
    case Resting => s
    case BeginLoads => s.(owner := if s.shouldRun then Resting else BeginAwaitsExit)
    case BeginAwaitsExit => s.(owner := if s.taskExited then BeginClearsExit else BeginAwaitsExit)
    case BeginClearsExit => s.(taskExited := false, owner := BeginClearsReason)
    case BeginClearsReason => s.(stopReason := NoReason, owner := BeginSetsRun)
    case BeginSetsRun => s.(shouldRun := true, owner := BeginSpawns)
    case BeginSpawns =>
      if spawned then s.(tasks := s.tasks + [Entered], owner := Resting) else s.(owner := BeginRevokesRun)
    case BeginRevokesRun => s.(shouldRun := false, owner := BeginRestoresExit)
    case BeginRestoresExit => s.(taskExited := true, owner := Resting)
    case StopLoads => s.(owner := if s.shouldRun then StopClearsRun else Resting)
    case StopClearsRun => s.(shouldRun := false, owner := StopSetsReason)
    case StopSetsReason => s.(stopReason := Shutdown, owner := StopAwaitsExit)
    case StopAwaitsExit => s.(owner := if s.taskExited then Resting else StopAwaitsExit)
  }

  function SleeperMoves(s: Server, timedOut: bool): Server {
    match s.sleeper
    case Awake => s
    case SleepLoads => s.(sleeper := if s.sessionActive then SleepStores else Awake)
    case SleepStores => s.(stopReason := Sleeping, sleeper := SleepWaits)
    case SleepWaits => s.(sleeper := if s.stopReason != Sleeping || timedOut then SleepWithdraws else SleepWaits)
    case SleepWithdraws => s.(stopReason := CompareExchange(s.stopReason, Sleeping, NoReason), sleeper := Awake)
  }

  /** The next point of a task and what it does on the way to the shared variables. */
  function TaskMoves(s: Server, at: Task, a: Answer): (Server, Task) {
    match at
    case Entered => (s, if s.shouldRun then LoopTest else Exiting)
    case LoopTest => (s, if s.shouldRun then HandlingClient else Closing)
    case HandlingClient => (s, if a.arrives then RouteChecksRun else LoopTest)
    case RouteChecksRun => (s, if s.shouldRun then RouteConsumes else LoopTest)
    case RouteConsumes =>
      var tried := s.(tickets := Tried(s.tickets, a.offered, a.now));
      if !Admits(s.tickets, a.offered, a.now) then (tried, LoopTest)
      else (tried.(admitted := s.admitted + [s.mints]), RouteDowngrades)
    case RouteDowngrades => (s.(stopReason := CompareExchange(s.stopReason, Replaced, NoReason)), SessionOpens)
    case SessionOpens => (s.(sessionActive := true), PollLoadsReason)
    case PollLoadsReason => (s, if a.leaves || s.stopReason != NoReason then SessionCloses else PollLoadsRun)
    case PollLoadsRun => (s, if s.shouldRun then PollLoadsReason else SessionCloses)
    case SessionCloses => (s.(sessionActive := false), ReadsReason)
    case ReadsReason =>
      if !a.connected then (s, LoopTest)
      else if s.stopReason == Replaced then (s.(told := s.told + [Replaced]), LoopTest)
      else if s.stopReason == Sleeping then (s.(told := s.told + [Sleeping]), ClearsSleeping)
      else (s, LoopTest)
    case ClearsSleeping => (s.(stopReason := CompareExchange(s.stopReason, Sleeping, NoReason)), LoopTest)
    case Closing => (s, Exiting)
    case Exiting => (s.(taskExited := true), Exiting)
  }

  function TaskStepped(s: Server, i: nat, a: Answer): Server
    requires i < |s.tasks|
  {
    var (moved, to) := TaskMoves(s, s.tasks[i], a);
    moved.(tasks := if s.tasks[i].Exiting? then s.tasks[..i] + s.tasks[i + 1..] else s.tasks[i := to])
  }

  function Stepped(s: Server, step: Step): Server {
    match step
    case CallBegin => if s.owner.Resting? then s.(owner := BeginLoads) else s
    case CallStop => if s.owner.Resting? then s.(owner := StopLoads) else s
    case OwnerStep(spawned) => OwnerMoves(s, spawned)
    case ForceStop => s.(stopReason := Replaced)
    case MintTicket(token, now) => s.(tickets := Minted(token, now), mints := s.mints + 1)
    case CallSleep => if s.sleeper.Awake? then s.(sleeper := SleepLoads) else s
    case SleeperStep(timedOut) => SleeperMoves(s, timedOut)
    case TaskStep(i, answer) => if i < |s.tasks| then TaskStepped(s, i, answer) else s
  }

  function Run(steps: seq<Step>): Server {
    if steps == [] then INITIAL else Stepped(Run(steps[..|steps| - 1]), steps[|steps| - 1])
  }

  // ---- What every reachable state satisfies ---------------------------------------------------

  /** A task lives from its spawning until it announces its exit. */
  ghost predicate OneTask(s: Server) {
    && |s.tasks| <= 1
    && (s.tasks != [] ==> !s.taskExited)
    && match s.owner
       case BeginAwaitsExit => !s.shouldRun && s.tasks == [] && s.taskExited
       case BeginClearsExit => !s.shouldRun && s.tasks == [] && s.taskExited
       case BeginClearsReason => !s.shouldRun && s.tasks == [] && !s.taskExited
       case BeginSetsRun => !s.shouldRun && s.tasks == [] && !s.taskExited
       case BeginSpawns => s.shouldRun && s.tasks == [] && !s.taskExited
       case BeginRevokesRun => s.tasks == []
       case BeginRestoresExit => !s.shouldRun && s.tasks == []
       case StopSetsReason => !s.shouldRun && (s.tasks == [] ==> s.taskExited)
       case StopAwaitsExit => !s.shouldRun && (s.tasks == [] ==> s.taskExited)
       case StopClearsRun => s.shouldRun && s.tasks != []
       case _ => (s.shouldRun <==> s.tasks != []) && (s.taskExited <==> s.tasks == [])
  }

  /**
   * A task only leaves its loop after the run flag has gone, and the flag does not come back before it has gone too.
   */
  ghost predicate LeavesOnlyWhenStopped(s: Server) {
    s.tasks != [] && (s.tasks[0].Closing? || s.tasks[0].Exiting?) ==> !s.shouldRun
  }

  ghost predicate InSession(t: Task) {
    t.PollLoadsReason? || t.PollLoadsRun? || t.SessionCloses?
  }

  ghost predicate Sound(s: Server) {
    && OneTask(s) && LeavesOnlyWhenStopped(s)
    && (s.sessionActive <==> s.tasks != [] && InSession(s.tasks[0]))
    && (s.stopReason.Sleeping? ==> s.sleeper.SleepWaits? || s.sleeper.SleepWithdraws?)
  }

  lemma OwnerStepIsSound(s: Server, spawned: bool)
    requires Sound(s)
    ensures Sound(OwnerMoves(s, spawned))
  {}

  lemma TaskStepIsSound(s: Server, i: nat, a: Answer)
    requires Sound(s) && i < |s.tasks|
    ensures Sound(TaskStepped(s, i, a))
  {
    assert s.tasks[..0] + s.tasks[1..] == [];
  }

  lemma StepIsSound(s: Server, step: Step)
    requires Sound(s)
    ensures Sound(Stepped(s, step))
  {
    match step
    case OwnerStep(spawned) => OwnerStepIsSound(s, spawned);
    case TaskStep(i, answer) => if i < |s.tasks| { TaskStepIsSound(s, i, answer); }
    case _ =>
  }

  lemma {:induction false} RunsAreSound(steps: seq<Step>)
    ensures Sound(Run(steps))
  {
    if steps != [] {
      RunsAreSound(steps[..|steps| - 1]);
      StepIsSound(Run(steps[..|steps| - 1]), steps[|steps| - 1]);
    }
  }

  /** In every interleaving there is at most one server task and so at most one session. */
  lemma AtMostOneTask(steps: seq<Step>)
    ensures |Run(steps).tasks| <= 1
    ensures Run(steps).owner.BeginSpawns? ==> Run(steps).tasks == []
  {
    RunsAreSound(steps);
  }

  // ---- Stopping ----------------------------------------------------------------------------------

  /** While a task lives, nothing raises a run flag that has been lowered: begin() is still waiting for the exit. */
  lemma LoweredFlagStays(s: Server, step: Step)
    requires Sound(s) && !s.shouldRun && s.tasks != []
    ensures !Stepped(s, step).shouldRun
  {}

  /**
   * Once stop() has lowered the flag, every poll that completes tells the handler to wind down, whatever the stop
   * reason has become.
   */
  lemma PollSeesStop(s: Server, a: Answer)
    requires Sound(s) && !s.shouldRun && s.tasks != []
    ensures s.tasks[0].PollLoadsRun? ==> TaskStepped(s, 0, a).tasks == [SessionCloses]
    ensures s.tasks[0].PollLoadsReason? ==>
              if a.leaves || s.stopReason != NoReason then TaskStepped(s, 0, a).tasks == [SessionCloses]
              else TaskStepped(s, 0, a).tasks == [PollLoadsRun]
  {}

  /** How many steps a task still has before it exits when the run flag is down. */
  function StepsLeft(t: Task): nat {
    match t
    case Exiting => 1
    case Closing => 2
    case LoopTest => 3
    case ClearsSleeping => 4
    case ReadsReason => 5
    case SessionCloses => 6
    case PollLoadsRun => 7
    case PollLoadsReason => 8
    case SessionOpens => 9
    case RouteDowngrades => 10
    case RouteConsumes => 11
    case RouteChecksRun => 4
    case HandlingClient => 5
    case Entered => 2
  }

  function Remaining(s: Server): nat {
    if s.tasks == [] then 0 else StepsLeft(s.tasks[0])
  }

  lemma StepTowardsExit(s: Server, step: Step)
    requires Sound(s) && !s.shouldRun && s.tasks != []
    ensures Remaining(Stepped(s, step)) + (if step.TaskStep? && step.i == 0 then 1 else 0) <= Remaining(s)
    ensures Remaining(Stepped(s, step)) > 0 <==> Stepped(s, step).tasks != []
  {
    if step.TaskStep? && step.i == 0 {
      assert s.tasks[..0] + s.tasks[1..] == [];
    }
  }

  /** Steps that the server task takes between two points of a run. */
  function TaskSteps(steps: seq<Step>): nat {
    if steps == [] then 0
    else TaskSteps(steps[..|steps| - 1]) + if steps[|steps| - 1].TaskStep? && steps[|steps| - 1].i == 0 then 1 else 0
  }

  /** The task lives all through the second part of the run. */
  ghost predicate LivesThrough(before: seq<Step>, after: seq<Step>) {
    forall n :: 0 <= n <= |after| ==> Run(before + after[..n]).tasks != []
  }

  /**
   * stop() is not kept waiting: from the moment the run flag is down, at most eleven steps of the server task lead to
   * its exit, whatever the other tasks do in between.
   */
  lemma {:induction false} StopIsBounded(before: seq<Step>, after: seq<Step>)
    requires !Run(before).shouldRun && LivesThrough(before, after)
    ensures TaskSteps(after) + Remaining(Run(before + after)) <= Remaining(Run(before)) <= 11
    ensures !Run(before + after).shouldRun
  {
    if after == [] {
      assert before + after == before;
    } else {
      var n := |after| - 1;
      var front := after[..n];
      assert forall k :: 0 <= k <= n ==> front[..k] == after[..k];
      StopIsBounded(before, front);
      RunsAreSound(before + front);
      assert before + after == (before + front) + [after[n]];
      assert (before + after)[..|before + after| - 1] == before + front;
      assert after[..n] == front && Run(before + after[..n]).tasks != [];
      StepTowardsExit(Run(before + front), after[n]);
      LoweredFlagStays(Run(before + front), after[n]);
    }
  }

  // ---- Sleeping ------------------------------------------------------------------------------------

  /** A Sleeping reason exists only while signalSleeping() is waiting, and none is left when it returns. */
  lemma {:induction false} SleepingNeverSticks(steps: seq<Step>, timedOut: bool)
    ensures var s := Run(steps);
            && (s.stopReason.Sleeping? ==> s.sleeper.SleepWaits? || s.sleeper.SleepWithdraws?)
            && var t := SleeperMoves(s, timedOut);
               !s.sleeper.Awake? && t.sleeper.Awake? ==> !t.stopReason.Sleeping?
  {
    RunsAreSound(steps);
  }

  // ---- begin(), stop() and signalSleeping() from end to end ---------------------------------------------

  /** The owner takes a number of steps. */
  function Owned(s: Server, spawned: bool, n: nat): Server
    decreases n
  {
    if n == 0 then s else Owned(OwnerMoves(s, spawned), spawned, n - 1)
  }

  /** begin() returns with one new task and nothing left of an earlier stop; or, if it cannot be spawned, as before. */
  lemma BeginBegins(s: Server, spawned: bool)
    requires Sound(s) && s.owner.Resting? && !s.shouldRun
    ensures Owned(Stepped(s, CallBegin), spawned, if spawned then 6 else 8) ==
            if spawned then s.(shouldRun := true, taskExited := false, stopReason := NoReason, tasks := [Entered])
            else s.(stopReason := NoReason)
  {
    var began := Stepped(s, CallBegin).(owner := BeginSpawns, taskExited := false, stopReason := NoReason,
                                       shouldRun := true);
    if spawned {
      BeginPrepares(s, spawned, 1);
      assert Owned(began, spawned, 1) == OwnerMoves(began, spawned);
    } else {
      BeginPrepares(s, spawned, 3);
      var revoked := OwnerMoves(began, spawned);
      var restored := OwnerMoves(revoked, spawned);
      assert Owned(began, spawned, 3) == Owned(revoked, spawned, 2) == Owned(restored, spawned, 1);
      assert Owned(restored, spawned, 1) == OwnerMoves(restored, spawned);
    }
  }

  lemma BeginPrepares(s: Server, spawned: bool, more: nat)
    requires Sound(s) && s.owner.Resting? && !s.shouldRun
    ensures Owned(Stepped(s, CallBegin), spawned, 5 + more) ==
            Owned(s.(owner := BeginSpawns, taskExited := false, stopReason := NoReason, shouldRun := true), spawned,
                  more)
  {
    var one := OwnerMoves(Stepped(s, CallBegin), spawned);
    assert one == s.(owner := BeginAwaitsExit);
    var two := OwnerMoves(one, spawned);
    assert two == s.(owner := BeginClearsExit);
    var three := OwnerMoves(two, spawned);
    var four := OwnerMoves(three, spawned);
    hide OwnerMoves;
    assert Owned(Stepped(s, CallBegin), spawned, 5 + more) == Owned(one, spawned, 4 + more);
    assert Owned(one, spawned, 4 + more) == Owned(two, spawned, 3 + more);
    assert Owned(two, spawned, 3 + more) == Owned(three, spawned, 2 + more);
    assert Owned(three, spawned, 2 + more) == Owned(four, spawned, 1 + more);
  }

  /** A begin() that finds the server running, or a stop() that finds it stopped, does nothing. */
  lemma CallsOutOfTurn(s: Server, spawned: bool)
    requires s.owner.Resting?
    ensures OwnerMoves(s, spawned) == s
    ensures s.shouldRun ==> Owned(Stepped(s, CallBegin), spawned, 1) == s
    ensures !s.shouldRun ==> Owned(Stepped(s, CallStop), spawned, 1) == s
  {
    OwnedOnce(Stepped(s, CallBegin), spawned, 1);
    OwnedOnce(Stepped(s, CallStop), spawned, 1);
  }

  lemma OwnedOnce(s: Server, spawned: bool, n: nat)
    requires n > 0
    ensures Owned(s, spawned, n) == Owned(OwnerMoves(s, spawned), spawned, n - 1)
    ensures Owned(s, spawned, 0) == s
  {}

  /** stop() asks for the end in three steps and returns exactly when the task has gone. */
  lemma StopStops(s: Server, spawned: bool)
    requires Sound(s) && s.owner.Resting? && s.shouldRun
    ensures Owned(Stepped(s, CallStop), spawned, 3) ==
            s.(shouldRun := false, stopReason := Shutdown, owner := StopAwaitsExit)
    ensures s.tasks != []
  {
    var called := Stepped(s, CallStop);
    OwnedOnce(called, spawned, 3);
    OwnedOnce(s.(owner := StopClearsRun), spawned, 2);
    OwnedOnce(s.(owner := StopSetsReason, shouldRun := false), spawned, 1);
    hide Owned;
  }

  lemma {:induction false} StopReturns(steps: seq<Step>, spawned: bool)
    requires Run(steps).owner.StopAwaitsExit?
    ensures OwnerMoves(Run(steps), spawned).owner ==
            if Run(steps).tasks == [] then Resting else StopAwaitsExit
  {
    RunsAreSound(steps);
    hide Run;
  }

  /** signalSleeping() returns at once without a session, and otherwise after its wait, with its reason withdrawn. */
  lemma SleepReturns(s: Server)
    requires s.sleeper.Awake?
    ensures var called := Stepped(s, CallSleep);
            && called == s.(sleeper := SleepLoads)
            && (!s.sessionActive ==> SleeperMoves(called, false) == s)
            && (s.sessionActive ==>
                  var told := SleeperMoves(SleeperMoves(called, false), false);
                  && told == s.(sleeper := SleepWaits, stopReason := Sleeping)
                  && SleeperMoves(told, false) == told
                  && SleeperMoves(SleeperMoves(told, true), false) == s.(stopReason := NoReason))
  {}

  // ---- Tickets -----------------------------------------------------------------------------------------

  /** Admissions carry the numbers of the mints they used, each at most once and in order. */
  ghost predicate Accounted(s: Server) {
    && (forall i :: 0 <= i < |s.admitted| ==> 1 <= s.admitted[i] <= s.mints)
    && (forall i, j :: 0 <= i < j < |s.admitted| ==> s.admitted[i] < s.admitted[j])
    && (!s.tickets.consumed ==> s.mints > 0 && (s.admitted != [] ==> s.admitted[|s.admitted| - 1] < s.mints))
  }

  lemma {:induction false} EachMintAdmitsOneSession(steps: seq<Step>)
    ensures Accounted(Run(steps))
  {
    if steps != [] {
      EachMintAdmitsOneSession(steps[..|steps| - 1]);
      StepKeepsAccount(Run(steps[..|steps| - 1]), steps[|steps| - 1]);
    }
  }

  lemma StepKeepsAccount(s: Server, step: Step)
    requires Accounted(s)
    ensures Accounted(Stepped(s, step))
  {
    hide Tried;
    match step
    case OwnerStep(spawned) => OwnerKeepsTickets(s, spawned);
    case SleeperStep(timedOut) => SleeperKeepsTickets(s, timedOut);
    case TaskStep(i, answer) =>
      if i < |s.tasks| {
        TaskUsesTickets(s, s.tasks[i], answer);
      }
    case _ =>
  }

  predicate SameTickets(s: Server, t: Server) {
    t.tickets == s.tickets && t.mints == s.mints && t.admitted == s.admitted
  }

  lemma OwnerKeepsTickets(s: Server, spawned: bool)
    ensures SameTickets(s, OwnerMoves(s, spawned))
  {}

  lemma SleeperKeepsTickets(s: Server, timedOut: bool)
    ensures SameTickets(s, SleeperMoves(s, timedOut))
  {}

  lemma TaskUsesTickets(s: Server, at: Task, a: Answer)
    ensures var t := TaskMoves(s, at, a).0;
            || SameTickets(s, t)
            || (t.mints == s.mints && t.admitted == s.admitted && (s.tickets.consumed ==> t.tickets.consumed))
            || (t.mints == s.mints && !s.tickets.consumed && t.tickets.consumed && t.admitted == s.admitted + [s.mints])
  {}
}
