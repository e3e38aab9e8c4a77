/** How a session of the event stream ends: taken over by a new client, told to sleep, or shut down. */
module SseTakeover {
  import opened Clock
  import opened SseServer
  import opened SseTickets

  ghost predicate Serving(s: Server) {
    s.tasks != [] && InSession(s.tasks[0])
  }

  lemma ServingIsActive(steps: seq<Step>)
    ensures Serving(Run(steps)) <==> Run(steps).sessionActive
  {
    RunsAreSound(steps);
  }

  /** The sleeper takes its reason back. */
  predicate Withdraws(s: Server, step: Step) {
    step.SleeperStep? && s.sleeper.SleepWithdraws? && s.stopReason.Sleeping?
  }

  /** A reason to stop is given. */
  predicate Gives(s: Server, step: Step) {
    || step.ForceStop?
    || (step.OwnerStep? && s.owner.StopSetsReason?)
    || (step.SleeperStep? && s.sleeper.SleepStores?)
  }

  /** While a session is served, a reason appears only where one is given and goes only where one is withdrawn. */
  lemma ReasonInSession(s: Server, step: Step)
    requires Sound(s) && Serving(s)
    ensures Stepped(s, step).stopReason.NoReason? <==>
            Withdraws(s, step) || (s.stopReason.NoReason? && !Gives(s, step))
  {}

  // ---- Runs that go on from a point ---------------------------------------------------------------------

  /** The state after n steps of the second part. */
  function During(before: seq<Step>, after: seq<Step>, n: nat): Server
    requires n <= |after|
  {
    Run(before + after[..n])
  }

  lemma OneMoreStep(before: seq<Step>, after: seq<Step>, n: nat)
    requires n < |after|
    ensures During(before, after, n + 1) == Stepped(During(before, after, n), after[n])
    ensures Sound(During(before, after, n))
  {
    var longer := before + after[..n + 1];
    assert longer[..|longer| - 1] == before + after[..n];
    RunsAreSound(before + after[..n]);
  }

  lemma AtTheEnds(before: seq<Step>, after: seq<Step>)
    ensures During(before, after, 0) == Run(before) && During(before, after, |after|) == Run(before + after)
  {
    assert before + after[..0] == before && after[..|after|] == after;
  }

  ghost predicate ServedUntil(before: seq<Step>, after: seq<Step>, n: nat)
    requires n <= |after|
  {
    forall k: nat :: k <= n ==> Serving(During(before, after, k))
  }

  /** The last of the first n steps that gives or withdraws a reason; -1 if none does. */
  ghost function LastWord(before: seq<Step>, after: seq<Step>, n: nat): (m: int)
    requires n <= |after|
    ensures -1 <= m < n
    ensures m >= 0 ==> Gives(During(before, after, m), after[m]) || Withdraws(During(before, after, m), after[m])
    ensures forall k: nat :: m < k < n ==>
              !Gives(During(before, after, k), after[k]) && !Withdraws(During(before, after, k), after[k])
  {
    if n == 0 then -1
    else
      var s := During(before, after, n - 1);
      if Gives(s, after[n - 1]) || Withdraws(s, after[n - 1]) then n - 1 else LastWord(before, after, n - 1)
  }

  /** All through a session, no reason stands exactly if the last word was a withdrawal, or there was none at all. */
  lemma {:induction false} ReasonStands(before: seq<Step>, after: seq<Step>, n: nat)
    requires n <= |after| && ServedUntil(before, after, n)
    ensures var m := LastWord(before, after, n);
            During(before, after, n).stopReason.NoReason? <==>
              if m >= 0 then Withdraws(During(before, after, m), after[m]) else Run(before).stopReason.NoReason?
  {
    hide Run, Stepped, During, Withdraws, Gives, Sound, Serving;
    if n == 0 {
      AtTheEnds(before, after);
    } else {
      assert Serving(During(before, after, n - 1));
      ReasonStands(before, after, n - 1);
      hide ServedUntil;
      OneMoreStep(before, after, n - 1);
      ReasonInSession(During(before, after, n - 1), after[n - 1]);
      GivesOrWithdraws(During(before, after, n - 1), after[n - 1]);
    }
  }

  lemma GivesOrWithdraws(s: Server, step: Step)
    ensures !(Gives(s, step) && Withdraws(s, step))
  {}

  // ---- A reason that stands ends the session ---------------------------------------------------------------

  /** How many steps of its task a session lives that has been given a reason. */
  function SessionLeft(s: Server): nat {
    if s.tasks == [] then 0
    else match s.tasks[0]
      case PollLoadsRun => 3
      case PollLoadsReason => 2
      case SessionCloses => 1
      case _ => 0
  }

  lemma StepTowardsClose(s: Server, step: Step)
    requires Sound(s) && Serving(s) && !s.stopReason.NoReason?
    ensures SessionLeft(Stepped(s, step)) + (if step.TaskStep? && step.i == 0 then 1 else 0) <= SessionLeft(s)
    ensures SessionLeft(Stepped(s, step)) > 0 <==> Serving(Stepped(s, step))
    ensures !Withdraws(s, step) ==> !Stepped(s, step).stopReason.NoReason?
  {
    ReasonInSession(s, step);
  }

  lemma TaskStepsOnce(after: seq<Step>, n: nat)
    requires n < |after|
    ensures TaskSteps(after[..n + 1]) == TaskSteps(after[..n]) + if after[n].TaskStep? && after[n].i == 0 then 1 else 0
  {
    assert after[..n + 1][..n] == after[..n];
  }

  ghost predicate NotWithdrawn(before: seq<Step>, after: seq<Step>, n: nat)
    requires n <= |after|
  {
    forall k: nat :: k < n ==> !Withdraws(During(before, after, k), after[k])
  }

  lemma {:induction false} SessionDwindles(before: seq<Step>, after: seq<Step>, n: nat)
    requires n <= |after| && ServedUntil(before, after, n) && NotWithdrawn(before, after, n)
    requires !Run(before).stopReason.NoReason?
    ensures !During(before, after, n).stopReason.NoReason?
    ensures TaskSteps(after[..n]) + SessionLeft(During(before, after, n)) <= SessionLeft(Run(before))
  {
    hide Run, Stepped, During, Withdraws, Sound, Serving, SessionLeft;
    if n == 0 {
      AtTheEnds(before, after);
    } else {
      assert Serving(During(before, after, n - 1)) && !Withdraws(During(before, after, n - 1), after[n - 1]);
      SessionDwindles(before, after, n - 1);
      hide ServedUntil, NotWithdrawn, TaskSteps;
      OneMoreStep(before, after, n - 1);
      TaskStepsOnce(after, n - 1);
      StepTowardsClose(During(before, after, n - 1), after[n - 1]);
    }
  }

  /**
   * In every interleaving: a session that has been given a reason, whichever it is, is over once its task has taken
   * three more steps, unless the sleeper has withdrawn the reason.
   */
  lemma ReasonEndsSession(before: seq<Step>, after: seq<Step>) returns (n: nat)
    requires !Run(before).stopReason.NoReason? && TaskSteps(after) >= 3
    ensures n <= |after|
    ensures !During(before, after, n).sessionActive || (n < |after| && Withdraws(During(before, after, n), after[n]))
  {
    hide Run, Stepped, During, Withdraws, Sound, Serving, SessionLeft, TaskSteps;
    n := 0;
    while n < |after| && Serving(During(before, after, n)) && !Withdraws(During(before, after, n), after[n])
      invariant n <= |after|
      invariant forall k: nat :: k < n ==>
                  Serving(During(before, after, k)) && !Withdraws(During(before, after, k), after[k])
    {
      n := n + 1;
    }
    if Serving(During(before, after, n)) && n == |after| {
      SessionDwindles(before, after, n);
      assert after[..n] == after;
      AtTheEnds(before, after);
      AtMostThree(Run(before), Run(before + after));
    }
    WhenActive(before, after, n);
  }

  lemma WhenActive(before: seq<Step>, after: seq<Step>, n: nat)
    requires n <= |after|
    ensures Serving(During(before, after, n)) <==> During(before, after, n).sessionActive
  {
    ServingIsActive(before + after[..n]);
  }

  lemma AtMostThree(s: Server, t: Server)
    ensures SessionLeft(s) <= 3 && (Serving(t) ==> SessionLeft(t) >= 1)
  {}

  ghost predicate NobodySleeps(steps: seq<Step>) {
    forall i :: 0 <= i < |steps| ==> !steps[i].CallSleep?
  }

  lemma {:induction false} SleeperStaysAwake(before: seq<Step>, after: seq<Step>, n: nat)
    requires n <= |after| && Run(before).sleeper.Awake? && NobodySleeps(after)
    ensures During(before, after, n).sleeper.Awake?
  {
    if n == 0 {
      AtTheEnds(before, after);
    } else {
      SleeperStaysAwake(before, after, n - 1);
      hide Run, During, Stepped, Sound;
      OneMoreStep(before, after, n - 1);
      OnlyCallsWake(During(before, after, n - 1), after[n - 1]);
    }
  }

  lemma OnlyCallsWake(s: Server, step: Step)
    requires s.sleeper.Awake? && !step.CallSleep?
    ensures Stepped(s, step).sleeper.Awake?
  {}

  /**
   * A takeover is not kept waiting: with the sleeper awake all along, the session is over once its task has taken three
   * more steps after forceStopActiveSession().
   */
  lemma TakeoverEndsSession(before: seq<Step>, after: seq<Step>) returns (n: nat)
    requires Run(before).sleeper.Awake? && NobodySleeps(after) && TaskSteps(after) >= 3
    ensures n <= |after| && !During(before + [ForceStop], after, n).sessionActive
  {
    var forced := before + [ForceStop];
    assert forced[..|forced| - 1] == before;
    n := ReasonEndsSession(forced, after);
    SleeperStaysAwake(forced, after, n);
    hide During, Serving;
  }

  /** Nor is sleep: from the moment signalSleeping() has given its reason, for as long as it has not withdrawn it. */
  lemma SleepEndsSession(before: seq<Step>, timedOut: bool, after: seq<Step>) returns (n: nat)
    requires Run(before).sleeper.SleepStores? && TaskSteps(after) >= 3
    ensures var told := before + [SleeperStep(timedOut)];
            && n <= |after|
            && (!During(told, after, n).sessionActive
                || (n < |after| && Withdraws(During(told, after, n), after[n])))
  {
    var told := before + [SleeperStep(timedOut)];
    assert told[..|told| - 1] == before;
    n := ReasonEndsSession(told, after);
  }

  // ---- A session ends for no other reason ---------------------------------------------------------------

  predicate Polling(s: Server) {
    s.tasks != [] && (s.tasks[0].PollLoadsReason? || s.tasks[0].PollLoadsRun?)
  }

  /** Nobody disturbs the n-th step: the client stays, the run flag is up and no reason stands. */
  predicate Undisturbed(s: Server, step: Step) {
    s.shouldRun && s.stopReason.NoReason? && (step.TaskStep? ==> !step.answer.leaves)
  }

  lemma PollGoesOn(s: Server, step: Step)
    requires Sound(s) && Polling(s) && Undisturbed(s, step)
    ensures Polling(Stepped(s, step))
  {}

  /** A session in which the client stays and nobody gives a reason or lowers the run flag goes on for ever. */
  lemma {:induction false} SessionGoesOn(before: seq<Step>, after: seq<Step>, n: nat)
    requires n <= |after| && Polling(Run(before))
    requires forall k: nat :: k < n ==> Undisturbed(During(before, after, k), after[k])
    ensures Polling(During(before, after, n))
  {
    hide Run, Stepped, During, Polling, Undisturbed, Sound;
    if n == 0 {
      AtTheEnds(before, after);
    } else {
      SessionGoesOn(before, after, n - 1);
      OneMoreStep(before, after, n - 1);
      PollGoesOn(During(before, after, n - 1), after[n - 1]);
    }
  }

  // ---- What a reason means to the next session -------------------------------------------------------------

  /** Whether a takeover has been asked for since the task last admitted a client. */
  ghost function Forced(steps: seq<Step>): bool {
    if steps == [] then false
    else
      var n := |steps| - 1;
      var s := Run(steps[..n]);
      if steps[n].ForceStop? then true
      else if steps[n].TaskStep? && steps[n].i == 0 && s.tasks == [RouteDowngrades] then false
      else Forced(steps[..n])
  }

  /** Shutdown stands only with the run flag down. */
  ghost predicate ShutdownIsDown(s: Server) {
    && (s.stopReason.Shutdown? ==> !s.shouldRun && !s.owner.BeginSetsRun?)
    && (s.owner.StopSetsReason? ==> !s.shouldRun)
    && (s.stopReason.Sleeping? ==> s.sleeper.SleepWaits? || s.sleeper.SleepWithdraws?)
  }

  /** What a step may make of a reason. */
  ghost predicate Meaningful(s: Server, t: Server, downgrades: bool, forces: bool) {
    ShutdownIsDown(t) && (t.stopReason.Replaced? ==> forces || (s.stopReason.Replaced? && !downgrades))
  }

  lemma OwnerKeepsMeaning(s: Server, spawned: bool)
    requires Sound(s) && ShutdownIsDown(s)
    ensures Meaningful(s, OwnerMoves(s, spawned), false, false)
  {}

  lemma SleeperKeepsMeaning(s: Server, timedOut: bool)
    requires Sound(s) && ShutdownIsDown(s)
    ensures Meaningful(s, SleeperMoves(s, timedOut), false, false)
  {}

  lemma TaskKeepsMeaning(s: Server, at: Task, a: Answer)
    requires ShutdownIsDown(s)
    ensures Meaningful(s, TaskMoves(s, at, a).0, at.RouteDowngrades?, false)
  {}

  lemma StepKeepsMeaning(s: Server, step: Step)
    requires Sound(s) && ShutdownIsDown(s)
    ensures Meaningful(s, Stepped(s, step), step.TaskStep? && step.i == 0 && s.tasks == [RouteDowngrades],
                       step.ForceStop?)
  {
    match step
    case OwnerStep(spawned) => OwnerKeepsMeaning(s, spawned);
    case SleeperStep(timedOut) => SleeperKeepsMeaning(s, timedOut);
    case TaskStep(i, answer) =>
      if i < |s.tasks| {
        hide TaskMoves;
        TaskKeepsMeaning(s, s.tasks[i], answer);
      }
    case _ =>
  }

  /**
   * What a standing reason means, in every interleaving: Replaced, that a takeover was asked for after the session in
   * progress was admitted, so no session ends for its predecessor's; Shutdown, that the server is to stop; Sleeping,
   * that the sleeper is still waiting.
   */
  lemma {:induction false} ReasonMeans(steps: seq<Step>)
    ensures var s := Run(steps);
            && (s.stopReason.Replaced? ==> Forced(steps))
            && (s.stopReason.Shutdown? ==> !s.shouldRun)
            && (s.stopReason.Sleeping? ==> s.sleeper.SleepWaits? || s.sleeper.SleepWithdraws?)
    ensures ShutdownIsDown(Run(steps))
  {
    if steps != [] {
      var n := |steps| - 1;
      ReasonMeans(steps[..n]);
      RunsAreSound(steps[..n]);
      StepKeepsMeaning(Run(steps[..n]), steps[n]);
      hide Stepped, Sound;
    }
  }

  // ---- The takeover that is lost -----------------------------------------------------------------------------

  lemma Goes(steps: seq<Step>, step: Step)
    ensures Run(steps + [step]) == Stepped(Run(steps), step)
  {
    assert (steps + [step])[..|steps + [step]| - 1] == steps;
  }

  /** One more step of a run that is being built. */
  lemma Then(steps: seq<Step>, step: Step) returns (longer: seq<Step>)
    ensures longer == steps + [step] && Run(longer) == Stepped(Run(steps), step)
  {
    longer := steps + [step];
    Goes(steps, step);
  }

  const PROCEEDS := Answer(true, "ticket", 0, false, true)

  lemma AtStart()
    ensures Run([]) == INITIAL
  {}

  lemma ServerStarts() returns (steps: seq<Step>)
    ensures var s := Run(steps);
            && s.shouldRun && s.tasks == [Entered] && s.owner.Resting? && s.sleeper.Awake? && s.stopReason.NoReason?
            && !s.sessionActive && s.tickets == NO_TICKET
  {
    hide Run;
    AtStart();
    steps := Then([], CallBegin);
    steps := Then(steps, OwnerStep(true));
    steps := Then(steps, OwnerStep(true));
    steps := Then(steps, OwnerStep(true));
    steps := Then(steps, OwnerStep(true));
    steps := Then(steps, OwnerStep(true));
    steps := Then(steps, OwnerStep(true));
  }

  /** A run with a session in progress and a sleeper who has just seen it. */
  lemma SessionStarts() returns (steps: seq<Step>)
    ensures var s := Run(steps);
            && s.shouldRun && s.tasks == [PollLoadsReason] && s.sleeper.Awake? && s.stopReason.NoReason?
            && s.sessionActive
  {
    steps := ServerStarts();
    hide Run;
    steps := Then(steps, MintTicket("ticket", 0));
    steps := Then(steps, TaskStep(0, PROCEEDS));
    steps := Then(steps, TaskStep(0, PROCEEDS));
    steps := Then(steps, TaskStep(0, PROCEEDS));
    steps := Then(steps, TaskStep(0, PROCEEDS));
    steps := Then(steps, TaskStep(0, PROCEEDS));
    steps := Then(steps, TaskStep(0, PROCEEDS));
    steps := Then(steps, TaskStep(0, PROCEEDS));
  }

  lemma SleeperSeesSession() returns (steps: seq<Step>)
    ensures var s := Run(steps);
            && s.shouldRun && s.tasks == [PollLoadsReason] && s.sleeper.SleepStores? && s.stopReason.NoReason?
  {
    steps := SessionStarts();
    hide Run;
    steps := Then(steps, CallSleep);
    steps := Then(steps, SleeperStep(false));
  }

  /**
   * A sleeper who had seen the session before the takeover overwrites its reason and then withdraws his own: the
   * session goes on, however many steps its task takes.
   */
  lemma TakeoverIsLost(polls: nat) returns (before: seq<Step>, after: seq<Step>)
    ensures Serving(Run(before)) && Run(before + [ForceStop]).stopReason.Replaced?
    ensures TaskSteps(after) == polls && Polling(Run(before + [ForceStop] + after))
  {
    before := SleeperSeesSession();
    hide Run;
    var forced := Then(before, ForceStop);
    var steps := forced;
    after := [];
    assert forced + after == forced;
    steps, after := ThenAfter(forced, after, SleeperStep(false));
    steps, after := ThenAfter(forced, after, SleeperStep(true));
    steps, after := ThenAfter(forced, after, SleeperStep(true));
    var i := 0;
    while i < polls
      invariant i <= polls && TaskSteps(after) == i && steps == forced + after
      invariant var s := Run(steps); s.shouldRun && s.stopReason.NoReason? && |s.tasks| == 1 && Polling(s)
    {
      steps, after := ThenAfter(forced, after, TaskStep(0, PROCEEDS));
      i := i + 1;
    }
  }

  lemma ThenAfter(before: seq<Step>, after: seq<Step>, step: Step) returns (steps: seq<Step>, longer: seq<Step>)
    ensures longer == after + [step] && steps == before + longer
    ensures Run(steps) == Stepped(Run(before + after), step)
    ensures TaskSteps(longer) == TaskSteps(after) + if step.TaskStep? && step.i == 0 then 1 else 0
  {
    longer, steps := after + [step], before + after + [step];
    assert longer[..|after|] == after;
    Goes(before + after, step);
  }

  // ---- The takeover that succeeds ----------------------------------------------------------------------------

  /** The server task takes a number of steps, all under the same circumstances. */
  function Tasked(s: Server, a: Answer, n: nat): Server
    decreases n
  {
    if n == 0 then s else Tasked(Stepped(s, TaskStep(0, a)), a, n - 1)
  }

  /**
   * From any poll of a session: after a takeover and a fresh ticket, the task alone tells the old client that it was
   * replaced, if it is still there, and admits the new one, whose session begins with no reason against it.
   */
  lemma TakeoverSucceeds(before: seq<Step>, token: string, minted: Millis, now: Millis)
    requires Polling(Run(before)) && Run(before).shouldRun
    requires token != "" && Elapsed(now, minted) <= 30000
    ensures var s := Run(before);
            var asked := Stepped(Stepped(s, ForceStop), MintTicket(token, minted));
            var t := Tasked(asked, Answer(true, token, now, false, true), SessionLeft(asked) + 7);
            && t.tasks == [PollLoadsReason] && t.sessionActive && t.stopReason.NoReason?
            && t.told == s.told + [Replaced] && t.admitted == s.admitted + [s.mints + 1] && t.tickets.consumed
  {
    RunsAreSound(before);
    hide Run, Stepped, Tasked;
    SucceedsFrom(Run(before), token, minted, now);
  }

  lemma AskedFor(s: Server, token: string, minted: Millis)
    ensures Stepped(Stepped(s, ForceStop), MintTicket(token, minted)) ==
            s.(stopReason := Replaced, tickets := Minted(token, minted), mints := s.mints + 1)
  {}

  lemma SucceedsFrom(s: Server, token: string, minted: Millis, now: Millis)
    requires Polling(s) && s.shouldRun && |s.tasks| == 1 && token != "" && Elapsed(now, minted) <= 30000
    ensures var asked := Stepped(Stepped(s, ForceStop), MintTicket(token, minted));
            var t := Tasked(asked, Answer(true, token, now, false, true), SessionLeft(asked) + 7);
            && t.tasks == [PollLoadsReason] && t.sessionActive && t.stopReason.NoReason?
            && t.told == s.told + [Replaced] && t.admitted == s.admitted + [s.mints + 1] && t.tickets.consumed
  {
    var a := Answer(true, token, now, false, true);
    var asked := Stepped(Stepped(s, ForceStop), MintTicket(token, minted));
    hide Stepped, Tasked, SessionLeft;
    AskedFor(s, token, minted);
    ForcedCloses(asked, a);
    ClosedOpensAgain(asked.(tasks := [ReadsReason], sessionActive := false), a);
    TaskedInParts(asked, a, SessionLeft(asked), 7);
  }

  lemma {:induction false} TaskedInParts(s: Server, a: Answer, m: nat, n: nat)
    ensures Tasked(s, a, m + n) == Tasked(Tasked(s, a, m), a, n)
    decreases m
  {
    hide Stepped;
    if m > 0 {
      TaskedInParts(Stepped(s, TaskStep(0, a)), a, m - 1, n);
    }
  }

  /** One step of the task, away from its exit. */
  lemma TaskedOnce(s: Server, a: Answer, n: nat)
    requires n > 0 && |s.tasks| == 1 && !s.tasks[0].Exiting?
    ensures var (moved, to) := TaskMoves(s, s.tasks[0], a);
            Tasked(s, a, n) == Tasked(moved.(tasks := [to]), a, n - 1)
  {
    assert s.tasks[0 := TaskMoves(s, s.tasks[0], a).1] == [TaskMoves(s, s.tasks[0], a).1];
    hide TaskMoves;
  }

  lemma ForcedCloses(s: Server, a: Answer)
    requires |s.tasks| == 1 && Polling(s) && s.shouldRun && s.stopReason.Replaced? && !a.leaves
    ensures Tasked(s, a, SessionLeft(s)) == s.(tasks := [ReadsReason], sessionActive := false)
  {
    var at := s.(tasks := [PollLoadsReason]);
    if s.tasks[0].PollLoadsRun? {
      TaskedOnce(s, a, 3);
    } else {
      assert s == at;
    }
    TaskedOnce(at, a, 2);
    TaskedOnce(s.(tasks := [SessionCloses]), a, 1);
  }

  lemma ClosedOpensAgain(s: Server, a: Answer)
    requires s.tasks == [ReadsReason] && s.shouldRun && s.stopReason.Replaced? && a.arrives && a.connected
    requires a.offered != "" && s.tickets.token == a.offered && !s.tickets.consumed
    requires Elapsed(a.now, s.tickets.mintedMs) <= 30000
    ensures var t := Tasked(s, a, 7);
            && t.tasks == [PollLoadsReason] && t.sessionActive && t.stopReason.NoReason?
            && t.told == s.told + [Replaced] && t.admitted == s.admitted + [s.mints] && t.tickets.consumed
  {
    hide Tasked, Tried, Admits;
    var told := s.(told := s.told + [Replaced]);
    TaskedOnce(s, a, 7);
    TaskedOnce(told.(tasks := [LoopTest]), a, 6);
    TaskedOnce(told.(tasks := [HandlingClient]), a, 5);
    TaskedOnce(told.(tasks := [RouteChecksRun]), a, 4);
    Admitted(told.(tasks := [RouteConsumes]), a);
  }

  lemma Admitted(s: Server, a: Answer)
    requires s.tasks == [RouteConsumes] && s.stopReason.Replaced?
    requires a.offered != "" && s.tickets.token == a.offered && !s.tickets.consumed
    requires Elapsed(a.now, s.tickets.mintedMs) <= 30000
    ensures var t := Tasked(s, a, 3);
            && t.tasks == [PollLoadsReason] && t.sessionActive && t.stopReason.NoReason?
            && t.told == s.told && t.admitted == s.admitted + [s.mints] && t.tickets.consumed
  {
    TaskedOnce(s, a, 3);
    hide Tasked;
    var admitted := s.(tasks := [RouteDowngrades], admitted := s.admitted + [s.mints],
                 tickets := Tried(s.tickets, a.offered, a.now));
    TaskedOnce(admitted, a, 2);
    TaskedOnce(admitted.(tasks := [SessionOpens], stopReason := NoReason), a, 1);
  }

  /** A client that is still there is told of the sleep, and that lets the sleeper go on before its time is up. */
  lemma SleepIsAcknowledged(s: Server, a: Answer)
    requires s.tasks == [ReadsReason] && s.stopReason.Sleeping? && s.sleeper.SleepWaits? && a.connected
    ensures SleeperMoves(s, false) == s
    ensures var t := Tasked(s, a, 2);
            && t == s.(tasks := [LoopTest], told := s.told + [Sleeping], stopReason := NoReason)
            && SleeperMoves(t, false).sleeper.SleepWithdraws?
  {
    TaskedOnce(s, a, 2);
    TaskedOnce(s.(tasks := [ClearsSleeping], told := s.told + [Sleeping]), a, 1);
  }
}
