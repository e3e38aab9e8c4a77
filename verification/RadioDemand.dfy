/** What the radio ends up doing, in terms of the policy, the demand, the display, the diagnostic lease and the link. */
module RadioDemand {
  import opened BleService
  import opened Clock
  import opened ControllerTransition
  import opened PowerManager
  import opened RadioRounds
  import opened RadioSettling
  import opened RadioWorld
  import opened ScaleRadio
  import Ble = BleLifecycle

  /** There is a lease, and its deadline lies ahead, as far as 32 bits can order the two. */
  predicate Ahead(deadline: Millis, now: Millis) {
    deadline != 0 && 0 < Elapsed(deadline, now) < 0x8000_0000
  }

  /** In absolute time: a lease of less than 2^31 ms lies ahead until its end, whatever the counter has done since. */
  lemma AheadUntilTheEnd(now: nat, until: nat)
    requires until < now + 0x8000_0000 && At(until) != 0
    requires until <= now ==> now - until <= 0x8000_0000
    ensures Ahead(At(until), At(now)) <==> now < until
  {
    if now <= until {
      Shift(until - now, now);
    } else {
      Behind(now - until, until);
    }
  }

  lemma Behind(d: nat, until: nat)
    requires 0 < d < WRAP
    ensures Elapsed(At(until), At(until + d)) == WRAP - d
  {
    Shift(d, until);
  }

  /** The link is being made, or is there. */
  predicate Linking(s: Link) {
    s.Connecting? || s.Ready?
  }

  predicate AllBright(turns: seq<Turn>) {
    forall i :: 0 <= i < |turns| ==> !turns[i].dimmed
  }

  predicate AllDimmed(turns: seq<Turn>) {
    forall i :: 0 <= i < |turns| ==> turns[i].dimmed
  }

  /** The lease lasts through all the turns. */
  predicate Leased(deadline: Millis, turns: seq<Turn>) {
    forall i :: 0 <= i < |turns| ==> Ahead(deadline, turns[i].now) && Ahead(deadline, turns[i].stack.now)
  }

  predicate Unleased(deadline: Millis, turns: seq<Turn>) {
    forall i :: 0 <= i < |turns| ==> !Ahead(deadline, turns[i].now)
  }

  /** Something wants the radio through all the turns. */
  predicate Wanted(policy: Policy, connectWanted: bool, deadline: Millis, turns: seq<Turn>) {
    || policy.ForceRunning?
    || (policy.Demand? && ((connectWanted && AllBright(turns)) || Leased(deadline, turns)))
  }

  /** Nothing wants the radio, and nothing comes to want it; `idle` is a service without a link, not just recovered. */
  predicate Unwanted(policy: Policy, connectWanted: bool, deadline: Millis, idle: bool, turns: seq<Turn>) {
    || policy.ForceStopped?
    || (policy.Demand? && Unleased(deadline, turns) && (!connectWanted || (idle && AllDimmed(turns))))
  }

  // ---- One look -------------------------------------------------------------------------------------

  /** The manager withdraws a lease exactly when it is over. */
  lemma LeaseEnds(deadline: Millis, now: Millis)
    ensures UnexpiredLease(deadline, now) == if Ahead(deadline, now) then deadline else 0
    ensures LeaseAhead(deadline, now) <==> Ahead(deadline, now)
  {}

  /** What the power manager sees of the link: whether it is off, being made, or there. */
  lemma LinkAsSeen(link: Link)
    ensures ServiceStateOf(link).Off? <==> link.Off?
    ensures ServiceStateOf(link).Connecting? <==> link.Connecting?
    ensures ServiceStateOf(link).Ready? <==> link.Ready?
  {}

  /** Which looks find the radio wanted. */
  lemma WishOfLook(pm: PowerManager, now: Millis, dimmed: bool)
    ensures var s := pm.service;
            RadioTarget(pm.radio.policy, pm.RadioInputs(now, dimmed)) <==>
              || pm.radio.policy.ForceRunning?
              || (pm.radio.policy.Demand?
                  && (Ahead(s.diagScanDeadlineMs, now) || (s.connectWanted && (!dimmed || Linking(s.state)))))
  {}

  // ---- Any number of turns -----------------------------------------------------------------------------

  /** The pair between two turns, `target` being the wish so far. */
  ghost predicate Obeying(w: World, looks: seq<Inputs>, target: bool, r: World) {
    && AllSteady(w.radio.policy, looks, target) && r == RoundedAll(w, looks) && AllLetGo(w, looks)
  }

  lemma ObeysOnceMore(w: World, looks: seq<Inputs>, target: bool, r: World, look: Inputs)
    requires Obeying(w, looks, target, r) && Steady(w.radio.policy, look, target) && LetGo(r, look)
    ensures Obeying(w, looks + [look], target, Rounded(r, look))
  {
    hide Rounded, LetGo, Steady;
    OneMoreRound(w, looks, look);
  }

  /** From a quiet start: what keeps holding of the world, and what four looks make of it. */
  lemma ObeyingSettles(w: World, looks: seq<Inputs>, target: bool, r: World)
    requires Quiet(w) && Obeying(w, looks, target, r)
    ensures r.radio.policy == w.radio.policy && Quiet(r)
    ensures !w.radio.state.Failed? ==> !r.radio.state.Failed?
    ensures |looks| >= 4 ==> (Fulfilled(r, target) <==> Willing(w, target))
  {
    hide Quiet, AllSteady, AllLetGo, RoundedAll, Distance;
    if Willing(w, target) {
      RoundsApproach(w, looks, target);
    } else {
      RoundsChangeNothing(w, looks, target);
    }
    if |looks| >= 4 {
      SteadyRoundsSettle(w, looks, target);
    }
  }

  /** What the machine needs to try again after a failure. */
  predicate Retries(r: Radio, fulfilled: bool) {
    r.state.Failed? ==> r.activityPending || fulfilled
  }

  lemma WantedLook(pm: PowerManager, turns: seq<Turn>, i: nat, deadline: Millis)
    requires i < |turns| && Wanted(pm.radio.policy, pm.service.connectWanted, deadline, turns)
    requires Leased(deadline, turns) ==> pm.service.diagScanDeadlineMs == deadline
    ensures RadioTarget(pm.radio.policy, pm.RadioInputs(turns[i].now, turns[i].dimmed))
  {
    hide RadioTarget, PowerManager.RadioInputs, Ahead;
    WishOfLook(pm, turns[i].now, turns[i].dimmed);
    assert Leased(deadline, turns) ==> Ahead(deadline, turns[i].now);
    assert AllBright(turns) ==> !turns[i].dimmed;
  }

  lemma UnwantedLook(pm: PowerManager, turns: seq<Turn>, i: nat, deadline: Millis, idle: bool)
    requires i < |turns| && Unwanted(pm.radio.policy, pm.service.connectWanted, deadline, idle, turns)
    requires pm.service.diagScanDeadlineMs == 0 || pm.service.diagScanDeadlineMs == deadline
    requires idle ==> !Linking(pm.service.state)
    ensures !RadioTarget(pm.radio.policy, pm.RadioInputs(turns[i].now, turns[i].dimmed))
  {
    hide RadioTarget, PowerManager.RadioInputs;
    WishOfLook(pm, turns[i].now, turns[i].dimmed);
    hide Ahead, Linking;
    assert Unleased(deadline, turns) ==> !Ahead(deadline, turns[i].now);
    assert AllDimmed(turns) ==> turns[i].dimmed;
    NoDeadline(turns[i].now);
  }

  lemma NoDeadline(now: Millis)
    ensures !Ahead(0, now)
  {}

  lemma LeaseLasts(deadline: Millis, turns: seq<Turn>, i: nat, before: Millis)
    requires i < |turns|
    requires before == 0 || before == deadline
    requires Leased(deadline, turns) ==> before == deadline
    ensures var later := UnexpiredLease(before, turns[i].stack.now);
            && (later == 0 || later == deadline)
            && (Leased(deadline, turns) ==> later == deadline)
  {
    LeaseEnds(before, turns[i].stack.now);
  }

  /** Nothing but the service and the display moves the wish from here on. */
  ghost predicate StandsStill(pm: PowerManager, turns: seq<Turn>, deadline: Millis, idle: bool, w: World, target: bool)
    reads pm, pm.radio, pm.service
  {
    && pm.radio.policy == w.radio.policy
    && target == Wanted(w.radio.policy, pm.service.connectWanted, deadline, turns)
    && (!target ==> Unwanted(w.radio.policy, pm.service.connectWanted, deadline, idle, turns))
    && (!target && idle ==> !Linking(pm.service.state))
  }

  ghost predicate LeaseIn(pm: PowerManager, turns: seq<Turn>, deadline: Millis)
    reads pm, pm.service
  {
    && (pm.service.diagScanDeadlineMs == 0 || pm.service.diagScanDeadlineMs == deadline)
    && (Leased(deadline, turns) ==> pm.service.diagScanDeadlineMs == deadline)
  }

  lemma SameWish(pm: PowerManager, turns: seq<Turn>, i: nat, deadline: Millis, idle: bool, w: World, target: bool)
    requires i < |turns| && StandsStill(pm, turns, deadline, idle, w, target) && LeaseIn(pm, turns, deadline)
    ensures RadioTarget(w.radio.policy, pm.RadioInputs(turns[i].now, turns[i].dimmed)) == target
  {
    hide RadioTarget, PowerManager.RadioInputs, Wanted, Unwanted, Leased, Linking;
    if target {
      WantedLook(pm, turns, i, deadline);
    } else {
      UnwantedLook(pm, turns, i, deadline, idle);
    }
  }

  /** One of the turns. */
  method ObeyOnce(pm: PowerManager, turns: seq<Turn>, i: nat, ghost deadline: Millis, ghost idle: bool, ghost w: World,
                  ghost looks: seq<Inputs>, ghost target: bool, ghost still: bool)
    returns (ghost look: Inputs)
    requires Working(pm) && Released(pm.service) && i < |turns| && Works(turns[i].stack)
    requires LeaseIn(pm, turns, deadline) && Quiet(w) && (idle ==> !w.radio.state.Failed?)
    requires still ==> Obeying(w, looks, target, pm.Whole()) && StandsStill(pm, turns, deadline, idle, w, target)
    modifies pm, pm.radio, pm.radio.wait, pm.service, pm.service.receiver, pm.service.receiver.buf
    ensures Working(pm) && Released(pm.service) && pm.service.connectWanted == old(pm.service.connectWanted)
    ensures LeaseIn(pm, turns, deadline)
    ensures still ==>
              Obeying(w, looks + [look], target, pm.Whole()) && StandsStill(pm, turns, deadline, idle, w, target)
  {
    ghost var r := pm.Whole();
    if still {
      ObeyingSettles(w, looks, target, r);
      SameWish(pm, turns, i, deadline, idle, w, target);
    }
    ReleasedLetsGo(pm, turns[i].now, turns[i].dimmed);
    LeaseLasts(deadline, turns, i, pm.service.diagScanDeadlineMs);
    hide Working, Rounded, Quiet, RadioTarget, LetGo, Wanted, Unwanted, Leased, Obeying, PowerManager.RadioInputs;
    hide UnexpiredLease;
    look := RadioRounds.Round(pm, turns[i]);
    if still {
      ObeysOnceMore(w, looks, target, r, look);
      ObeyingSettles(w, looks + [look], target, pm.Whole());
    }
  }

  /**
   * Four turns or more of power manager and BLE service, from a pair with nothing under way. A bright display and a
   * wanted scale, a lasting lease, or the policy that forces it leave the controller running; a dimmed display with no
   * link and no lease, nothing wanted, or the other forcing policy leave it stopped. Either exactly if the machine may
   * try.
   */
  method Obey(pm: PowerManager, turns: seq<Turn>)
    requires Working(pm) && Released(pm.service) && Quiet(pm.Whole()) && AllWork(turns) && |turns| >= 4
    modifies pm, pm.radio, pm.radio.wait, pm.service, pm.service.receiver, pm.service.receiver.buf
    ensures Working(pm) && Released(pm.service)
    ensures old(Wanted(pm.radio.policy, pm.service.connectWanted, pm.service.diagScanDeadlineMs, turns)) ==>
              (pm.service.controller.Running? <==> old(Retries(pm.radio.View(), pm.service.controller.Running?)))
    ensures old(Unwanted(pm.radio.policy, pm.service.connectWanted, pm.service.diagScanDeadlineMs,
                         !Linking(pm.service.state) && !pm.radio.state.Failed?, turns)) ==>
              (pm.service.controller.Stopped? <==> old(Retries(pm.radio.View(), pm.service.controller.Stopped?)))
  {
    ghost var w, deadline := pm.Whole(), pm.service.diagScanDeadlineMs;
    ghost var idle := !Linking(pm.service.state) && !pm.radio.state.Failed?;
    ghost var target := Wanted(pm.radio.policy, pm.service.connectWanted, deadline, turns);
    ghost var still := target || Unwanted(pm.radio.policy, pm.service.connectWanted, deadline, idle, turns);
    ghost var looks: seq<Inputs> := [];
    if target {
      NotBoth(pm.radio.policy, pm.service.connectWanted, deadline, idle, turns);
    }
    AtFirst(w, target);
    hide Working, Released, Quiet, Wanted, Unwanted, Leased, Linking, Obeying, StandsStill;
    for i := 0 to |turns|
      invariant Working(pm) && Released(pm.service) && LeaseIn(pm, turns, deadline)
      invariant |looks| == i
      invariant still ==> Obeying(w, looks, target, pm.Whole()) && StandsStill(pm, turns, deadline, idle, w, target)
    {
      ghost var look := ObeyOnce(pm, turns, i, deadline, idle, w, looks, target, still);
      looks := looks + [look];
    }
    if still {
      ObeyingSettles(w, looks, target, pm.Whole());
    }
  }

  /** The same from any working pair: its manager first finishes what is under way. */
  method Govern(pm: PowerManager, first: Stack, turns: seq<Turn>) returns (ghost link: Link, ghost landed: Controller)
    requires Working(pm) && !pm.service.controller.Failed? && Works(first) && AllWork(turns) && |turns| >= 4
    modifies pm, pm.radio, pm.radio.wait, pm.service, pm.service.receiver, pm.service.receiver.buf
    ensures Working(pm) && Released(pm.service) && landed == Landed(old(pm.Whole())).life.controller
    ensures var lease := if Ahead(old(pm.service.diagScanDeadlineMs), first.now) then
                           old(pm.service.diagScanDeadlineMs)
                         else
                           0;
            && (old(Wanted(pm.radio.policy, pm.service.connectWanted, lease, turns)) ==>
                  (pm.service.controller.Running? <==> old(Retries(pm.radio.View(), landed.Running?))))
            && (old(Unwanted(pm.radio.policy, pm.service.connectWanted, lease,
                             !Linking(link) && !pm.radio.state.Failed?, turns)) ==>
                  (pm.service.controller.Stopped? <==> old(Retries(pm.radio.View(), landed.Stopped?))))
  {
    LeaseEnds(pm.service.diagScanDeadlineMs, first.now);
    hide Working, Released, Quiet, Wanted, Unwanted, Linking, Landed, UnexpiredLease, LeaseAhead, Ahead;
    Land(pm, first);
    link, landed := pm.service.state, pm.service.controller;
    Obey(pm, turns);
  }

  /** A link that is being made or is there stays untouched by a poll, whether the display is dimmed or not. */
  method HoldLink(pm: PowerManager, now: Millis, dimmed: bool)
    requires Working(pm) && Released(pm.service) && Linking(pm.service.state)
    requires pm.radio.policy.Demand? && pm.service.connectWanted
    modifies pm, pm.radio, pm.radio.wait, pm.service`queue, pm.service`stamps, pm.service`controllerRequestPending,
             pm.service`powerSuspended
    ensures Working(pm) && !pm.service.powerSuspended && pm.service.Life() == old(pm.service.Life())
    ensures pm.service.controller.Running? || pm.service.controller.Stopping?
    ensures !old(pm.radio.state).Failed? ==> pm.radio.state.Monitoring?
  {
    WishOfLook(pm, now, dimmed);
    hide BleScaleService.Plumbed;
    pm.UpdateRadio(now, dimmed);
  }

  lemma NotBoth(policy: Policy, connectWanted: bool, deadline: Millis, idle: bool, turns: seq<Turn>)
    requires turns != [] && Wanted(policy, connectWanted, deadline, turns)
    ensures !Unwanted(policy, connectWanted, deadline, idle, turns)
  {
    hide Ahead;
    assert Leased(deadline, turns) ==> Ahead(deadline, turns[0].now);
    assert AllBright(turns) ==> !turns[0].dimmed;
    assert Unleased(deadline, turns) ==> !Ahead(deadline, turns[0].now);
    assert AllDimmed(turns) ==> turns[0].dimmed;
  }

  lemma AtFirst(w: World, target: bool)
    ensures Obeying(w, [], target, w)
  {}
}
