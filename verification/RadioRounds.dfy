/** The power manager and the BLE service taking turns: whatever the service does, the radio settles. */
module RadioRounds {
  import opened BleService
  import opened Clock
  import opened PowerManager
  import opened RadioRuns
  import opened RadioSettling
  import opened RadioWorld
  import opened ScaleRadio
  import Ble = BleLifecycle

  /** What one turn brings from outside: the time, the display and the answers of the Bluetooth stack. */
  datatype Turn = Turn(now: Millis, dimmed: bool, stack: Stack)

  predicate Works(s: Stack) {
    s.deinitWorks && s.initWorks
  }

  /** What holds between two turns. */
  ghost predicate Working(pm: PowerManager)
    reads pm, pm.radio, pm.radio.wait, pm.service, pm.service.receiver, pm.service.receiver.buf
  {
    pm.Valid() && pm.Applied() && Linked(pm.Whole())
  }

  /** A suspended service has let go. */
  predicate Released(s: BleScaleService)
    reads s
  {
    s.powerSuspended ==> s.state.Off?
  }

  /** The service is not on its way to a link. */
  predicate Detached(s: BleScaleService)
    reads s
  {
    s.state.Off? || s.state.Scanning?
  }

  /** A poll with its whole decision chain. */
  ghost function Polled(w: World, look: Inputs): World
    requires w.phase.Idle?
  {
    var seen := Observed(w, look);
    if seen.phase.Idle? then seen else Concluded(Requested(seen), look)
  }

  lemma RoundIsPollAndTick(w: World, look: Inputs)
    requires w.phase.Idle?
    ensures var p := Polled(w, look);
            Rounded(w, look) == World(p.radio, Ble.Processed(Ble.Drained(p.life), true), Phase.Idle)
  {
    hide Next, Ble.Requested, Ble.Acceptable, Resolved, Ble.Drained, Ble.Processed;
  }

  lemma TickIsLanding(w: World)
    ensures Landed(w) == w.(life := Ble.Processed(Ble.Drained(w.life), true))
  {}

  /** A round keeps the link, and releases an unwanted radio that has not failed. */
  lemma RoundFacts(w: World, look: Inputs)
    requires Linked(w) && w.phase.Idle?
    ensures var p := Polled(w, look);
            && Rounded(w, look) == World(p.radio, Ble.Processed(Ble.Drained(p.life), true), Phase.Idle)
            && (Quiet(w) && !w.radio.state.Failed? && !RadioTarget(w.radio.policy, look) ==>
                  WantsServiceSuspended(w.radio.state) || WantsServiceSuspended(p.radio.state))
    ensures Linked(Rounded(w, look))
  {
    RoundIsPollAndTick(w, look);
    RoundKeepsLink(w, look);
  }

  /** One round of the manager task while the power manager waits. */
  method Tick(pm: PowerManager, stack: Stack)
    requires Working(pm) && Works(stack)
    modifies pm.service, pm.service.receiver, pm.service.receiver.buf
    ensures pm.Valid() && pm.Applied() && Released(pm.service)
    ensures pm.Whole() == old(pm.Whole()).(life := Ble.Processed(Ble.Drained(old(pm.service.Life())), true))
    ensures pm.service.connectWanted == old(pm.service.connectWanted)
    ensures pm.service.diagScanDeadlineMs == UnexpiredLease(old(pm.service.diagScanDeadlineMs), stack.now)
    ensures old(pm.service.state).Off? ==> Detached(pm.service)
  {
    hide UnexpiredLease;
    hide BleScaleService.Valid, Linked, Consistent, Ble.Drained, Ble.Processed, DesiredMode;
    AnswerIsYes(Ble.Drained(pm.service.Life()), stack);
    pm.service.ManagerTick(stack);
  }

  lemma AnswerIsYes(l: Ble.Lifecycle, stack: Stack)
    requires Works(stack)
    ensures Ble.Processed(l, Answer(l.controller, stack)) == Ble.Processed(l, true)
  {}

  /** The first round of the manager task carries out what was under way. */
  method Land(pm: PowerManager, stack: Stack)
    requires Working(pm) && Works(stack) && !pm.service.controller.Failed?
    modifies pm.service, pm.service.receiver, pm.service.receiver.buf
    ensures Working(pm) && Released(pm.service) && pm.Whole() == Landed(old(pm.Whole())) && Quiet(pm.Whole())
    ensures pm.service.connectWanted == old(pm.service.connectWanted)
    ensures pm.service.diagScanDeadlineMs == UnexpiredLease(old(pm.service.diagScanDeadlineMs), stack.now)
  {
    LandingIsQuiet(pm.Whole());
    TickIsLanding(pm.Whole());
    hide PowerManager.Valid, Landed, PowerManager.Applied, UnexpiredLease;
    Tick(pm, stack);
  }

  /** One poll of the power manager and one round of the manager task, as the radio world knows them. */
  method Round(pm: PowerManager, t: Turn) returns (ghost look: Inputs)
    requires Working(pm) && Works(t.stack)
    modifies pm, pm.radio, pm.radio.wait, pm.service, pm.service.receiver, pm.service.receiver.buf
    ensures Working(pm) && Released(pm.service)
    ensures look == old(pm.RadioInputs(t.now, t.dimmed)) && pm.Whole() == Rounded(old(pm.Whole()), look)
    ensures pm.service.connectWanted == old(pm.service.connectWanted)
    ensures pm.service.diagScanDeadlineMs == UnexpiredLease(old(pm.service.diagScanDeadlineMs), t.stack.now)
    ensures (old(Released(pm.service)) && Quiet(old(pm.Whole())) && !old(pm.radio.state).Failed?
             && !RadioTarget(old(pm.radio.policy), look)) ==> Detached(pm.service)
  {
    hide PowerManager.Valid, Rounded, Linked, Quiet, Observed, Concluded, Requested, RadioTarget, Settled;
    hide UnexpiredLease;
    look := pm.RadioInputs(t.now, t.dimmed);
    RoundFacts(pm.Whole(), look);
    pm.UpdateRadio(t.now, t.dimmed);
    Tick(pm, t.stack);
  }

  // ---- Any number of turns ----------------------------------------------------------------------

  predicate AllWork(turns: seq<Turn>) {
    forall i :: 0 <= i < |turns| ==> Works(turns[i].stack)
  }

  /** The looks are taken at the given turns, and show the same demand. */
  predicate Taken(looks: seq<Inputs>, turns: seq<Turn>, connectWanted: bool) {
    && |looks| == |turns|
    && forall i :: 0 <= i < |looks| ==>
         && looks[i].nowMs == turns[i].now && looks[i].screenDimmed == turns[i].dimmed
         && looks[i].connectWanted == connectWanted
  }

  /** The display keeps its state. */
  predicate Held(turns: seq<Turn>) {
    forall i, j :: 0 <= i < j < |turns| ==> turns[i].dimmed == turns[j].dimmed
  }

  /** From the given look on, a wish that is gone does not come back. */
  predicate FallsOnly(policy: Policy, looks: seq<Inputs>, from: nat) {
    forall i :: 1 <= from <= i < |looks| && RadioTarget(policy, looks[i]) ==> RadioTarget(policy, looks[i - 1])
  }

  lemma {:induction false} FallingChangesOnce(policy: Policy, looks: seq<Inputs>, from: nat)
    requires looks != [] && from >= 1 && FallsOnly(policy, looks, from)
    ensures Changes(policy, looks) < |looks|
    ensures Changes(policy, looks) + (if RadioTarget(policy, looks[|looks| - 1]) then 1 else 0) <= from
  {
    hide RadioTarget;
    var n := |looks| - 1;
    if n > 0 {
      FallsInPrefix(policy, looks, from);
      FallingChangesOnce(policy, looks[..n], from);
      assert from <= n && RadioTarget(policy, looks[n]) ==> RadioTarget(policy, looks[n - 1]);
    }
  }

  lemma FallsInPrefix(policy: Policy, looks: seq<Inputs>, from: nat)
    requires looks != [] && from >= 1 && FallsOnly(policy, looks, from)
    ensures FallsOnly(policy, looks[..|looks| - 1], from)
  {
    hide RadioTarget;
  }

  lemma FallsWithOneMore(policy: Policy, looks: seq<Inputs>, look: Inputs, from: nat)
    requires from >= 1 && FallsOnly(policy, looks, from)
    requires |looks| >= from && !RadioTarget(policy, looks[|looks| - 1]) ==> !RadioTarget(policy, look)
    ensures FallsOnly(policy, looks + [look], from)
  {
    hide RadioTarget;
  }

  /** What the wish is, when everything but the service is held still. */
  lemma WishFalls(policy: Policy, a: Inputs, b: Inputs)
    requires a.connectWanted == b.connectWanted && a.screenDimmed == b.screenDimmed
    requires !a.diagnosticScanWanted && !b.diagnosticScanWanted
    requires !RadioTarget(policy, a) && !b.service.Connecting? && !b.service.Ready?
    ensures !RadioTarget(policy, b)
  {}

  lemma OneMoreRound(w: World, looks: seq<Inputs>, look: Inputs)
    ensures RoundedAll(w, looks + [look]) == Rounded(RoundedAll(w, looks), look)
    ensures AllLetGo(w, looks + [look]) <==> AllLetGo(w, looks) && LetGo(RoundedAll(w, looks), look)
  {
    hide Rounded, LetGo;
    assert (looks + [look])[..|looks|] == looks;
  }

  /** After i turns the world r has come from w by the rounds of the looks taken. */
  ghost predicate Followed(w: World, looks: seq<Inputs>, turns: seq<Turn>, i: nat, wanted: bool, r: World) {
    i <= |turns| && Taken(looks, turns[..i], wanted) && r == RoundedAll(w, looks) && AllLetGo(w, looks)
  }

  lemma FollowedOnceMore(w: World, looks: seq<Inputs>, look: Inputs, turns: seq<Turn>, i: nat, wanted: bool, r: World)
    requires i < |turns| && Followed(w, looks, turns, i, wanted, r) && LetGo(r, look) && look.connectWanted == wanted
    requires look.nowMs == turns[i].now && look.screenDimmed == turns[i].dimmed
    ensures Followed(w, looks + [look], turns, i + 1, wanted, Rounded(r, look))
  {
    hide Rounded, LetGo, RoundedAll, AllLetGo;
    OneMoreRound(w, looks, look);
    var longer := looks + [look];
    forall k | 0 <= k < |longer|
      ensures longer[k].nowMs == turns[..i + 1][k].now && longer[k].screenDimmed == turns[..i + 1][k].dimmed
      ensures longer[k].connectWanted == wanted
    {
      assert k < i ==> longer[k] == looks[k] && turns[..i + 1][k] == turns[..i][k];
    }
  }

  /** What the machine needs to try again after a failure, whatever the wish. */
  predicate Eager(w: World) {
    w.radio.state.Failed? ==> w.radio.activityPending
  }

  /** The look from which on the wish can only fall; leaving a failure, the service may once connect by itself. */
  function FallsFrom(w: World): nat {
    if w.radio.state.Failed? then 2 else 1
  }

  predicate Plain(look: Inputs, wanted: bool, dimmed: bool) {
    look.connectWanted == wanted && look.screenDimmed == dimmed && !look.diagnosticScanWanted
  }

  /** So far the wish has only fallen, and where it is gone the service has nothing that could bring it back. */
  predicate Falling(w: World, looks: seq<Inputs>, wanted: bool, dimmed: bool, detached: bool) {
    && FallsOnly(w.radio.policy, looks, FallsFrom(w))
    && (looks != [] ==>
          var last := looks[|looks| - 1];
          && Plain(last, wanted, dimmed)
          && (|looks| >= FallsFrom(w) && !RadioTarget(w.radio.policy, last) ==> detached))
  }

  lemma FallingGoesOn(w: World, looks: seq<Inputs>, r: World, look: Inputs, wanted: bool, dimmed: bool,
                      before: bool, later: bool)
    requires Quiet(w) && Eager(w) && r == RoundedAll(w, looks) && AllLetGo(w, looks)
    requires Falling(w, looks, wanted, dimmed, before)
    requires Plain(look, wanted, dimmed) && (before ==> look.service.Off? || look.service.Disconnected?)
    requires Quiet(r) && !r.radio.state.Failed? && !RadioTarget(r.radio.policy, look) ==> later
    ensures Falling(w, looks + [look], wanted, dimmed, later)
  {
    hide Quiet, RoundedAll, AllLetGo, RadioTarget;
    if looks == [] {
      NoRounds(w);
    } else {
      RestIsDisturbedByChangesOnly(w, looks);
      var last := looks[|looks| - 1];
      if before && !RadioTarget(w.radio.policy, last) {
        WishFalls(w.radio.policy, last, look);
      }
    }
    FallsWithOneMore(w.radio.policy, looks, look, FallsFrom(w));
  }

  lemma NoRounds(w: World)
    ensures RoundedAll(w, []) == w
  {}

  /**
   * Any number of turns: the radio world's rounds, with a service that lets go whenever it is asked to. With the
   * display held still and no diagnostic lease out, the wish can only fall.
   */
  method TakeTurns(pm: PowerManager, turns: seq<Turn>) returns (ghost looks: seq<Inputs>)
    requires Working(pm) && Released(pm.service) && Quiet(pm.Whole()) && AllWork(turns)
    modifies pm, pm.radio, pm.radio.wait, pm.service, pm.service.receiver, pm.service.receiver.buf
    ensures Working(pm) && Released(pm.service) && Taken(looks, turns, pm.service.connectWanted)
    ensures pm.Whole() == RoundedAll(old(pm.Whole()), looks) && AllLetGo(old(pm.Whole()), looks)
    ensures pm.service.connectWanted == old(pm.service.connectWanted)
    ensures Held(turns) && old(pm.service.diagScanDeadlineMs) == 0 && Eager(old(pm.Whole())) ==>
              FallsOnly(old(pm.radio.policy), looks, FallsFrom(old(pm.Whole())))
  {
    ghost var w, wanted := pm.Whole(), pm.service.connectWanted;
    ghost var dimmed := turns != [] && turns[0].dimmed;
    ghost var still := Held(turns) && pm.service.diagScanDeadlineMs == 0 && Eager(w);
    NoLooks(w, turns, wanted, dimmed, Detached(pm.service));
    hide Working, Released, Detached, Rounded, Quiet, RadioTarget, LetGo, Followed, PowerManager.Whole;
    hide Falling, FallsOnly, Plain, Held, Eager, FallsFrom;
    looks := [];
    for i := 0 to |turns|
      invariant Working(pm) && Released(pm.service) && pm.service.connectWanted == wanted
      invariant Followed(w, looks, turns, i, wanted, pm.Whole())
      invariant still ==> pm.service.diagScanDeadlineMs == 0 && Falling(w, looks, wanted, dimmed, Detached(pm.service))
    {
      ghost var before, r := Detached(pm.service), pm.Whole();
      ReleasedLetsGo(pm, turns[i].now, turns[i].dimmed);
      var look := Round(pm, turns[i]);
      FollowedOnceMore(w, looks, look, turns, i, wanted, r);
      if still {
        SameDisplay(turns, i);
        StoryGoesOn(w, looks, turns, i, r, look, wanted, dimmed, before, Detached(pm.service));
      }
      looks := looks + [look];
    }
    StoryEnds(w, looks, turns, wanted, pm.Whole());
    if still {
      FallingFalls(w, looks, wanted, dimmed, Detached(pm.service));
    }
  }

  lemma StoryGoesOn(w: World, looks: seq<Inputs>, turns: seq<Turn>, i: nat, r: World, look: Inputs, wanted: bool,
                    dimmed: bool, before: bool, later: bool)
    requires Quiet(w) && Eager(w) && Followed(w, looks, turns, i, wanted, r)
    requires Falling(w, looks, wanted, dimmed, before)
    requires Plain(look, wanted, dimmed) && (before ==> look.service.Off? || look.service.Disconnected?)
    requires Quiet(r) && !r.radio.state.Failed? && !RadioTarget(r.radio.policy, look) ==> later
    ensures Falling(w, looks + [look], wanted, dimmed, later)
  {
    hide Quiet, Falling, RadioTarget;
    FallingGoesOn(w, looks, r, look, wanted, dimmed, before, later);
  }

  lemma StoryEnds(w: World, looks: seq<Inputs>, turns: seq<Turn>, wanted: bool, r: World)
    requires Followed(w, looks, turns, |turns|, wanted, r)
    ensures Taken(looks, turns, wanted) && r == RoundedAll(w, looks) && AllLetGo(w, looks)
  {
    assert turns[..|turns|] == turns;
  }

  lemma FallingFalls(w: World, looks: seq<Inputs>, wanted: bool, dimmed: bool, detached: bool)
    requires Falling(w, looks, wanted, dimmed, detached)
    ensures FallsOnly(w.radio.policy, looks, FallsFrom(w))
  {}

  lemma NoLooks(w: World, turns: seq<Turn>, wanted: bool, dimmed: bool, detached: bool)
    ensures Followed(w, [], turns, 0, wanted, w)
    ensures Falling(w, [], wanted, dimmed, detached)
  {}

  lemma ReleasedLetsGo(pm: PowerManager, now: Millis, dimmed: bool)
    requires Working(pm) && Released(pm.service)
    ensures LetGo(pm.Whole(), pm.RadioInputs(now, dimmed))
    ensures var look := pm.RadioInputs(now, dimmed);
            && (pm.service.diagScanDeadlineMs == 0 ==> Plain(look, pm.service.connectWanted, dimmed))
            && (Detached(pm.service) ==> look.service.Off? || look.service.Disconnected?)
  {
    hide Linked, PowerManager.Valid, RadioTarget;
  }

  lemma SameDisplay(turns: seq<Turn>, i: nat)
    requires Held(turns) && i < |turns|
    ensures turns[i].dimmed == turns[0].dimmed
  {}

  /** What any number of rounds with a service that lets go amount to. */
  lemma RoundsSettle(w: World, looks: seq<Inputs>)
    requires Quiet(w) && AllLetGo(w, looks)
    ensures forall target :: |looks| >= 4 && AllSteady(w.radio.policy, looks, target) ==>
              (AtRest(RoundedAll(w, looks), target) <==> Willing(w, target))
    ensures Eager(w) && looks != [] ==> Restless(w, looks) <= 4 * (1 + Changes(w.radio.policy, looks))
    ensures Eager(w) && FallsOnly(w.radio.policy, looks, FallsFrom(w)) ==> Restless(w, looks) <= 4 * (1 + FallsFrom(w))
  {
    hide Quiet, AllLetGo, AtRest, FallsOnly, Changes;
    forall target | |looks| >= 4 && AllSteady(w.radio.policy, looks, target)
      ensures AtRest(RoundedAll(w, looks), target) <==> Willing(w, target)
    {
      SteadyRoundsSettle(w, looks, target);
    }
    if Eager(w) && looks != [] {
      RestIsDisturbedByChangesOnly(w, looks);
      if FallsOnly(w.radio.policy, looks, FallsFrom(w)) {
        FallingChangesOnce(w.radio.policy, looks, FallsFrom(w));
      }
    }
  }

  /**
   * Power manager and BLE service settle, whatever the service does by itself. Under a steady wish four turns bring the
   * radio to rest, exactly when the machine may try. However the wish moves, it is not at rest at four looks for the
   * start and four for each change of the wish. And with the display held still and no diagnostic lease out the wish
   * only falls, so at eight looks in all; at twelve after a failure.
   */
  method Settle(pm: PowerManager, first: Stack, turns: seq<Turn>) returns (ghost looks: seq<Inputs>)
    requires Working(pm) && !pm.service.controller.Failed? && Works(first) && AllWork(turns)
    modifies pm, pm.radio, pm.radio.wait, pm.service, pm.service.receiver, pm.service.receiver.buf
    ensures Working(pm) && Released(pm.service) && Taken(looks, turns, pm.service.connectWanted)
    ensures pm.Whole() == RoundedAll(Landed(old(pm.Whole())), looks)
    ensures forall target :: |looks| >= 4 && AllSteady(old(pm.radio.policy), looks, target) ==>
              (AtRest(pm.Whole(), target) <==> Willing(Landed(old(pm.Whole())), target))
    ensures Eager(old(pm.Whole())) && looks != [] ==>
              Restless(Landed(old(pm.Whole())), looks) <= 4 * (1 + Changes(old(pm.radio.policy), looks))
    ensures Eager(old(pm.Whole())) && Held(turns) && old(pm.service.diagScanDeadlineMs) == 0 ==>
              Restless(Landed(old(pm.Whole())), looks) <= if old(pm.radio.state).Failed? then 12 else 8
  {
    ghost var w := pm.Whole();
    LandingIsQuiet(w);
    hide Working, Released, Quiet, AllSteady, AtRest, Landed, Changes, Restless, RoundedAll, AllLetGo, FallsOnly, Taken;
    Land(pm, first);
    looks := TakeTurns(pm, turns);
    RoundsSettle(Landed(w), looks);
  }
}
