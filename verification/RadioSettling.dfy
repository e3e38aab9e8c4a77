/** Under a steady wish and a working Bluetooth stack the radio settles within a fixed number of rounds. */
module RadioSettling {
  import opened Clock
  import opened ControllerTransition
  import opened ScaleRadio
  import opened RadioRuns
  import opened RadioWorld
  import Ble = BleLifecycle

  /** One poll of the requester, with its whole decision chain, and one round of the manager. */
  function Round(look: Inputs): seq<Happening> {
    [Observing(look), Requesting, Concluding(look), Managing(Ble.Draining), Managing(Ble.Processing(true))]
  }

  function Rounds(looks: seq<Inputs>): seq<Happening> {
    if looks == [] then [] else Rounds(looks[..|looks| - 1]) + Round(looks[|looks| - 1])
  }

  /** The look finds the given wish, whatever else it shows. */
  predicate Steady(policy: Policy, look: Inputs, target: bool) {
    RadioTarget(policy, look) == target
  }

  /** A service that has been asked to let go of an unwanted radio has done so. */
  predicate LetGo(w: World, look: Inputs) {
    w.radio.state.Suspending? && !RadioTarget(w.radio.policy, look) ==> look.service.Off?
  }

  /** No change of the controller is asked for or under way. */
  ghost predicate Quiet(w: World) {
    Linked(w) && w.phase.Idle? && w.life.queue == [] && (w.life.controller.Running? || w.life.controller.Stopped?)
  }

  predicate Fulfilled(w: World, target: bool) {
    if target then w.life.controller.Running? else w.life.controller.Stopped?
  }

  predicate AtRest(w: World, target: bool) {
    w.phase.Idle? && !w.radio.state.Failed? && !InTransition(w.radio.state) && Fulfilled(w, target)
  }

  /** What a failed machine needs to try again. */
  predicate Willing(w: World, target: bool) {
    w.radio.state.Failed? ==> w.radio.activityPending || Fulfilled(w, target)
  }

  /** How many rounds away from rest a willing quiet world is. */
  function Distance(w: World, target: bool): (d: nat)
    ensures d <= 4
  {
    var fulfilled := Fulfilled(w, target);
    match w.radio.state
    case Monitoring => if fulfilled then 0 else 3
    case Suspending => if fulfilled then 1 else if target then 4 else 2
    case Stopping => if target then 3 else 1
    case ControllerStopped => if fulfilled then 0 else if target then 2 else 4
    case Starting => if target then 1 else 4
    case Failed => if fulfilled then 1 else if target then 3 else 4
  }

  // ---- Courses of rounds --------------------------------------------------------------------------

  lemma {:induction false} CourseOfJoined(w: World, first: seq<Happening>, second: seq<Happening>)
    requires Fair(first) && Fair(second)
    ensures Fair(first + second) && Course(w, first + second) == Course(Course(w, first), second)
    decreases |second|
  {
    if second == [] {
      assert first + second == first;
    } else {
      var n := |second| - 1;
      CourseOfJoined(w, first, second[..n]);
      assert first + second == (first + second[..n]) + [second[n]];
      Proceeding(w, first + second[..n], second[n]);
    }
  }

  lemma {:induction false} RoundsAreFair(looks: seq<Inputs>)
    ensures Fair(Rounds(looks))
  {
    if looks != [] {
      RoundsAreFair(looks[..|looks| - 1]);
    }
  }

  /** The world after one round. */
  ghost function Rounded(w: World, look: Inputs): World {
    var seen := Happened(w, Observing(look));
    var asked := Happened(seen, Requesting);
    var answered := Happened(asked, Concluding(look));
    Happened(Happened(answered, Managing(Ble.Draining)), Managing(Ble.Processing(true)))
  }

  lemma CourseOfRound(w: World, look: Inputs)
    ensures Fair(Round(look)) && Course(w, Round(look)) == Rounded(w, look)
  {
    hide Happened;
    var r := Round(look);
    assert r[..4] + [r[4]] == r && r[..3] + [r[3]] == r[..4] && r[..2] + [r[2]] == r[..3] && r[..1] + [r[1]] == r[..2];
    assert r[..1] == [] + [r[0]];
    Proceeding(w, [], r[0]);
    Proceeding(w, r[..1], r[1]);
    Proceeding(w, r[..2], r[2]);
    Proceeding(w, r[..3], r[3]);
    Proceeding(w, r[..4], r[4]);
  }

  /** The world after any number of rounds. */
  ghost function RoundedAll(w: World, looks: seq<Inputs>): World
    decreases |looks|
  {
    if looks == [] then w else Rounded(RoundedAll(w, looks[..|looks| - 1]), looks[|looks| - 1])
  }

  lemma {:induction false} CourseOfRounds(w: World, looks: seq<Inputs>)
    ensures Fair(Rounds(looks)) && Course(w, Rounds(looks)) == RoundedAll(w, looks)
    decreases |looks|
  {
    RoundsAreFair(looks);
    if looks != [] {
      var n := |looks| - 1;
      CourseOfRounds(w, looks[..n]);
      CourseOfRound(RoundedAll(w, looks[..n]), looks[n]);
      CourseOfJoined(w, Rounds(looks[..n]), Round(looks[n]));
    }
  }

  // ---- One round ----------------------------------------------------------------------------------

  lemma RoundKeepsLink(w: World, look: Inputs)
    requires Linked(w)
    ensures Linked(Rounded(w, look))
  {
    CourseOfRound(w, look);
    CoursesStayLinked(w, Round(look));
  }

  /** A round without a request: the manager finds nothing to do. */
  lemma IdleRound(w: World, look: Inputs)
    requires Quiet(w) && Observed(w, look).phase.Idle?
    ensures Rounded(w, look) == Observed(w, look)
  {}

  /** A round with a request carries the request out. */
  lemma BusyRound(w: World, look: Inputs)
    requires Quiet(w) && Observed(w, look).phase.Asking? && !Observed(w, look).phase.action.NoAction?
    ensures var r, seen := Rounded(w, look), Observed(w, look);
            && r.phase.Idle? && r.life.queue == [] && r.radio.policy == w.radio.policy
            && (if seen.phase.action.StopController? then r.radio.state.Stopping? && r.life.controller.Stopped?
                else r.radio.state.Starting? && r.life.controller.Running?)
  {
    hide Attuned;
    var seen := Observed(w, look);
    var asked := Requested(seen);
    var answered := Concluded(asked, look);
    Ble.DrainCarriesOut(answered.life);
  }

  /** The table of one round from a quiet world. */
  lemma RoundApproaches(w: World, look: Inputs, target: bool)
    requires Quiet(w) && Steady(w.radio.policy, look, target) && LetGo(w, look) && Willing(w, target)
    ensures var r := Rounded(w, look);
            && Quiet(r) && !r.radio.state.Failed? && r.radio.policy == w.radio.policy
            && (Distance(w, target) == 0 ==> Distance(r, target) == 0)
            && (Distance(w, target) > 0 ==> Distance(r, target) < Distance(w, target))
  {
    RoundKeepsLink(w, look);
    var seen := Observed(w, look);
    if seen.phase.Idle? {
      IdleRound(w, look);
    } else {
      BusyRound(w, look);
    }
  }

  /** An unwilling world does not move at all. */
  lemma RoundChangesNothing(w: World, look: Inputs, target: bool)
    requires Quiet(w) && Steady(w.radio.policy, look, target) && !Willing(w, target)
    ensures Rounded(w, look) == w
  {
    IdleRound(w, look);
  }

  lemma RestIsNear(w: World, target: bool)
    requires Quiet(w) && Willing(w, target)
    ensures AtRest(w, target) <==> Distance(w, target) == 0
  {}

  // ---- Any number of rounds -----------------------------------------------------------------------

  predicate AllSteady(policy: Policy, looks: seq<Inputs>, target: bool) {
    forall i :: 0 <= i < |looks| ==> Steady(policy, looks[i], target)
  }

  ghost predicate AllLetGo(w: World, looks: seq<Inputs>)
    decreases |looks|
  {
    looks == [] ||
    (AllLetGo(w, looks[..|looks| - 1]) && LetGo(RoundedAll(w, looks[..|looks| - 1]), looks[|looks| - 1]))
  }

  lemma {:induction false} RoundsApproach(w: World, looks: seq<Inputs>, target: bool)
    requires Quiet(w) && AllSteady(w.radio.policy, looks, target) && AllLetGo(w, looks) && Willing(w, target)
    ensures var r := RoundedAll(w, looks);
            && Quiet(r) && Willing(r, target) && r.radio.policy == w.radio.policy
            && (!w.radio.state.Failed? || looks != [] ==> !r.radio.state.Failed?)
            && (Distance(r, target) == 0 || Distance(r, target) + |looks| <= Distance(w, target))
    decreases |looks|
  {
    hide Quiet, Steady, LetGo, Rounded, Distance;
    if looks != [] {
      var n := |looks| - 1;
      RoundsApproach(w, looks[..n], target);
      RoundApproaches(RoundedAll(w, looks[..n]), looks[n], target);
    }
  }

  lemma {:induction false} RoundsChangeNothing(w: World, looks: seq<Inputs>, target: bool)
    requires Quiet(w) && AllSteady(w.radio.policy, looks, target) && !Willing(w, target)
    ensures RoundedAll(w, looks) == w
    decreases |looks|
  {
    hide Quiet, Steady, Rounded;
    if looks != [] {
      var n := |looks| - 1;
      RoundsChangeNothing(w, looks[..n], target);
      RoundChangesNothing(w, looks[n], target);
    }
  }

  /** Under a steady wish four rounds bring a quiet world to rest exactly when it is willing to try. */
  lemma SteadyRoundsSettle(w: World, looks: seq<Inputs>, target: bool)
    requires Quiet(w) && |looks| >= 4 && AllSteady(w.radio.policy, looks, target) && AllLetGo(w, looks)
    ensures AtRest(RoundedAll(w, looks), target) <==> Willing(w, target)
  {
    hide Linked, Distance;
    if Willing(w, target) {
      RoundsApproach(w, looks, target);
      RestIsNear(RoundedAll(w, looks), target);
    } else {
      RoundsChangeNothing(w, looks, target);
    }
  }

  // ---- A wish that changes ------------------------------------------------------------------------

  /** How many of the looks find the radio not at rest where they want it. */
  ghost function Restless(w: World, looks: seq<Inputs>): nat
    decreases |looks|
  {
    if looks == [] then 0
    else
      var n := |looks| - 1;
      var before := RoundedAll(w, looks[..n]);
      Restless(w, looks[..n]) + if AtRest(before, RadioTarget(w.radio.policy, looks[n])) then 0 else 1
  }

  /** How often the wish changes from one look to the next. */
  function Changes(policy: Policy, looks: seq<Inputs>): nat {
    if |looks| < 2 then 0
    else
      var n := |looks| - 1;
      Changes(policy, looks[..n]) + if RadioTarget(policy, looks[n]) == RadioTarget(policy, looks[n - 1]) then 0 else 1
  }

  /**
   * However the wish moves: from a quiet world that has not failed, or has activity to retry for, every change of the
   * wish costs four restless rounds at most, and so does the beginning. Nothing cycles by itself.
   */
  lemma {:induction false} RestIsDisturbedByChangesOnly(w: World, looks: seq<Inputs>)
    requires Quiet(w) && (w.radio.state.Failed? ==> w.radio.activityPending) && AllLetGo(w, looks) && looks != []
    ensures var r, target := RoundedAll(w, looks), RadioTarget(w.radio.policy, looks[|looks| - 1]);
            && Quiet(r) && !r.radio.state.Failed? && r.radio.policy == w.radio.policy
            && Restless(w, looks) + Distance(r, target) <= 4 * (1 + Changes(w.radio.policy, looks))
    decreases |looks|
  {
    hide Quiet, LetGo, Rounded, Distance, RadioTarget, AtRest;
    var n := |looks| - 1;
    var before, target := RoundedAll(w, looks[..n]), RadioTarget(w.radio.policy, looks[n]);
    if n > 0 {
      RestIsDisturbedByChangesOnly(w, looks[..n]);
    }
    RoundApproaches(before, looks[n], target);
    RestIsNear(before, target);
  }

  /** The manager finishes what is queued and under way. */
  const LANDING := [Managing(Ble.Draining), Managing(Ble.Processing(true))]

  ghost function Landed(w: World): World {
    Happened(Happened(w, Managing(Ble.Draining)), Managing(Ble.Processing(true)))
  }

  lemma LandingIsQuiet(w: World)
    requires Linked(w) && w.phase.Idle? && !w.life.controller.Failed?
    ensures Fair(LANDING) && Course(w, LANDING) == Landed(w) && Quiet(Landed(w)) && Landed(w).radio == w.radio
  {
    assert LANDING[..1] == [] + [LANDING[0]] && LANDING == LANDING[..1] + [LANDING[1]];
    Proceeding(w, [], LANDING[0]);
    Proceeding(w, LANDING[..1], LANDING[1]);
    CoursesStayLinked(w, LANDING);
    Ble.DrainCarriesOut(w.life);
  }

  /**
   * From every linked world between two chains, with a working Bluetooth stack, a steady wish and a service that lets
   * go when asked to: once the manager has finished what was under way, four rounds at whatever times settle the radio
   * and all further rounds keep it settled, exactly when the machine has not failed, or has activity to retry for, or
   * finds the controller where it is wanted. Otherwise nothing moves again.
   */
  lemma FourRoundsSettle(w: World, looks: seq<Inputs>, target: bool)
    requires Linked(w) && w.phase.Idle? && !w.life.controller.Failed?
    requires |looks| >= 4 && AllSteady(w.radio.policy, looks, target)
    requires AllLetGo(Landed(w), looks)
    ensures Fair(LANDING) && Fair(Rounds(looks))
    ensures var landed := Course(w, LANDING);
            var r := Course(landed, Rounds(looks));
            && landed == Landed(w) && landed.radio == w.radio && r.phase.Idle? && r.life.queue == []
            && (Settled(r.radio, Shown(r, looks[|looks| - 1])) <==> Willing(landed, target))
            && (AtRest(r, target) <==> Willing(landed, target))
            && (!Willing(landed, target) ==> r == landed)
  {
    hide Linked, Distance, Course;
    LandingIsQuiet(w);
    var landed := Landed(w);
    CourseOfRounds(landed, looks);
    assert Steady(w.radio.policy, looks[|looks| - 1], target);
    SteadyRoundsSettle(landed, looks, target);
    if Willing(landed, target) {
      RoundsApproach(landed, looks, target);
    } else {
      RoundsChangeNothing(landed, looks, target);
    }
  }
}
