/** The BLE scale service: modes, link states, notification generations and the manager task's loop. */
module BleService {
  import opened AcaiaEvents
  import opened AcaiaWire
  import opened Clock
  import opened ControllerTransition
  import opened FrameFramer
  import opened FrameStream
  import opened Options
  import Ble = BleLifecycle

  datatype Link = Off | Scanning | Connecting | Ready | Reconnecting

  datatype Mode = Idle | Connect | DiagScan

  type Address = seq<Byte>

  const NO_ADDRESS: Address := [0, 0, 0, 0, 0, 0]

  datatype WeightReading =
    WeightReading(grams: real, stable: bool, scaleTimerMs: Option<nat>, sequence: Millis, timestampMs: Millis)

  datatype BatteryReading = BatteryReading(percent: Byte, timestampMs: Millis)

  const NO_WEIGHT := WeightReading(0.0, false, None, 0, 0)
  const NO_BATTERY := BatteryReading(0, 0)

  const HEARTBEAT_PERIOD_MS: Millis := 2000
  const RESUBSCRIBE_PERIOD_MS: Millis := 1000
  const MAX_RESUBSCRIBE_ATTEMPTS := 5

  // ---- Readings --------------------------------------------------------------------------

  datatype Readings = Readings(weight: WeightReading, battery: BatteryReading, peer: Address, weightCount: Millis)

  const HALF := 0x8000_0000

  /** A stamp after the last one, never the sentinel zero. */
  function MonotonicStamp(ts: Millis, last: Millis): Millis {
    var moved := if Elapsed(ts, last) == 0 || Elapsed(ts, last) >= HALF then At(last + 1) else ts;
    if moved == 0 then 1 else moved
  }

  /**
   * The stamp is a real one, and it comes after the last as far as 32 bits can order them; it is the time itself if
   * that does, and otherwise the next moment.
   */
  lemma StampAdvances(ts: Millis, last: Millis)
    ensures MonotonicStamp(ts, last) != 0
    ensures 0 < Elapsed(MonotonicStamp(ts, last), last) <= HALF
    ensures 0 < Elapsed(ts, last) < 0x8000_0000 && ts != 0 ==> MonotonicStamp(ts, last) == ts
    ensures !(0 < Elapsed(ts, last) < 0x8000_0000) ==>
              Elapsed(MonotonicStamp(ts, last), last) == if last == 0xFFFF_FFFF then 2 else 1
  {}

  /** What one decoded event does to the readings. */
  function Heard(r: Readings, e: Event, now: Millis, target: Address): Readings {
    match e
    case WeightEvent(grams, stable, timer) =>
      var sequence := At(r.weightCount + 1);
      r.(weight := WeightReading(grams, stable, timer, sequence, MonotonicStamp(now, r.weight.timestampMs)),
         weightCount := sequence)
    case BatteryEvent(percent) =>
      r.(battery := BatteryReading(percent, MonotonicStamp(now, r.battery.timestampMs)), peer := target)
    case _ => r
  }

  function HeardAll(r: Readings, items: seq<Item>, now: Millis, target: Address): Readings
    decreases |items|
  {
    if items == [] then r
    else
      var before := HeardAll(r, items[..|items| - 1], now, target);
      var event := ReportOf(items[|items| - 1]).event;
      if event.None? then before else Heard(before, event.value, now, target)
  }

  /** What the scan of a stream finds in addition when more bytes arrive. */
  ghost function NewItems(heard: seq<Byte>, data: seq<Byte>): seq<Item> {
    var known := |Scan(heard).items|;
    if known <= |Scan(heard + data).items| then Scan(heard + data).items[known..] else []
  }

  lemma SinceIsNew(heard: seq<Byte>, items: seq<Item>, data: seq<Byte>)
    requires Since(heard, items, heard + data)
    ensures items == NewItems(heard, data)
  {}

  lemma {:induction false} HeardInParts(r: Readings, a: seq<Item>, b: seq<Item>, now: Millis, target: Address)
    ensures HeardAll(r, a + b, now, target) == HeardAll(HeardAll(r, a, now, target), b, now, target)
    decreases |b|
  {
    hide Heard, ReportOf;
    if b == [] {
      assert a + b == a;
    } else {
      var front := b[..|b| - 1];
      HeardInParts(r, a, front, now, target);
      assert (a + b)[..|a + b| - 1] == a + front;
    }
  }

  lemma NewItemsAdd(heard: seq<Byte>, data: seq<Byte>)
    ensures Scan(heard + data).items == Scan(heard).items + NewItems(heard, data)
  {
    ScanResumes(heard, data);
  }

  lemma NothingHeardYet(r: Readings, heard: seq<Byte>, now: Millis, target: Address)
    ensures heard + [] == heard && HeardAll(r, NewItems(heard, []), now, target) == r
  {
    assert heard + [] == heard;
    NewItemsAdd(heard, []);
    hide Scan;
    assert NewItems(heard, []) == [];
  }

  /** How a burst of bytes is cut into notifications makes no difference to the readings. */
  lemma ReadingsIgnoreChunking(r: Readings, heard: seq<Byte>, a: seq<Byte>, b: seq<Byte>, now: Millis, target: Address)
    ensures HeardAll(r, NewItems(heard, a + b), now, target) ==
            HeardAll(HeardAll(r, NewItems(heard, a), now, target), NewItems(heard + a, b), now, target)
  {
    hide Scan, HeardAll;
    NewItemsAdd(heard, a);
    NewItemsAdd(heard + a, b);
    NewItemsAdd(heard, a + b);
    assert heard + (a + b) == heard + a + b;
    assert NewItems(heard, a + b) == NewItems(heard, a) + NewItems(heard + a, b);
    HeardInParts(r, NewItems(heard, a), NewItems(heard + a, b), now, target);
  }

  // ---- Packets and the log of what was sent ------------------------------------------------------

  datatype Packet = TarePacket(asked: nat, sent: nat) | Heartbeat | Identify | EventSubscribe

  /** A tare goes out only if no READY entry, or a multiple of 2^32 of them, came between asking and sending. */
  ghost predicate Honoured(p: Packet) {
    p.TarePacket? ==> p.asked <= p.sent && (p.sent - p.asked) % WRAP == 0
  }

  ghost predicate AllHonoured(log: seq<Packet>) {
    forall i :: 0 <= i < |log| ==> Honoured(log[i])
  }

  /** Each queued tare carries the epoch of the READY entry count at which it was asked for. */
  ghost predicate Stamped(queue: seq<Ble.Command>, stamps: seq<nat>, entries: nat) {
    && |stamps| == |queue|
    && forall i :: 0 <= i < |queue| && queue[i].Tare? ==> stamps[i] <= entries && queue[i].epoch == At(stamps[i])
  }

  ghost function Due(c: Ble.Command, stamp: nat, entries: nat, usable: bool): seq<Packet> {
    if usable && c.Tare? && c.epoch == At(entries) then [TarePacket(stamp, entries)] else []
  }

  /** The tares among the queued commands that a drain in READY sends: exactly those of the current epoch. */
  ghost function TaresDue(queue: seq<Ble.Command>, stamps: seq<nat>, entries: nat, usable: bool): seq<Packet>
    requires |stamps| == |queue|
  {
    if queue == [] then []
    else
      Due(queue[0], stamps[0], entries, usable) + TaresDue(queue[1..], stamps[1..], entries, usable)
  }

  lemma SameEpoch(asked: nat, entries: nat)
    requires asked <= entries && At(asked) == At(entries)
    ensures (entries - asked) % WRAP == 0
  {
    Shift(entries - asked, asked);
  }

  lemma DueTareIsHonoured(queue: seq<Ble.Command>, stamps: seq<nat>, entries: nat)
    requires Stamped(queue, stamps, entries) && queue != []
    ensures queue[0].Tare? && queue[0].epoch == At(entries) ==> Honoured(TarePacket(stamps[0], entries))
  {
    if queue[0].Tare? && queue[0].epoch == At(entries) {
      SameEpoch(stamps[0], entries);
    }
  }

  /** A tare asked for in the session that is READY now is sent by the drain. */
  lemma {:induction false} TareIsDue(queue: seq<Ble.Command>, stamps: seq<nat>, entries: nat, i: nat)
    requires |stamps| == |queue| && i < |queue| && queue[i] == Ble.Tare(At(entries))
    ensures TarePacket(stamps[i], entries) in TaresDue(queue, stamps, entries, true)
  {
    if i > 0 {
      TareIsDue(queue[1..], stamps[1..], entries, i - 1);
    }
  }

  /** And nothing else is: every packet of the drain is such a tare, and there is none outside READY. */
  lemma {:induction false} OnlyTaresAreDue(queue: seq<Ble.Command>, stamps: seq<nat>, entries: nat, usable: bool,
                                           p: Packet)
    returns (i: nat)
    requires |stamps| == |queue| && p in TaresDue(queue, stamps, entries, usable)
    ensures usable && i < |queue| && queue[i] == Ble.Tare(At(entries)) && p == TarePacket(stamps[i], entries)
  {
    if p in Due(queue[0], stamps[0], entries, usable) {
      i := 0;
    } else {
      i := OnlyTaresAreDue(queue[1..], stamps[1..], entries, usable, p);
      i := i + 1;
    }
  }

  lemma Successor(n: nat)
    ensures At(At(n) + 1) == At(n + 1)
  {}

  lemma StampLengths(queue: seq<Ble.Command>, stamps: seq<nat>, entries: nat)
    requires Stamped(queue, stamps, entries)
    ensures |stamps| == |queue|
  {}

  lemma StampedTail(queue: seq<Ble.Command>, stamps: seq<nat>, entries: nat)
    requires Stamped(queue, stamps, entries) && queue != []
    ensures Stamped(queue[1..], stamps[1..], entries)
  {}

  lemma StampedMore(queue: seq<Ble.Command>, stamps: seq<nat>, entries: nat, c: Ble.Command)
    requires Stamped(queue, stamps, entries) && (c.Tare? ==> c.epoch == At(entries))
    ensures Stamped(queue + [c], stamps + [entries], entries)
  {}

  lemma StampedLater(queue: seq<Ble.Command>, stamps: seq<nat>, entries: nat, later: nat)
    requires Stamped(queue, stamps, entries) && entries <= later
    ensures Stamped(queue, stamps, later)
  {}

  /** What is scanned for and when: the policy, the end of the pause, and whether a scan counts as running. */
  datatype ScanPlan = ScanPlan(policy: Ble.ScanPolicy, nextStartMs: Millis, active: bool)

  /** A new policy takes effect at once: in a connect session the next round starts a scan under it. */
  function Planned(c: Ble.Command, p: ScanPlan, connecting: bool): ScanPlan {
    if c.SetScanPolicy? then ScanPlan(c.policy, 0, p.active && !connecting) else p
  }

  function PlanAfter(queue: seq<Ble.Command>, p: ScanPlan, connecting: bool): ScanPlan {
    if queue == [] then p else PlanAfter(queue[1..], Planned(queue[0], p, connecting), connecting)
  }

  /** Of several policies in the queue the latest is the one that is left. */
  lemma {:induction false} LatestPolicyStays(queue: seq<Ble.Command>, p: ScanPlan, connecting: bool, i: nat)
    requires i < |queue| && queue[i].SetScanPolicy? && forall k :: i < k < |queue| ==> !queue[k].SetScanPolicy?
    ensures PlanAfter(queue, p, connecting) == ScanPlan(queue[i].policy, 0, p.active && !connecting)
  {
    var later := Planned(queue[0], p, connecting);
    if i > 0 {
      LatestPolicyStays(queue[1..], later, connecting, i - 1);
    } else {
      NoPolicyChangesNothing(queue[1..], later, connecting);
    }
  }

  lemma {:induction false} NoPolicyChangesNothing(queue: seq<Ble.Command>, p: ScanPlan, connecting: bool)
    requires forall k :: 0 <= k < |queue| ==> !queue[k].SetScanPolicy?
    ensures PlanAfter(queue, p, connecting) == p
  {
    if queue != [] {
      NoPolicyChangesNothing(queue[1..], p, connecting);
    }
  }

  /** Notification generations are counted up past zero, which stands for none. */
  function NextGeneration(issued: Millis): (g: Millis)
    ensures g != 0
  {
    if At(issued + 1) == 0 then 1 else At(issued + 1)
  }

  /** What notifications in one go add up to. */
  function Joined(data: seq<seq<Byte>>): seq<Byte> {
    if data == [] then [] else Joined(data[..|data| - 1]) + data[|data| - 1]
  }

  // ---- Link states -----------------------------------------------------------------------------------

  /** The moves of the link while Connect mode runs. */
  predicate LinkEdge(from: Link, to: Link, hadReady: bool) {
    match from
    case Off => to.Off? || to.Scanning?
    case Scanning => to.Scanning? || to.Connecting?
    case Reconnecting => to.Reconnecting? || to.Connecting?
    case Connecting => to.Ready? || (if hadReady then to.Reconnecting? else to.Scanning?)
    case Ready => to.Ready? || to.Reconnecting?
  }

  /**
   * What a move of the link does to the readings: live weight ends with READY, a battery reading does not outlive its
   * peer, OFF clears all.
   */
  function Crossing(r: Readings, from: Link, to: Link, target: Address): Readings {
    if from == to then r
    else if to.Off? then r.(weight := NO_WEIGHT, battery := NO_BATTERY, peer := NO_ADDRESS)
    else if to.Ready? then
      if r.battery.timestampMs != 0 && r.peer != target then r.(battery := NO_BATTERY, peer := NO_ADDRESS) else r
    else if from.Ready? then r.(weight := NO_WEIGHT)
    else r
  }

  /** Connect wins over a diagnostic lease; suspension wins over both. */
  function DesiredMode(suspended: bool, connectWanted: bool, lease: Millis): Mode {
    if suspended then Idle else if connectWanted then Connect else if lease != 0 then DiagScan else Idle
  }

  function UnexpiredLease(deadline: Millis, now: Millis): Millis {
    if deadline != 0 && (Elapsed(deadline, now) == 0 || Elapsed(deadline, now) >= HALF) then 0 else deadline
  }

  /** Who gets the radio. */
  lemma ModeWanted(suspended: bool, connectWanted: bool, deadline: Millis, now: Millis)
    ensures var mode := DesiredMode(suspended, connectWanted, UnexpiredLease(deadline, now));
            && (mode.Connect? <==> !suspended && connectWanted)
            && (mode.DiagScan? <==>
                  !suspended && !connectWanted && deadline != 0 && 0 < Elapsed(deadline, now) < 0x8000_0000)
  {}

  /** When the pause between two scans ends; the value zero stands for no pause. */
  function PauseEnd(next: Millis, pauseMs: nat, now: Millis): Millis {
    if next != 0 then next
    else if At(now + pauseMs) == 0 then 1
    else At(now + pauseMs)
  }

  /** A finished scan is followed by another at once, or when the pause is over. */
  predicate ScanDue(next: Millis, pauseMs: nat, now: Millis) {
    (next == 0 && pauseMs == 0) || Elapsed(now, PauseEnd(next, pauseMs, now)) < HALF
  }

  /** What each move leaves of the readings. */
  lemma WhatCrossingLeaves(r: Readings, from: Link, to: Link, target: Address)
    requires from != to && !from.Off?
    ensures var c := Crossing(r, from, to, target);
            && c.weightCount == r.weightCount
            && (c.weight == if from.Ready? || to.Off? then NO_WEIGHT else r.weight)
            && (c.battery == r.battery && c.peer == r.peer <==>
                  (r.battery == NO_BATTERY && r.peer == NO_ADDRESS)
                  || (!to.Off? && (to.Ready? ==> r.battery.timestampMs == 0 || r.peer == target)))
            && (c.battery != r.battery || c.peer != r.peer ==> c.battery == NO_BATTERY && c.peer == NO_ADDRESS)
  {}

  /**
   * In true time: a scan that is found finished is followed by another at once if there is no pause, and otherwise at
   * the first look after the pause.
   */
  lemma PauseIsKept(over: nat, pauseMs: nat, now: nat)
    requires over <= now < over + pauseMs + 0x8000_0000 && pauseMs < 0x8000_0000
    ensures ScanDue(0, pauseMs, At(over)) <==> pauseMs == 0
    ensures var end := PauseEnd(0, pauseMs, At(over));
            && end != 0 && PauseEnd(end, pauseMs, At(now)) == end
            && (At(over + pauseMs) != 0 ==> (ScanDue(end, pauseMs, At(now)) <==> now >= over + pauseMs))
  {
    assert At(At(over) + pauseMs) == At(over + pauseMs) by {
      Wraps(over, pauseMs);
    }
    EndIsAhead(over, over + pauseMs);
    EndIsAhead(now, over + pauseMs);
    hide At, Elapsed;
  }

  lemma Wraps(a: nat, b: nat)
    ensures At(At(a) + b) == At(a + b)
  {}

  lemma EndIsAhead(now: nat, end: nat)
    requires now < end + 0x8000_0000 && end <= now + 0x8000_0000
    ensures Elapsed(At(now), At(end)) < 0x8000_0000 <==> now >= end
    ensures At(now) != 0 && At(end) == 0 ==> now != end
  {
    if now >= end {
      Shift(now - end, end);
    } else {
      Shift(end - now, now);
    }
  }

  /** The answers of the Bluetooth stack during one tick, and what the host task delivers in its midst. */
  datatype Stack = Stack(now: Millis, scanStarts: bool, scanning: bool, connects: bool, gattFound: bool,
                         subscribes: bool, early: seq<seq<Byte>>, drops: bool, identifyWritten: bool,
                         subscribeWritten: bool, deinitWorks: bool, initWorks: bool)

  predicate Handshakes(s: Stack) {
    s.gattFound && s.subscribes && s.identifyWritten && s.subscribeWritten
  }

  /** Where the link stands after the first round of a connect session. */
  function FirstLink(s: Stack): Link {
    if s.scanStarts then Scanning else Off
  }

  /** The connection gets as far as notifications. */
  predicate Talks(s: Stack) {
    s.connects && s.gattFound && s.subscribes
  }

  /** What is then sent. */
  function Greeting(s: Stack): seq<Packet> {
    if !Talks(s) then [] else if s.identifyWritten then [Identify, EventSubscribe] else [Identify]
  }

  class BleScaleService {
    // Snapshot
    var state: Link
    var connectionEpoch: Millis
    var readings: Readings
    // Manager
    var mode: Mode
    var hadReadyThisEnable: bool
    var connectScanNextStartMs: Millis
    var scanPolicy: Ble.ScanPolicy
    var lastHeartbeatMs: Millis
    var rxGenerationIssued: Millis
    var armMs: Millis
    var rxWeightCountAtArm: Millis
    var resubscribeAttempts: nat
    var client: bool
    var writeChar: bool
    // Edges between tasks
    var connectWanted: bool
    var diagScanDeadlineMs: Millis
    var powerSuspended: bool
    var foundDevice: bool
    var disconnectFlag: bool
    var scanActive: bool
    var diagMode: bool
    var controller: Controller
    var controllerRequestPending: bool
    var queue: seq<Ble.Command>
    var rxAcceptedGeneration: Millis
    var target: Address
    // Host task
    const receiver: Framer
    var rxHostGeneration: Millis
    // History
    ghost var entries: nat       // READY entries since begin()
    ghost var stamps: seq<nat>   // for each queued command, the entries when it was posted
    ghost var sent: seq<Packet>
    ghost var linkUp: bool       // the peer of the client is connected

    ghost function Life(): Ble.Lifecycle
      reads `controller, `controllerRequestPending, `queue
    {
      Ble.Lifecycle(controller, controllerRequestPending, queue)
    }

    ghost function Plan(): ScanPlan
      reads `scanPolicy, `connectScanNextStartMs, `scanActive
    {
      ScanPlan(scanPolicy, connectScanNextStartMs, scanActive)
    }

    /** Queue, epochs, log and receiver. */
    ghost predicate Plumbed()
      reads `controller, `controllerRequestPending, `queue, `stamps, `connectionEpoch, `entries, `sent,
            receiver, receiver.buf
    {
      && receiver.Valid() && Ble.Coherent(Life())
      && connectionEpoch == At(entries) && Stamped(queue, stamps, entries) && AllHonoured(sent)
    }

    ghost predicate Cleared()
      reads `readings
    {
      readings.weight == NO_WEIGHT && readings.battery == NO_BATTERY && readings.peer == NO_ADDRESS
    }

    /** What the link state says about everything that hangs on it. */
    ghost predicate Parked()
      reads `state, `mode, `client, `writeChar, `rxAcceptedGeneration, `readings, `linkUp,
            `disconnectFlag, `resubscribeAttempts, `diagMode
    {
      && (client <==> state.Ready?) && (writeChar <==> state.Ready?) && (rxAcceptedGeneration != 0 <==> state.Ready?)
      && (state.Off? ==> Cleared()) && (!mode.Connect? ==> state.Off?) && (diagMode ==> mode.DiagScan?)
      && (state.Ready? && !linkUp ==> disconnectFlag)
      && resubscribeAttempts <= MAX_RESUBSCRIBE_ATTEMPTS
    }

    /** What holds whenever the manager task sleeps. */
    ghost predicate Valid()
      reads this, receiver, receiver.buf
    {
      && Plumbed() && Parked()
      && (controller.Running? || controller.Stopped? || controller.Failed?) && (!controller.Running? ==> mode.Idle?)
    }

    /** As begin() leaves it. */
    constructor ()
      ensures Valid() && fresh(receiver) && fresh(receiver.buf)
      ensures Life() == Ble.Lifecycle(Controller.Running, false, []) && mode.Idle? && entries == 0 && sent == []
      ensures state.Off? && !connectWanted && diagScanDeadlineMs == 0 && !powerSuspended
      ensures !foundDevice && !disconnectFlag && !scanActive && !diagMode && !hadReadyThisEnable && !linkUp
      ensures connectScanNextStartMs == 0 && scanPolicy == Ble.ScanPolicy(500, 75, 10000, 0)
      ensures lastHeartbeatMs == armMs == rxWeightCountAtArm == rxGenerationIssued == rxHostGeneration == 0
      ensures resubscribeAttempts == 0 && target == NO_ADDRESS
      ensures readings == Readings(WeightReading(0.0, false, None, 0, 0), BatteryReading(0, 0), [0, 0, 0, 0, 0, 0], 0)
    {
      receiver := new Framer();
      state, connectionEpoch, readings := Off, 0, Readings(NO_WEIGHT, NO_BATTERY, NO_ADDRESS, 0);
      mode, hadReadyThisEnable, connectScanNextStartMs, scanPolicy := Idle, false, 0, Ble.ScanPolicy(500, 75, 10000, 0);
      lastHeartbeatMs, rxGenerationIssued, armMs, rxWeightCountAtArm, resubscribeAttempts := 0, 0, 0, 0, 0;
      client, writeChar, connectWanted, diagScanDeadlineMs, powerSuspended := false, false, false, 0, false;
      foundDevice, disconnectFlag, scanActive, diagMode := false, false, false, false;
      controller, controllerRequestPending, queue := Controller.Running, false, [];
      rxAcceptedGeneration, target, rxHostGeneration := 0, NO_ADDRESS, 0;
      entries, stamps, sent, linkUp := 0, [], [], false;
    }

    // ---- Requests from other tasks -----------------------------------------------------------------------

    method Enable()
      requires Valid()
      modifies `connectWanted
      ensures Valid() && connectWanted
    {
      connectWanted := true;
    }

    method Disable()
      requires Valid()
      modifies `connectWanted
      ensures Valid() && !connectWanted
    {
      connectWanted := false;
    }

    method SetPowerSuspended(suspended: bool)
      requires Valid()
      modifies `powerSuspended
      ensures Valid() && powerSuspended == suspended
    {
      powerSuspended := suspended;
    }

    /** The lease never has the deadline zero, which stands for none. */
    method StartDiagScan(leaseMs: Millis, now: Millis)
      requires Valid()
      modifies `diagScanDeadlineMs
      ensures Valid() && diagScanDeadlineMs != 0
      ensures Elapsed(diagScanDeadlineMs, now) == leaseMs || (diagScanDeadlineMs == 1 && Elapsed(0, now) == leaseMs)
    {
      var deadline: Millis := At(now + leaseMs);
      diagScanDeadlineMs := if deadline == 0 then 1 else deadline;
    }

    method StopDiagScan()
      requires Valid()
      modifies `diagScanDeadlineMs
      ensures Valid() && diagScanDeadlineMs == 0
    {
      diagScanDeadlineMs := 0;
    }

    method Enqueue(c: Ble.Command) returns (ok: bool)
      requires Stamped(queue, stamps, entries) && (c.Tare? ==> c.epoch == At(entries))
      modifies `queue, `stamps
      ensures ok <==> old(|queue|) < Ble.QUEUE_DEPTH
      ensures Life() == Ble.Posted(old(Life()), c) && Stamped(queue, stamps, entries)
      ensures !ok ==> stamps == old(stamps)
    {
      if |queue| >= Ble.QUEUE_DEPTH {
        return false;
      }
      StampedMore(queue, stamps, entries, c);
      queue, stamps := queue + [c], stamps + [entries];
      ok := true;
    }

    method RequestController(c: Ble.Command) returns (accepted: bool)
      requires Valid() && Ble.IsLifecycle(c)
      modifies `queue, `stamps, `controllerRequestPending
      ensures Valid() && accepted == Ble.Acceptable(old(Life()), c)
      ensures Life() == Ble.Requested(old(Life()), c)
      ensures accepted <==>
                && !old(controllerRequestPending) && |old(queue)| < 8
                && if c.StopController? then controller.Running? else controller.Stopped?
      ensures queue == if accepted then old(queue) + [c] else old(queue)
    {
      Ble.RequestKeepsCoherence(Life(), c);
      if (if c.StopController? then !controller.Running? else !controller.Stopped?) {
        return false;
      }
      if controllerRequestPending {
        return false;
      }
      controllerRequestPending := true;
      accepted := Enqueue(c);
      if !accepted {
        controllerRequestPending := false;
      }
    }

    method RequestTare() returns (ok: bool)
      requires Valid()
      modifies `queue, `stamps
      ensures Valid() && Life() == Ble.Posted(old(Life()), Ble.Tare(connectionEpoch))
      ensures queue == if ok then old(queue) + [Ble.Tare(connectionEpoch)] else old(queue)
      ensures ok <==> old(|queue|) < 8
    {
      Ble.PostKeepsCoherence(Life(), Ble.Tare(connectionEpoch));
      ok := Enqueue(Ble.Tare(connectionEpoch));
    }

    method SetScanPolicy(policy: Ble.ScanPolicy)
      requires Valid()
      modifies `queue, `stamps
      ensures Valid() && Life() == Ble.Posted(old(Life()), Ble.SetScanPolicy(policy))
      ensures queue == if old(|queue|) < 8 then old(queue) + [Ble.SetScanPolicy(policy)] else old(queue)
    {
      Ble.PostKeepsCoherence(Life(), Ble.SetScanPolicy(policy));
      var ok := Enqueue(Ble.SetScanPolicy(policy));
    }

    // ---- Callbacks of the host task -------------------------------------------------------------------------

    /** A matching advertiser: only the first one since the last reset is taken. */
    method OnScanMatch(address: Address)
      requires Valid()
      modifies `foundDevice, `target
      ensures Valid() && (old(diagMode || foundDevice) ==> target == old(target))
      ensures !old(diagMode || foundDevice) ==> target == address && foundDevice
      ensures foundDevice == (old(foundDevice) || !diagMode)
    {
      if diagMode || foundDevice {
        return;
      }
      target := address;
      foundDevice := true;
    }

    method OnDisconnect()
      requires Valid()
      modifies `disconnectFlag, `linkUp
      ensures Valid() && disconnectFlag && !linkUp
    {
      disconnectFlag := true;
      linkUp := false;
    }

    /**
     * A notification of another generation changes nothing. One of the accepted generation is scanned together with
     * everything heard in that generation before, and with nothing else.
     */
    method OnNotify(generation: Millis, data: seq<Byte>, now: Millis)
      requires receiver.Valid()
      modifies `readings, `rxHostGeneration, receiver, receiver.buf
      ensures receiver.Valid() && (old(Valid()) ==> Valid())
      ensures generation == 0 || generation != rxAcceptedGeneration ==>
                && readings == old(readings)
                && rxHostGeneration == old(rxHostGeneration) && receiver.fed == old(receiver.fed)
      ensures generation != 0 && generation == rxAcceptedGeneration ==>
                && rxHostGeneration == generation
                && var heard := if old(rxHostGeneration) == generation then old(receiver.fed) else [];
                   && receiver.fed == heard + data
                   && readings == HeardAll(old(readings), NewItems(heard, data), now, target)
    {
      hide Scan, NewItems, HeardAll, Since;
      if generation == 0 || generation != rxAcceptedGeneration {
        return;
      }
      if rxHostGeneration != generation {
        receiver.Reset();
        rxHostGeneration := generation;
      }
      ghost var heard := receiver.fed;
      var items := receiver.Push(data);
      SinceIsNew(heard, items, data);
      Deliver(items, now);
    }

    method Deliver(items: seq<Item>, now: Millis)
      modifies `readings
      ensures readings == HeardAll(old(readings), items, now, target)
    {
      hide Heard, ReportOf;
      ghost var was := readings;
      for i := 0 to |items|
        invariant readings == HeardAll(was, items[..i], now, target)
      {
        assert items[..i + 1][..i] == items[..i];
        var event := ReportOf(items[i]).event;
        if event.Some? {
          OnEvent(event.value, now);
        }
      }
      assert items[..|items|] == items;
    }

    method OnEvent(e: Event, now: Millis)
      modifies `readings
      ensures readings == Heard(old(readings), e, now, target)
    {
      match e {
        case WeightEvent(grams, stable, timer) =>
          var t := MonotonicStamp(now, readings.weight.timestampMs);
          var sequence: Millis := At(readings.weightCount + 1);
          readings := readings.(weightCount := sequence, weight := WeightReading(grams, stable, timer, sequence, t));
        case BatteryEvent(percent) =>
          var t := MonotonicStamp(now, readings.battery.timestampMs);
          readings := readings.(battery := BatteryReading(percent, t), peer := target);
        case _ =>
      }
    }
 
    // ---- The manager task --------------------------------------------------------------------------------------

    method SendPacket(ghost p: Packet, written: bool) returns (ok: bool)
      requires Plumbed() && (writeChar ==> Honoured(p))
      modifies `sent
      ensures Plumbed() && sent == old(sent) + if writeChar then [p] else []
      ensures ok <==> writeChar && written
    {
      hide Scan, Framer.Valid, Ble.Coherent, Stamped;
      if !writeChar {
        return false;
      }
      sent := sent + [p];
      ok := written;
    }

    /** What a command other than a tare does. */
    method Apply(c: Ble.Command)
      requires !c.Tare?
      modifies `controller, `controllerRequestPending, `scanPolicy, `connectScanNextStartMs, `scanActive
      ensures Life() == Ble.Handled(old(Life()), c)
      ensures Plan() == Planned(c, old(Plan()), mode.Connect?)
    {
      match c {
        case SetScanPolicy(policy) =>
          scanPolicy, connectScanNextStartMs := policy, 0;
          if mode.Connect? {
            scanActive := false;
          }
        case StopController =>
          if controller.Running? {
            controller := Controller.Stopping;
          }
          controllerRequestPending := false;
        case StartController =>
          if controller.Stopped? {
            controller := Controller.Starting;
          }
          controllerRequestPending := false;
        case _ =>
      }
    }

    method HandleFirst()
      requires queue != [] && Plumbed() && Parked()
      modifies `queue, `stamps, `sent, `controller, `controllerRequestPending, `scanPolicy, `connectScanNextStartMs,
               `scanActive
      ensures Plumbed() && Life() == Ble.Handled(old(Life()), old(queue[0])).(queue := old(queue[1..]))
      ensures stamps == old(stamps[1..])
      ensures sent == old(sent) + Due(old(queue[0]), old(stamps[0]), entries, mode.Connect? && state.Ready?)
      ensures Plan() == Planned(old(queue[0]), old(Plan()), mode.Connect?)
    {
      StampLengths(queue, stamps, entries);
      hide AllHonoured, Stamped, Scan, Framer.Valid;
      StampedTail(queue, stamps, entries);
      Ble.HandleKeepsCoherence(Life());
      DueTareIsHonoured(queue, stamps, entries);
      hide Ble.Coherent;
      var c := queue[0];
      ghost var stamp := stamps[0];
      queue, stamps := queue[1..], stamps[1..];
      if c.Tare? {
        if mode.Connect? && state.Ready? && c.epoch == connectionEpoch {
          var ok := SendPacket(TarePacket(stamp, entries), true);
        }
      } else {
        Apply(c);
      }
    }

    /** Takes every queued command; a tare goes out exactly when it belongs to the session that is READY now. */
    method DrainCommands()
      requires Plumbed() && Parked()
      modifies `queue, `stamps, `sent, `controller, `controllerRequestPending, `scanPolicy, `connectScanNextStartMs,
               `scanActive
      ensures Plumbed() && Parked() && Life() == Ble.Drained(old(Life()))
      ensures sent == old(sent) + TaresDue(old(queue), old(stamps), entries, mode.Connect? && state.Ready?)
      ensures Plan() == PlanAfter(old(queue), old(Plan()), mode.Connect?)
    {
      hide Ble.Coherent, Ble.Handled, Stamped, AllHonoured, Due, Scan, Framer.Valid, Planned;
      StampLengths(queue, stamps, entries);
      ghost var usable := mode.Connect? && state.Ready?;
      while queue != []
        invariant Plumbed() && Parked() && |stamps| == |queue| && |old(stamps)| == |old(queue)|
        invariant Ble.Drained(Life()) == Ble.Drained(old(Life()))
        invariant sent + TaresDue(queue, stamps, entries, usable)
                  == old(sent) + TaresDue(old(queue), old(stamps), entries, usable)
        invariant PlanAfter(queue, Plan(), mode.Connect?) == PlanAfter(old(queue), old(Plan()), mode.Connect?)
        decreases |queue|
      {
        HandleFirst();
        StampLengths(queue, stamps, entries);
      }
    }

    method ExpireDiagScanLease(now: Millis)
      modifies `diagScanDeadlineMs
      ensures diagScanDeadlineMs == UnexpiredLease(old(diagScanDeadlineMs), now)
      ensures diagScanDeadlineMs ==
              if 0 < Elapsed(old(diagScanDeadlineMs), now) < 0x8000_0000 then old(diagScanDeadlineMs) else 0
    {
      var left := Elapsed(diagScanDeadlineMs, now);
      if diagScanDeadlineMs != 0 && (left == 0 || left >= HALF) {
        diagScanDeadlineMs := 0;
      }
    }

    // ---- Link and mode transitions -----------------------------------------------------------------------------

    method Transition(next: Link)
      requires Plumbed() && (state.Off? ==> Cleared())
      modifies `state, `readings, `connectionEpoch, `entries
      ensures Plumbed() && state == next
      ensures entries == old(entries) + if next.Ready? && !old(state).Ready? then 1 else 0
      ensures next.Off? ==> Cleared()
      ensures readings == Crossing(old(readings), old(state), next, target)
    {
      hide Scan, Framer.Valid, Ble.Coherent, Stamped, AllHonoured;
      if state == next {
        return;
      }
      var leavingReady := state.Ready? && !next.Ready?;
      var enteringReady := next.Ready? && !state.Ready?;
      if leavingReady {
        readings := readings.(weight := NO_WEIGHT);
      }
      if enteringReady {
        StampedLater(queue, stamps, entries, entries + 1);
        Successor(entries);
        connectionEpoch, entries := At(connectionEpoch + 1), entries + 1;
        if readings.battery.timestampMs != 0 && readings.peer != target {
          readings := readings.(battery := NO_BATTERY, peer := NO_ADDRESS);
        }
      }
      if next.Off? {
        readings := readings.(weight := NO_WEIGHT, battery := NO_BATTERY, peer := NO_ADDRESS);
      }
      state := next;
    }

    method TeardownClient()
      modifies `rxAcceptedGeneration, `client, `writeChar, `foundDevice, `linkUp
      ensures rxAcceptedGeneration == 0 && !client && !writeChar && !foundDevice && !linkUp
    {
      rxAcceptedGeneration := 0;
      client, linkUp := false, false;
      writeChar := false;
      foundDevice := false;
    }

    method StartScan(starts: bool) returns (ok: bool)
      modifies `scanActive
      ensures ok == starts && scanActive == ok
    {
      scanActive := starts;
      ok := starts;
    }

    method EnterMode(m: Mode, stack: Stack)
      modifies `foundDevice, `hadReadyThisEnable, `connectScanNextStartMs, `diagMode, `scanActive
      ensures m.Connect? ==> !foundDevice && !hadReadyThisEnable && connectScanNextStartMs == 0
      ensures m.DiagScan? ==> diagMode && scanActive == stack.scanStarts
      ensures !m.DiagScan? ==> diagMode == old(diagMode) && scanActive == old(scanActive)
    {
      match m {
        case Connect =>
          foundDevice, hadReadyThisEnable, connectScanNextStartMs := false, false, 0;
        case DiagScan =>
          diagMode := true;
          var ok := StartScan(stack.scanStarts);
        case Idle =>
      }
    }

    /** Leaving a mode leaves no client, no accepted notification and no reading behind. */
    method ExitMode()
      requires Plumbed() && Parked()
      modifies `rxAcceptedGeneration, `client, `writeChar, `foundDevice, `linkUp, `scanActive, `connectScanNextStartMs,
               `diagMode, `state, `readings, `connectionEpoch, `entries
      ensures Plumbed() && Parked() && state.Off? && Cleared() && entries == old(entries)
      ensures mode.Connect? ==> !scanActive && !foundDevice && connectScanNextStartMs == 0 && diagMode == old(diagMode)
      ensures mode.DiagScan? ==> !scanActive && !diagMode
      ensures mode.Idle? ==> scanActive == old(scanActive) && diagMode == old(diagMode)
    {
      hide Scan, Plumbed;
      match mode {
        case Connect =>
          TeardownClient();
          scanActive, foundDevice, connectScanNextStartMs := false, false, 0;
          Transition(Off);
        case DiagScan =>
          scanActive, diagMode := false, false;
        case Idle =>
      }
    }

    /** The fields that following the link may change, besides the receiver. */
    ghost predicate Following()
      reads this, receiver, receiver.buf
    {
      Plumbed() && Parked() && mode.Connect?
    }

    /** What has been heard so far in the accepted generation. */
    ghost function HeardSoFar(): seq<Byte>
      reads `rxHostGeneration, `rxAcceptedGeneration, receiver
    {
      if rxHostGeneration == rxAcceptedGeneration then receiver.fed else []
    }

    /** Notifications that arrive while the handshake is still going on: they are heard as if joined. */
    method HearEarly(early: seq<seq<Byte>>, now: Millis)
      requires Plumbed() && rxAcceptedGeneration != 0
      modifies `readings, `rxHostGeneration, receiver, receiver.buf
      ensures Plumbed() && HeardSoFar() == old(HeardSoFar()) + Joined(early)
      ensures readings == HeardAll(old(readings), NewItems(old(HeardSoFar()), Joined(early)), now, target)
    {
      hide Scan, Framer.Valid, Ble.Coherent, Stamped, AllHonoured, NewItems, HeardAll;
      ghost var heard, was := HeardSoFar(), readings;
      NothingHeardYet(was, heard, now, target);
      for i := 0 to |early|
        invariant Plumbed() && HeardSoFar() == heard + Joined(early[..i])
        invariant readings == HeardAll(was, NewItems(heard, Joined(early[..i])), now, target)
      {
        assert early[..i + 1][..i] == early[..i];
        ReadingsIgnoreChunking(was, heard, Joined(early[..i]), early[i], now, target);
        assert heard + (Joined(early[..i]) + early[i]) == heard + Joined(early[..i]) + early[i];
        OnNotify(rxAcceptedGeneration, early[i], now);
      }
      assert early[..|early|] == early;
    }

    /** The two writes of the application handshake; the second only if the first went out. */
    method Introduce(stack: Stack) returns (ok: bool)
      requires Plumbed() && writeChar
      modifies `sent
      ensures Plumbed() && sent == old(sent) + if stack.identifyWritten then [Identify, EventSubscribe] else [Identify]
      ensures ok <==> stack.identifyWritten && stack.subscribeWritten
    {
      hide Scan, Plumbed;
      ok := SendPacket(Identify, stack.identifyWritten);
      if ok {
        ok := SendPacket(EventSubscribe, stack.subscribeWritten);
      }
    }

    /** What a handshake that gets as far as the subscription hears, sends and loses. */
    method Converse(stack: Stack) returns (ok: bool)
      requires Plumbed() && writeChar && rxAcceptedGeneration != 0
      modifies `readings, `rxAcceptedGeneration, `rxHostGeneration, `disconnectFlag, `linkUp, `sent, receiver,
               receiver.buf
      ensures Plumbed() && (ok <==> stack.identifyWritten && stack.subscribeWritten)
      ensures rxAcceptedGeneration == if ok then old(rxAcceptedGeneration) else 0
      ensures readings == HeardAll(old(readings), NewItems(old(HeardSoFar()), Joined(stack.early)), stack.now, target)
      ensures disconnectFlag == (old(disconnectFlag) || stack.drops) && linkUp == (old(linkUp) && !stack.drops)
      ensures sent == old(sent) + if stack.identifyWritten then [Identify, EventSubscribe] else [Identify]
    {
      hide Scan, Plumbed, HeardAll, NewItems, Joined;
      HearEarly(stack.early, stack.now);
      if stack.drops {
        disconnectFlag, linkUp := true, false;
      }
      ok := Introduce(stack);
      if !ok {
        rxAcceptedGeneration := 0;
      }
    }

    /** The generation under which the next handshake listens, and what has been heard under it: nothing as a rule. */
    ghost function HeardBefore(): seq<Byte>
      reads `rxHostGeneration, `rxGenerationIssued, receiver
    {
      if rxHostGeneration == NextGeneration(rxGenerationIssued) then receiver.fed else []
    }

    method DoHandshake(stack: Stack) returns (ok: bool)
      requires Plumbed() && client && !writeChar && rxAcceptedGeneration == 0
      modifies `writeChar, `readings, `rxGenerationIssued, `rxAcceptedGeneration, `rxHostGeneration,
               `disconnectFlag, `linkUp, `sent, receiver, receiver.buf
      ensures Plumbed() && (ok <==> Handshakes(stack))
      ensures ok ==> writeChar && rxAcceptedGeneration == rxGenerationIssued != 0
      ensures !ok ==> rxAcceptedGeneration == 0
      ensures rxGenerationIssued == if stack.gattFound then NextGeneration(old(rxGenerationIssued))
                                    else old(rxGenerationIssued)
      ensures !stack.gattFound ==> readings == old(readings)
      ensures stack.gattFound ==>
                var cleared := old(readings).(weight := NO_WEIGHT);
                readings == if !stack.subscribes then cleared
                            else HeardAll(cleared, NewItems(old(HeardBefore()), Joined(stack.early)), stack.now, target)
      ensures var talks := stack.gattFound && stack.subscribes;
              && disconnectFlag == (old(disconnectFlag) || (talks && stack.drops))
              && linkUp == (old(linkUp) && !(talks && stack.drops))
              && sent == old(sent) + if !talks then []
                                     else if stack.identifyWritten then [Identify, EventSubscribe]
                                     else [Identify]
    {
      hide Scan, Plumbed, HeardAll, NewItems, Joined;
      if !stack.gattFound {
        return false;
      }
      writeChar, readings := true, readings.(weight := NO_WEIGHT);
      rxGenerationIssued := At(rxGenerationIssued + 1);
      if rxGenerationIssued == 0 {
        rxGenerationIssued := At(rxGenerationIssued + 1);
      }
      rxAcceptedGeneration := rxGenerationIssued;
      if !stack.subscribes {
        rxAcceptedGeneration := 0;
        return false;
      }
      ok := Converse(stack);
    }

    /** A scan has finished: the next one starts at once, or when the pause is over. */
    method Rescan(stack: Stack)
      modifies `scanActive, `connectScanNextStartMs
      ensures var due := ScanDue(old(connectScanNextStartMs), scanPolicy.pauseMs, stack.now);
              && scanActive == (due && stack.scanStarts)
              && connectScanNextStartMs ==
                 if due then 0 else PauseEnd(old(connectScanNextStartMs), scanPolicy.pauseMs, stack.now)
    {
      scanActive := false;
      if connectScanNextStartMs == 0 {
        if scanPolicy.pauseMs == 0 {
          var ok := StartScan(stack.scanStarts);
          return;
        }
        connectScanNextStartMs := At(stack.now + scanPolicy.pauseMs);
        if connectScanNextStartMs == 0 {
          connectScanNextStartMs := 1;
        }
      }
      if Elapsed(stack.now, connectScanNextStartMs) < HALF {
        connectScanNextStartMs := 0;
        var ok := StartScan(stack.scanStarts);
      }
    }

    method FollowScan(stack: Stack)
      requires Following() && (state.Scanning? || state.Reconnecting?)
      modifies `state, `readings, `connectionEpoch, `entries, `scanActive, `connectScanNextStartMs
      ensures Following() && entries == old(entries)
      ensures state == if foundDevice then Connecting else old(state)
      ensures foundDevice ==> !scanActive && connectScanNextStartMs == old(connectScanNextStartMs)
      ensures !foundDevice && stack.scanning ==>
                scanActive == old(scanActive) && connectScanNextStartMs == old(connectScanNextStartMs)
      ensures !foundDevice && !stack.scanning ==>
                var due := ScanDue(old(connectScanNextStartMs), scanPolicy.pauseMs, stack.now);
                && scanActive == (due && stack.scanStarts)
                && connectScanNextStartMs ==
                   if due then 0 else PauseEnd(old(connectScanNextStartMs), scanPolicy.pauseMs, stack.now)
    {
      hide Scan, Plumbed, ScanDue, PauseEnd;
      if foundDevice {
        scanActive := false;
        Transition(Connecting);
      } else if !stack.scanning {
        Rescan(stack);
      }
    }

    method EnterReady()
      requires Plumbed() && mode.Connect? && state.Connecting? && client && writeChar && rxAcceptedGeneration != 0
      requires (!linkUp ==> disconnectFlag) && resubscribeAttempts <= MAX_RESUBSCRIBE_ATTEMPTS && !diagMode
      modifies `state, `readings, `connectionEpoch, `entries, `hadReadyThisEnable
      ensures Following() && state.Ready? && entries == old(entries) + 1 && hadReadyThisEnable
      ensures readings == Crossing(old(readings), Connecting, Ready, target)
    {
      hide Scan, Plumbed;
      hadReadyThisEnable := true;
      Transition(Ready);
    }

    /** The watchdog over the weight stream starts from here. */
    predicate Armed(now: Millis)
      reads `lastHeartbeatMs, `armMs, `rxWeightCountAtArm, `resubscribeAttempts, `readings
    {
      lastHeartbeatMs == armMs == now && rxWeightCountAtArm == readings.weightCount && resubscribeAttempts == 0
    }

    method ArmWatchdog(now: Millis)
      requires Following()
      modifies `lastHeartbeatMs, `armMs, `rxWeightCountAtArm, `resubscribeAttempts
      ensures Following() && Armed(now)
    {
      hide Scan, Plumbed;
      lastHeartbeatMs, armMs := now, now;
      rxWeightCountAtArm, resubscribeAttempts := readings.weightCount, 0;
    }

    method DropLink(next: Link)
      requires Plumbed() && mode.Connect? && (state.Connecting? || state.Ready?)
      requires next.Scanning? || next.Reconnecting?
      requires resubscribeAttempts <= MAX_RESUBSCRIBE_ATTEMPTS && !diagMode
      modifies `rxAcceptedGeneration, `client, `writeChar, `foundDevice, `linkUp, `state, `readings,
               `connectionEpoch, `entries
      ensures Following() && state == next && entries == old(entries) && !foundDevice
      ensures readings == Crossing(old(readings), old(state), next, target)
    {
      hide Scan, Plumbed;
      TeardownClient();
      Transition(next);
    }

    /** Connects and shakes hands, with everything of an earlier connection forgotten. */
    method Attempt(stack: Stack) returns (ok: bool)
      requires Plumbed() && !writeChar && rxAcceptedGeneration == 0
      modifies `writeChar, `readings, `rxGenerationIssued, `rxAcceptedGeneration, `rxHostGeneration,
               `disconnectFlag, `linkUp, `sent, `client, receiver, receiver.buf
      ensures Plumbed() && client
      ensures ok <==> stack.connects && Handshakes(stack)
      ensures ok ==> writeChar && rxAcceptedGeneration != 0 && (!linkUp ==> disconnectFlag)
      ensures disconnectFlag == (Talks(stack) && stack.drops)
      ensures sent == old(sent) + Greeting(stack) && readings == old(Greeted(stack))
    {
      hide Scan, Plumbed, Handshakes, HeardAll, NewItems, Joined;
      disconnectFlag := false;
      client := true;
      linkUp := stack.connects;
      ok := false;
      if stack.connects {
        ok := DoHandshake(stack);
      }
    }

    /** The readings after an attempt to connect. */
    ghost function Greeted(stack: Stack): Readings
      reads `readings, `rxHostGeneration, `rxGenerationIssued, `target, receiver
    {
      if !stack.connects || !stack.gattFound then readings
      else
        var cleared := readings.(weight := NO_WEIGHT);
        if !stack.subscribes then cleared
        else HeardAll(cleared, NewItems(HeardBefore(), Joined(stack.early)), stack.now, target)
    }

    method FollowConnecting(stack: Stack)
      requires Following() && state.Connecting?
      modifies this, receiver, receiver.buf
      ensures unchanged(`mode, `controller, `controllerRequestPending, `queue, `stamps, `connectWanted,
                        `diagScanDeadlineMs, `powerSuspended)
      ensures Following()
      ensures var ok := stack.connects && Handshakes(stack);
              && state == (if ok then Ready else if old(hadReadyThisEnable) then Reconnecting else Scanning)
              && entries == old(entries) + (if ok then 1 else 0)
              && (if ok then hadReadyThisEnable && Armed(stack.now)
                  else !foundDevice && hadReadyThisEnable == old(hadReadyThisEnable))
      ensures disconnectFlag == (Talks(stack) && stack.drops) && sent == old(sent) + Greeting(stack)
      ensures readings == Crossing(old(Greeted(stack)), Connecting, state, target)
    {
      hide Scan, Plumbed, Handshakes, Greeting, Greeted, Talks, Crossing;
      var handshook := Attempt(stack);
      SettleLink(handshook, stack.now);
    }

    /** The link after an attempt to connect. */
    method SettleLink(handshook: bool, now: Millis)
      requires Plumbed() && mode.Connect? && state.Connecting? && resubscribeAttempts <= MAX_RESUBSCRIBE_ATTEMPTS
      requires !diagMode
      requires handshook ==> client && writeChar && rxAcceptedGeneration != 0 && (!linkUp ==> disconnectFlag)
      modifies `rxAcceptedGeneration, `client, `writeChar, `foundDevice, `linkUp, `state, `readings, `connectionEpoch,
               `entries, `hadReadyThisEnable, `lastHeartbeatMs, `armMs, `rxWeightCountAtArm, `resubscribeAttempts
      ensures Following()
      ensures state == (if handshook then Ready else if old(hadReadyThisEnable) then Reconnecting else Scanning)
      ensures entries == old(entries) + if handshook then 1 else 0
      ensures if handshook then hadReadyThisEnable && Armed(now)
              else !foundDevice && hadReadyThisEnable == old(hadReadyThisEnable)
      ensures readings == Crossing(old(readings), Connecting, state, target)
    {
      hide Scan, Plumbed, Crossing;
      if handshook {
        EnterReady();
        ArmWatchdog(now);
      } else {
        DropLink(if hadReadyThisEnable then Reconnecting else Scanning);
      }
    }

    method Beat(now: Millis)
      requires Plumbed()
      requires writeChar
      modifies `lastHeartbeatMs, `sent
      ensures Plumbed()
      ensures var due := Elapsed(now, old(lastHeartbeatMs)) >= 2000;
              && sent == old(sent) + (if due then [Heartbeat] else [])
              && lastHeartbeatMs == if due then now else old(lastHeartbeatMs)
    {
      hide Scan, Plumbed;
      if Elapsed(now, lastHeartbeatMs) >= HEARTBEAT_PERIOD_MS {
        lastHeartbeatMs := now;
        var ok := SendPacket(Heartbeat, true);
      }
    }

    /** No weight has arrived since the stream was last asked for. */
    predicate Silent(now: Millis)
      reads `readings, `rxWeightCountAtArm, `armMs
    {
      readings.weightCount == rxWeightCountAtArm && Elapsed(now, armMs) >= RESUBSCRIBE_PERIOD_MS
    }

    /** Repeats the application handshake while no weight arrives, and gives the link up after the last attempt. */
    method WatchStream(now: Millis)
      requires Following() && state.Ready? && linkUp
      modifies `state, `connectionEpoch, `entries, `readings, `armMs, `resubscribeAttempts, `client, `writeChar,
               `foundDevice, `rxAcceptedGeneration, `sent, `linkUp
      ensures Following() && entries == old(entries)
      ensures var silent := old(readings.weightCount == rxWeightCountAtArm && Elapsed(now, armMs) >= 1000);
              var attempts := old(resubscribeAttempts);
              && state == (if silent && attempts == 5 then Reconnecting else Ready)
              && (state.Ready? ==> linkUp && resubscribeAttempts == if silent then attempts + 1 else attempts)
              && (state.Ready? && silent ==> armMs == now)
              && sent == old(sent) + (if state.Ready? && silent then [Identify, EventSubscribe] else [])
              && readings == Crossing(old(readings), Ready, state, target)
    {
      hide Scan, Plumbed;
      if Silent(now) {
        if resubscribeAttempts < MAX_RESUBSCRIBE_ATTEMPTS {
          var ok := SendPacket(Identify, true);
          ok := SendPacket(EventSubscribe, true);
          resubscribeAttempts, armMs := resubscribeAttempts + 1, now;
        } else {
          DropLink(Reconnecting);
        }
      }
    }

    predicate BeatDue(now: Millis)
      reads `disconnectFlag, `lastHeartbeatMs
    {
      !disconnectFlag && Elapsed(now, lastHeartbeatMs) >= 2000
    }

    /** What a READY link sends in one round: a heartbeat when it is due, and a retry when no weight has come. */
    function ReadyTraffic(now: Millis): seq<Packet>
      reads `disconnectFlag, `lastHeartbeatMs, `readings, `rxWeightCountAtArm, `armMs, `resubscribeAttempts
    {
      if disconnectFlag then []
      else
        var retry := Silent(now) && resubscribeAttempts < 5;
        (if BeatDue(now) then [Heartbeat] else []) + if retry then [Identify, EventSubscribe] else []
    }

    /** A READY link is dropped exactly on a disconnect, or when the fifth retry has not brought weight data. */
    method FollowReady(stack: Stack)
      requires Following() && state.Ready?
      modifies this
      ensures unchanged(`mode, `controller, `controllerRequestPending, `queue, `stamps, `connectWanted,
                        `diagScanDeadlineMs, `powerSuspended,
              `hadReadyThisEnable, `rxWeightCountAtArm)
      ensures Following() && entries == old(entries)
      ensures var silent := old(readings.weightCount == rxWeightCountAtArm && Elapsed(stack.now, armMs) >= 1000);
              var attempts := old(resubscribeAttempts);
              var lost := old(disconnectFlag) || (silent && attempts == 5);
              && state == (if lost then Reconnecting else Ready)
              && (state.Ready? ==> resubscribeAttempts == if silent then attempts + 1 else attempts)
              && (state.Ready? ==> linkUp)
              && readings == Crossing(old(readings), Ready, state, target)
      ensures !disconnectFlag && lastHeartbeatMs == if old(BeatDue(stack.now)) then stack.now else old(lastHeartbeatMs)
      ensures sent == old(sent) + old(ReadyTraffic(stack.now))
    {
      hide Scan, Plumbed, Crossing;
      if disconnectFlag {
        disconnectFlag := false;
        DropLink(Reconnecting);
        return;
      }
      Beat(stack.now);
      WatchStream(stack.now);
    }

    /** Where the link goes in one round of a connect session. */
    function NextLink(stack: Stack): Link
      reads `state, `foundDevice, `hadReadyThisEnable, `disconnectFlag, `resubscribeAttempts, `readings,
            `rxWeightCountAtArm, `armMs
    {
      match state
      case Off => if stack.scanStarts then Scanning else Off
      case Scanning => if foundDevice then Connecting else Scanning
      case Reconnecting => if foundDevice then Connecting else Reconnecting
      case Connecting =>
        if stack.connects && Handshakes(stack) then Ready else if hadReadyThisEnable then Reconnecting else Scanning
      case Ready =>
        if disconnectFlag || (Silent(stack.now) && resubscribeAttempts == 5) then Reconnecting else Ready
    }

    method RunStateMachine(stack: Stack)
      requires Following()
      modifies this, receiver, receiver.buf
      ensures unchanged(`mode, `controller, `controllerRequestPending, `queue, `stamps, `connectWanted,
                        `diagScanDeadlineMs, `powerSuspended)
      ensures Following() && LinkEdge(old(state), state, old(hadReadyThisEnable)) && state == old(NextLink(stack))
      ensures old(state).Off? ==> !foundDevice && !hadReadyThisEnable && scanActive == stack.scanStarts
      ensures entries == old(entries) + if state.Ready? && !old(state).Ready? then 1 else 0
      ensures old(sent) <= sent
    {
      hide Scan, Plumbed, Crossing, Greeted, Greeting, Handshakes;
      match state {
        case Off =>
          foundDevice, hadReadyThisEnable := false, false;
          var ok := StartScan(stack.scanStarts);
          if ok {
            Transition(Scanning);
          }
        case Scanning => FollowScan(stack);
        case Reconnecting => FollowScan(stack);
        case Connecting => FollowConnecting(stack);
        case Ready => FollowReady(stack);
      }
    }

    method RunMode(stack: Stack)
      requires Plumbed() && Parked()
      modifies this, receiver, receiver.buf
      ensures unchanged(`mode, `controller, `controllerRequestPending, `queue, `stamps, `connectWanted,
                        `diagScanDeadlineMs, `powerSuspended)
      ensures Plumbed() && Parked()
      ensures old(sent) <= sent && old(entries) <= entries
      ensures old(state).Off? ==> state.Off? || state.Scanning?
      ensures state == if mode.Connect? then old(NextLink(stack)) else old(state)
      ensures mode.DiagScan? ==> scanActive == if stack.scanning then old(scanActive) else stack.scanStarts
    {
      hide Scan, Plumbed, Handshakes;
      match mode {
        case Connect => RunStateMachine(stack);
        case DiagScan =>
          if !stack.scanning {
            var ok := StartScan(stack.scanStarts);
          }
        case Idle =>
      }
    }
 
    method SwitchMode(m: Mode, stack: Stack)
      requires Plumbed() && Parked()
      modifies `mode, `rxAcceptedGeneration, `client, `writeChar, `foundDevice, `linkUp, `scanActive,
               `connectScanNextStartMs, `diagMode, `state, `readings, `connectionEpoch, `entries, `hadReadyThisEnable
      ensures Plumbed() && Parked() && mode == m && state.Off? && Cleared() && entries == old(entries)
      ensures m.Connect? ==> !foundDevice && !hadReadyThisEnable && connectScanNextStartMs == 0
      ensures m.DiagScan? ==> diagMode && scanActive == stack.scanStarts
      ensures old(mode).DiagScan? && !m.DiagScan? ==> !diagMode && !scanActive
      ensures old(mode).Connect? && !m.DiagScan? ==> !scanActive
    {
      hide Scan, Plumbed, Cleared;
      ExitMode();
      mode := m;
      EnterMode(m, stack);
    }

    /** The stack has answered: a stop or start under way ends in its goal or in failure. */
    method Arrive(works: bool)
      requires Plumbed() && Parked() && mode.Idle? && (controller.Stopping? || controller.Starting?)
      modifies `controller
      ensures Plumbed() && Parked() && Life() == Ble.Processed(old(Life()), works)
    {
      hide Scan, Framer.Valid, Stamped, AllHonoured, At, Cleared;
      Ble.ProcessKeepsCoherence(Life(), works);
      hide Ble.Coherent;
      if !works {
        controller := Controller.Failed;
      } else {
        controller := if controller.Stopping? then Controller.Stopped else Controller.Running;
      }
    }

    /** Leaves every mode, for the sake of a stop. */
    method Park(stack: Stack)
      requires Plumbed() && Parked()
      modifies `mode, `rxAcceptedGeneration, `client, `writeChar, `foundDevice, `linkUp, `scanActive,
               `connectScanNextStartMs, `diagMode, `state, `readings, `connectionEpoch, `entries, `hadReadyThisEnable
      ensures Plumbed() && Parked() && mode.Idle? && !scanActive && !diagMode
      ensures entries == old(entries)
    {
      hide Scan, Plumbed;
      if !mode.Idle? {
        SwitchMode(Idle, stack);
      }
      scanActive, diagMode := false, false;
    }

    /** Carries out a pending stop or start, and parks the service while the controller does not run. */
    method ProcessControllerTransition(stack: Stack) returns (busy: bool)
      requires Plumbed() && Parked() && (controller.Running? || controller.Stopping? || mode.Idle?)
      modifies `mode, `rxAcceptedGeneration, `client, `writeChar, `foundDevice, `linkUp, `scanActive,
               `connectScanNextStartMs, `diagMode, `state, `readings, `connectionEpoch, `entries,
               `hadReadyThisEnable, `controller
      ensures Plumbed() && Parked() && (busy <==> !old(controller).Running?)
      ensures Life() == Ble.Processed(old(Life()), Answer(old(controller), stack))
      ensures if busy then mode.Idle? else mode == old(mode)
      ensures entries == old(entries)
      ensures !busy ==> unchanged(this)
      ensures old(controller).Stopping? ==> !scanActive && !diagMode
    {
      hide Scan, Plumbed, Parked;
      if controller.Running? {
        return false;
      }
      if controller.Stopping? {
        Park(stack);
        Arrive(stack.deinitWorks);
        return true;
      }
      if controller.Starting? {
        Arrive(stack.initWorks);
      }
      return true;
    }

    /** Moves to the mode that is wanted now and lets it work. */
    method Multiplex(stack: Stack)
      requires Plumbed() && Parked()
      modifies this, receiver, receiver.buf
      ensures Plumbed() && Parked()
      ensures mode == DesiredMode(old(powerSuspended), old(connectWanted), old(diagScanDeadlineMs))
      ensures Life() == old(Life()) && connectWanted == old(connectWanted) && powerSuspended == old(powerSuspended)
      ensures old(sent) <= sent && old(entries) <= entries
      ensures old(state).Off? ==> state.Off? || state.Scanning?
      ensures diagScanDeadlineMs == old(diagScanDeadlineMs)
      ensures mode.Connect? ==> state == if old(mode).Connect? then old(NextLink(stack)) else FirstLink(stack)
      ensures mode.DiagScan? && !stack.scanning ==> scanActive == stack.scanStarts
    {
      hide Scan, Plumbed, Parked, Handshakes;
      var desired := DesiredMode(powerSuspended, connectWanted, diagScanDeadlineMs);
      if desired != mode {
        SwitchMode(desired, stack);
      }
      RunMode(stack);
    }

    /** One round of the manager's loop. */
    method ManagerTick(stack: Stack)
      requires Valid()
      modifies this, receiver, receiver.buf
      ensures Valid()
      ensures var drained := Ble.Drained(old(Life()));
              && Life() == Ble.Processed(drained, Answer(drained.controller, stack))
              && var lease := UnexpiredLease(old(diagScanDeadlineMs), stack.now);
                 mode == if drained.controller.Running? then DesiredMode(powerSuspended, connectWanted, lease) else Idle
      ensures var runs := Ble.Drained(old(Life())).controller.Running?;
              var leased := 0 < Elapsed(old(diagScanDeadlineMs), stack.now) < 0x8000_0000
                            && old(diagScanDeadlineMs) != 0;
              && (mode.Connect? <==> runs && !powerSuspended && connectWanted)
              && (mode.DiagScan? <==> runs && !powerSuspended && !connectWanted && leased)
      ensures connectWanted == old(connectWanted) && powerSuspended == old(powerSuspended)
      ensures old(sent) <= sent && old(entries) <= entries
      ensures old(state).Off? ==> state.Off? || state.Scanning?
      ensures powerSuspended ==> state.Off?
      ensures diagScanDeadlineMs == UnexpiredLease(old(diagScanDeadlineMs), stack.now)
      ensures mode.Connect? ==> state == if old(mode).Connect? then old(NextLink(stack)) else FirstLink(stack)
      ensures mode.DiagScan? && !stack.scanning ==> scanActive == stack.scanStarts
      ensures !mode.Connect? ==> state.Off?
    {
      ModeWanted(powerSuspended, connectWanted, diagScanDeadlineMs, stack.now);
      hide Scan, Plumbed, Parked, UnexpiredLease, DesiredMode, Elapsed, Answer, NextLink, FirstLink, Ble.Drained;
      hide Ble.Processed;
      var busy := Prepare(stack);
      if !busy {
        Multiplex(stack);
      }
      OffOutsideConnect();
    }

    /** The first half of a round: commands, the lease and the controller. */
    method Prepare(stack: Stack) returns (busy: bool)
      requires Valid()
      modifies `queue, `stamps, `sent, `controllerRequestPending, `scanPolicy, `connectScanNextStartMs, `scanActive,
               `diagScanDeadlineMs, `mode, `rxAcceptedGeneration, `client, `writeChar, `foundDevice, `linkUp,
               `diagMode, `state, `readings, `connectionEpoch, `entries, `hadReadyThisEnable, `controller
      ensures Plumbed() && Parked() && (controller.Running? || controller.Stopped? || controller.Failed?)
      ensures var drained := Ble.Drained(old(Life()));
              && Life() == Ble.Processed(drained, Answer(drained.controller, stack))
              && (busy <==> !drained.controller.Running?) && (!busy ==> controller.Running?)
      ensures busy ==> mode.Idle?
      ensures !busy ==> unchanged(`mode, `state, `foundDevice, `hadReadyThisEnable, `readings)
      ensures diagScanDeadlineMs == UnexpiredLease(old(diagScanDeadlineMs), stack.now)
      ensures old(sent) <= sent && entries == old(entries)
    {
      hide Scan, Plumbed, Parked, UnexpiredLease, Elapsed, Answer, Ble.Drained;
      Drain(stack.now);
      busy := ProcessControllerTransition(stack);
    }

    method Drain(now: Millis)
      requires Valid()
      modifies `queue, `stamps, `sent, `controller, `controllerRequestPending, `scanPolicy, `connectScanNextStartMs,
               `scanActive, `diagScanDeadlineMs
      ensures Plumbed() && Parked() && Life() == Ble.Drained(old(Life())) && old(sent) <= sent
      ensures diagScanDeadlineMs == UnexpiredLease(old(diagScanDeadlineMs), now)
      ensures controller.Running? || controller.Stopping? || mode.Idle?
    {
      hide Scan, Plumbed, Parked, Ble.Coherent, UnexpiredLease, Elapsed, PlanAfter, TaresDue, Ble.Drained;
      CoherentLife();
      DrainCommands();
      ExpireDiagScanLease(now);
    }

    lemma OffOutsideConnect()
      requires Parked()
      ensures !mode.Connect? ==> state.Off?
    {}

    /** Draining cannot leave the controller anywhere but where it was, Stopping or Starting. */
    lemma CoherentLife()
      requires Plumbed()
      ensures var drained := Ble.Drained(Life()).controller;
              if controller.Running? then drained.Running? || drained.Stopping?
              else drained == controller || (controller.Stopped? && drained.Starting?)
    {
      hide Scan, Framer.Valid, Stamped, AllHonoured;
      Ble.DrainCarriesOut(Life());
    }
  }

  /** The answer that a pending transition gets from the stack. */
  function Answer(c: Controller, stack: Stack): bool {
    if c.Stopping? then stack.deinitWorks else stack.initWorks
  }

  /** A stop succeeds if the stack shuts down, a start if it comes up, and otherwise the controller has failed. */
  lemma StackDecides(l: Ble.Lifecycle, stack: Stack)
    ensures var c := Ble.Processed(l, Answer(l.controller, stack)).controller;
            && (l.controller.Stopping? ==> c == if stack.deinitWorks then Controller.Stopped else Controller.Failed)
            && (l.controller.Starting? ==> c == if stack.initWorks then Controller.Running else Controller.Failed)
            && (!l.controller.Stopping? && !l.controller.Starting? ==> c == l.controller)
  {}
}
