/** Everything that happens to the BLE service, in any order. */
module BleTraffic {
  import opened AcaiaWire
  import opened BleService
  import opened Clock
  import Ble = BleLifecycle

  /** One round of the manager task, or one call from any other task while the manager sleeps. */
  datatype Call =
    | Tick(stack: Stack)
    | Wanting(wanted: bool)
    | Suspending(suspended: bool)
    | Leasing(leaseMs: Millis, leasedAt: Millis)
    | EndingLease
    | AskingStop
    | AskingStart
    | AskingTare
    | ChoosingScan(policy: Ble.ScanPolicy)
    | Matching(address: Address)
    | Disconnecting
    | Notifying(generation: Millis, data: seq<Byte>, heardAt: Millis)

  method Serve(s: BleScaleService, call: Call)
    requires s.Valid()
    modifies s, s.receiver, s.receiver.buf
    ensures s.Valid() && old(s.sent) <= s.sent && old(s.entries) <= s.entries
  {
    ReceiverIsValid(s);
    hide BleScaleService.Valid, HeardAll, NewItems, UnexpiredLease;
    match call {
      case Tick(stack) => s.ManagerTick(stack);
      case Wanting(wanted) =>
        if wanted {
          s.Enable();
        } else {
          s.Disable();
        }
      case Suspending(suspended) => s.SetPowerSuspended(suspended);
      case Leasing(leaseMs, leasedAt) => s.StartDiagScan(leaseMs, leasedAt);
      case EndingLease => s.StopDiagScan();
      case AskingStop => var accepted := s.RequestController(Ble.Command.StopController);
      case AskingStart => var accepted := s.RequestController(Ble.Command.StartController);
      case AskingTare => var queued := s.RequestTare();
      case ChoosingScan(policy) => s.SetScanPolicy(policy);
      case Matching(address) => s.OnScanMatch(address);
      case Disconnecting => s.OnDisconnect();
      case Notifying(generation, data, heardAt) => s.OnNotify(generation, data, heardAt);
    }
  }

  lemma ReceiverIsValid(s: BleScaleService)
    requires s.Valid()
    ensures s.receiver.Valid()
  {}

  /**
   * In every interleaving the tick-boundary invariant holds, the log of sent packets only grows, and no tare in it was
   * asked for in another session.
   */
  method ServeAll(s: BleScaleService, calls: seq<Call>)
    requires s.Valid()
    modifies s, s.receiver, s.receiver.buf
    ensures s.Valid() && AllHonoured(s.sent)
    ensures old(s.sent) <= s.sent && old(s.entries) <= s.entries
  {
    for i := 0 to |calls|
      invariant s.Valid() && old(s.sent) <= s.sent && old(s.entries) <= s.entries
    {
      hide BleScaleService.Valid;
      Serve(s, calls[i]);
    }
  }

  /** What a round leaves of a running controller with no command in the queue. */
  lemma NothingQueued(l: Ble.Lifecycle, stack: Stack)
    requires l.queue == [] && l.controller.Running?
    ensures Ble.Drained(l) == l && Ble.Processed(l, Answer(l.controller, stack)) == l
  {}

  /** One round of a connect session with nothing else going on. */
  method Advance(s: BleScaleService, stack: Stack)
    requires s.Valid() && s.controller.Running? && s.queue == [] && !s.powerSuspended && s.connectWanted
    modifies s, s.receiver, s.receiver.buf
    ensures s.Valid() && s.controller.Running? && s.queue == [] && !s.powerSuspended && s.connectWanted
    ensures s.mode.Connect?
    ensures s.state == if old(s.mode).Connect? then old(s.NextLink(stack)) else FirstLink(stack)
  {
    NothingQueued(s.Life(), stack);
    hide BleScaleService.Valid, BleScaleService.NextLink, FirstLink, UnexpiredLease, DesiredMode, Answer;
    s.ManagerTick(stack);
  }

  /**
   * From an idle service with a running controller: once the scale is wanted, a round that starts the scan, a matching
   * advertiser, a round that finds it and a round with a working handshake lead to READY.
   */
  method BringUp(s: BleScaleService, address: Address, first: Stack, second: Stack, third: Stack)
    requires s.Valid() && s.controller.Running? && s.queue == [] && !s.powerSuspended && s.mode.Idle?
    requires first.scanStarts && third.connects && Handshakes(third)
    modifies s, s.receiver, s.receiver.buf
    ensures s.Valid() && s.state.Ready? && s.mode.Connect?
  {
    s.Enable();
    Advance(s, first);
    assert s.state.Scanning? && !s.diagMode;
    s.OnScanMatch(address);
    Advance(s, second);
    assert s.state.Connecting?;
    Advance(s, third);
  }
}
