/** The radio state of the Wi-Fi manager under requests, driver events and the connection timeout. */
module WifiManager {
  import opened Clock
  import opened Options
  import opened WifiRequests

  const STA_TIMEOUT_MS: Millis := 15000

  datatype Mode = Off | Sta | Ap

  datatype State = Idle | StaConnecting | StaConnected | ApUp

  datatype Reason = NoReason | AuthFail | HandshakeTimeout | NoApFound | OtherReason(code: nat)

  predicate IsCredentialFailure(r: Reason) {
    r.AuthFail? || r.HandshakeTimeout?
  }

  predicate IsActionable(r: Reason) {
    IsCredentialFailure(r) || r.NoApFound?
  }

  datatype Event =
    | Associated
    | GotIp
    | Disconnected(reason: Reason)
    | StationJoined
    | StationLeft
    | ApStarted
    | ApStopped
    | OtherEvent

  // ---- What the events since the attempt began say ---------------------------------------------------

  /** Associated, with no disconnect since. */
  function AssociatedIn(log: seq<Event>): bool {
    if log == [] then false
    else
      match log[|log| - 1]
      case Associated => true
      case Disconnected(_) => false
      case _ => AssociatedIn(log[..|log| - 1])
  }

  /** An address arrived during an association, with no disconnect since. */
  function Online(log: seq<Event>): bool {
    if log == [] then false
    else
      var before := log[..|log| - 1];
      match log[|log| - 1]
      case GotIp => AssociatedIn(before) || Online(before)
      case Disconnected(_) => false
      case _ => Online(before)
  }

  /** The attempt has been online, with no credential failure since. */
  function Served(log: seq<Event>): bool {
    if log == [] then false
    else
      var before := log[..|log| - 1];
      match log[|log| - 1]
      case GotIp => AssociatedIn(before) || Served(before)
      case Disconnected(reason) => !IsCredentialFailure(reason) && Served(before)
      case _ => Served(before)
  }

  /** The failure shown to the user: the latest actionable one since the last address, else the first. */
  function ReasonIn(log: seq<Event>): Reason {
    if log == [] then NoReason
    else
      var before := log[..|log| - 1];
      match log[|log| - 1]
      case GotIp => if AssociatedIn(before) then NoReason else ReasonIn(before)
      case Disconnected(reason) =>
        if ReasonIn(before).NoReason? || IsActionable(reason) then reason else ReasonIn(before)
      case _ => ReasonIn(before)
  }

  /** Online means an association in this attempt, an address after it, and no disconnect since the association. */
  lemma {:induction false} OnlineMeansAssociated(log: seq<Event>) returns (i: nat, j: nat)
    requires Online(log)
    ensures i < j < |log| && log[i].Associated? && log[j].GotIp? && forall k :: i < k < |log| ==> !log[k].Disconnected?
  {
    var n := |log| - 1;
    var before := log[..n];
    if log[n].GotIp? && !Online(before) {
      i := AssociationOf(before);
      j := n;
    } else {
      i, j := OnlineMeansAssociated(before);
    }
    assert forall k :: i < k < n ==> log[k] == before[k];
  }

  lemma {:induction false} AssociationOf(log: seq<Event>) returns (i: nat)
    requires AssociatedIn(log)
    ensures i < |log| && log[i].Associated? && forall k :: i < k < |log| ==> !log[k].Disconnected?
  {
    var n := |log| - 1;
    if log[n].Associated? {
      i := n;
    } else {
      i := AssociationOf(log[..n]);
      assert forall k :: i < k < n ==> log[k] == log[..n][k];
    }
  }

  lemma {:induction false} OnlineIsServed(log: seq<Event>)
    ensures Online(log) ==> Served(log) && AssociatedIn(log)
  {
    if log != [] {
      OnlineIsServed(log[..|log| - 1]);
    }
  }

  /** A generic failure never hides an actionable one of the same attempt. */
  lemma {:induction false} ActionableReasonStays(log: seq<Event>, i: nat)
    requires i < |log| && log[i].Disconnected? && IsActionable(log[i].reason)
    requires forall k :: i < k < |log| ==> !log[k].GotIp?
    ensures IsActionable(ReasonIn(log))
  {
    var n := |log| - 1;
    if i < n {
      assert forall k :: i < k < n ==> log[..n][k] == log[k];
      ActionableReasonStays(log[..n], i);
    }
  }

  // ---- The same, event by event --------------------------------------------------------------------------

  /** An association at i, an address at j, and no disconnect between them. */
  predicate Established(log: seq<Event>, i: nat, j: nat) {
    i < j < |log| && log[i].Associated? && log[j].GotIp? && forall k :: i < k < j ==> !log[k].Disconnected?
  }

  /** The network has turned the credentials down. */
  predicate Refused(e: Event) {
    e == Disconnected(AuthFail) || e == Disconnected(HandshakeTimeout)
  }

  /** A failure that the user can do something about. */
  predicate Telling(e: Event) {
    Refused(e) || e == Disconnected(NoApFound)
  }

  lemma {:induction false} AssociatedSince(log: seq<Event>, i: nat)
    requires i < |log| && log[i].Associated? && forall k :: i < k < |log| ==> !log[k].Disconnected?
    ensures AssociatedIn(log)
  {
    var n := |log| - 1;
    if i < n {
      assert forall k :: i <= k < n ==> log[k] == log[..n][k];
      AssociatedSince(log[..n], i);
    }
  }

  /** Served exactly by an address after an association, with no refusal since. */
  lemma {:induction false} ServedMeans(log: seq<Event>) returns (i: nat, j: nat)
    requires Served(log)
    ensures Established(log, i, j) && forall k :: j < k < |log| ==> !Refused(log[k])
  {
    var n := |log| - 1;
    var before := log[..n];
    assert forall k :: 0 <= k < n ==> log[k] == before[k];
    if log[n].GotIp? && AssociatedIn(before) {
      i := AssociationOf(before);
      j := n;
    } else {
      i, j := ServedMeans(before);
    }
  }

  lemma {:induction false} MeansServed(log: seq<Event>, i: nat, j: nat)
    requires Established(log, i, j) && forall k :: j < k < |log| ==> !Refused(log[k])
    ensures Served(log)
  {
    var n := |log| - 1;
    var before := log[..n];
    assert forall k :: 0 <= k < n ==> log[k] == before[k];
    if j == n {
      AssociatedSince(before, i);
    } else {
      MeansServed(before, i, j);
      assert !Refused(log[n]);
    }
  }

  /** And online exactly so, with no disconnect since. */
  lemma {:induction false} MeansOnline(log: seq<Event>, i: nat, j: nat)
    requires Established(log, i, j) && forall k :: j < k < |log| ==> !log[k].Disconnected?
    ensures Online(log)
  {
    var n := |log| - 1;
    var before := log[..n];
    assert forall k :: 0 <= k < n ==> log[k] == before[k];
    if j == n {
      AssociatedSince(before, i);
    } else {
      MeansOnline(before, i, j);
    }
  }

  /** Position g is the last address that counted; -1 if there is none. */
  ghost predicate LastAddress(log: seq<Event>, g: int) {
    && -1 <= g < |log| && (g >= 0 ==> log[g].GotIp? && AssociatedIn(log[..g]))
    && forall k :: g < k < |log| && log[k].GotIp? ==> !AssociatedIn(log[..k])
  }

  /** The failure at d is the latest telling one after g, or the first of all after g if none is telling. */
  ghost predicate ShownAt(log: seq<Event>, g: int, d: int) {
    && -1 <= g < d < |log| && log[d].Disconnected?
    && (forall k :: d < k < |log| ==> !Telling(log[k]))
    && (!Telling(log[d]) ==> forall k :: g < k < d && log[k].Disconnected? ==> log[k].reason.NoReason?)
  }

  ghost predicate NothingShown(log: seq<Event>, g: int)
    requires -1 <= g
  {
    forall k :: g < k < |log| && log[k].Disconnected? ==> log[k].reason.NoReason?
  }

  /** What the user is shown: the failure that ShownAt describes, or none. */
  lemma {:induction false} ReasonShown(log: seq<Event>) returns (g: int, d: int)
    ensures LastAddress(log, g)
    ensures if ReasonIn(log).NoReason? then NothingShown(log, g)
            else ShownAt(log, g, d) && ReasonIn(log) == log[d].reason
  {
    if log == [] {
      g, d := -1, -1;
    } else {
      var n := |log| - 1;
      var before := log[..n];
      g, d := ReasonShown(before);
      assert forall k :: 0 <= k < n ==> log[k] == before[k] && log[..k] == before[..k];
      hide AssociatedIn;
      if log[n].GotIp? && AssociatedIn(before) {
        g, d := n, -1;
      } else if log[n].Disconnected? && (ReasonIn(before).NoReason? || Telling(log[n])) {
        d := n;
      }
    }
  }

  // ---- The radio state and what acts on it --------------------------------------------------------------

  datatype Credentials = Credentials(ssid: string, pass: string)

  /** What the tick finds outside: the clock, the stored credentials and whether the driver starts an AP. */
  datatype Outside = Outside(now: Millis, stored: Option<Credentials>, apStarts: bool)

  /** The state of the manager, with the events since the latest station attempt began. */
  datatype Radio = Radio(mode: Mode, state: State, fallback: bool, suppressed: bool, associated: bool, reason: Reason,
                         startedMs: Millis, ssid: string, stations: nat, log: seq<Event>)

  const RADIO_OFF := Radio(Off, Idle, false, false, false, NoReason, 0, "", 0, [])

  /** The station state depends on nothing but the events of the present attempt. */
  ghost predicate Sound(m: Radio) {
    && (m.mode.Sta? <==> m.state.StaConnecting? || m.state.StaConnected?)
    && (m.state.ApUp? ==> m.mode.Ap?) && (m.fallback ==> m.mode.Ap?)
    && (m.mode.Sta? ==>
          && m.associated == AssociatedIn(m.log) && m.suppressed == Served(m.log)
          && (m.state.StaConnected? <==> Online(m.log)) && m.reason == ReasonIn(m.log))
  }

  /** A fresh station attempt; without a name nothing changes. */
  function Attempted(m: Radio, ssid: string, now: Millis): Radio {
    if ssid == "" then m else Radio(Sta, StaConnecting, false, false, false, NoReason, now, ssid, m.stations, [])
  }

  function WithAp(m: Radio, starts: bool): Radio {
    m.(mode := if starts then Ap else Off, state := if starts then ApUp else Idle, fallback := false, stations := 0)
  }

  function Stopped(m: Radio): Radio {
    m.(mode := Off, state := Idle, fallback := false)
  }

  /** The live session already uses these credentials. */
  predicate Matches(m: Radio, ssid: string, pass: string, stored: Option<Credentials>) {
    m.state.StaConnected? && m.mode.Sta? && ssid == m.ssid && stored == Some(Credentials(ssid, pass))
  }

  /** The name under which a request starts a station attempt; empty if it starts none. */
  function AttemptName(m: Radio, r: Request, stored: Option<Credentials>): string {
    match r.action
    case ConnectSta => if Matches(m, r.ssid, r.pass, stored) then "" else r.ssid
    case RetrySta => if stored.Some? then stored.value.ssid else ""
    case _ => ""
  }

  function CarriedOut(m: Radio, r: Request, o: Outside): Radio {
    match r.action
    case NoAction => m
    case StartAp => WithAp(m, o.apStarts)
    case Stop => Stopped(m)
    case Reset => Stopped(m).(ssid := "", suppressed := false)
    case _ => Attempted(m, AttemptName(m, r, o.stored), o.now)
  }

  /** What a direct call asks for: the stored network again. */
  const RETRY := Request(Action.RetrySta, true, false, "", "")

  predicate Overdue(m: Radio, now: Millis) {
    m.state.StaConnecting? && !m.suppressed && Elapsed(now, m.startedMs) > STA_TIMEOUT_MS
  }

  function Updated(m: Radio, r: Request, o: Outside): Radio {
    var c := CarriedOut(m, r, o);
    if Overdue(c, o.now) then WithAp(c, o.apStarts).(fallback := o.apStarts) else c
  }

  /** A served station that loses its credentials starts its timeout anew. */
  predicate Rearms(m: Radio, e: Event) {
    m.mode.Sta? && e.Disconnected? && IsCredentialFailure(e.reason) && m.suppressed
  }

  function Reacted(m: Radio, e: Event, now: Millis): Radio {
    var heard := m.(log := m.log + [e]);
    match e
    case Associated => heard.(associated := m.mode.Sta?)
    case GotIp =>
      if m.mode.Sta? && m.associated then heard.(suppressed := true, state := StaConnected, reason := NoReason)
      else heard
    case Disconnected(reason) =>
      var lost := heard.(associated := false);
      if !m.mode.Sta? then lost
      else
        var shown := lost.(state := StaConnecting,
                           reason := if m.reason.NoReason? || IsActionable(reason) then reason else m.reason);
        if Rearms(m, e) then shown.(suppressed := false, startedMs := now) else shown
    case StationJoined => heard.(stations := m.stations + 1)
    case StationLeft => if m.stations > 0 then heard.(stations := m.stations - 1) else heard
    case ApStarted => if m.mode.Ap? then heard.(state := ApUp) else heard
    case ApStopped => if m.mode.Ap? then heard.(state := Idle) else heard
    case OtherEvent => heard
  }

  lemma AttemptKeepsSound(m: Radio, ssid: string, now: Millis)
    requires Sound(m)
    ensures Sound(Attempted(m, ssid, now))
  {}

  lemma UpdateKeepsSound(m: Radio, r: Request, o: Outside)
    requires Sound(m)
    ensures Sound(Updated(m, r, o)) && Sound(CarriedOut(m, r, o))
  {
    AttemptKeepsSound(m, AttemptName(m, r, o.stored), o.now);
    hide Attempted, AttemptName, AssociatedIn, Served, Online, ReasonIn, Elapsed;
  }

  lemma StopKeepsSound(m: Radio)
    requires Sound(m)
    ensures Sound(Stopped(m))
  {}

  lemma ReactionKeepsSound(m: Radio, e: Event, now: Millis)
    requires Sound(m)
    ensures Sound(Reacted(m, e, now))
  {
    LogGrows(m.log, e);
  }

  lemma LogGrows(log: seq<Event>, e: Event)
    ensures (log + [e])[..|log|] == log && (log + [e])[|log|] == e
    ensures Online(log) ==> Served(log) && AssociatedIn(log)
  {
    OnlineIsServed(log);
  }

  // ---- What requests and events come to ------------------------------------------------------------------

  /** A station attempt under this name that has just begun. */
  predicate Begun(m: Radio, ssid: string, now: Millis) {
    m.mode.Sta? && m.state.StaConnecting? && m.ssid == ssid && m.startedMs == now && !m.suppressed && m.log == []
  }

  /** Each request by its outcome: which network, access point or silence it leaves behind. */
  lemma OutcomeOfRequest(m: Radio, r: Request, o: Outside)
    ensures var c := CarriedOut(m, r, o);
            match r.action
            case NoAction => c == m
            case ConnectSta =>
              var live := m.mode.Sta? && m.state.StaConnected? && r.ssid == m.ssid
                          && o.stored == Some(Credentials(r.ssid, r.pass));
              if live || r.ssid == "" then c == m else Begun(c, r.ssid, o.now)
            case RetrySta =>
              if o.stored.None? || o.stored.value.ssid == "" then c == m else Begun(c, o.stored.value.ssid, o.now)
            case StartAp =>
              !c.fallback && c.stations == 0 && if o.apStarts then c.mode.Ap? && c.state.ApUp? else c.mode.Off?
            case Stop => c.mode.Off? && c.state.Idle? && c.ssid == m.ssid && c.suppressed == m.suppressed
            case Reset => c.mode.Off? && c.state.Idle? && c.ssid == "" && !c.suppressed
  {}

  /** An access point that takes over from a failed station is marked as the fallback. */
  lemma OutcomeOfTimeout(m: Radio, o: Outside)
    requires m.state.StaConnecting? && !m.suppressed && Elapsed(o.now, m.startedMs) > 15000
    ensures var c := Updated(m, NOTHING, o);
            && c.fallback == o.apStarts && c.stations == 0
            && if o.apStarts then c.mode.Ap? && c.state.ApUp? else c.mode.Off? && c.state.Idle?
  {}

  function ReactedAll(m: Radio, events: seq<Event>, now: Millis): Radio
    decreases |events|
  {
    if events == [] then m else Reacted(ReactedAll(m, events[..|events| - 1], now), events[|events| - 1], now)
  }

  function Number(events: seq<Event>, e: Event): nat {
    if events == [] then 0 else Number(events[..|events| - 1], e) + if events[|events| - 1] == e then 1 else 0
  }

  /** As long as nobody leaves who has not joined, the count is of those who have joined and not left. */
  lemma {:induction false} StationsAreCounted(m: Radio, events: seq<Event>, now: Millis)
    requires forall n :: 0 <= n <= |events| ==>
               Number(events[..n], StationLeft) <= m.stations + Number(events[..n], StationJoined)
    ensures ReactedAll(m, events, now).stations ==
            m.stations + Number(events, StationJoined) - Number(events, StationLeft)
  {
    hide Reacted;
    if events != [] {
      var last := |events| - 1;
      var before := events[..last];
      var at := ReactedAll(m, before, now);
      assert ReactedAll(m, events, now) == Reacted(at, events[last], now);
      hide ReactedAll;
      NobodyTooMany(m, events);
      StationsAreCounted(m, before, now);
      StationsMove(at, events[last], now);
    }
  }

  lemma NobodyTooMany(m: Radio, events: seq<Event>)
    requires events != []
    requires forall n :: 0 <= n <= |events| ==>
               Number(events[..n], StationLeft) <= m.stations + Number(events[..n], StationJoined)
    ensures var before := events[..|events| - 1];
            && Number(events, StationLeft) <= m.stations + Number(events, StationJoined)
            && forall n :: 0 <= n <= |before| ==>
                 Number(before[..n], StationLeft) <= m.stations + Number(before[..n], StationJoined)
  {
    hide Number;
    var before := events[..|events| - 1];
    assert events[..|events|] == events;
    forall n | 0 <= n <= |before|
      ensures Number(before[..n], StationLeft) <= m.stations + Number(before[..n], StationJoined)
    {
      assert before[..n] == events[..n];
    }
  }

  lemma StationsMove(m: Radio, e: Event, now: Millis)
    ensures Reacted(m, e, now).stations ==
            if e.StationJoined? then m.stations + 1
            else if e.StationLeft? && m.stations > 0 then m.stations - 1
            else m.stations
  {}

  /** The access point is up or down as the driver said last. */
  lemma {:induction false} AccessPointFollowsDriver(m: Radio, events: seq<Event>, now: Millis, n: nat)
    requires m.mode.Ap? && n < |events| && (events[n].ApStarted? || events[n].ApStopped?)
    requires forall k :: n < k < |events| ==> !events[k].ApStarted? && !events[k].ApStopped?
    ensures ReactedAll(m, events, now).state == if events[n].ApStarted? then ApUp else Idle
  {
    hide Reacted;
    var last := |events| - 1;
    var before := events[..last];
    var at := ReactedAll(m, before, now);
    assert ReactedAll(m, events, now) == Reacted(at, events[last], now);
    hide ReactedAll;
    ModeStays(m, before, now);
    DriverSays(at, events[last], now);
    if n < last {
      assert before[n] == events[n] && forall k :: n < k < last ==> before[k] == events[k];
      AccessPointFollowsDriver(m, before, now, n);
    }
  }

  lemma DriverSays(m: Radio, e: Event, now: Millis)
    requires m.mode.Ap?
    ensures Reacted(m, e, now).state == if e.ApStarted? then ApUp else if e.ApStopped? then Idle else m.state
  {}

  lemma {:induction false} ModeStays(m: Radio, events: seq<Event>, now: Millis)
    ensures ReactedAll(m, events, now).mode == m.mode
    decreases |events|
  {
    if events != [] {
      ModeStays(m, events[..|events| - 1], now);
    }
  }

  // ---- The manager ------------------------------------------------------------------------------------

  class WifiManager {
    const slot: RequestSlot
    var mode: Mode
    var state: State
    var apIsFallback: bool
    var staFallbackTimeoutSuppressed: bool
    var staAssociated: bool
    var lastDisconnectReason: Reason
    var staConnectingStartedMs: Millis
    var staSsid: string
    var apStations: nat
    ghost var log: seq<Event>   // the events since the latest station attempt began

    ghost function View(): Radio
      reads this
    {
      Radio(mode, state, apIsFallback, staFallbackTimeoutSuppressed, staAssociated, lastDisconnectReason,
            staConnectingStartedMs, staSsid, apStations, log)
    }

    ghost predicate Valid()
      reads this
    {
      Sound(View())
    }

    constructor ()
      ensures Valid() && View() == RADIO_OFF && slot.pending == NOTHING && fresh(slot)
    {
      slot := new RequestSlot();
      mode, state, apIsFallback, staFallbackTimeoutSuppressed := Off, Idle, false, false;
      staAssociated, lastDisconnectReason, staConnectingStartedMs, staSsid, apStations := false, NoReason, 0, "", 0;
      log := [];
    }

    method StartSta(ssid: string, now: Millis) returns (ok: bool)
      requires Valid()
      modifies this
      ensures Valid() && (ok <==> ssid != "") && View() == Attempted(old(View()), ssid, now)
      ensures ok ==> mode.Sta? && state.StaConnecting? && staSsid == ssid && staConnectingStartedMs == now && log == []
      ensures !ok ==> unchanged(this)
    {
      AttemptKeepsSound(View(), ssid, now);
      hide Sound;
      if ssid == "" {
        return false;
      }
      staSsid := ssid;
      mode, state := Sta, StaConnecting;
      apIsFallback, staAssociated, staFallbackTimeoutSuppressed := false, false, false;
      lastDisconnectReason, staConnectingStartedMs := NoReason, now;
      log := [];
      ok := true;
    }

    method StartAp(starts: bool) returns (ok: bool)
      requires Valid()
      modifies this
      ensures Valid() && ok == starts && !apIsFallback && View() == WithAp(old(View()), starts)
      ensures if ok then mode.Ap? && state.ApUp? && apStations == 0 else mode.Off? && state.Idle?
    {
      apIsFallback, apStations := false, 0;
      if !starts {
        mode, state := Off, Idle;
        return false;
      }
      mode, state := Ap, ApUp;
      ok := true;
    }

    method StopRadio()
      requires Valid()
      modifies this
      ensures Valid() && mode.Off? && state.Idle? && !apIsFallback && View() == Stopped(old(View()))
    {
      mode, state, apIsFallback := Off, Idle, false;
    }

    method ResetAllConfig()
      requires Valid()
      modifies this
      ensures Valid() && mode.Off? && staSsid == "" && !staFallbackTimeoutSuppressed
      ensures View() == Stopped(old(View())).(ssid := "", suppressed := false)
    {
      StopRadio();
      staSsid, staFallbackTimeoutSuppressed := "", false;
    }

    /** Another attempt with the stored credentials; without any, nothing changes. */
    method RetrySta(o: Outside) returns (ok: bool)
      requires Valid()
      modifies this
      ensures Valid() && View() == CarriedOut(old(View()), RETRY, o)
      ensures ok <==> o.stored.Some? && o.stored.value.ssid != ""
    {
      hide Sound;
      if o.stored.None? {
        return false;
      }
      ok := StartSta(o.stored.value.ssid, o.now);
    }

    function SessionMatches(ssid: string, pass: string, stored: Option<Credentials>): (live: bool)
      reads this
      ensures live <==> Matches(View(), ssid, pass, stored)
    {
      state.StaConnected? && mode.Sta? && ssid == staSsid && stored == Some(Credentials(ssid, pass))
    }

    /** Carries out the request that the slot holds; resubmitted live credentials are left alone. */
    method ProcessPending(o: Outside)
      requires Valid()
      modifies this, slot
      ensures Valid() && slot.pending == Taken(old(slot.pending)) && !slot.HasPendingAction()
      ensures View() == CarriedOut(old(View()), old(slot.pending), o)
      ensures old(slot.pending.action.NoAction?) ==> unchanged(this)
      ensures old(slot.pending.action.ConnectSta? && SessionMatches(slot.pending.ssid, slot.pending.pass, o.stored)) ==>
                unchanged(this)
    {
      hide Sound;
      var r := slot.Take();
      if r.action.NoAction? {
        return;
      }
      if r.action.ConnectSta? && SessionMatches(r.ssid, r.pass, o.stored) {
        return;
      }
      var ok := true;
      match r.action {
        case ConnectSta => ok := StartSta(r.ssid, o.now);
        case Reset => ResetAllConfig();
        case StartAp => ok := StartAp(o.apStarts);
        case Stop => StopRadio();
        case RetrySta => ok := RetrySta(o);
        case NoAction =>
      }
    }

    /** A tick of the main loop: the pending request, then the connection timeout. */
    method Update(o: Outside)
      requires Valid()
      modifies this, slot
      ensures Valid() && slot.pending == Taken(old(slot.pending)) && !slot.HasPendingAction()
      ensures View() == Updated(old(View()), old(slot.pending), o)
      ensures state.StaConnecting? && !Served(log) ==> Elapsed(o.now, staConnectingStartedMs) <= 15000
      ensures old(slot.pending.action.NoAction?) && !unchanged(this) ==>
                && old(state).StaConnecting? && !old(Served(log))
                && Elapsed(o.now, old(staConnectingStartedMs)) > 15000
                && if o.apStarts then mode.Ap? && state.ApUp? && apIsFallback else mode.Off?
      ensures old(IsReset(slot.pending)) ==> mode.Off? && staSsid == ""
    {
      ProcessPending(o);
      if !state.StaConnecting? {
        return;
      }
      if staFallbackTimeoutSuppressed {
        return;
      }
      if Elapsed(o.now, staConnectingStartedMs) <= STA_TIMEOUT_MS {
        return;
      }
      var ok := StartAp(o.apStarts);
      if ok {
        apIsFallback := true;
      }
    }

    /** A disconnect: the reason is noted, and a served station that lost its credentials gets a new timeout. */
    method OnDisconnected(reason: Reason, now: Millis)
      modifies this
      ensures View() == Reacted(old(View()), Disconnected(reason), now)
    {
      log := log + [Disconnected(reason)];
      staAssociated := false;
      if !mode.Sta? {
        return;
      }
      if lastDisconnectReason.NoReason? || IsActionable(reason) {
        lastDisconnectReason := reason;
      }
      if IsCredentialFailure(reason) && staFallbackTimeoutSuppressed {
        staFallbackTimeoutSuppressed, staConnectingStartedMs := false, now;
      }
      state := StaConnecting;
    }

    /** Any other event. */
    method OnOtherEvent(e: Event, now: Millis)
      requires !e.Disconnected?
      modifies this
      ensures View() == Reacted(old(View()), e, now)
    {
      log := log + [e];
      match e {
        case Associated => staAssociated := mode.Sta?;
        case GotIp =>
          if mode.Sta? && staAssociated {
            staFallbackTimeoutSuppressed, state, lastDisconnectReason := true, StaConnected, NoReason;
          }
        case StationJoined => apStations := apStations + 1;
        case StationLeft =>
          if apStations > 0 {
            apStations := apStations - 1;
          }
        case ApStarted =>
          if mode.Ap? {
            state := ApUp;
          }
        case ApStopped =>
          if mode.Ap? {
            state := Idle;
          }
        case _ =>
      }
    }

    /** A driver event. Events that belong to an earlier session cannot bring the station up. */
    method OnWifiEvent(e: Event, now: Millis)
      requires Valid()
      modifies this
      ensures Valid() && View() == Reacted(old(View()), e, now)
      ensures mode == old(mode) && log == old(log) + [e]
      ensures state.StaConnected? && !old(state).StaConnected? ==> e.GotIp? && old(mode.Sta? && AssociatedIn(log))
      ensures mode.Sta? && staConnectingStartedMs != old(staConnectingStartedMs) ==>
                e.Disconnected? && IsCredentialFailure(e.reason) && old(Served(log)) && staConnectingStartedMs == now
    {
      hide AssociatedIn, Served, Online, ReasonIn;
      ReactionKeepsSound(View(), e, now);
      ReactionEffects(View(), e, now);
      hide Sound, Reacted;
      if e.Disconnected? {
        OnDisconnected(e.reason, now);
      } else {
        OnOtherEvent(e, now);
      }
    }
  }

  lemma ReactionEffects(m: Radio, e: Event, now: Millis)
    requires Sound(m)
    ensures var r := Reacted(m, e, now);
            && r.mode == m.mode && r.log == m.log + [e]
            && (r.state.StaConnected? && !m.state.StaConnected? ==> e.GotIp? && m.mode.Sta? && AssociatedIn(m.log))
            && (r.mode.Sta? && r.startedMs != m.startedMs ==>
                  e.Disconnected? && IsCredentialFailure(e.reason) && Served(m.log) && r.startedMs == now)
  {
    hide AssociatedIn, Served, Online, ReasonIn;
  }

  /**
   * In true time: an attempt that began at `began` and has never been online is gone after an update more than
   * 15 seconds later, as long as that update comes before the counter has turned once.
   */
  lemma AttemptIsBounded(m: Radio, r: Request, o: Outside, began: nat, now: nat)
    requires Sound(m) && m.mode.Sta? && !Served(m.log) && m.startedMs == At(began)
    requires r.action.NoAction? && o.now == At(now) && began + 15000 < now < began + WRAP
    ensures !Updated(m, r, o).mode.Sta?
  {
    hide Served;
    OnlineIsServed(m.log);
    ElapsedIsDistance(now, began);
  }
}
