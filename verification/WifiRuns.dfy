/** Runs of the Wi-Fi manager: requests, updates, direct calls and driver events in any order, at absolute times. */
module WifiRuns {
  import opened Clock
  import opened WifiManager
  import opened WifiRequests

  datatype Turn =
    | Posting(request: Request)
    | Updating(outside: Outside)
    | Retrying(outside: Outside)
    | Stopping
    | Happening(event: Event, now: Millis)

  datatype Manager = Manager(radio: Radio, pending: Request)

  function After(m: Manager, t: Turn): Manager {
    match t
    case Posting(request) => m.(pending := Posted(m.pending, request))
    case Updating(outside) => Manager(Updated(m.radio, m.pending, outside), Taken(m.pending))
    case Retrying(outside) => m.(radio := CarriedOut(m.radio, RETRY, outside))
    case Stopping => m.(radio := Stopped(m.radio))
    case Happening(event, now) => m.(radio := Reacted(m.radio, event, now))
  }

  function Run(turns: seq<Turn>): Manager {
    if turns == [] then Manager(RADIO_OFF, WifiRequests.NOTHING)
    else After(Run(turns[..|turns| - 1]), turns[|turns| - 1])
  }

  /** A manager taken through the turns is in the state of their run. */
  method Drive(turns: seq<Turn>) returns (m: WifiManager)
    ensures m.Valid() && Manager(m.View(), m.slot.pending) == Run(turns)
  {
    m := new WifiManager();
    hide Sound, Updated, Reacted, CarriedOut, Stopped, Posted, Taken, Served, AssociatedIn;
    for i := 0 to |turns|
      invariant fresh(m) && fresh(m.slot) && m.Valid()
      invariant Manager(m.View(), m.slot.pending) == Run(turns[..i])
    {
      assert turns[..i + 1][..i] == turns[..i];
      match turns[i] {
        case Posting(request) => m.slot.Post(request);
        case Updating(outside) => m.Update(outside);
        case Retrying(outside) => var ok := m.RetrySta(outside);
        case Stopping => m.StopRadio();
        case Happening(event, now) => m.OnWifiEvent(event, now);
      }
    }
    assert turns[..|turns|] == turns;
  }

  lemma {:induction false} RunsStaySound(turns: seq<Turn>)
    ensures Sound(Run(turns).radio)
  {
    if turns != [] {
      var before, t := Run(turns[..|turns| - 1]), turns[|turns| - 1];
      RunsStaySound(turns[..|turns| - 1]);
      StopKeepsSound(before.radio);
      hide Sound, Updated, Reacted, CarriedOut, Stopped;
      match t
      case Posting(_) =>
      case Updating(outside) => UpdateKeepsSound(before.radio, before.pending, outside);
      case Retrying(outside) => UpdateKeepsSound(before.radio, RETRY, outside);
      case Stopping =>
      case Happening(event, now) => ReactionKeepsSound(before.radio, event, now);
    }
  }

  /** The turns carry the absolute times at which they happen. */
  ghost predicate Timed(turns: seq<Turn>, times: seq<nat>) {
    && |turns| == |times|
    && (forall i :: 0 < i < |times| ==> times[i - 1] <= times[i])
    && (forall i :: 0 <= i < |turns| ==>
          && (turns[i].Updating? || turns[i].Retrying? ==> turns[i].outside.now == At(times[i]))
          && (turns[i].Happening? ==> turns[i].now == At(times[i])))
  }

  /** The turn starts a station attempt, or starts the timeout of a served one anew. */
  predicate Begins(m: Manager, t: Turn) {
    match t
    case Posting(_) => false
    case Updating(outside) => AttemptName(m.radio, m.pending, outside.stored) != ""
    case Retrying(outside) => AttemptName(m.radio, RETRY, outside.stored) != ""
    case Stopping => false
    case Happening(event, _) => Rearms(m.radio, event)
  }

  /** When the latest attempt, or its latest timeout, began. */
  ghost function Began(turns: seq<Turn>, times: seq<nat>): nat
    requires |turns| == |times|
  {
    if turns == [] then 0
    else
      var n := |turns| - 1;
      if Begins(Run(turns[..n]), turns[n]) then times[n] else Began(turns[..n], times[..n])
  }

  ghost function LastUpdate(turns: seq<Turn>, times: seq<nat>): nat
    requires |turns| == |times|
  {
    if turns == [] then 0
    else
      var n := |turns| - 1;
      if turns[n].Updating? then times[n] else LastUpdate(turns[..n], times[..n])
  }

  /** No two updates are further apart than the counter can tell. */
  ghost predicate UpdatedOften(turns: seq<Turn>, times: seq<nat>)
    requires |turns| == |times|
  {
    forall i :: 0 <= i < |turns| && turns[i].Updating? ==>
      times[i] < LastUpdate(turns[..i], times[..i]) + WRAP - STA_TIMEOUT_MS
  }

  /** A station attempt that has not been served. */
  predicate Unserved(m: Radio) {
    m.mode.Sta? && !m.suppressed
  }

  /** What a station attempt says about time, when it began at `began` and was last looked at, at `looked`. */
  ghost predicate Punctual(m: Radio, began: nat, looked: nat) {
    && (m.mode.Sta? ==> m.startedMs == At(began) && (m.state.StaConnecting? || m.state.StaConnected?))
    && (Unserved(m) ==> m.state.StaConnecting? && looked <= began + STA_TIMEOUT_MS)
  }

  lemma TurnIsPunctual(m: Manager, t: Turn, began: nat, looked: nat, now: nat)
    requires Punctual(m.radio, began, looked) && began <= now && looked <= now
    requires t.Updating? ==> t.outside.now == At(now) && now < looked + WRAP - STA_TIMEOUT_MS
    requires t.Retrying? ==> t.outside.now == At(now)
    requires t.Happening? ==> t.now == At(now)
    ensures Punctual(After(m, t).radio, if Begins(m, t) then now else began, if t.Updating? then now else looked)
    ensures t.Updating? && m.pending.action.NoAction? && m.radio.mode.Sta? ==>
              (After(m, t).radio.mode.Sta? <==> !Unserved(m.radio) || now <= began + STA_TIMEOUT_MS)
  {
    if t.Updating? && Unserved(m.radio) {
      ElapsedIsDistance(now, began);
    }
  }

  lemma ShorterRun(turns: seq<Turn>, times: seq<nat>)
    requires Timed(turns, times) && UpdatedOften(turns, times) && turns != []
    ensures var n := |turns| - 1;
            && Timed(turns[..n], times[..n]) && UpdatedOften(turns[..n], times[..n])
            && (n > 0 ==> times[n - 1] <= times[n])
            && (turns[n].Updating? ==>
                  && turns[n].outside.now == At(times[n])
                  && times[n] < LastUpdate(turns[..n], times[..n]) + WRAP - STA_TIMEOUT_MS)
            && (turns[n].Retrying? ==> turns[n].outside.now == At(times[n]))
            && (turns[n].Happening? ==> turns[n].now == At(times[n]))
  {
    hide LastUpdate, Run;
    var n := |turns| - 1;
    forall i | 0 <= i < n && turns[..n][i].Updating?
      ensures times[..n][i] < LastUpdate(turns[..n][..i], times[..n][..i]) + WRAP - STA_TIMEOUT_MS
    {
      assert turns[..n][..i] == turns[..i] && times[..n][..i] == times[..i];
      assert turns[i].Updating?;
    }
  }

  lemma {:induction false} RunsArePunctual(turns: seq<Turn>, times: seq<nat>)
    requires Timed(turns, times) && UpdatedOften(turns, times)
    ensures var end := if times == [] then 0 else times[|times| - 1];
            && LastUpdate(turns, times) <= end && Began(turns, times) <= end
            && Punctual(Run(turns).radio, Began(turns, times), LastUpdate(turns, times))
  {
    if turns != [] {
      var n := |turns| - 1;
      ShorterRun(turns, times);
      RunsArePunctual(turns[..n], times[..n]);
      hide After, Begins, Punctual, Timed, UpdatedOften;
      TurnIsPunctual(Run(turns[..n]), turns[n], Began(turns[..n], times[..n]), LastUpdate(turns[..n], times[..n]),
                     times[n]);
    }
  }

  /**
   * In every run that is updated often enough, a station attempt that has not been served is still connecting, and the
   * last update came within 15 seconds of its beginning: the first update later than that has ended it, however often
   * the counter wrapped.
   */
  lemma {:induction false} AttemptsAreBounded(turns: seq<Turn>, times: seq<nat>)
    requires Timed(turns, times) && UpdatedOften(turns, times)
    ensures var m := Run(turns).radio;
            m.mode.Sta? && !Served(m.log) ==>
              m.state.StaConnecting? && LastUpdate(turns, times) <= Began(turns, times) + 15000
  {
    RunsArePunctual(turns, times);
    RunsStaySound(turns);
    hide Run, Began, LastUpdate, Timed, UpdatedOften, Served;
  }

  /**
   * And no earlier: without a request an update leaves the station exactly when the attempt has not been served and
   * began more than 15 seconds ago.
   */
  lemma {:induction false} FallbackExactly(turns: seq<Turn>, times: seq<nat>)
    requires Timed(turns, times) && UpdatedOften(turns, times) && turns != [] && turns[|turns| - 1].Updating?
    requires var before := Run(turns[..|turns| - 1]);
             before.pending.action.NoAction? && before.radio.mode.Sta?
    ensures var n := |turns| - 1;
            !Run(turns).radio.mode.Sta? <==>
              !Served(Run(turns[..n]).radio.log) && times[n] > Began(turns[..n], times[..n]) + 15000
  {
    var n := |turns| - 1;
    ShorterRun(turns, times);
    RunsArePunctual(turns[..n], times[..n]);
    RunsStaySound(turns[..n]);
    hide After, Begins, Punctual, Timed, UpdatedOften, Served;
    TurnIsPunctual(Run(turns[..n]), turns[n], Began(turns[..n], times[..n]), LastUpdate(turns[..n], times[..n]),
                   times[n]);
  }
}
