/** The time-boxed pairing window with its two credentials and its limit on wrong guesses. */
module Pairing {
  import opened Clock

  const MAX_PIN_ATTEMPTS := 5

  datatype Window = Window(active: bool, pin: string, token: string, startedMs: Millis, ttlMs: Millis, failed: nat)

  const SHUT := Window(false, "", "", 0, 0, 0)

  function Opened(pin: string, token: string, now: Millis, ttlMs: Millis): Window {
    Window(true, pin, token, now, ttlMs, 0)
  }

  function Ended(w: Window): Window {
    w.(active := false, pin := "", token := "")
  }

  predicate Expired(w: Window, now: Millis) {
    Elapsed(now, w.startedMs) > w.ttlMs
  }

  function Credential(w: Window, isToken: bool): string {
    if isToken then w.token else w.pin
  }

  /** The guess is compared with a credential at all. */
  predicate Compared(w: Window, now: Millis) {
    w.active && !Expired(w, now)
  }

  predicate Redeems(w: Window, submitted: string, isToken: bool, now: Millis) {
    Compared(w, now) && Credential(w, isToken) != "" && submitted == Credential(w, isToken)
  }

  /** A success, an expiry or the fifth wrong guess ends the window. */
  function Guessed(w: Window, submitted: string, isToken: bool, now: Millis): Window {
    if !w.active then w
    else if Expired(w, now) || Redeems(w, submitted, isToken, now) then Ended(w)
    else if w.failed + 1 < MAX_PIN_ATTEMPTS then w.(failed := w.failed + 1)
    else Ended(w.(failed := w.failed + 1))
  }

  class PairingWindow {
    var pairingActive: bool
    var pin: string
    var pairToken: string
    var pinStartedMs: Millis
    var pinTtlMs: Millis
    var pinFailedAttempts: nat

    ghost function View(): Window
      reads this
    {
      Window(pairingActive, pin, pairToken, pinStartedMs, pinTtlMs, pinFailedAttempts)
    }

    constructor ()
      ensures View() == SHUT
    {
      pairingActive, pin, pairToken, pinStartedMs, pinTtlMs, pinFailedAttempts := false, "", "", 0, 0, 0;
    }

    /** The PIN and the hex token come from the hardware's random source. */
    method StartPairing(newPin: string, newToken: string, now: Millis, ttlMs: Millis)
      modifies this
      ensures View() == Opened(newPin, newToken, now, ttlMs)
    {
      pin, pairToken, pinStartedMs, pinTtlMs := newPin, newToken, now, ttlMs;
      pairingActive, pinFailedAttempts := true, 0;
    }

    method CancelPairing()
      modifies this
      ensures View() == if old(View()).active then Ended(old(View())) else old(View())
    {
      if !pairingActive {
        return;
      }
      pairingActive, pin, pairToken := false, "", "";
    }

    method Update(now: Millis)
      modifies this
      ensures View() == if Compared(old(View()), now) || !old(View()).active then old(View()) else Ended(old(View()))
    {
      if !pairingActive {
        return;
      }
      if Elapsed(now, pinStartedMs) <= pinTtlMs {
        return;
      }
      pairingActive, pin, pairToken := false, "", "";
    }

    method ConsumePairing(submitted: string, isToken: bool, now: Millis) returns (ok: bool)
      modifies this
      ensures ok <==> Redeems(old(View()), submitted, isToken, now)
      ensures View() == Guessed(old(View()), submitted, isToken, now)
    {
      if !pairingActive {
        return false;
      }
      var expected := if isToken then pairToken else pin;
      if Elapsed(now, pinStartedMs) > pinTtlMs {
      } else if expected != "" && submitted == expected {
        pairingActive, pin, pairToken := false, "", "";
        return true;
      } else {
        pinFailedAttempts := pinFailedAttempts + 1;
        if pinFailedAttempts < MAX_PIN_ATTEMPTS {
          return false;
        }
      }
      pairingActive, pin, pairToken := false, "", "";
      ok := false;
    }
  }

  // ---- One window ---------------------------------------------------------------------------

  /** What may happen while no new window is opened. */
  datatype Act = Cancel | Tick(now: Millis) | Guess(submitted: string, isToken: bool, at: Millis)

  function Acted(w: Window, a: Act): Window {
    match a
    case Cancel => if w.active then Ended(w) else w
    case Tick(now) => if w.active && Expired(w, now) then Ended(w) else w
    case Guess(submitted, isToken, at) => Guessed(w, submitted, isToken, at)
  }

  function Run(w: Window, acts: seq<Act>): Window {
    if acts == [] then w else Acted(Run(w, acts[..|acts| - 1]), acts[|acts| - 1])
  }

  function Successes(w: Window, acts: seq<Act>): nat {
    if acts == [] then 0
    else
      var before, a := Run(w, acts[..|acts| - 1]), acts[|acts| - 1];
      Successes(w, acts[..|acts| - 1]) + if a.Guess? && Redeems(before, a.submitted, a.isToken, a.at) then 1 else 0
  }

  /** Guesses that were compared with a credential and found wrong. */
  function WrongGuesses(w: Window, acts: seq<Act>): nat {
    if acts == [] then 0
    else
      var before, a := Run(w, acts[..|acts| - 1]), acts[|acts| - 1];
      WrongGuesses(w, acts[..|acts| - 1]) +
      if a.Guess? && Compared(before, a.at) && !Redeems(before, a.submitted, a.isToken, a.at) then 1 else 0
  }

  /** One window admits at most one client and lets at most five guesses be compared, right or wrong. */
  lemma {:induction false} WindowIsLimited(pin: string, token: string, now: Millis, ttlMs: Millis, acts: seq<Act>)
    ensures var w := Opened(pin, token, now, ttlMs);
            var end := Run(w, acts);
            && Successes(w, acts) <= 1 && Successes(w, acts) + WrongGuesses(w, acts) <= 5
            && end.failed == WrongGuesses(w, acts)
            && (end.active ==> Successes(w, acts) == 0 && end.failed < 5)
            && (end.active ==> end == w.(failed := end.failed))
            && (!end.active ==> end.pin == "" && end.token == "")
  {
    if acts != [] {
      WindowIsLimited(pin, token, now, ttlMs, acts[..|acts| - 1]);
    }
  }

  /** A window that has ended stays ended, and nothing redeems it. */
  lemma {:induction false} EndedStaysEnded(w: Window, acts: seq<Act>)
    requires !w.active
    ensures Run(w, acts) == w && Successes(w, acts) == 0 && WrongGuesses(w, acts) == 0
  {
    if acts != [] {
      EndedStaysEnded(w, acts[..|acts| - 1]);
    }
  }

  // ---- The time limit ----------------------------------------------------------------------

  /** What the window looks like that was opened at `opened` and is still open. */
  lemma {:induction false} OpenWindow(pin: string, token: string, start: nat, ttlMs: Millis, acts: seq<Act>)
    requires Run(Opened(pin, token, At(start), ttlMs), acts).active
    ensures var end := Run(Opened(pin, token, At(start), ttlMs), acts);
            end == Opened(pin, token, At(start), ttlMs).(failed := end.failed)
  {
    WindowIsLimited(pin, token, At(start), ttlMs, acts);
  }

  /**
   * In true time, within one turn of the counter: after any acts that have left the window open, a guess is right
   * exactly if it is the credential, there is one, and its lifetime has not passed; and the next look after its
   * lifetime, whether a tick or a guess, ends the window.
   */
  lemma {:induction false} GuessIsTimely(pin: string, token: string, start: nat, ttlMs: Millis, acts: seq<Act>,
                                         submitted: string, isToken: bool, now: nat)
    requires Run(Opened(pin, token, At(start), ttlMs), acts).active && start <= now < start + WRAP
    ensures var w := Run(Opened(pin, token, At(start), ttlMs), acts);
            && (Redeems(w, submitted, isToken, At(now)) <==>
                  now <= start + ttlMs && submitted != "" && submitted == if isToken then token else pin)
            && (now > start + ttlMs ==>
                  && !Acted(w, Tick(At(now))).active && !Acted(w, Guess(submitted, isToken, At(now))).active
                  && !Redeems(w, submitted, isToken, At(now)))
            && (now <= start + ttlMs ==> Acted(w, Tick(At(now))) == w)
  {
    OpenWindow(pin, token, start, ttlMs, acts);
    ElapsedIsDistance(now, start);
    hide Run;
  }

  /** An act that finds the lifetime over. */
  predicate Late(a: Act, startedMs: Millis, ttlMs: Millis) {
    || (a.Tick? && Elapsed(a.now, startedMs) > ttlMs)
    || (a.Guess? && Elapsed(a.at, startedMs) > ttlMs)
  }

  /** Nothing else closes a window: it is open exactly until a cancel, a success, a fifth wrong guess or a late act. */
  lemma {:induction false} OpenExactly(pin: string, token: string, now: Millis, ttlMs: Millis, acts: seq<Act>)
    ensures var w := Opened(pin, token, now, ttlMs);
            Run(w, acts).active <==>
              && Successes(w, acts) == 0 && WrongGuesses(w, acts) < 5
              && forall i :: 0 <= i < |acts| ==> !acts[i].Cancel? && !Late(acts[i], now, ttlMs)
  {
    WindowIsLimited(pin, token, now, ttlMs, acts);
    if acts != [] {
      var n := |acts| - 1;
      WindowIsLimited(pin, token, now, ttlMs, acts[..n]);
      OpenExactly(pin, token, now, ttlMs, acts[..n]);
      assert forall i :: 0 <= i < n ==> acts[..n][i] == acts[i];
    }
  }
}
