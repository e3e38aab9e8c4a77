/** The timed wait for one asynchronous Bluetooth controller transition. */
module ControllerTransition {
  import opened Clock

  datatype Controller = Stopped | Starting | Running | Stopping | Failed

  datatype Target = ToRunning | ToStopped

  datatype Result = Inactive | Pending | Succeeded | WaitFailed | TimedOut

  const TIMEOUT_MS: Millis := 5000

  /** The state of a wait. */
  datatype Wait = Wait(result: Result, target: Target, startedMs: Millis, timeoutMs: Millis)

  const IDLE := Wait(Inactive, ToRunning, 0, 0)

  predicate Arrived(target: Target, controller: Controller) {
    (target.ToRunning? && controller.Running?) || (target.ToStopped? && controller.Stopped?)
  }

  /** How a pending wait stands; a controller that has arrived or failed outranks the timeout. */
  function Outcome(w: Wait, controller: Controller, now: Millis): Result {
    if !w.result.Pending? then w.result
    else if controller.Failed? then WaitFailed
    else if Arrived(w.target, controller) then Succeeded
    else if Elapsed(now, w.startedMs) >= w.timeoutMs then TimedOut
    else Pending
  }

  class ControllerWait {
    var result: Result
    var target: Target
    var startedMs: Millis
    var timeoutMs: Millis

    ghost function View(): Wait
      reads this
    {
      Wait(result, target, startedMs, timeoutMs)
    }

    constructor ()
      ensures View() == IDLE
    {
      result, target, startedMs, timeoutMs := Inactive, ToRunning, 0, 0;
    }

    /** Refuses to disturb a wait that is still pending. */
    method Begin(to: Target, now: Millis) returns (started: bool)
      modifies this
      ensures started <==> !old(View()).result.Pending?
      ensures View() == if started then Wait(Pending, to, now, 5000) else old(View())
    {
      if result.Pending? {
        return false;
      }
      target, startedMs, timeoutMs, result := to, now, TIMEOUT_MS, Pending;
      return true;
    }

    method Update(controller: Controller, now: Millis) returns (r: Result)
      modifies this
      ensures r == Outcome(old(View()), controller, now)
      ensures View() == old(View()).(result := r)
    {
      if !result.Pending? {
        return result;
      }
      if controller.Failed? {
        result := WaitFailed;
      } else if Arrived(target, controller) {
        result := Succeeded;
      } else if Elapsed(now, startedMs) >= timeoutMs {
        result := TimedOut;
      }
      r := result;
    }

    method Reset()
      modifies this
      ensures View() == old(View()).(result := Inactive)
    {
      result := Inactive;
    }
  }

  /**
   * A wait begun at an absolute time is over at the first look that comes 5000 ms later or after, counter wrap
   * included.
   */
  lemma WaitIsBounded(w: Wait, began: nat, now: nat, controller: Controller)
    requires w.result.Pending? && w.startedMs == At(began) && w.timeoutMs == 5000
    requires began + 5000 <= now < began + WRAP
    ensures !Outcome(w, controller, At(now)).Pending?
  {
    ElapsedIsDistance(now, began);
  }

  /** And before that it ends only because the controller arrived or failed. */
  lemma WaitIsPatient(w: Wait, began: nat, now: nat, controller: Controller)
    requires w.result.Pending? && w.startedMs == At(began) && w.timeoutMs == 5000
    requires began <= now < began + 5000
    ensures Outcome(w, controller, At(now)).Pending? <==> !controller.Failed? && !Arrived(w.target, controller)
    ensures !Outcome(w, controller, At(now)).TimedOut?
  {
    ElapsedIsDistance(now, began);
  }
}
