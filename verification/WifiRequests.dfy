/**
 * The one-slot latch of radio requests: the latest mode change wins, a reset is a promise, a terminal reset is final.
 */
module WifiRequests {
  datatype Action = NoAction | ConnectSta | Reset | StartAp | Stop | RetrySta

  datatype Request = Request(action: Action, persist: bool, terminal: bool, ssid: string, pass: string)

  const NOTHING := Request(NoAction, false, false, "", "")

  predicate IsReset(r: Request) {
    r.action.Reset?
  }

  /** What callers can post: a real action, terminal only for a reset. */
  predicate Postable(r: Request) {
    !r.action.NoAction? && (r.terminal ==> IsReset(r))
  }

  predicate Locked(pending: Request, r: Request) {
    pending.terminal || (IsReset(pending) && !IsReset(r))
  }

  function Posted(pending: Request, r: Request): Request {
    if Locked(pending, r) then pending else r
  }

  /** Taking the request leaves the terminal latch behind. */
  function Taken(pending: Request): Request {
    pending.(action := NoAction, ssid := "", pass := "")
  }

  class RequestSlot {
    var pending: Request

    constructor ()
      ensures pending == NOTHING
    {
      pending := NOTHING;
    }

    method Post(r: Request)
      modifies this
      ensures pending == Posted(old(pending), r)
      ensures Postable(r) ==> (HasPendingAction() <==> old(HasPendingAction()) || !old(pending).terminal)
    {
      var locked := pending.terminal || (pending.action.Reset? && !r.action.Reset?);
      if !locked {
        pending := r;
      }
    }

    function HasPendingAction(): bool
      reads this
    {
      !pending.action.NoAction?
    }

    method Take() returns (r: Request)
      modifies this
      ensures r == old(pending) && pending == Taken(old(pending)) && !HasPendingAction()
    {
      r := pending;
      pending := pending.(action := NoAction, terminal := r.terminal, ssid := "", pass := "");
    }
  }

  // ---- One round of posts ------------------------------------------------------------------------

  function PostAll(pending: Request, posts: seq<Request>): Request {
    if posts == [] then pending else Posted(PostAll(pending, posts[..|posts| - 1]), posts[|posts| - 1])
  }

  /** The position of the first terminal reset; the number of posts if there is none. */
  function FirstTerminal(posts: seq<Request>): (i: nat)
    ensures i <= |posts| && (i < |posts| ==> posts[i].terminal)
    ensures forall j :: 0 <= j < i ==> !posts[j].terminal
  {
    if posts == [] then 0
    else
      var i := FirstTerminal(posts[..|posts| - 1]);
      if i < |posts| - 1 || posts[|posts| - 1].terminal then i else |posts|
  }

  /** The position of the last reset, or -1. */
  function LastReset(posts: seq<Request>): (i: int)
    ensures -1 <= i < |posts| && (i >= 0 ==> IsReset(posts[i]))
    ensures forall j :: i < j < |posts| ==> !IsReset(posts[j])
  {
    if posts == [] then -1
    else if IsReset(posts[|posts| - 1]) then |posts| - 1
    else LastReset(posts[..|posts| - 1])
  }

  /**
   * Which of the posts of one round is carried out: the first terminal reset, else the last reset, else the last post.
   */
  function Chosen(posts: seq<Request>): Request
    requires posts != []
  {
    var t, l := FirstTerminal(posts), LastReset(posts);
    if t < |posts| then posts[t] else if l >= 0 then posts[l] else posts[|posts| - 1]
  }

  /** From an open slot, the slot holds the chosen one of the posts made so far. */
  lemma {:induction false} SlotHoldsChosen(pending: Request, posts: seq<Request>)
    requires !pending.terminal && !IsReset(pending) && posts != []
    requires forall i :: 0 <= i < |posts| ==> Postable(posts[i])
    ensures PostAll(pending, posts) == Chosen(posts)
  {
    var n := |posts| - 1;
    if n == 0 {
      assert posts[..0] == [];
    } else {
      SlotHoldsChosen(pending, posts[..n]);
    }
  }

  // ---- Runs ------------------------------------------------------------------------------------------

  datatype Step = Post(r: Request) | Process

  predicate Allowed(steps: seq<Step>) {
    forall i :: 0 <= i < |steps| && steps[i].Post? ==> Postable(steps[i].r)
  }

  function Slot(steps: seq<Step>): Request {
    if steps == [] then NOTHING
    else
      var before := Slot(steps[..|steps| - 1]);
      match steps[|steps| - 1]
      case Post(r) => Posted(before, r)
      case Process => Taken(before)
  }

  /** The requests carried out, in order. */
  function Executed(steps: seq<Step>): seq<Request> {
    if steps == [] then []
    else
      var before := Slot(steps[..|steps| - 1]);
      Executed(steps[..|steps| - 1]) +
      if steps[|steps| - 1].Process? && !before.action.NoAction? then [before] else []
  }

  /** A slot taken through the steps: what it holds and what has been carried out. */
  method Drive(steps: seq<Step>) returns (slot: RequestSlot, done: seq<Request>)
    ensures slot.pending == Slot(steps) && done == Executed(steps)
  {
    slot := new RequestSlot();
    done := [];
    for i := 0 to |steps|
      invariant fresh(slot) && slot.pending == Slot(steps[..i]) && done == Executed(steps[..i])
    {
      assert steps[..i + 1][..i] == steps[..i];
      match steps[i] {
        case Post(r) => slot.Post(r);
        case Process =>
          var r := slot.Take();
          if !r.action.NoAction? {
            done := done + [r];
          }
      }
    }
    assert steps[..|steps|] == steps;
  }

  predicate Terminal(r: Request) {
    IsReset(r) && r.terminal
  }

  /** A terminal latch means a terminal reset that waits or has been carried out, last. */
  lemma {:induction false} TerminalIsFinal(steps: seq<Step>)
    requires Allowed(steps)
    ensures var slot, done := Slot(steps), Executed(steps);
            && (slot.terminal && !IsReset(slot) ==> slot.action.NoAction? && done != [] && Terminal(done[|done| - 1]))
            && (done != [] && Terminal(done[|done| - 1]) ==> slot.terminal && slot.action.NoAction?)
            && (forall i :: 0 <= i < |done| - 1 ==> !Terminal(done[i]))
  {
    if steps != [] {
      TerminalIsFinal(steps[..|steps| - 1]);
    }
  }

  /** Once a terminal reset has been carried out, nothing else ever is. */
  lemma {:induction false} NothingAfterTerminal(steps: seq<Step>, more: seq<Step>)
    requires Allowed(steps + more) && Executed(steps) != [] && Terminal(Executed(steps)[|Executed(steps)| - 1])
    ensures Executed(steps + more) == Executed(steps)
  {
    if more == [] {
      assert steps + more == steps;
    } else {
      var n := |more| - 1;
      assert (steps + more)[..|steps + more| - 1] == steps + more[..n];
      assert Allowed(steps + more[..n]) by {
        var front := steps + more[..n];
        forall i | 0 <= i < |front| && front[i].Post? ensures Postable(front[i].r) {
          assert (steps + more)[i] == front[i];
        }
      }
      NothingAfterTerminal(steps, more[..n]);
      TerminalIsFinal(steps + more[..n]);
    }
  }

  /**
   * A reset that the slot holds, because it has been accepted, is the next thing carried out, whatever is posted
   * meanwhile.
   */
  lemma {:induction false} AcceptedResetIsNext(pending: Request, posts: seq<Request>)
    requires IsReset(pending) && forall i :: 0 <= i < |posts| ==> Postable(posts[i])
    ensures IsReset(PostAll(pending, posts)) && (pending.terminal ==> PostAll(pending, posts) == pending)
    ensures (exists i :: 0 <= i < |posts| && posts[i].terminal) ==> PostAll(pending, posts).terminal
  {
    if posts != [] {
      AcceptedResetIsNext(pending, posts[..|posts| - 1]);
      var front := posts[..|posts| - 1];
      assert forall i :: 0 <= i < |posts| - 1 ==> front[i] == posts[i];
    }
  }
}
