/** The one-slot store of single-use tickets that admit a client to the event stream. */
module SseTickets {
  import opened Clock

  const TICKET_TTL_MS: Millis := 30000

  datatype Tickets = Tickets(token: string, mintedMs: Millis, consumed: bool)

  const NO_TICKET := Tickets("", 0, true)

  function Minted(token: string, now: Millis): Tickets {
    Tickets(token, now, false)
  }

  predicate Expired(t: Tickets, now: Millis) {
    Elapsed(now, t.mintedMs) > TICKET_TTL_MS
  }

  predicate Admits(t: Tickets, offered: string, now: Millis) {
    offered != "" && !t.consumed && offered == t.token && !Expired(t, now)
  }

  /** An admission uses the ticket up; so does any attempt to use it once it has expired. */
  function Tried(t: Tickets, offered: string, now: Millis): Tickets {
    if offered == "" || t.consumed || t.token == "" then t
    else if Expired(t, now) then t.(consumed := true)
    else if offered == t.token then t.(consumed := true, token := "")
    else t
  }

  class TicketStore {
    var ticketToken: string
    var ticketMintedMs: Millis
    var ticketConsumed: bool

    ghost function View(): Tickets
      reads this
    {
      Tickets(ticketToken, ticketMintedMs, ticketConsumed)
    }

    constructor ()
      ensures View() == NO_TICKET
    {
      ticketToken, ticketMintedMs, ticketConsumed := "", 0, true;
    }

    /** `token` is the random hex text that the hardware supplies. */
    method MintTicket(token: string, now: Millis)
      modifies this
      ensures View() == Minted(token, now)
    {
      ticketToken, ticketMintedMs, ticketConsumed := token, now, false;
    }

    method ConsumeTicket(token: string, now: Millis) returns (ok: bool)
      modifies this
      ensures ok <==> Admits(old(View()), token, now)
      ensures View() == Tried(old(View()), token, now)
    {
      if token == "" {
        return false;
      }
      if ticketConsumed {
        return false;
      }
      if ticketToken == "" {
        return false;
      }
      if Elapsed(now, ticketMintedMs) > TICKET_TTL_MS {
        ticketConsumed := true;
        return false;
      }
      if ticketToken != token {
        return false;
      }
      ticketConsumed := true;
      ticketToken := "";
      ok := true;
    }
  }

  // ---- Runs ---------------------------------------------------------------------------------

  datatype Use = Mint(token: string, at: nat) | Try(offered: string, at: nat)

  function Used(t: Tickets, u: Use): Tickets {
    match u
    case Mint(token, at) => Minted(token, At(at))
    case Try(offered, at) => Tried(t, offered, At(at))
  }

  function AfterUses(uses: seq<Use>): Tickets {
    if uses == [] then NO_TICKET else Used(AfterUses(uses[..|uses| - 1]), uses[|uses| - 1])
  }

  /** The i-th use is an attempt that admits its client. */
  predicate Admission(uses: seq<Use>, i: nat)
    requires i < |uses|
  {
    uses[i].Try? && Admits(AfterUses(uses[..i]), uses[i].offered, At(uses[i].at))
  }

  /** The last mint before position n, if there is one. */
  function LastMint(uses: seq<Use>, n: nat): (m: int)
    requires n <= |uses|
    ensures -1 <= m < n && (m >= 0 ==> uses[m].Mint?)
    ensures forall i :: m < i < n ==> uses[i].Try?
  {
    if n == 0 then -1 else if uses[n - 1].Mint? then n - 1 else LastMint(uses, n - 1)
  }

  /** A live ticket is the one minted last, and nobody has been admitted since. */
  lemma {:induction false} LiveTicketIsLastMint(uses: seq<Use>, n: nat)
    requires n <= |uses|
    ensures var t, m := AfterUses(uses[..n]), LastMint(uses, n);
            !t.consumed ==>
              && m >= 0 && t == Minted(uses[m].token, At(uses[m].at))
              && forall i :: m < i < n ==> !Admission(uses, i)
  {
    if n > 0 {
      LiveTicketIsLastMint(uses, n - 1);
      assert uses[..n][..n - 1] == uses[..n - 1];
    }
  }

  /**
   * Whoever is admitted shows the ticket minted last; it is the first admission since that mint; and measured on the
   * wrapping counter the ticket is at most 30 seconds old.
   */
  lemma {:induction false} EachMintAdmitsOnce(uses: seq<Use>, i: nat)
    requires i < |uses| && Admission(uses, i)
    ensures var m := LastMint(uses, i);
            && m >= 0 && uses[i].offered == uses[m].token
            && Elapsed(At(uses[i].at), At(uses[m].at)) <= 30000
            && forall j :: m < j < i ==> !Admission(uses, j)
  {
    LiveTicketIsLastMint(uses, i);
  }

  /** Two admissions are always separated by a mint. */
  lemma AdmissionsNeedMints(uses: seq<Use>, i: nat, j: nat)
    requires i < j < |uses| && Admission(uses, i) && Admission(uses, j)
    ensures exists m :: i < m < j && uses[m].Mint?
  {
    EachMintAdmitsOnce(uses, j);
    var m := LastMint(uses, j);
    assert m > i;
  }

  /** In true time too: within one turn of the counter, an admission comes at most 30 seconds after the mint. */
  lemma AdmissionIsTimely(uses: seq<Use>, i: nat)
    requires i < |uses| && Admission(uses, i)
    requires var m := LastMint(uses, i); m >= 0 ==> uses[m].at <= uses[i].at < uses[m].at + WRAP
    ensures var m := LastMint(uses, i); m >= 0 && uses[i].at <= uses[m].at + 30000
  {
    EachMintAdmitsOnce(uses, i);
    ElapsedIsDistance(uses[i].at, uses[LastMint(uses, i)].at);
  }

  /** An attempt, with whatever ticket, that comes when the ticket minted at m has expired. */
  predicate TooLate(uses: seq<Use>, m: nat, j: nat)
    requires m < |uses| && j < |uses|
  {
    && uses[m].Mint? && uses[j].Try? && uses[j].offered != ""
    && Elapsed(At(uses[j].at), At(uses[m].at)) > 30000
  }

  lemma {:induction false} TicketLives(uses: seq<Use>, n: nat)
    requires n <= |uses|
    ensures var t, m := AfterUses(uses[..n]), LastMint(uses, n);
            !t.consumed && t.token != "" <==>
              && m >= 0 && uses[m].token != ""
              && forall i :: m < i < n ==> !Admission(uses, i) && !TooLate(uses, m, i)
  {
    if n > 0 {
      TicketLives(uses, n - 1);
      LiveTicketIsLastMint(uses, n - 1);
      assert uses[..n][..n - 1] == uses[..n - 1];
      var m := LastMint(uses, n);
      if m >= 0 && m < n - 1 && (Admission(uses, n - 1) || TooLate(uses, m, n - 1)) {
        assert AfterUses(uses[..n]).consumed || AfterUses(uses[..n]).token == "";
      }
    }
  }

  /**
   * Exactly who is admitted: whoever offers the ticket minted last within 30 seconds of its minting, unless somebody
   * has been admitted with it or has tried too late.
   */
  lemma {:induction false} AdmittedExactly(uses: seq<Use>, i: nat)
    requires i < |uses| && uses[i].Try?
    ensures var m := LastMint(uses, i);
            Admission(uses, i) <==>
              && m >= 0 && uses[m].token != "" && uses[i].offered == uses[m].token
              && Elapsed(At(uses[i].at), At(uses[m].at)) <= 30000
              && forall j :: m < j < i ==> !Admission(uses, j) && !TooLate(uses, m, j)
  {
    TicketLives(uses, i);
    LiveTicketIsLastMint(uses, i);
    hide AfterUses, TooLate;
  }
}
