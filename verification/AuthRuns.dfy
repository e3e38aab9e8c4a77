/** The token store over sequences of loads, appends, forgets and reboots. */
module AuthRuns {
  import opened AcaiaWire
  import opened AuthTokens

  datatype Turn = Doing(op: Operation) | Rebooting

  function After(s: Store, t: Turn): Store {
    match t
    case Doing(op) => Done(s, op)
    case Rebooting => Store([], false, s.flash)
  }

  function Run(found: Flash, turns: seq<Turn>): Store {
    if turns == [] then Store([], false, found) else After(Run(found, turns[..|turns| - 1]), turns[|turns| - 1])
  }

  /** The tokens persisted since the last forget; a reboot starts from what the flash holds. */
  function Persisted(found: Flash, turns: seq<Turn>): seq<Token> {
    if turns == [] then Kept(found)
    else
      var n := |turns| - 1;
      var before, past := Run(found, turns[..n]), Persisted(found, turns[..n]);
      match turns[n]
      case Rebooting => Kept(before.flash)
      case Doing(op) => if op.Forgetting? then [] else if Stores(before, op) then past + [op.data] else past
  }

  /** The last forget could not clear the flash, and nothing has been persisted or read afresh since. */
  predicate Unforgotten(found: Flash, turns: seq<Turn>) {
    turns != [] &&
    var n := |turns| - 1;
    match turns[n]
    case Rebooting => false
    case Doing(op) =>
      if op.Forgetting? then !op.opens
      else !Stores(Run(found, turns[..n]), op) && Unforgotten(found, turns[..n])
  }

  /** What a store holds, when these tokens have been persisted. */
  ghost predicate Holds(s: Store, persisted: seq<Token>, unforgotten: bool) {
    && AllTokens(persisted)
    && (s.loaded ==> s.tokens == LastEight(persisted))
    && (!unforgotten ==> Kept(s.flash) == LastEight(persisted))
    && (unforgotten ==> s.loaded)
  }

  lemma StoringHolds(s: Store, persisted: seq<Token>, unforgotten: bool, op: Operation)
    requires Holds(s, persisted, unforgotten) && Stores(s, op)
    ensures Holds(Done(s, op), persisted + [op.data], false)
  {
    hide Cut, Flatten, Kept;
    EvictionKeepsLastEight(persisted, op.data);
    LastEightAreTokens(persisted);
    assert Loaded(s, op.readable).tokens == LastEight(persisted);
    StoredIsKept(Evicted(LastEight(persisted), op.data));
  }

  lemma RebootHolds(s: Store)
    ensures Holds(After(s, Rebooting), Kept(s.flash), false)
  {
    KeptProperties(s.flash);
  }

  /**
   * After every sequence of turns RAM, once loaded, is the last eight tokens persisted since the last forget; and so is
   * the flash, except after a forget that could not clear it.
   */
  lemma {:induction false} StoreHoldsLastEight(found: Flash, turns: seq<Turn>)
    ensures Holds(Run(found, turns), Persisted(found, turns), Unforgotten(found, turns))
  {
    if turns == [] {
      KeptProperties(found);
    } else {
      var n := |turns| - 1;
      var s, past, un := Run(found, turns[..n]), Persisted(found, turns[..n]), Unforgotten(found, turns[..n]);
      StoreHoldsLastEight(found, turns[..n]);
      hide Cut, Flatten;
      match turns[n]
      case Rebooting => RebootHolds(s);
      case Doing(op) =>
        if Stores(s, op) {
          StoringHolds(s, past, un, op);
        }
    }
  }

  /** A forget outlives a reboot if and only if it could clear the flash, or the flash held nothing. */
  lemma {:induction false} ForgetOutlivesReboot(found: Flash, turns: seq<Turn>, opens: bool)
    ensures var forgotten := turns + [Doing(Forgetting(opens)), Rebooting];
            Persisted(found, forgotten) == [] <==> opens || Kept(Run(found, turns).flash) == []
  {
    var forgotten := turns + [Doing(Forgetting(opens)), Rebooting];
    var first := turns + [Doing(Forgetting(opens))];
    assert forgotten[..|forgotten| - 1] == first && first[..|first| - 1] == turns;
    hide Cut;
  }

  method Do(store: TokenStore, op: Operation)
    requires store.Valid()
    modifies store
    ensures store.Valid() && store.View() == Done(old(store.View()), op)
    ensures store.history ==
            if op.Forgetting? then [] else if Stores(old(store.View()), op) then old(store.history) + [op.data]
            else old(store.history)
  {
    hide TokenStore.Valid, Kept, LastEight, Evicted;
    match op {
      case Loading(readable) => var ok := store.EnsureTokensLoaded(readable);
      case Appending(data, readable, writes) => var count := store.AppendToken(data, readable, writes);
      case Forgetting(opens) => store.ForgetAll(opens);
    }
  }

  /** A store taken through any turns is the one of the run; a reboot makes a new one. */
  method TakeThrough(found: Flash, turns: seq<Turn>) returns (store: TokenStore)
    ensures fresh(store) && store.Valid() && store.View() == Run(found, turns)
    ensures store.history == Persisted(found, turns)
  {
    hide TokenStore.Valid, Kept, Done, Stores;
    store := new TokenStore(found);
    for i := 0 to |turns|
      invariant fresh(store) && store.Valid() && store.View() == Run(found, turns[..i])
      invariant store.history == Persisted(found, turns[..i])
    {
      assert turns[..i + 1][..i] == turns[..i];
      match turns[i] {
        case Rebooting => store := new TokenStore(store.flash);
        case Doing(op) => Do(store, op);
      }
    }
    assert turns[..|turns|] == turns;
  }

  /** After any turns exactly the last eight tokens persisted are known, once they can be read. */
  method Ask(found: Flash, turns: seq<Turn>, candidate: seq<Byte>, readable: bool) returns (known: bool)
    ensures known <==>
              (Run(found, turns).loaded || readable) && candidate in LastEight(Persisted(found, turns))
  {
    hide Run, Persisted, LastEight;
    var store := TakeThrough(found, turns);
    known := store.HasTokenBytes(candidate, readable);
  }
}
