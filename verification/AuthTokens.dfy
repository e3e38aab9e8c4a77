/** The persisted first-in-first-out store of client tokens, with its RAM copy and failing storage. */
module AuthTokens {
  import opened AcaiaWire
  import opened Hex

  const TOKEN_BYTES := 16
  const MAX_TOKENS := 8

  type Token = seq<Byte>

  ghost predicate AllTokens(ts: seq<Token>) {
    forall i :: 0 <= i < |ts| ==> |ts[i]| == TOKEN_BYTES
  }

  /** What the flash holds under the token key. */
  datatype Flash = Missing | WrongType | Blob(bytes: seq<Byte>)

  function Flatten(ts: seq<Token>): seq<Byte> {
    if ts == [] then [] else ts[0] + Flatten(ts[1..])
  }

  predicate WellSized(bytes: seq<Byte>) {
    |bytes| % TOKEN_BYTES == 0 && |bytes| <= MAX_TOKENS * TOKEN_BYTES
  }

  function Cut(bytes: seq<Byte>): seq<Token>
    requires |bytes| % TOKEN_BYTES == 0
  {
    if bytes == [] then [] else [bytes[..TOKEN_BYTES]] + Cut(bytes[TOKEN_BYTES..])
  }

  /** The tokens a readable flash stands for; a malformed one counts as empty. */
  function Kept(f: Flash): seq<Token> {
    if f.Blob? && WellSized(f.bytes) then Cut(f.bytes) else []
  }

  function LastEight(history: seq<Token>): seq<Token> {
    if |history| <= MAX_TOKENS then history else history[|history| - MAX_TOKENS..]
  }

  lemma {:induction false} CutFlatten(ts: seq<Token>)
    requires AllTokens(ts)
    ensures |Flatten(ts)| == |ts| * TOKEN_BYTES && Cut(Flatten(ts)) == ts
  {
    if ts != [] {
      CutFlatten(ts[1..]);
      var bytes := Flatten(ts);
      assert bytes[..TOKEN_BYTES] == ts[0] && bytes[TOKEN_BYTES..] == Flatten(ts[1..]);
    }
  }

  lemma {:induction false} CutProperties(bytes: seq<Byte>)
    requires |bytes| % TOKEN_BYTES == 0
    ensures AllTokens(Cut(bytes)) && |Cut(bytes)| == |bytes| / TOKEN_BYTES
  {
    if bytes != [] {
      CutProperties(bytes[TOKEN_BYTES..]);
    }
  }

  /** What has been stored is what will be read. */
  lemma {:induction false} StoredIsKept(ts: seq<Token>)
    requires AllTokens(ts) && |ts| <= MAX_TOKENS
    ensures Kept(Blob(Flatten(ts))) == ts
  {
    hide Cut, Flatten;
    CutFlatten(ts);
  }

  lemma KeptProperties(f: Flash)
    ensures AllTokens(Kept(f)) && |Kept(f)| <= MAX_TOKENS
  {
    if f.Blob? && WellSized(f.bytes) {
      CutProperties(f.bytes);
    }
  }

  /** Evicting the oldest at capacity keeps the last eight. */
  lemma EvictionKeepsLastEight(history: seq<Token>, t: Token)
    ensures LastEight(history + [t]) ==
            (if |LastEight(history)| >= MAX_TOKENS then LastEight(history)[1..] else LastEight(history)) + [t]
  {}

  // ---- What the operations do ---------------------------------------------------------------------

  /** RAM copy, whether it has been loaded, and the flash. */
  datatype Store = Store(tokens: seq<Token>, loaded: bool, flash: Flash)

  datatype Operation =
    | Loading(readable: bool)
    | Appending(data: seq<Byte>, readable: bool, writes: bool)
    | Forgetting(opens: bool)

  function Loaded(s: Store, readable: bool): Store {
    if s.loaded || !readable then s else s.(tokens := Kept(s.flash), loaded := true)
  }

  /** An append that reaches the flash. */
  predicate Stores(s: Store, op: Operation) {
    op.Appending? && |op.data| == TOKEN_BYTES && (s.loaded || op.readable) && op.writes
  }

  /** First in, first out, of eight. */
  function Evicted(tokens: seq<Token>, t: Token): seq<Token> {
    (if |tokens| >= MAX_TOKENS then tokens[1..] else tokens) + [t]
  }

  function Done(s: Store, op: Operation): Store {
    match op
    case Loading(readable) => Loaded(s, readable)
    case Appending(data, readable, _) =>
      var loaded := if |data| == TOKEN_BYTES then Loaded(s, readable) else s;
      if Stores(s, op) then
        var tokens := Evicted(loaded.tokens, data);
        Store(tokens, true, Blob(Flatten(tokens)))
      else
        loaded
    case Forgetting(opens) => Store([], true, if opens then Missing else s.flash)
  }

  class TokenStore {
    var tokens: seq<Token>
    var tokensLoaded: bool
    var flash: Flash
    ghost var history: seq<Token>  // tokens persisted since the last forget, starting from what the flash held at boot
    ghost var unforgotten: bool    // the last forget could not clear the flash, and nothing has been persisted since

    ghost function View(): Store
      reads this
    {
      Store(tokens, tokensLoaded, flash)
    }

    /**
     * RAM, once loaded, is the last eight tokens persisted since the last forget; and so is the flash, except after a
     * forget that could not clear it.
     */
    ghost predicate Valid()
      reads this
    {
      && AllTokens(history)
      && (tokensLoaded ==> tokens == LastEight(history))
      && (!unforgotten ==> Kept(flash) == LastEight(history))
      && (unforgotten ==> tokensLoaded)
    }

    constructor (found: Flash)
      ensures Valid() && View() == Store([], false, found) && history == Kept(found) && !unforgotten
    {
      tokens, tokensLoaded, flash := [], false, found;
      history, unforgotten := Kept(found), false;
      KeptProperties(found);
    }

    /** `readable` is false when opening, measuring or reading the store fails, or the read is incomplete. */
    method EnsureTokensLoaded(readable: bool) returns (ok: bool)
      requires Valid()
      modifies `tokens, `tokensLoaded
      ensures Valid() && (ok <==> old(tokensLoaded) || readable) && (ok <==> tokensLoaded)
      ensures View() == Loaded(old(View()), readable)
    {
      if tokensLoaded {
        return true;
      }
      if !readable {
        return false;
      }
      match flash {
        case Missing => tokens := [];
        case WrongType => tokens := [];
        case Blob(bytes) =>
          if |bytes| % TOKEN_BYTES != 0 || |bytes| > MAX_TOKENS * TOKEN_BYTES {
            tokens := [];
          } else {
            tokens := Cut(bytes);
          }
      }
      tokensLoaded := true;
      ok := true;
    }

    method TokenCount(readable: bool) returns (n: nat)
      requires Valid()
      modifies `tokens, `tokensLoaded
      ensures Valid() && n == if old(tokensLoaded) || readable then |LastEight(history)| else 0
    {
      var ok := EnsureTokensLoaded(readable);
      n := if ok then |tokens| else 0;
    }

    method HasTokenBytes(candidate: seq<Byte>, readable: bool) returns (found: bool)
      requires Valid()
      modifies `tokens, `tokensLoaded
      ensures Valid()
      ensures found <==> (old(tokensLoaded) || readable) && candidate in LastEight(history)
    {
      LastEightAreTokens(history);
      if |candidate| != TOKEN_BYTES {
        return false;
      }
      var ok := EnsureTokensLoaded(readable);
      if !ok {
        return false;
      }
      for i := 0 to |tokens|
        invariant candidate !in tokens[..i]
      {
        if tokens[i] == candidate {
          return true;
        }
        assert tokens[..i + 1] == tokens[..i] + [tokens[i]];
      }
      assert tokens[..|tokens|] == tokens;
      found := false;
    }

    /** A cookie authenticates exactly while the bytes it spells are among the last eight tokens. */
    method IsAuthenticated(cookie: string, readable: bool) returns (ok: bool)
      requires Valid()
      modifies `tokens, `tokensLoaded
      ensures Valid()
      ensures ok <==> (old(tokensLoaded) || readable) && IsHex(cookie) && BytesOf(cookie) in LastEight(history)
    {
      LastEightAreTokens(history);
      if cookie == "" {
        return false;
      }
      var decoded, bytes := DecodeHex(cookie);
      if !decoded {
        return false;
      }
      if bytes.Length != TOKEN_BYTES {
        return false;
      }
      ok := HasTokenBytes(bytes[..], readable);
    }

    /**
     * The new set is persisted before it is adopted. An unreadable store is left alone, a failed write changes
     * nothing, and after a success flash and RAM are the same last eight tokens.
     */
    method AppendToken(data: seq<Byte>, readable: bool, writes: bool) returns (count: nat)
      requires Valid()
      modifies this
      ensures Valid() && View() == Done(old(View()), Appending(data, readable, writes))
      ensures var stored := |data| == 16 && (old(tokensLoaded) || readable) && writes;
              if stored then
                && history == old(history) + [data] && !unforgotten
                && tokens == Kept(flash) == LastEight(history) && count == |tokens| > 0
              else history == old(history) && flash == old(flash) && unforgotten == old(unforgotten) && count == 0
    {
      hide Cut, Flatten, Kept, LastEight, WellSized;
      if |data| != TOKEN_BYTES {
        return 0;
      }
      var ok := EnsureTokensLoaded(readable);
      if !ok {
        return 0;
      }
      EvictionKeepsLastEight(history, data);
      LastEightAreTokens(history);
      var candidate := tokens;
      if |candidate| >= MAX_TOKENS {
        candidate := candidate[1..];
      }
      candidate := candidate + [data];
      if !writes {
        return 0;
      }
      StoredIsKept(candidate);
      flash := Blob(Flatten(candidate));
      tokens := candidate;
      history, unforgotten := history + [data], false;
      count := |tokens|;
    }

    method ForgetAll(opens: bool)
      requires Valid()
      modifies this
      ensures Valid() && tokens == [] && history == [] && View() == Done(old(View()), Forgetting(opens))
      ensures if opens then flash == Missing && !unforgotten else flash == old(flash) && unforgotten
    {
      tokens, tokensLoaded := [], true;
      history := [];
      if !opens {
        unforgotten := true;
        return;
      }
      flash := Missing;
      unforgotten := false;
    }
  }

  lemma LastEightAreTokens(history: seq<Token>)
    requires AllTokens(history)
    ensures AllTokens(LastEight(history)) && |LastEight(history)| <= 8
    ensures forall t :: t in LastEight(history) ==> |t| == 16
  {}

  /** The cookie minted for a token spells it, so it authenticates exactly while the token is in the store. */
  lemma MintedCookieSpellsToken(history: seq<Token>, t: Token)
    ensures IsHex(HexOf(t)) && (BytesOf(HexOf(t)) in LastEight(history) <==> t in LastEight(history))
  {
    HexRoundTrip(t);
  }

  /** A token stays valid for exactly seven further pairings, if they are other tokens. */
  lemma TokenOutlivesSevenPairings(before: seq<Token>, t: Token, later: seq<Token>)
    requires t !in later
    ensures |later| <= 7 ==> t in LastEight(before + [t] + later)
    ensures |later| >= 8 ==> t !in LastEight(before + [t] + later)
  {
    var all := before + [t] + later;
    if |later| < MAX_TOKENS {
      assert all[|before|] == t;
      if |all| > MAX_TOKENS {
        assert LastEight(all)[|before| - (|all| - MAX_TOKENS)] == t;
      }
    } else {
      assert LastEight(all) == later[|later| - MAX_TOKENS..];
    }
  }
}
