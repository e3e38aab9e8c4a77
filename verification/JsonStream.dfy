/** The buffered JSON writer, and what reaches the client when a tree is written through it. */
module JsonStream {
  import opened JsonRoundTrip
  import opened JsonText
  import opened Options

  const MAX_OBJECT_DEPTH := 8

  /** Appends one character as JSON string contents. */
  method AppendEscaped(out: string, c: char) returns (r: string)
    ensures r == out + EscapeChar(c)
  {
    if c == '"' {
      r := out + "\\\"";
    } else if c == '\\' {
      r := out + "\\\\";
    } else if c as int == 8 {
      r := out + "\\b";
    } else if c as int == 12 {
      r := out + "\\f";
    } else if c == '\n' {
      r := out + "\\n";
    } else if c == '\r' {
      r := out + "\\r";
    } else if c == '\t' {
      r := out + "\\t";
    } else if c as int < 0x20 {
      r := out + ("\\u00" + [HexDigit(c as int / 16), HexDigit(c as int % 16)]);
    } else {
      r := out + [c];
    }
  }

  /** Appends the contents of a JSON string. */
  method EscapeAppend(out: string, s: string) returns (r: string)
    ensures r == out + Escape(s)
  {
    hide EscapeChar;
    r := out;
    for i := 0 to |s|
      invariant r == out + Escape(s[..i])
    {
      EscapeOneMore(s, i);
      Assoc(out, Escape(s[..i]), EscapeChar(s[i]));
      r := AppendEscaped(r, s[i]);
    }
    assert s[..|s|] == s;
  }

  lemma EscapeOneMore(s: string, i: nat)
    requires i < |s|
    ensures Escape(s[..i + 1]) == Escape(s[..i]) + EscapeChar(s[i])
  {
    EscapeConcat(s[..i], [s[i]]);
    assert s[..i + 1] == s[..i] + [s[i]] && [s[i]][1..] == "";
  }

  lemma {:induction false} EscapeConcat(a: string, b: string)
    ensures Escape(a + b) == Escape(a) + Escape(b)
  {
    hide EscapeChar;
    if a == "" {
      assert a + b == b;
    } else {
      EscapeConcat(a[1..], b);
      assert (a + b)[1..] == a[1..] + b;
    }
  }

  function Concat(chunks: seq<string>): string {
    if chunks == [] then "" else Concat(chunks[..|chunks| - 1]) + chunks[|chunks| - 1]
  }

  /** How deeply objects nest in a tree; arrays do not count. */
  function ObjectDepth(t: Json): nat {
    match t
    case Object(fields) => 1 + FieldsDepth(fields)
    case Array(items) => ItemsDepth(items)
    case _ => 0
  }

  function FieldsDepth(f: Fields): nat {
    if f.NoFields? then 0
    else if ObjectDepth(f.value) > FieldsDepth(f.rest) then ObjectDepth(f.value) else FieldsDepth(f.rest)
  }

  function ItemsDepth(i: Items): nat {
    if i.NoItems? then 0
    else if ObjectDepth(i.head) > ItemsDepth(i.tail) then ObjectDepth(i.head) else ItemsDepth(i.tail)
  }

  /** What goes before a key; a key outside any object stands alone. */
  function Separator(commas: seq<bool>): string {
    if commas != [] && commas[|commas| - 1] then "," else ""
  }

  /** From then on the innermost object, if there is one, needs a comma before its next key. */
  function Following(commas: seq<bool>): seq<bool> {
    if commas == [] then [] else commas[|commas| - 1 := true]
  }

  class Writer {
    const flushAt: nat
    const needComma: array<bool>
    var chunks: seq<string>   // what the chunked response has been given
    var buf: string
    var finished: bool
    var objectDepth: nat

    /** Between two calls the buffer holds less than the high-water mark. */
    ghost predicate Valid()
      reads this
    {
      && needComma.Length == MAX_OBJECT_DEPTH && objectDepth <= MAX_OBJECT_DEPTH
      && (buf == "" || |buf| < flushAt)
    }

    /** Everything written so far, sent or not. */
    ghost function Output(): string
      reads this
    {
      Concat(chunks) + buf
    }

    /** The comma states of the open objects. */
    ghost function Commas(): seq<bool>
      reads this, needComma
      requires Valid()
    {
      needComma[..objectDepth]
    }

    constructor (highWater: nat)
      ensures Valid() && fresh(needComma) && Output() == "" && Commas() == [] && !finished && flushAt == highWater
      ensures needComma.Length == 8
    {
      flushAt := highWater;
      needComma := new bool[MAX_OBJECT_DEPTH];
      chunks, buf, finished, objectDepth := [], "", false, 0;
    }

    method Flush()
      modifies `chunks, `buf
      ensures Output() == old(Output()) && buf == ""
    {
      if buf != "" {
        chunks := chunks + [buf];
        assert chunks[..|chunks| - 1] == old(chunks);
        buf := "";
      }
    }

    /** Nothing is held back once the buffer is full. */
    method FlushIfFull()
      modifies `chunks, `buf
      ensures Output() == old(Output()) && (|buf| < flushAt || buf == "")
    {
      if |buf| >= flushAt {
        Flush();
      }
    }

    method Raw(s: string)
      requires Valid() && !finished
      modifies `chunks, `buf
      ensures Valid() && Output() == old(Output()) + s
    {
      buf := buf + s;
      FlushIfFull();
    }

    method Open()
      requires Valid() && !finished && objectDepth < MAX_OBJECT_DEPTH
      modifies `chunks, `buf, `objectDepth, needComma
      ensures Valid() && Output() == old(Output()) + "{" && Commas() == old(Commas()) + [false]
    {
      Raw("{");
      needComma[objectDepth] := false;
      objectDepth := objectDepth + 1;
    }

    method Close()
      requires Valid() && !finished && objectDepth > 0
      modifies `chunks, `buf, `objectDepth
      ensures Valid() && Output() == old(Output()) + "}" && Commas() == old(Commas()[..objectDepth - 1])
    {
      objectDepth := objectDepth - 1;
      Raw("}");
    }

    /** Inside an object, places the comma that separates the member from the one before it. */
    method Key(k: string)
      requires Valid() && !finished
      modifies `chunks, `buf, needComma
      ensures Valid() && Commas() == Following(old(Commas()))
      ensures Output() == old(Output()) + Separator(old(Commas())) + Quoted(k) + ":"
    {
      hide Escape, Concat;
      ghost var separator := Separator(Commas());
      if objectDepth > 0 {
        var top := objectDepth - 1;
        if needComma[top] {
          buf := buf + ",";
        }
        needComma[top] := true;
      }
      assert buf == old(buf) + separator;
      buf := buf + "\"";
      buf := EscapeAppend(buf, k);
      buf := buf + "\":";
      KeyText(Concat(chunks), old(buf), separator, Escape(k));
      FlushIfFull();
    }

    /** No string at all is written as null. */
    method Str(s: Option<string>)
      requires Valid() && !finished
      modifies `chunks, `buf
      ensures Valid() && Output() == old(Output()) + if s.Some? then Quoted(s.value) else "null"
    {
      if s.None? {
        buf := buf + "null";
        Assoc(Concat(chunks), old(buf), "null");
      } else {
        buf := buf + "\"";
        buf := EscapeAppend(buf, s.value);
        buf := buf + "\"";
        StringText(Concat(chunks), old(buf), Escape(s.value));
      }
      FlushIfFull();
    }

    method Unsigned(v: nat)
      requires Valid() && !finished && v < 0x1_0000_0000
      modifies `chunks, `buf
      ensures Valid() && Output() == old(Output()) + Decimal(v)
    {
      Raw(Digits(v));
    }

    method Signed(v: int)
      requires Valid() && !finished && -0x8000_0000 <= v < 0x8000_0000
      modifies `chunks, `buf
      ensures Valid() && Output() == old(Output()) + Decimal(v)
    {
      Raw(Decimal(v));
    }

    method Finish()
      requires Valid()
      modifies `chunks, `buf, `finished
      ensures finished && Output() == old(Output()) && (!old(finished) ==> buf == "")
    {
      if finished {
        return;
      }
      Flush();
      finished := true;
    }

    // ---- Writing a tree as the callers do ----------------------------------------------------

    method WriteValue(t: Json)
      requires Valid() && !finished && Fits(t) && objectDepth + ObjectDepth(t) <= MAX_OBJECT_DEPTH
      modifies `chunks, `buf, `objectDepth, needComma
      ensures Valid() && Output() == old(Output()) + Print(t) && Commas() == old(Commas())
      decreases t, 2
    {
      match t {
        case Null => Raw("null");
        case Bool(b) => Raw(if b then "true" else "false");
        case Number(n) =>
          if n >= 0 {
            Unsigned(n);
          } else {
            Signed(n);
          }
        case Text(s) => Str(Some(s));
        case Object(fields) =>
          ghost var start, commas := Output(), Commas();
          Open();
          WriteFields(fields);
          ghost var full := Commas();
          Close();
          assert full[..|full| - 1] == commas;
          Join(start, "{", PrintFields(fields, false), "}");
        case Array(items) =>
          ghost var start := Output();
          Raw("[");
          WriteItems(items);
          Raw("]");
          Join(start, "[", PrintItems(items, false), "]");
      }
    }

    method WriteFields(f: Fields)
      requires Valid() && !finished && FieldsFit(f)
      requires objectDepth > 0 && objectDepth + FieldsDepth(f) <= MAX_OBJECT_DEPTH
      modifies `chunks, `buf, `objectDepth, needComma
      ensures Valid() && Output() == old(Output()) + PrintFields(f, old(Commas())[old(objectDepth) - 1])
      ensures objectDepth == old(objectDepth) && Commas()[..objectDepth - 1] == old(Commas()[..objectDepth - 1])
      decreases f, 1
    {
      hide Concat, Print, Quoted, ByteText, Fits, ObjectDepth;
      match f {
        case NoFields =>
        case Field(key, value, rest) =>
          ghost var start, commas := Output(), Commas();
          Key(key);
          WriteValue(value);
          WriteFields(rest);
          var separator := Separator(commas);
          JoinMember(start, separator, Quoted(key), Print(value), PrintFields(rest, true));
      }
    }

    method WriteItems(i: Items)
      requires Valid() && !finished && ItemsFit(i) && objectDepth + ItemsDepth(i) <= MAX_OBJECT_DEPTH
      modifies `chunks, `buf, `objectDepth, needComma
      ensures Valid() && Output() == old(Output()) + PrintItems(i, false) && Commas() == old(Commas())
      decreases i, 1
    {
      if i.Item? {
        ghost var start := Output();
        WriteValue(i.head);
        WriteMoreItems(i.tail);
        Assoc(start, Print(i.head), PrintItems(i.tail, true));
      }
    }

    method WriteMoreItems(i: Items)
      requires Valid() && !finished && ItemsFit(i) && objectDepth + ItemsDepth(i) <= MAX_OBJECT_DEPTH
      modifies `chunks, `buf, `objectDepth, needComma
      ensures Valid() && Output() == old(Output()) + PrintItems(i, true) && Commas() == old(Commas())
      decreases i, 1
    {
      if i.Item? {
        ghost var start := Output();
        Raw(",");
        WriteValue(i.head);
        WriteMoreItems(i.tail);
        Join(start, ",", Print(i.head), PrintItems(i.tail, true));
      }
    }
  }

  /** Numbers within the widths that the writer can print, strings that C strings can hold. */
  predicate Fits(t: Json) {
    match t
    case Number(n) => -0x8000_0000 <= n < 0x1_0000_0000
    case Text(s) => ByteText(s)
    case Object(fields) => FieldsFit(fields)
    case Array(items) => ItemsFit(items)
    case _ => true
  }

  /** A tree of so many objects inside one another. */
  function Nested(n: nat): Json {
    if n == 0 then Json.Null else Object(Field("", Nested(n - 1), NoFields))
  }

  /** Eight objects inside one another can be written, and every scalar that C can hold; a ninth object cannot. */
  lemma {:induction false} NestingFits(n: nat)
    ensures ObjectDepth(Nested(n)) == n && Fits(Nested(n))
    ensures Fits(Json.Null) && Fits(Json.Bool(true)) && Fits(Json.Bool(false))
  {
    if n > 0 {
      NestingFits(n - 1);
    }
  }

  lemma NumbersFit(n: int)
    ensures Fits(Json.Number(n)) <==> -2147483648 <= n <= 4294967295
  {}

  predicate FieldsFit(f: Fields) {
    f.Field? ==> ByteText(f.key) && Fits(f.value) && FieldsFit(f.rest)
  }

  predicate ItemsFit(i: Items) {
    i.Item? ==> Fits(i.head) && ItemsFit(i.tail)
  }

  lemma {:induction false} FittingIsProper(t: Json)
    requires Fits(t)
    ensures Proper(t)
    decreases t, 0
  {
    match t
    case Object(fields) => FittingFields(fields);
    case Array(items) => FittingItems(items);
    case _ =>
  }

  lemma {:induction false} FittingFields(f: Fields)
    requires FieldsFit(f)
    ensures ProperFields(f)
    decreases f, 0
  {
    if f.Field? {
      FittingIsProper(f.value);
      FittingFields(f.rest);
    }
  }

  lemma {:induction false} FittingItems(i: Items)
    requires ItemsFit(i)
    ensures ProperItems(i)
    decreases i, 0
  {
    if i.Item? {
      FittingIsProper(i.head);
      FittingItems(i.tail);
    }
  }

  lemma Join(a: string, b: string, c: string, d: string)
    ensures a + b + c + d == a + (b + c + d)
  {
    Assoc(a, b, c);
    Assoc(a, b + c, d);
  }

  lemma JoinMember(a: string, separator: string, q: string, p: string, r: string)
    ensures a + separator + q + ":" + p + r == a + (separator + q + ":" + p + r)
  {
    Assoc(a, separator, q);
    Assoc(a, separator + q, ":");
    Assoc(a, separator + q + ":", p);
    Assoc(a, separator + q + ":" + p, r);
  }

  lemma KeyText(sent: string, buf: string, separator: string, e: string)
    ensures sent + (buf + separator + "\"" + e + "\":") == sent + buf + separator + ("\"" + e + "\"") + ":"
  {
    Assoc(buf + separator, "\"", e);
    assert "\":" == "\"" + ":";
    Assoc(buf + separator + "\"" + e, "\"", ":");
    Assoc(buf + separator, "\"" + e, "\"");
    Assoc(sent, buf + separator + ("\"" + e + "\""), ":");
    Assoc(sent, buf + separator, "\"" + e + "\"");
    Assoc(sent, buf, separator);
  }

  lemma StringText(sent: string, buf: string, e: string)
    ensures sent + (buf + "\"" + e + "\"") == sent + buf + ("\"" + e + "\"")
  {
    Assoc(buf, "\"", e);
    Assoc(buf, "\"" + e, "\"");
    Assoc(sent, buf, "\"" + e + "\"");
  }

  /**
   * A whole response: whatever the high-water mark of the buffer, the chunks handed over make up a document that parses
   * back to the tree that was written.
   */
  method Respond(t: Json, flushAt: nat) returns (chunks: seq<string>)
    requires Fits(t) && ObjectDepth(t) <= 8
    ensures Concat(chunks) == Print(t) && ParseDocument(Concat(chunks)) == Some(t)
  {
    hide Print, ParseDocument;
    var w := new Writer(flushAt);
    w.WriteValue(t);
    w.Finish();
    chunks := w.chunks;
    assert Concat(chunks) == Concat(chunks) + "" && "" + Print(t) == Print(t);
    FittingIsProper(t);
    DocumentRoundTrip(t);
  }
}
