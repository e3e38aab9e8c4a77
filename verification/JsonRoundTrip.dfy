/** Parsing undoes printing, for every tree. */
module JsonRoundTrip {
  import opened JsonText
  import opened Options

  /** Text that a C string of bytes can hold. */
  predicate ByteText(s: string) {
    forall i :: 0 <= i < |s| ==> 0 < s[i] as int < 256
  }

  predicate Proper(t: Json) {
    match t
    case Text(s) => ByteText(s)
    case Object(fields) => ProperFields(fields)
    case Array(items) => ProperItems(items)
    case _ => true
  }

  predicate ProperFields(f: Fields) {
    f.Field? ==> ByteText(f.key) && Proper(f.value) && ProperFields(f.rest)
  }

  predicate ProperItems(i: Items) {
    i.Item? ==> Proper(i.head) && ProperItems(i.tail)
  }

  // ---- Strings -------------------------------------------------------------------------------

  lemma HexRoundTrip(n: nat)
    requires n < 16
    ensures HexValue(HexDigit(n)) == Some(n)
  {}

  lemma CharRoundTrip(c: char, rest: string)
    requires 0 < c as int < 256
    ensures ReadChar(EscapeChar(c) + rest) == Done(c, rest)
    ensures EscapeChar(c)[0] != '"'
  {
    var n := c as int;
    var s := EscapeChar(c) + rest;
    if |EscapeChar(c)| == 6 {
      HexRoundTrip(n / 16);
      HexRoundTrip(n % 16);
      assert s[2..] == s[2..6] + rest && s[6..] == rest;
    } else if |EscapeChar(c)| == 2 {
      assert s[2..] == rest;
    } else {
      assert s[1..] == rest;
    }
  }

  /** Unescaping inverts escaping, up to the closing quote and whatever follows it. */
  lemma {:induction false} EscapeRoundTrip(t: string, rest: string)
    requires ByteText(t)
    ensures ReadChars(Escape(t) + "\"" + rest) == Done(t, rest)
    decreases |t|
  {
    hide ReadChar, EscapeChar;
    if t == "" {
      assert (Escape(t) + "\"" + rest)[1..] == rest;
    } else {
      var tail := Escape(t[1..]) + "\"" + rest;
      CharRoundTrip(t[0], tail);
      EscapeRoundTrip(t[1..], rest);
      assert Escape(t) + "\"" + rest == EscapeChar(t[0]) + tail;
      assert t == [t[0]] + t[1..];
    }
  }

  // ---- Numbers -------------------------------------------------------------------------------

  /** What may follow a value inside a document. */
  predicate Boundary(rest: string) {
    rest == "" || rest[0] in ",}]"
  }

  lemma {:induction false} DigitsProperties(n: nat)
    ensures forall i :: 0 <= i < |Digits(n)| ==> IsDigit(Digits(n)[i])
    ensures Digits(n)[0] == '0' ==> n == 0
    ensures ValueOf(Digits(n)) == n
  {
    if n >= 10 {
      DigitsProperties(n / 10);
      assert Digits(n)[..|Digits(n)| - 1] == Digits(n / 10);
    } else {
      assert Digits(n)[..0] == "";
    }
  }

  lemma {:induction false} RunStops(d: string, rest: string)
    requires forall i :: 0 <= i < |d| ==> IsDigit(d[i])
    requires rest == "" || !IsDigit(rest[0])
    ensures DigitRun(d + rest) == |d|
    decreases |d|
  {
    if d == "" {
      assert d + rest == rest;
    } else {
      assert IsDigit(d[0]);
      assert (d + rest)[1..] == d[1..] + rest;
      RunStops(d[1..], rest);
    }
  }

  lemma NaturalRoundTrip(n: nat, rest: string)
    requires Boundary(rest)
    ensures ReadNatural(Digits(n) + rest) == Done(n, rest)
  {
    hide ValueOf;
    DigitsProperties(n);
    var s, d := Digits(n) + rest, Digits(n);
    RunStops(d, rest);
    assert s[..|d|] == d && s[|d|..] == rest;
    assert n == 0 ==> |d| == 1;
  }

  // ---- Trees ----------------------------------------------------------------------------------

  lemma Punctuation(c: char, s: string)
    requires !IsSpace(c)
    ensures SkipSpace([c] + s) == [c] + s
    ensures Expect(c, [c] + s) == Done((), s)
    ensures forall d :: d != c ==> Expect(d, [c] + s) == Fail
  {
    assert ([c] + s)[1..] == s;
  }

  lemma LiteralRoundTrip(word: string, rest: string)
    requires word in ["null", "true", "false"]
    ensures StartsWith(word + rest, word) && (word + rest)[|word|..] == rest
  {}

  lemma LiteralValue(t: Json, rest: string)
    requires t.Null? || t.Bool?
    ensures ParseValue(Print(t) + rest) == Done(t, rest)
  {
    hide ReadChars, ReadNatural, ParseFields, ParseItems, Expect;
    var word := Print(t);
    LiteralRoundTrip(word, rest);
    assert (word + rest)[0] == word[0];
    assert word[0] == 'n' || word[0] == 't' || word[0] == 'f';
    Unspaced(word + rest);
  }

  lemma Unspaced(s: string)
    requires s != "" && !IsSpace(s[0])
    ensures SkipSpace(s) == s
  {}

  lemma NumberValue(n: int, rest: string)
    requires Boundary(rest)
    ensures ParseValue(Decimal(n) + rest) == Done(Number(n), rest)
  {
    hide ReadChars, ReadNatural, ParseFields, ParseItems, Expect, Digits;
    var s := Decimal(n) + rest;
    if n < 0 {
      NaturalRoundTrip(-n, rest);
      assert s == "-" + (Digits(-n) + rest);
      assert s[1..] == Digits(-n) + rest;
    } else {
      NaturalRoundTrip(n, rest);
      DigitsProperties(n);
      assert IsDigit(s[0]);
    }
    Unspaced(s);
  }

  lemma TextValue(text: string, rest: string)
    requires ByteText(text)
    ensures ParseValue(Quoted(text) + rest) == Done(Text(text), rest)
  {
    hide ReadChars, ReadNatural, ParseFields, ParseItems, Expect, Escape;
    var s := Quoted(text) + rest;
    EscapeRoundTrip(text, rest);
    assert s[1..] == Escape(text) + "\"" + rest;
    Unspaced(s);
  }

  /** Parsing the printed form of any tree gives the tree back and leaves what follows it. */
  lemma {:induction false} ValueRoundTrip(t: Json, rest: string)
    requires Proper(t) && Boundary(rest)
    ensures ParseValue(Print(t) + rest) == Done(t, rest)
    decreases t, 1
  {
    match t
    case Null => LiteralValue(t, rest);
    case Bool(b) => LiteralValue(t, rest);
    case Number(n) => NumberValue(n, rest);
    case Text(s) => TextValue(s, rest);
    case Object(fields) => ObjectValue(fields, rest, t);
    case Array(items) => ArrayValue(items, rest, t);
  }

  lemma {:induction false} ObjectValue(fields: Fields, rest: string, t: Json)
    requires ProperFields(fields) && t == Object(fields)
    ensures ParseValue(Print(t) + rest) == Done(t, rest)
    decreases t, 0
  {
    hide ParseFields, PrintFields, ReadChars, ReadNatural, ParseItems, Expect;
    var inner := PrintFields(fields, false) + "}" + rest;
    assert Print(t) + rest == "{" + inner;
    assert ("{" + inner)[1..] == inner;
    Unspaced("{" + inner);
    FieldsStart(fields, rest);
    if fields.NoFields? {
      Punctuation('}', rest);
    } else {
      FieldsRoundTrip(fields, rest);
    }
  }

  /** Members start with a quote, so the closing brace is not found before them. */
  lemma FieldsStart(fields: Fields, rest: string)
    ensures var inner := PrintFields(fields, false) + "}" + rest;
            if fields.NoFields? then inner == "}" + rest else Expect('}', inner) == Fail
  {
    if fields.Field? {
      var inner := PrintFields(fields, false) + "}" + rest;
      Punctuation('"', inner[1..]);
      assert inner == ['"'] + inner[1..];
    }
  }

  lemma {:induction false} FieldsRoundTrip(f: Fields, rest: string)
    requires ProperFields(f) && f.Field?
    ensures ParseFields(PrintFields(f, false) + "}" + rest) == Done(f, rest)
    decreases f, 0
  {
    hide ReadChars, Expect, ParseValue, Print, Escape, ParseFields;
    var more := PrintFields(f.rest, true) + "}" + rest;
    var afterColon := Print(f.value) + more;
    var afterKey := ":" + afterColon;
    var s := PrintFields(f, false) + "}" + rest;
    FieldText(f, rest);
    Unspaced(s);
    EscapeRoundTrip(f.key, afterKey);
    Punctuation(':', afterColon);
    RestStarts(f.rest, rest);
    ValueRoundTrip(f.value, more);
    if f.rest.NoFields? {
      Punctuation('}', rest);
      LastField(s, f.key, afterKey, afterColon, f.value, more, rest);
    } else {
      var next := PrintFields(f.rest, false) + "}" + rest;
      Punctuation(',', next);
      FieldsRoundTrip(f.rest, rest);
      OneField(s, f.key, afterKey, afterColon, f.value, more, next, f.rest, rest);
    }
  }

  /** How the text of the members splits. */
  lemma FieldText(f: Fields, rest: string)
    requires f.Field?
    ensures var s := PrintFields(f, false) + "}" + rest;
            var more := PrintFields(f.rest, true) + "}" + rest;
            && s != "" && s[0] == '"'
            && s[1..] == Escape(f.key) + "\"" + (":" + (Print(f.value) + more))
  {
    hide Escape, Print;
    var e, p, r := Escape(f.key), Print(f.value), PrintFields(f.rest, true);
    assert PrintFields(f, false) == "\"" + e + "\"" + ":" + p + r;
    hide PrintFields;
    MemberText("\"" + e + "\"", p, r, "}", rest);
    QuotedText(e, ":" + (p + (r + "}" + rest)));
  }

  lemma Assoc(a: string, b: string, c: string)
    ensures a + b + c == a + (b + c)
  {}

  lemma MemberText(a: string, p: string, r: string, z: string, rest: string)
    ensures a + ":" + p + r + z + rest == a + (":" + (p + (r + z + rest)))
  {
    Assoc(a + ":" + p + r, z, rest);
    Assoc(r, z, rest);
    Assoc(a + ":" + p, r, z + rest);
    Assoc(a + ":", p, r + (z + rest));
    Assoc(a, ":", p + (r + (z + rest)));
  }

  lemma QuotedText(e: string, rest: string)
    ensures var s := "\"" + e + "\"" + rest; s != "" && s[0] == '"' && s[1..] == e + "\"" + rest
  {}

  lemma CommaMember(q: string, p: string, r: string)
    ensures "," + q + ":" + p + r == "," + (q + ":" + p + r)
  {
    Assoc(",", q, ":");
    Assoc(",", q + ":", p);
    Assoc(",", q + ":" + p, r);
  }

  lemma CommaText(body: string, z: string, rest: string)
    ensures "," + body + z + rest == "," + (body + z + rest) && ("," + body + z + rest)[0] == ','
  {
    Assoc(",", body, z);
    Assoc(",", body + z, rest);
  }

  lemma CommaFields(f: Fields)
    requires f.Field?
    ensures PrintFields(f, true) == "," + PrintFields(f, false)
  {
    hide Quoted, Print;
    CommaMember(Quoted(f.key), Print(f.value), PrintFields(f.rest, true));
    Nothing(Quoted(f.key));
  }

  lemma Nothing(s: string)
    ensures "" + s == s
  {}

  lemma RestStarts(f: Fields, rest: string)
    ensures var more := PrintFields(f, true) + "}" + rest;
            && Boundary(more)
            && more == if f.NoFields? then "}" + rest else "," + (PrintFields(f, false) + "}" + rest)
  {
    if f.Field? {
      hide PrintFields;
      CommaFields(f);
      CommaText(PrintFields(f, false), "}", rest);
    } else {
      Nothing("}");
    }
  }

  lemma LastField(s: string, key: string, afterKey: string, afterColon: string, value: Json, more: string, rest: string)
    requires s != "" && s[0] == '"' && SkipSpace(s) == s
    requires ReadChars(s[1..]) == Done(key, afterKey) && Expect(':', afterKey) == Done((), afterColon)
    requires ParseValue(afterColon) == Done(value, more) && Expect('}', more) == Done((), rest)
    ensures ParseFields(s) == Done(Field(key, value, NoFields), rest)
  {
    hide ReadChars, Expect, ParseValue;
  }

  lemma OneField(s: string, key: string, afterKey: string, afterColon: string, value: Json, more: string, next: string,
                 others: Fields, rest: string)
    requires s != "" && s[0] == '"' && SkipSpace(s) == s
    requires ReadChars(s[1..]) == Done(key, afterKey) && Expect(':', afterKey) == Done((), afterColon)
    requires ParseValue(afterColon) == Done(value, more)
    requires Expect('}', more) == Fail && Expect(',', more) == Done((), next)
    requires ParseFields(next) == Done(others, rest)
    ensures ParseFields(s) == Done(Field(key, value, others), rest)
  {
    hide ReadChars, Expect, ParseValue;
  }

  lemma {:induction false} ArrayValue(items: Items, rest: string, t: Json)
    requires ProperItems(items) && t == Array(items)
    ensures ParseValue(Print(t) + rest) == Done(t, rest)
    decreases t, 0
  {
    hide ParseFields, PrintItems, ReadChars, ReadNatural, ParseItems, Expect;
    var inner := PrintItems(items, false) + "]" + rest;
    assert Print(t) + rest == "[" + inner;
    assert ("[" + inner)[1..] == inner;
    Unspaced("[" + inner);
    ItemsStart(items, rest);
    if items.NoItems? {
      Punctuation(']', rest);
    } else {
      ItemsRoundTrip(items, rest);
    }
  }

  /** No value starts with a closing bracket or with space. */
  lemma ValueStart(t: Json)
    ensures Print(t) != "" && Print(t)[0] != ']' && !IsSpace(Print(t)[0])
  {
    if t.Number? {
      DigitsProperties(if t.n < 0 then -t.n else t.n);
      hide Digits;
      assert t.n >= 0 ==> IsDigit(Print(t)[0]);
    }
  }

  lemma ItemsStart(items: Items, rest: string)
    ensures var inner := PrintItems(items, false) + "]" + rest;
            if items.NoItems? then inner == "]" + rest else Expect(']', inner) == Fail
  {
    hide Print;
    if items.Item? {
      ValueStart(items.head);
      var inner := PrintItems(items, false) + "]" + rest;
      assert inner[0] == Print(items.head)[0];
      Punctuation(inner[0], inner[1..]);
      assert inner == [inner[0]] + inner[1..];
    }
  }

  lemma CommaItems(i: Items)
    requires i.Item?
    ensures PrintItems(i, true) == "," + PrintItems(i, false)
  {
    hide Print;
    Assoc(",", Print(i.head), PrintItems(i.tail, true));
    Nothing(Print(i.head));
  }

  lemma ItemText(i: Items, rest: string)
    requires i.Item?
    ensures PrintItems(i, false) + "]" + rest == Print(i.head) + (PrintItems(i.tail, true) + "]" + rest)
  {
    hide Print;
    var p, r := Print(i.head), PrintItems(i.tail, true);
    Nothing(p);
    Assoc(p + r, "]", rest);
    Assoc(p, r, "]" + rest);
    Assoc(r, "]", rest);
  }

  lemma MoreItems(i: Items, rest: string)
    ensures var more := PrintItems(i, true) + "]" + rest;
            Boundary(more) && more == if i.NoItems? then "]" + rest else "," + (PrintItems(i, false) + "]" + rest)
  {
    if i.Item? {
      hide PrintItems;
      CommaItems(i);
      CommaText(PrintItems(i, false), "]", rest);
    } else {
      Nothing("]");
    }
  }

  lemma {:induction false} ItemsRoundTrip(i: Items, rest: string)
    requires ProperItems(i) && i.Item?
    ensures ParseItems(PrintItems(i, false) + "]" + rest) == Done(i, rest)
    decreases i, 0
  {
    hide Expect, ParseValue, Print, PrintItems;
    var more := PrintItems(i.tail, true) + "]" + rest;
    ItemText(i, rest);
    MoreItems(i.tail, rest);
    ValueRoundTrip(i.head, more);
    if i.tail.NoItems? {
      Punctuation(']', rest);
    } else {
      Punctuation(',', PrintItems(i.tail, false) + "]" + rest);
      ItemsRoundTrip(i.tail, rest);
    }
  }

  /** Every printed document parses back to its tree. */
  lemma {:induction false} DocumentRoundTrip(t: Json)
    requires Proper(t)
    ensures ParseDocument(Print(t)) == Some(t)
  {
    ValueRoundTrip(t, "");
    assert Print(t) + "" == Print(t);
  }

  /** Different trees have different texts. */
  lemma PrintIsInjective(t: Json, u: Json)
    requires Proper(t) && Proper(u) && Print(t) == Print(u)
    ensures t == u
  {
    DocumentRoundTrip(t);
    DocumentRoundTrip(u);
  }
}
