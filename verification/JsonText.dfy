/** JSON values, the text that stands for them, and a parser of that text (RFC 8259, sections 2 to 7). */
module JsonText {
  import opened Options

  datatype Json =
    | Null
    | Bool(b: bool)
    | Number(n: int)
    | Text(s: string)
    | Object(fields: Fields)
    | Array(items: Items)

  datatype Fields = NoFields | Field(key: string, value: Json, rest: Fields)

  datatype Items = NoItems | Item(head: Json, tail: Items)

  // ---- Printing ---------------------------------------------------------------------------

  function HexDigit(n: nat): char
    requires n < 16
  {
    "0123456789abcdef"[n]
  }

  function EscapeChar(c: char): (e: string)
    ensures e != ""
  {
    if c == '"' then "\\\""
    else if c == '\\' then "\\\\"
    else if c as int == 8 then "\\b"
    else if c as int == 12 then "\\f"
    else if c == '\n' then "\\n"
    else if c == '\r' then "\\r"
    else if c == '\t' then "\\t"
    else if c as int < 0x20 then "\\u00" + [HexDigit(c as int / 16), HexDigit(c as int % 16)]
    else [c]
  }

  /** Exactly the quote, the backslash and the control characters are written as anything but themselves. */
  lemma EscapedExactly(c: char)
    ensures EscapeChar(c) == [c] <==> c as int >= 0x20 && c != '"' && c != '\\'
    ensures EscapeChar(c) != [c] ==> |EscapeChar(c)| >= 2 && EscapeChar(c)[0] == '\\'
  {}

  function Escape(s: string): string {
    if s == "" then "" else EscapeChar(s[0]) + Escape(s[1..])
  }

  function Quoted(s: string): string {
    "\"" + Escape(s) + "\""
  }

  function Digits(n: nat): (d: string)
    ensures d != ""
  {
    if n < 10 then [('0' as int + n) as char] else Digits(n / 10) + [('0' as int + n % 10) as char]
  }

  function Decimal(n: int): string {
    if n < 0 then "-" + Digits(-n) else Digits(n)
  }

  function Print(t: Json): string {
    match t
    case Null => "null"
    case Bool(b) => if b then "true" else "false"
    case Number(n) => Decimal(n)
    case Text(s) => Quoted(s)
    case Object(fields) => "{" + PrintFields(fields, false) + "}"
    case Array(items) => "[" + PrintItems(items, false) + "]"
  }

  /** Members, each after the first preceded by a comma; `comma` says whether one came before. */
  function PrintFields(f: Fields, comma: bool): string {
    match f
    case NoFields => ""
    case Field(key, value, rest) =>
      (if comma then "," else "") + Quoted(key) + ":" + Print(value) + PrintFields(rest, true)
  }

  function PrintItems(i: Items, comma: bool): string {
    match i
    case NoItems => ""
    case Item(head, tail) => (if comma then "," else "") + Print(head) + PrintItems(tail, true)
  }

  // ---- Parsing ----------------------------------------------------------------------------

  datatype Parsed<+T> = Fail | Done(value: T, rest: string)

  predicate IsSpace(c: char) {
    c == ' ' || c == '\t' || c == '\n' || c == '\r'
  }

  function SkipSpace(s: string): (r: string)
    ensures |r| <= |s|
  {
    if s != "" && IsSpace(s[0]) then SkipSpace(s[1..]) else s
  }

  /** The text after a punctuation mark, which may stand in space. */
  function Expect(c: char, s: string): (r: Parsed<()>)
    ensures r.Done? ==> |r.rest| < |s|
  {
    var t := SkipSpace(s);
    if t != "" && t[0] == c then Done((), t[1..]) else Fail
  }

  function HexValue(c: char): Option<nat> {
    if '0' <= c <= '9' then Some(c as int - '0' as int)
    else if 'a' <= c <= 'f' then Some(c as int - 'a' as int + 10)
    else if 'A' <= c <= 'F' then Some(c as int - 'A' as int + 10)
    else None
  }

  /** Four hexadecimal digits; code points beyond one byte are not part of this model. */
  function HexCode(s: string): Option<char>
    requires |s| >= 4
  {
    var a, b, c, d := HexValue(s[0]), HexValue(s[1]), HexValue(s[2]), HexValue(s[3]);
    if a.None? || b.None? || c.None? || d.None? then None
    else
      var code := a.value * 4096 + b.value * 256 + c.value * 16 + d.value;
      if code < 256 then Some(code as char) else None
  }

  /** One character of a string, escaped or plain. */
  function ReadChar(s: string): (r: Parsed<char>)
    ensures r.Done? ==> |r.rest| < |s|
  {
    if s == "" || s[0] == '"' || s[0] as int < 0x20 then Fail
    else if s[0] != '\\' then Done(s[0], s[1..])
    else if |s| == 1 then Fail
    else if s[1] == '"' || s[1] == '\\' || s[1] == '/' then Done(s[1], s[2..])
    else if s[1] == 'b' then Done(8 as char, s[2..])
    else if s[1] == 'f' then Done(12 as char, s[2..])
    else if s[1] == 'n' then Done('\n', s[2..])
    else if s[1] == 'r' then Done('\r', s[2..])
    else if s[1] == 't' then Done('\t', s[2..])
    else if s[1] == 'u' && |s| >= 6 then
      match HexCode(s[2..]) { case None => Fail case Some(c) => Done(c, s[6..]) }
    else Fail
  }

  /** The characters up to the closing quote. */
  function ReadChars(s: string): (r: Parsed<string>)
    ensures r.Done? ==> |r.rest| < |s|
    decreases |s|
  {
    if s != "" && s[0] == '"' then Done("", s[1..])
    else
      match ReadChar(s)
      case Fail => Fail
      case Done(c, rest) =>
        match ReadChars(rest)
        case Fail => Fail
        case Done(more, end) => Done([c] + more, end)
  }

  predicate IsDigit(c: char) {
    '0' <= c <= '9'
  }

  function DigitRun(s: string): (n: nat)
    ensures n <= |s|
  {
    if s != "" && IsDigit(s[0]) then 1 + DigitRun(s[1..]) else 0
  }

  function ValueOf(d: string): nat
    requires forall i :: 0 <= i < |d| ==> IsDigit(d[i])
  {
    if d == "" then 0
    else
      assert IsDigit(d[|d| - 1]);
      ValueOf(d[..|d| - 1]) * 10 + (d[|d| - 1] as int - '0' as int)
  }

  lemma {:induction false} RunIsDigits(s: string)
    ensures forall i :: 0 <= i < DigitRun(s) ==> IsDigit(s[i])
  {
    if s != "" && IsDigit(s[0]) {
      RunIsDigits(s[1..]);
    }
  }

  /** An unsigned integer without leading zeros; fractions and exponents are refused. */
  function ReadNatural(s: string): (r: Parsed<int>)
    ensures r.Done? ==> |r.rest| < |s|
  {
    var n := DigitRun(s);
    RunIsDigits(s);
    if n == 0 || (s[0] == '0' && n > 1) then Fail
    else if n < |s| && s[n] in ".eE" then Fail
    else Done(ValueOf(s[..n]), s[n..])
  }

  function StartsWith(s: string, p: string): bool {
    |p| <= |s| && s[..|p|] == p
  }

  function ParseValue(input: string): (r: Parsed<Json>)
    ensures r.Done? ==> |r.rest| < |input|
    decreases |input|, 0
  {
    var s := SkipSpace(input);
    if s == "" then Fail
    else if s[0] == '{' then
      (match Expect('}', s[1..])
       case Done(_, rest) => Done(Object(NoFields), rest)
       case Fail =>
         match ParseFields(s[1..])
         case Fail => Fail
         case Done(f, rest) => Done(Object(f), rest))
    else if s[0] == '[' then
      (match Expect(']', s[1..])
       case Done(_, rest) => Done(Array(NoItems), rest)
       case Fail =>
         match ParseItems(s[1..])
         case Fail => Fail
         case Done(i, rest) => Done(Array(i), rest))
    else if s[0] == '"' then
      (match ReadChars(s[1..])
       case Fail => Fail
       case Done(t, rest) => Done(Text(t), rest))
    else if s[0] == '-' then
      (match ReadNatural(s[1..])
       case Fail => Fail
       case Done(n, rest) => Done(Number(-n), rest))
    else if IsDigit(s[0]) then
      (match ReadNatural(s)
       case Fail => Fail
       case Done(n, rest) => Done(Number(n), rest))
    else if StartsWith(s, "null") then Done(Null, s[4..])
    else if StartsWith(s, "true") then Done(Bool(true), s[4..])
    else if StartsWith(s, "false") then Done(Bool(false), s[5..])
    else Fail
  }

  /** At least one member, up to the closing brace. */
  function ParseFields(input: string): (r: Parsed<Fields>)
    ensures r.Done? ==> |r.rest| < |input|
    decreases |input|, 1
  {
    var s := SkipSpace(input);
    if s == "" || s[0] != '"' then Fail
    else
      match ReadChars(s[1..])
      case Fail => Fail
      case Done(key, afterKey) =>
        match Expect(':', afterKey)
        case Fail => Fail
        case Done(_, afterColon) =>
          match ParseValue(afterColon)
          case Fail => Fail
          case Done(value, afterValue) =>
            match Expect('}', afterValue)
            case Done(_, rest) => Done(Field(key, value, NoFields), rest)
            case Fail =>
              match Expect(',', afterValue)
              case Fail => Fail
              case Done(_, afterComma) =>
                match ParseFields(afterComma)
                case Fail => Fail
                case Done(more, rest) => Done(Field(key, value, more), rest)
  }

  /** At least one element, up to the closing bracket. */
  function ParseItems(input: string): (r: Parsed<Items>)
    ensures r.Done? ==> |r.rest| < |input|
    decreases |input|, 1
  {
    match ParseValue(input)
    case Fail => Fail
    case Done(head, afterValue) =>
      match Expect(']', afterValue)
      case Done(_, rest) => Done(Item(head, NoItems), rest)
      case Fail =>
        match Expect(',', afterValue)
        case Fail => Fail
        case Done(_, afterComma) =>
          match ParseItems(afterComma)
          case Fail => Fail
          case Done(tail, rest) => Done(Item(head, tail), rest)
  }

  /** A whole document: one value and nothing but space after it. */
  function ParseDocument(s: string): Option<Json> {
    match ParseValue(s)
    case Fail => None
    case Done(t, rest) => if SkipSpace(rest) == "" then Some(t) else None
  }
}
