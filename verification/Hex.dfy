/** Hexadecimal text of bytes, and back. */
module Hex {
  import opened AcaiaWire
  import opened Options

  const DIGITS := "0123456789abcdef"

  function Pair(b: Byte): string {
    [DIGITS[b / 16], DIGITS[b % 16]]
  }

  function HexOf(data: seq<Byte>): (h: string)
    ensures |h| == 2 * |data|
  {
    if data == [] then "" else HexOf(data[..|data| - 1]) + Pair(data[|data| - 1])
  }

  /** The value of a digit of either case; -1 for any other character. */
  function Digit(c: char): (v: int)
    ensures -1 <= v < 16
  {
    if '0' <= c <= '9' then c as int - '0' as int
    else if 'a' <= c <= 'f' then c as int - 'a' as int + 10
    else if 'A' <= c <= 'F' then c as int - 'A' as int + 10
    else -1
  }

  /** The digits of either case by their values; there are no others. */
  lemma DigitsByValue(c: char)
    ensures forall n :: 0 <= n < 16 ==> Digit("0123456789abcdef"[n]) == n && Digit("0123456789ABCDEF"[n]) == n
    ensures Digit(c) >= 0 <==> c in "0123456789abcdefABCDEF"
  {
    var all := "0123456789abcdefABCDEF";
    if Digit(c) >= 0 {
      assert c == all[if 'A' <= c <= 'F' then Digit(c) + 6 else Digit(c)];
    }
    assert forall n :: 0 <= n < |all| ==> Digit(all[n]) >= 0;
  }

  predicate IsHex(h: string) {
    |h| % 2 == 0 && forall i :: 0 <= i < |h| ==> Digit(h[i]) >= 0
  }

  /** Hexadecimal text is made of pairs of those digits. */
  lemma HexText(h: string)
    ensures IsHex(h) <==> |h| % 2 == 0 && forall i :: 0 <= i < |h| ==> h[i] in "0123456789abcdefABCDEF"
  {
    forall i | 0 <= i < |h| ensures Digit(h[i]) >= 0 <==> h[i] in "0123456789abcdefABCDEF" {
      DigitsByValue(h[i]);
    }
    hide Digit;
  }

  /** The bytes that pairs of digits stand for. */
  function BytesOf(h: string): (b: seq<Byte>)
    requires IsHex(h)
    ensures |b| == |h| / 2
  {
    seq(|h| / 2, i requires 0 <= i < |h| / 2 => HexByte(h[2 * i], h[2 * i + 1]))
  }

  function HexByte(high: char, low: char): Byte
    requires Digit(high) >= 0 && Digit(low) >= 0
  {
    Digit(high) * 16 + Digit(low)
  }

  method EncodeHex(data: seq<Byte>) returns (out: string)
    ensures out == HexOf(data)
  {
    out := "";
    for i := 0 to |data|
      invariant out == HexOf(data[..i])
    {
      assert data[..i + 1][..i] == data[..i];
      out := out + [DIGITS[data[i] / 16]];
      out := out + [DIGITS[data[i] % 16]];
    }
    assert data[..|data|] == data;
  }

  method DecodeHex(hex: string) returns (ok: bool, out: array<Byte>)
    ensures ok <==> IsHex(hex)
    ensures ok ==> out[..] == BytesOf(hex)
    ensures fresh(out)
  {
    if |hex| % 2 != 0 {
      out := new Byte[0];
      return false, out;
    }
    out := new Byte[|hex| / 2](_ => 0);
    var i := 0;
    while i < |hex|
      invariant 0 <= i <= |hex| && i % 2 == 0
      invariant forall j :: 0 <= j < i ==> Digit(hex[j]) >= 0
      invariant forall j :: 0 <= j < i / 2 ==>
                  Digit(hex[2 * j]) >= 0 && Digit(hex[2 * j + 1]) >= 0 && out[j] == HexByte(hex[2 * j], hex[2 * j + 1])
    {
      var high, low := Digit(hex[i]), Digit(hex[i + 1]);
      if high < 0 || low < 0 {
        return false, out;
      }
      out[i / 2] := high * 16 + low;
      i := i + 2;
    }
    ok := true;
  }

  lemma PairRoundTrip(b: Byte)
    ensures Digit(Pair(b)[0]) == b / 16 && Digit(Pair(b)[1]) == b % 16
    ensures |Pair(b)| == 2 && HexByte(Pair(b)[0], Pair(b)[1]) == b
  {
    assert forall n :: 0 <= n < 16 ==> Digit(DIGITS[n]) == n;
  }

  lemma {:induction false} HexAt(data: seq<Byte>, i: nat)
    requires i < |data|
    ensures HexOf(data)[2 * i] == Pair(data[i])[0] && HexOf(data)[2 * i + 1] == Pair(data[i])[1]
  {
    if i < |data| - 1 {
      HexAt(data[..|data| - 1], i);
    }
  }

  /** Decoding undoes encoding. */
  lemma {:induction false} HexRoundTrip(data: seq<Byte>)
    ensures IsHex(HexOf(data)) && BytesOf(HexOf(data)) == data
  {
    hide HexOf, Pair, Digit;
    var h := HexOf(data);
    forall j | 0 <= j < |h| ensures Digit(h[j]) >= 0 {
      HexAt(data, j / 2);
      PairRoundTrip(data[j / 2]);
      assert j == 2 * (j / 2) || j == 2 * (j / 2) + 1;
    }
    forall i | 0 <= i < |data| ensures BytesOf(h)[i] == data[i] {
      HexAt(data, i);
      PairRoundTrip(data[i]);
    }
  }

  function Lower(c: char): char {
    if 'A' <= c <= 'F' then (c as int + 32) as char else c
  }

  lemma DigitOfValue(c: char)
    requires Digit(c) >= 0
    ensures DIGITS[Digit(c)] == Lower(c)
  {}

  lemma PairOfByte(high: char, low: char)
    requires Digit(high) >= 0 && Digit(low) >= 0
    ensures Pair(HexByte(high, low)) == [Lower(high), Lower(low)]
  {
    DigitOfValue(high);
    DigitOfValue(low);
    hide Digit, Lower;
    var b := HexByte(high, low);
    assert b / 16 == Digit(high) && b % 16 == Digit(low);
  }

  /** Encoding undoes decoding up to the case of the digits: no other texts stand for the same bytes. */
  lemma DecodeThenEncode(h: string)
    requires IsHex(h)
    ensures |HexOf(BytesOf(h))| == |h| && forall j :: 0 <= j < |h| ==> HexOf(BytesOf(h))[j] == Lower(h[j])
  {
    hide HexOf, Pair, HexByte, Lower, Digit;
    var b := BytesOf(h);
    forall j | 0 <= j < |h| ensures HexOf(b)[j] == Lower(h[j]) {
      var i := j / 2;
      HexAt(b, i);
      PairOfByte(h[2 * i], h[2 * i + 1]);
      assert j == 2 * i || j == 2 * i + 1;
    }
  }
}
