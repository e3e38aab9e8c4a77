/** The Acaia EF/DD wire format: header, type, self-counting body and a two-lane checksum. */
module AcaiaWire {
  import opened Options

  type Byte = b: int | 0 <= b < 256

  const HDR1: Byte := 0xEF
  const HDR2: Byte := 0xDD
  const MAX_FRAME := 64

  /** A checksum-verified inbound frame. */
  datatype Frame = Frame(msgType: Byte, body: seq<Byte>, payload: seq<Byte>, wire: seq<Byte>)

  /** An 8-bit sum. */
  function Wrapped(sum: int): Byte {
    sum % 256
  }

  /** Wrap-around sum of the bytes whose index has the parity `lane`. */
  function LaneSum(s: seq<Byte>, lane: nat): Byte {
    if s == [] then 0
    else
      var last := |s| - 1;
      if last % 2 == lane then Wrapped(LaneSum(s[..last], lane) + s[last]) else LaneSum(s[..last], lane)
  }

  function Packed(msgType: Byte, payload: seq<Byte>): seq<Byte> {
    [HDR1, HDR2, msgType] + payload + [LaneSum(payload, 0), LaneSum(payload, 1)]
  }

  /** The body length announced by the fourth byte is one the receive buffer can hold. */
  predicate LengthOk(bodyLen: Byte) {
    bodyLen != 0 && bodyLen <= MAX_FRAME - 5
  }

  function Parsed(data: seq<Byte>): Option<Frame> {
    if |data| < 6 then None
    else if data[0] != HDR1 || data[1] != HDR2 then None
    else if !LengthOk(data[3]) then None
    else if |data| != data[3] + 5 then None
    else
      var body := data[3..3 + data[3]];
      if LaneSum(body, 0) != data[|data| - 2] || LaneSum(body, 1) != data[|data| - 1] then None
      else Some(Frame(data[2], body, body[1..], data))
  }

  // ---- The loops that compute these ------------------------------------------

  method Checksum(data: array<Byte>, start: nat, len: nat) returns (even: Byte, odd: Byte)
    requires start + len <= data.Length
    ensures even == LaneSum(data[start..start + len], 0)
    ensures odd == LaneSum(data[start..start + len], 1)
  {
    even, odd := 0, 0;
    for i := 0 to len
      invariant even == LaneSum(data[start..start + i], 0)
      invariant odd == LaneSum(data[start..start + i], 1)
    {
      assert data[start..start + (i + 1)][..i] == data[start..start + i];
      if i % 2 == 0 {
        even := Wrapped(even + data[start + i]);
      } else {
        odd := Wrapped(odd + data[start + i]);
      }
    }
  }

  method Pack(out: array<Byte>, msgType: Byte, payload: array<Byte>, plen: nat) returns (n: nat)
    requires plen <= payload.Length && plen + 5 <= out.Length && out != payload
    modifies out
    ensures n == plen + 5 && out[..n] == Packed(msgType, payload[..plen])
    ensures out[plen + 5..] == old(out[plen + 5..])
  {
    hide LaneSum;
    out[0], out[1], out[2] := HDR1, HDR2, msgType;
    for i := 0 to plen
      invariant out[0] == HDR1 && out[1] == HDR2 && out[2] == msgType
      invariant out[3..3 + i] == payload[..i]
      invariant forall t :: 3 + i <= t < out.Length ==> out[t] == old(out[t])
    {
      out[3 + i] := payload[i];
      assert out[3..3 + (i + 1)] == out[3..3 + i] + [payload[i]];
    }
    var ce, co := Checksum(payload, 0, plen);
    out[3 + plen] := ce;
    out[3 + plen + 1] := co;
    n := 3 + plen + 2;
    PackedParts(out[..n], msgType, payload[..plen], ce, co);
  }

  lemma PackedParts(wire: seq<Byte>, msgType: Byte, payload: seq<Byte>, even: Byte, odd: Byte)
    requires |wire| == |payload| + 5 && wire[..3] == [HDR1, HDR2, msgType] && wire[3..3 + |payload|] == payload
    requires wire[3 + |payload|..] == [even, odd] && even == LaneSum(payload, 0) && odd == LaneSum(payload, 1)
    ensures wire == Packed(msgType, payload)
  {
    hide LaneSum;
  }

  method ParseWireFrame(data: array<Byte>, len: nat) returns (frame: Option<Frame>)
    requires len <= data.Length
    ensures frame == Parsed(data[..len])
  {
    if len < 6 { return None; }
    if data[0] != HDR1 || data[1] != HDR2 { return None; }
    var bodyLen := data[3];
    if bodyLen == 0 || bodyLen > MAX_FRAME - 5 { return None; }
    var wireLen := bodyLen + 5;
    if len != wireLen { return None; }
    var ce, co := Checksum(data, 3, bodyLen);
    assert data[..len][3..3 + bodyLen] == data[3..3 + bodyLen];
    if ce != data[wireLen - 2] || co != data[wireLen - 1] { return None; }
    return Some(Frame(data[2], data[3..3 + bodyLen], data[4..3 + bodyLen], data[..len]));
  }

  // ---- The bytes themselves --------------------------------------------------

  /** The sum of the first, third, fifth byte and so on. */
  function EverySecond(s: seq<Byte>): nat {
    if s == [] then 0 else s[0] + if |s| == 1 then 0 else EverySecond(s[2..])
  }

  lemma {:induction false} EverySecondAppend(s: seq<Byte>, b: Byte)
    ensures EverySecond(s + [b]) == EverySecond(s) + if |s| % 2 == 0 then b else 0
  {
    if |s| >= 2 {
      EverySecondAppend(s[2..], b);
      assert (s + [b])[2..] == s[2..] + [b];
    } else if |s| == 1 {
      assert (s + [b])[2..] == [];
    }
  }

  lemma WrapLater(a: nat, b: nat)
    ensures Wrapped(Wrapped(a) + b) == Wrapped(a + b)
  {}

  lemma {:induction false} EvenLane(s: seq<Byte>)
    ensures LaneSum(s, 0) == Wrapped(EverySecond(s))
  {
    hide Wrapped, EverySecond;
    if s == [] {
      NothingAddsUp();
    } else {
      var last := |s| - 1;
      EvenLane(s[..last]);
      EverySecondAppend(s[..last], s[last]);
      assert s == s[..last] + [s[last]];
      WrapLater(EverySecond(s[..last]), s[last]);
    }
  }

  lemma {:induction false} OddLane(s: seq<Byte>)
    ensures LaneSum(s, 1) == if s == [] then 0 else Wrapped(EverySecond(s[1..]))
  {
    hide Wrapped, EverySecond;
    NothingAddsUp();
    if |s| == 1 {
      assert s[1..] == [];
    } else if |s| > 1 {
      var last := |s| - 1;
      OddLane(s[..last]);
      EverySecondAppend(s[1..last], s[last]);
      assert s[1..] == s[1..last] + [s[last]] && s[..last][1..] == s[1..last];
      WrapLater(EverySecond(s[1..last]), s[last]);
    }
  }

  lemma NothingAddsUp()
    ensures EverySecond([]) == 0 && Wrapped(0) == 0
  {}

  /** What goes over the air: two header bytes, the type, the payload, and the sums of its two lanes. */
  lemma WireLayout(msgType: Byte, payload: seq<Byte>)
    ensures var even := EverySecond(payload) % 256;
            var odd := if payload == [] then 0 else EverySecond(payload[1..]) % 256;
            Packed(msgType, payload) == [0xEF, 0xDD, msgType] + payload + [even, odd]
  {
    EvenLane(payload);
    OddLane(payload);
    hide EverySecond;
  }

  // ---- Round trip and error detection ----------------------------------------

  /** A packed message parses exactly when its payload is a self-counting body of legal size, and then
      nothing is lost. */
  lemma PackParseRoundTrip(msgType: Byte, payload: seq<Byte>)
    ensures Parsed(Packed(msgType, payload)).Some? <==> 1 <= |payload| <= 59 && payload[0] == |payload|
    ensures var parsed := Parsed(Packed(msgType, payload));
            parsed.Some? ==>
              parsed.value == Frame(msgType, payload, payload[1..], Packed(msgType, payload))
  {
    var data := Packed(msgType, payload);
    if payload != [] {
      assert data[3] == payload[0];
      if payload[0] == |payload| {
        assert data[3..3 + data[3]] == payload;
      }
    }
  }

  /** Every accepted byte string is the packing of the frame it parses to. */
  lemma ParsePackRoundTrip(data: seq<Byte>)
    requires Parsed(data).Some?
    ensures Packed(Parsed(data).value.msgType, Parsed(data).value.body) == data
  {
  }

  /** Replacing one byte moves the checksum of its own lane by the difference and leaves the other lane
      alone. */
  lemma {:induction false} LaneSumUpdate(s: seq<Byte>, i: nat, b: Byte, lane: nat)
    requires i < |s|
    ensures LaneSum(s[i := b], lane) ==
            if i % 2 == lane then Wrapped(LaneSum(s, lane) + b - s[i]) else LaneSum(s, lane)
  {
    hide Wrapped;
    var last := |s| - 1;
    var t := s[i := b];
    if i == last {
      assert t[..last] == s[..last];
      ReplaceLastTerm(LaneSum(s[..last], lane), s[i], b);
    } else {
      assert t[..last] == s[..last][i := b];
      LaneSumUpdate(s[..last], i, b, lane);
      WrapShiftsCommute(LaneSum(s[..last], lane), b - s[i], s[last]);
    }
  }

  lemma ReplaceLastTerm(sum: Byte, was: Byte, now: Byte)
    ensures Wrapped(sum + now) == Wrapped(Wrapped(sum + was) + now - was)
  {
    WrapAdd(sum + was, now - was);
  }

  lemma WrapShiftsCommute(sum: Byte, d: int, e: int)
    ensures Wrapped(Wrapped(sum + d) + e) == Wrapped(Wrapped(sum + e) + d)
  {
    WrapAdd(sum + d, e);
    WrapAdd(sum + e, d);
  }

  lemma WrapAdd(a: int, d: int)
    ensures Wrapped(Wrapped(a) + d) == Wrapped(a + d)
  {
  }

  /** Two bytes that shift a wrap-around sum by the same amount are equal. */
  lemma WrapShiftMatters(sum: Byte, b: Byte, c: Byte)
    requires b != c
    ensures Wrapped(sum + b - c) != sum
  {
  }

  lemma BodyByteCorruption(data: seq<Byte>, i: nat, b: Byte)
    requires Parsed(data).Some? && 3 < i < |data| - 2 && b != data[i]
    ensures Parsed(data[i := b]).None?
  {
    var bad := data[i := b];
    var n := data[3];
    var body := data[3..3 + n];
    var j := i - 3;
    assert bad[3..3 + n] == body[j := b];
    assert data[|data| - 2] == LaneSum(body, 0) && data[|data| - 1] == LaneSum(body, 1);
    if j % 2 == 0 {
      LaneSumUpdate(body, j, b, 0);
      WrapShiftMatters(LaneSum(body, 0), b, body[j]);
      assert LaneSum(bad[3..3 + n], 0) != bad[|bad| - 2];
    } else {
      LaneSumUpdate(body, j, b, 1);
      WrapShiftMatters(LaneSum(body, 1), b, body[j]);
      assert LaneSum(bad[3..3 + n], 1) != bad[|bad| - 1];
    }
  }

  /** Corrupting one byte of a valid frame is detected exactly when that byte is not the message type,
      which the checksum does not cover. */
  lemma SingleByteCorruption(data: seq<Byte>, i: nat, b: Byte)
    requires Parsed(data).Some? && i < |data| && b != data[i]
    ensures Parsed(data[i := b]).None? <==> i != 2
  {
    var bad := data[i := b];
    var n := data[3];
    if 3 < i < |data| - 2 {
      BodyByteCorruption(data, i, b);
    } else if i != 3 {
      assert bad[3..3 + n] == data[3..3 + n];
    }
  }
}
