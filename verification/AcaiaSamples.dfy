/** What a scale puts into its samples, and that the decoder gets it out again. */
module AcaiaSamples {
  import opened AcaiaEvents
  import opened AcaiaWire
  import opened Options

  function TenTo(n: nat): int {
    if n == 0 then 1 else 10 * TenTo(n - 1)
  }

  /** Four bytes, the lowest first. */
  function LittleEndian(raw: nat): seq<Byte>
    requires raw < 0x1_0000_0000
  {
    [raw % 256, raw / 256 % 256, raw / 65536 % 256, raw / 16777216]
  }

  /** Bit 0 says that the weight is changing, bit 1 that it is negative; the others mean nothing. */
  function Flags(others: nat, negative: bool, changing: bool): Byte
    requires others < 64
  {
    4 * others + (if negative then 2 else 0) + (if changing then 1 else 0)
  }

  /** Minutes, seconds and tenths. */
  function TimerBytes(tenths: nat): seq<Byte>
    requires tenths < 256 * 600
  {
    [tenths / 600, tenths / 10 % 60, tenths % 10]
  }

  function WeightSample(raw: nat, exponent: Byte, flags: Byte): seq<Byte>
    requires raw < 0x1_0000_0000
  {
    [5] + LittleEndian(raw) + [exponent, flags]
  }

  /** A frame around a sample: header, type, the count of the body, the sample and its checksums. */
  function EventFrame(sample: seq<Byte>): seq<Byte>
    requires |sample| < 59
  {
    Packed(12, [|sample| + 1] + sample)
  }

  lemma PowersAgree(n: nat)
    ensures PowerOfTen(n) == TenTo(n) as real && TenTo(n) > 0
    ensures TenTo(0) == 1 && TenTo(1) == 10 && TenTo(2) == 100 && TenTo(3) == 1000
  {
    if n > 0 {
      PowersAgree(n - 1);
    }
  }

  lemma BytesAddUp(raw: nat)
    requires raw < 0x1_0000_0000
    ensures raw % 256 + raw / 256 % 256 * 0x100 + raw / 65536 % 256 * 0x1_0000 + raw / 16777216 * 0x100_0000 == raw
  {
    assert raw / 256 / 256 == raw / 65536 && raw / 65536 / 256 == raw / 16777216;
  }

  lemma FlagBits(others: nat, negative: bool, changing: bool)
    requires others < 64
    ensures var f := Flags(others, negative, changing); (f / 2 % 2 == 1 <==> negative) && (f % 2 == 0 <==> !changing)
  {}

  function Signed(raw: nat, negative: bool): int {
    (if negative then -1 else 1) * raw
  }

  /** The weight in grams is the signed count, so many decimal places down. */
  ghost predicate Weighs(grams: real, count: int, exponent: nat) {
    grams * TenTo(exponent) as real == count as real
  }

  /** The running timer behind its marker, in milliseconds. */
  function TimerBehind(tail: seq<Byte>): Option<nat> {
    if |tail| >= 4 && tail[0] == 7 then
      Some(tail[1] as nat * 60000 + tail[2] as nat * 1000 + tail[3] as nat * 100)
    else
      None
  }

  lemma QuotientWeighs(raw: nat, negative: bool, exponent: nat)
    ensures var magnitude := raw as real / PowerOfTen(exponent);
            Weighs(if negative then -magnitude else magnitude, Signed(raw, negative), exponent)
  {
    PowersAgree(exponent);
    Divided(raw as real, TenTo(exponent) as real);
  }

  lemma Divided(x: real, power: real)
    requires power > 0.0
    ensures (x / power) * power == x && -(x / power) * power == -x
  {}

  /** What the decoder makes of the parts of a sample. */
  lemma PartsDecode(d: seq<Byte>, raw: nat, tail: seq<Byte>)
    requires |d| >= 6 && d[6..] == tail
    requires d[0] as nat + d[1] as nat * 0x100 + d[2] as nat * 0x1_0000 + d[3] as nat * 0x100_0000 == raw
    ensures var magnitude := raw as real / PowerOfTen(d[4]);
            DecodeWeight(d) == Some(WeightEvent(if d[5] / 2 % 2 == 1 then -magnitude else magnitude, d[5] % 2 == 0,
                                                TimerBehind(tail)))
  {
    hide PowerOfTen;
    if |tail| >= 4 {
      assert d[6] == tail[0] && d[7..] == tail[1..];
    }
  }

  lemma SampleParts(raw: nat, exponent: Byte, flags: Byte, tail: seq<Byte>)
    requires raw < 0x1_0000_0000
    ensures var d := (WeightSample(raw, exponent, flags) + tail)[1..];
            && |d| >= 6 && d[6..] == tail && d[4] == exponent && d[5] == flags
            && d[0] as nat + d[1] as nat * 0x100 + d[2] as nat * 0x1_0000 + d[3] as nat * 0x100_0000 == raw
  {
    BytesAddUp(raw);
  }

  /** Weight, stability and, behind a marker, the running timer come out as they were put in. */
  lemma WeightDecodes(raw: nat, exponent: Byte, others: nat, negative: bool, changing: bool, tail: seq<Byte>)
    requires raw < 0x1_0000_0000 && others < 64
    ensures var e := DecodeWeight((WeightSample(raw, exponent, Flags(others, negative, changing)) + tail)[1..]);
            && e.Some? && e.value.WeightEvent? && Weighs(e.value.grams, Signed(raw, negative), exponent)
            && e.value.stable == !changing && e.value.scaleTimerMs == TimerBehind(tail)
  {
    var flags := Flags(others, negative, changing);
    SampleParts(raw, exponent, flags, tail);
    FlagBits(others, negative, changing);
    PartsDecode((WeightSample(raw, exponent, flags) + tail)[1..], raw, tail);
    QuotientWeighs(raw, negative, exponent);
    hide WeightSample, Flags, DecodeWeight, TimerBehind, PowerOfTen, Weighs, Signed;
  }

  lemma TimerDecodes(tenths: nat, tail: seq<Byte>)
    requires tenths < 256 * 600
    ensures DecodeTimer(TimerBytes(tenths) + tail) == Some(100 * tenths)
  {
    TenthsAddUp(tenths);
    var d := TimerBytes(tenths) + tail;
    assert d[0] == tenths / 600 && d[1] == tenths / 10 % 60 && d[2] == tenths % 10;
    hide TimerBytes;
  }

  lemma TenthsAddUp(tenths: nat)
    ensures tenths / 600 * 60000 + tenths / 10 % 60 * 1000 + tenths % 10 * 100 == 100 * tenths
  {
    assert tenths / 600 == tenths / 10 / 60;
  }

  /** Every sample framed by the scale is one verified frame that emits what the sample decodes to. */
  lemma FrameEmits(sample: seq<Byte>)
    requires 0 < |sample| < 59
    ensures Parsed(EventFrame(sample)).Some?
    ensures var frame := Parsed(EventFrame(sample)).value;
            frame.payload == sample && Emitted(frame) == Decode(sample[0], sample[1..])
  {
    var body := [|sample| + 1] + sample;
    PackParseRoundTrip(12, body);
    assert body[1..] == sample;
  }

  lemma TimerSampleDecodes(tenths: nat)
    requires tenths < 256 * 600
    ensures Decode(7, TimerBytes(tenths)) == Some(TimerEvent(100 * tenths))
  {
    TimerDecodes(tenths, []);
    assert TimerBytes(tenths) + [] == TimerBytes(tenths);
    hide DecodeTimer, TimerBytes;
  }

  /** A heartbeat response carries a weight or timer sample behind two bytes of its own. */
  lemma ResponseCarriesSample(x: Byte, y: Byte, sample: seq<Byte>)
    requires |sample| >= 2 && (sample[0] == 5 || sample[0] == 7)
    ensures Decode(11, [x, y] + sample) == Decode(sample[0], sample[1..])
  {
    assert ([x, y] + sample)[3..] == sample[1..];
  }

  /** The numbers on the wire and the tags they get. */
  lemma TagsByNumber(frame: Frame)
    ensures frame.msgType == 8 ==> Classify(frame) == Settings && Emitted(frame) == None
    ensures frame.msgType == 7 ==> Classify(frame) == Timer && Emitted(frame) == None
    ensures frame.msgType != 7 && frame.msgType != 8 && frame.msgType != 12 ==>
              Classify(frame) == Unknown && Emitted(frame) == None
    ensures frame.msgType == 12 && frame.payload == [] ==> Classify(frame) == Rejected && Emitted(frame) == None
    ensures frame.msgType == 12 && frame.payload != [] ==>
              var id, n := frame.payload[0], |frame.payload|;
              && (id == 5 ==> Classify(frame) == Weight) && (id == 6 ==> Classify(frame) == Battery)
              && (id == 7 ==> Classify(frame) == Timer) && (id == 8 ==> Classify(frame) == Key)
              && (id == 11 && n >= 10 && frame.payload[3] == 5 ==> Classify(frame) == Weight)
              && (id == 11 && n >= 7 && frame.payload[3] == 7 ==> Classify(frame) == Timer)
              && (id == 11 && (n < 4 || frame.payload[3] !in {5, 7}) ==> Classify(frame) == Unknown)
              && (id == 11 && n < (if n >= 4 && frame.payload[3] == 5 then 10 else 7) ==> Classify(frame) == Unknown)
              && (id !in {5, 6, 7, 8, 11} ==> Classify(frame) == Unknown && Emitted(frame) == Some(UnknownEvent))
              && (id == 8 && n >= 2 ==> Emitted(frame) == Some(KeyEvent(frame.payload[1])))
              && (id == 6 && n >= 2 ==> Emitted(frame) == Some(BatteryEvent(frame.payload[1])))
  {}
}
