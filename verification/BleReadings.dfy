/** What the service publishes when a scale sends samples: the values that the scale put into them. */
module BleReadings {
  import opened AcaiaEvents
  import opened AcaiaSamples
  import opened AcaiaWire
  import opened BleService
  import opened Clock
  import opened FrameFramer
  import opened FrameStream
  import opened Options

  predicate AllSamples(samples: seq<seq<Byte>>) {
    forall i :: 0 <= i < |samples| ==> 0 < |samples[i]| < 59
  }

  /** Samples on the wire, one frame each. */
  function Stream(samples: seq<seq<Byte>>): seq<Byte>
    requires AllSamples(samples)
  {
    if samples == [] then [] else Stream(samples[..|samples| - 1]) + EventFrame(samples[|samples| - 1])
  }

  /** What hearing the samples one after the other does to the readings. */
  function Told(r: Readings, samples: seq<seq<Byte>>, now: Millis, target: Address): Readings
    requires AllSamples(samples)
    decreases |samples|
  {
    if samples == [] then r
    else
      var before, sample := Told(r, samples[..|samples| - 1], now, target), samples[|samples| - 1];
      match Decode(sample[0], sample[1..])
      case None => before
      case Some(event) => Heard(before, event, now, target)
  }

  lemma FrameIsOneItem(sample: seq<Byte>)
    requires 0 < |sample| < 59
    ensures Scan(EventFrame(sample)) == ScanResult([Delivered(EventFrame(sample))], [])
  {
    PackedFrameScans(12, [|sample| + 1] + sample);
  }

  lemma FrameIsHeard(r: Readings, sample: seq<Byte>, now: Millis, target: Address)
    requires 0 < |sample| < 59
    ensures HeardAll(r, [Delivered(EventFrame(sample))], now, target) ==
            match Decode(sample[0], sample[1..])
            case None => r
            case Some(event) => Heard(r, event, now, target)
  {
    FrameEmits(sample);
    var items := [Delivered(EventFrame(sample))];
    assert items[..0] == [] && HeardAll(r, items[..0], now, target) == r;
    hide EventFrame, Decode, Heard, Emitted;
  }

  /** From a receiver that is waiting on nothing, a stream of samples is heard sample by sample, and leaves it so. */
  lemma {:induction false} StreamIsHeard(r: Readings, heard: seq<Byte>, samples: seq<seq<Byte>>, now: Millis,
                                         target: Address)
    requires AllSamples(samples) && Scan(heard).rest == []
    ensures Scan(heard + Stream(samples)).rest == []
    ensures HeardAll(r, NewItems(heard, Stream(samples)), now, target) == Told(r, samples, now, target)
    decreases |samples|
  {
    hide Scan, HeardAll, Heard, Decode, EventFrame;
    if samples == [] {
      NothingHeardYet(r, heard, now, target);
    } else {
      var n := |samples| - 1;
      var before, frame := Stream(samples[..n]), EventFrame(samples[n]);
      StreamIsHeard(r, heard, samples[..n], now, target);
      ReadingsIgnoreChunking(r, heard, before, frame, now, target);
      OneMoreFrame(heard + before, samples[n]);
      FrameIsHeard(Told(r, samples[..n], now, target), samples[n], now, target);
      assert heard + before + frame == heard + (before + frame);
      assert AllSamples(samples[..n]);
    }
  }

  lemma OneMoreFrame(heard: seq<Byte>, sample: seq<Byte>)
    requires Scan(heard).rest == [] && 0 < |sample| < 59
    ensures NewItems(heard, EventFrame(sample)) == [Delivered(EventFrame(sample))]
    ensures Scan(heard + EventFrame(sample)).rest == []
  {
    hide Scan, EventFrame;
    var frame := EventFrame(sample);
    ScanResumes(heard, frame);
    NewItemsAdd(heard, frame);
    FrameIsOneItem(sample);
    assert [] + frame == frame;
  }

  /** The receiver has nothing half received under the generation it is about to hear. */
  ghost predicate Clean(s: BleScaleService, generation: Millis)
    reads s, s.receiver
  {
    s.rxHostGeneration != generation || Scan(s.receiver.fed).rest == []
  }

  /** A notification with a stream of samples: each is heard, in order, and the receiver is clean again. */
  method HearSamples(s: BleScaleService, generation: Millis, samples: seq<seq<Byte>>, now: Millis)
    requires s.receiver.Valid() && generation == s.rxAcceptedGeneration != 0
    requires AllSamples(samples) && Clean(s, generation)
    modifies s`readings, s`rxHostGeneration, s.receiver, s.receiver.buf
    ensures s.receiver.Valid() && Clean(s, generation)
    ensures s.readings == Told(old(s.readings), samples, now, s.target)
  {
    ghost var heard := if s.rxHostGeneration == generation then s.receiver.fed else [];
    NothingWaits();
    StreamIsHeard(s.readings, heard, samples, now, s.target);
    hide Scan, HeardAll, NewItems, Told, Stream;
    s.OnNotify(generation, Stream(samples), now);
  }

  lemma NothingWaits()
    ensures Scan([]).rest == []
  {}

  // ---- The values themselves --------------------------------------------------------------------------

  /** A weight sample becomes the weight reading: amount, stability, timer, a new sequence number and a new stamp. */
  method HearWeight(s: BleScaleService, generation: Millis, raw: nat, exponent: Byte, others: nat, negative: bool,
                    changing: bool, tail: seq<Byte>, now: Millis)
    requires s.receiver.Valid() && generation == s.rxAcceptedGeneration != 0 && Clean(s, generation)
    requires raw < 0x1_0000_0000 && others < 64 && |tail| < 52
    modifies s`readings, s`rxHostGeneration, s.receiver, s.receiver.buf
    ensures var w, was := s.readings.weight, old(s.readings);
            && Weighs(w.grams, Signed(raw, negative), exponent) && w.stable == !changing
            && w.scaleTimerMs == TimerBehind(tail)
            && w.sequence == s.readings.weightCount == At(was.weightCount + 1)
            && w.timestampMs == MonotonicStamp(now, was.weight.timestampMs)
            && s.readings.battery == was.battery && s.readings.peer == was.peer
  {
    var flags := Flags(others, negative, changing);
    var sample := WeightSample(raw, exponent, flags) + tail;
    WeightIsTold(s.readings, raw, exponent, others, negative, changing, tail, now, s.target);
    hide Told, WeightSample, Flags, Weighs, TimerBehind, Signed, MonotonicStamp, Scan;
    HearSamples(s, generation, [sample], now);
  }

  lemma SampleIsTold(r: Readings, sample: seq<Byte>, now: Millis, target: Address)
    requires 0 < |sample| < 59
    ensures AllSamples([sample])
    ensures Told(r, [sample], now, target) ==
            match Decode(sample[0], sample[1..])
            case None => r
            case Some(event) => Heard(r, event, now, target)
  {
    assert [sample][..0] == [];
  }

  lemma WeightIsTold(r: Readings, raw: nat, exponent: Byte, others: nat, negative: bool, changing: bool,
                     tail: seq<Byte>, now: Millis, target: Address)
    requires raw < 0x1_0000_0000 && others < 64 && |tail| < 52
    ensures var sample := WeightSample(raw, exponent, Flags(others, negative, changing)) + tail;
            && |sample| < 59 && AllSamples([sample])
            && var told := Told(r, [sample], now, target);
               && Weighs(told.weight.grams, Signed(raw, negative), exponent) && told.weight.stable == !changing
               && told.weight.scaleTimerMs == TimerBehind(tail)
               && told.weight.sequence == told.weightCount == At(r.weightCount + 1)
               && told.weight.timestampMs == MonotonicStamp(now, r.weight.timestampMs)
               && told.battery == r.battery && told.peer == r.peer
  {
    var sample := WeightSample(raw, exponent, Flags(others, negative, changing)) + tail;
    assert |sample| == 7 + |tail| && sample[0] == 5;
    WeightDecodes(raw, exponent, others, negative, changing, tail);
    SampleIsTold(r, sample, now, target);
    hide Told, DecodeWeight, WeightSample, Flags, Weighs, TimerBehind, Signed, MonotonicStamp;
  }

  /** A battery sample becomes the battery reading, for the peer that is connected. */
  method HearBattery(s: BleScaleService, generation: Millis, percent: Byte, now: Millis)
    requires s.receiver.Valid() && generation == s.rxAcceptedGeneration != 0 && Clean(s, generation)
    modifies s`readings, s`rxHostGeneration, s.receiver, s.receiver.buf
    ensures var b, was := s.readings.battery, old(s.readings);
            && b.percent == percent && b.timestampMs == MonotonicStamp(now, was.battery.timestampMs)
            && s.readings.peer == s.target
            && s.readings.weight == was.weight && s.readings.weightCount == was.weightCount
  {
    SampleIsTold(s.readings, [6, percent], now, s.target);
    assert [6, percent][1..] == [percent];
    hide Told, MonotonicStamp, Scan;
    HearSamples(s, generation, [[6, percent]], now);
  }

  /** Timer and key samples, and unknown ones, are no readings. */
  lemma OtherSamplesChangeNothing(r: Readings, sample: seq<Byte>, now: Millis, target: Address)
    requires 0 < |sample| < 59 && sample[0] != 5 && sample[0] != 6 && sample[0] != 11
    ensures AllSamples([sample]) && Told(r, [sample], now, target) == r
  {
    SampleIsTold(r, sample, now, target);
  }
}
