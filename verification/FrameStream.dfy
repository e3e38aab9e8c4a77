/** The inbound byte stream read by one left-to-right scan, and what that scan can and cannot lose. */
module FrameStream {
  import opened AcaiaWire
  import opened Options

  /** One outcome of the scan: a verified frame, or bytes that open with a header but are not a frame. */
  datatype Item = Delivered(wire: seq<Byte>) | Garbled(bytes: seq<Byte>)

  /** What the front of the stream is. */
  datatype Verdict =
    | Noise            // not the start of a header: one byte to drop
    | Undecided        // too short to tell
    | BadLength        // a header whose length byte is impossible
    | Accepted(n: nat) // a checksum-valid frame of n bytes
    | BadFrame(n: nat) // n bytes that fail the checksum

  function Judge(s: seq<Byte>): Verdict {
    if s == [] then Undecided
    else if s[0] != HDR1 then Noise
    else if |s| == 1 then Undecided
    else if s[1] != HDR2 then Noise
    else if |s| < 4 then Undecided
    else if !LengthOk(s[3]) then BadLength
    else
      var n := s[3] + 5;
      if |s| < n then Undecided
      else if Parsed(s[..n]).Some? then Accepted(n)
      else BadFrame(n)
  }

  datatype ScanResult = ScanResult(items: seq<Item>, rest: seq<Byte>)

  /** The reference: skip an accepted frame whole, skip one byte of anything else, stop when undecided. */
  function Scan(s: seq<Byte>): ScanResult {
    match Judge(s)
    case Undecided => ScanResult([], s)
    case Noise => Scan(s[1..])
    case BadLength => Prepend(Garbled(s[..4]), Scan(s[1..]))
    case BadFrame(n) => Prepend(Garbled(s[..n]), Scan(s[1..]))
    case Accepted(n) => Prepend(Delivered(s[..n]), Scan(s[n..]))
  }

  function Prepend(item: Item, r: ScanResult): ScanResult {
    r.(items := [item] + r.items)
  }

  // ---- The scan is incremental ------------------------------------------------

  /** Once the front of the stream is decided, later bytes do not change the decision. */
  lemma JudgeStable(s: seq<Byte>, t: seq<Byte>)
    requires Judge(s) != Undecided
    ensures Judge(s + t) == Judge(s)
  {
    if Judge(s).Accepted? || Judge(s).BadFrame? {
      var n := s[3] + 5;
      assert (s + t)[..n] == s[..n];
    }
  }

  /** How far a decided front takes the scan, and what it reports. */
  function StepLength(s: seq<Byte>): (n: nat)
    requires Judge(s) != Undecided
    ensures 0 < n <= |s|
  {
    if Judge(s).Accepted? then Judge(s).n else 1
  }

  function StepItems(s: seq<Byte>): seq<Item>
    requires Judge(s) != Undecided
  {
    match Judge(s)
    case BadLength => [Garbled(s[..4])]
    case BadFrame(n) => [Garbled(s[..n])]
    case Accepted(n) => [Delivered(s[..n])]
    case _ => []
  }

  lemma ScanStep(s: seq<Byte>)
    requires Judge(s) != Undecided
    ensures var next := Scan(s[StepLength(s)..]);
            Scan(s) == ScanResult(StepItems(s) + next.items, next.rest)
  {}

  lemma StepStable(s: seq<Byte>, t: seq<Byte>)
    requires Judge(s) != Undecided
    ensures Judge(s + t) == Judge(s) && StepLength(s + t) == StepLength(s) && StepItems(s + t) == StepItems(s)
    ensures (s + t)[StepLength(s)..] == s[StepLength(s)..] + t
  {
    JudgeStable(s, t);
    SliceOfAppend(s, t, StepLength(s));
    if Judge(s).BadFrame? {
      SliceOfAppend(s, t, Judge(s).n);
    } else if Judge(s).BadLength? {
      SliceOfAppend(s, t, 4);
    }
  }

  /** Scanning a concatenation is scanning the first part and resuming from what it left over. */
  lemma {:induction false} ScanResumes(s: seq<Byte>, t: seq<Byte>)
    ensures var first := Scan(s);
            var second := Scan(first.rest + t);
            Scan(s + t) == ScanResult(first.items + second.items, second.rest)
    decreases |s|
  {
    if Judge(s) == Undecided {
      return;
    }
    hide Judge, Scan, StepItems;
    StepStable(s, t);
    ScanStep(s);
    ScanStep(s + t);
    var later := s[StepLength(s)..];
    ScanResumes(later, t);
    Together(StepItems(s), Scan(later).items, Scan(Scan(later).rest + t).items);
  }

  lemma Together(a: seq<Item>, b: seq<Item>, c: seq<Item>)
    ensures a + b + c == a + (b + c)
  {}

  lemma SliceOfAppend(s: seq<Byte>, t: seq<Byte>, n: nat)
    requires n <= |s|
    ensures (s + t)[..n] == s[..n] && (s + t)[n..] == s[n..] + t
  {
  }

  /** What the scan leaves over is an undecided front shorter than the receive buffer. */
  lemma {:induction false} ScanRest(s: seq<Byte>)
    ensures Judge(Scan(s).rest) == Undecided && |Scan(s).rest| < 64
    ensures |Scan(s).rest| <= |s| && Scan(s).rest == s[|s| - |Scan(s).rest|..]
    decreases |s|
  {
    if Judge(s) != Undecided {
      ScanRest(s[if Judge(s).Accepted? then Judge(s).n else 1..]);
    }
  }

  function Join(chunks: seq<seq<Byte>>): seq<Byte> {
    if chunks == [] then [] else Join(chunks[..|chunks| - 1]) + chunks[|chunks| - 1]
  }

  /** The outcomes of a receiver that is handed one notification after another. */
  function ScanChunks(chunks: seq<seq<Byte>>): ScanResult {
    if chunks == [] then ScanResult([], [])
    else
      var before := ScanChunks(chunks[..|chunks| - 1]);
      var now := Scan(before.rest + chunks[|chunks| - 1]);
      ScanResult(before.items + now.items, now.rest)
  }

  /** How the link splits the byte stream into notifications never changes what comes out of it. */
  lemma {:induction false} ChunkingIsInvisible(chunks: seq<seq<Byte>>)
    ensures ScanChunks(chunks) == Scan(Join(chunks))
  {
    if chunks != [] {
      ChunkingIsInvisible(chunks[..|chunks| - 1]);
      ScanResumes(Join(chunks[..|chunks| - 1]), chunks[|chunks| - 1]);
    }
  }

  // ---- Header search ----------------------------------------------------------

  predicate HeaderFront(s: seq<Byte>) {
    s == [] || (s[0] == HDR1 && (|s| == 1 || s[1] == HDR2))
  }

  /** Drop bytes until a header, or a trailing first header byte, is in front. */
  function SkipNoise(s: seq<Byte>): (r: seq<Byte>)
    ensures |r| <= |s| && HeaderFront(r)
  {
    if HeaderFront(s) then s else SkipNoise(s[1..])
  }

  lemma {:induction false} SkipNoiseKeepsScan(s: seq<Byte>)
    ensures Scan(SkipNoise(s)) == Scan(s)
  {
    if !HeaderFront(s) {
      SkipNoiseKeepsScan(s[1..]);
    }
  }

  /** The search lands on the first header. */
  lemma {:induction false} SkipNoiseFinds(s: seq<Byte>, i: nat)
    requires i + 1 < |s| && s[i] == HDR1 && s[i + 1] == HDR2
    requires forall j :: 0 <= j < i ==> !(s[j] == HDR1 && s[j + 1] == HDR2)
    ensures SkipNoise(s) == s[i..]
  {
    if i > 0 {
      SkipNoiseFinds(s[1..], i - 1);
    }
  }

  lemma {:induction false} SkipNoiseMisses(s: seq<Byte>)
    requires s != [] && forall j :: 0 <= j && j + 1 < |s| ==> !(s[j] == HDR1 && s[j + 1] == HDR2)
    ensures SkipNoise(s) == if s[|s| - 1] == HDR1 then [HDR1] else []
  {
    if |s| > 1 {
      SkipNoiseMisses(s[1..]);
    }
  }

  // ---- Nothing valid is lost --------------------------------------------------

  /** A frame that occupies positions start .. start + n of the stream. */
  datatype Slot = Slot(start: nat, n: nat)

  predicate ValidAt(s: seq<Byte>, slot: Slot) {
    slot.start + slot.n <= |s| && Parsed(s[slot.start..slot.start + slot.n]).Some?
  }

  /** Where the scan of s[from..] delivers frames. */
  function Slots(s: seq<Byte>, from: nat): seq<Slot>
    requires from <= |s|
    decreases |s| - from
  {
    match Judge(s[from..])
    case Undecided => []
    case Accepted(n) => [Slot(from, n)] + Slots(s, from + n)
    case _ => Slots(s, from + 1)
  }

  function Cut(s: seq<Byte>, slot: Slot): Item {
    if slot.start + slot.n <= |s| then Delivered(s[slot.start..slot.start + slot.n]) else Delivered([])
  }

  /** The frames that a list of slots delivers, in order. */
  function Deliveries(s: seq<Byte>, slots: seq<Slot>): seq<Item> {
    if slots == [] then [] else [Cut(s, slots[0])] + Deliveries(s, slots[1..])
  }

  function OnlyDelivered(items: seq<Item>): seq<Item> {
    if items == [] then []
    else if items[0].Delivered? then [items[0]] + OnlyDelivered(items[1..])
    else OnlyDelivered(items[1..])
  }

  lemma AcceptedIsValid(s: seq<Byte>, from: nat)
    requires from <= |s| && Judge(s[from..]).Accepted?
    ensures ValidAt(s, Slot(from, Judge(s[from..]).n))
  {
    SliceOfDrop(s, from, Judge(s[from..]).n);
  }

  /** Valid slices of the input at or after `from`, in order and disjoint. */
  ghost predicate InOrder(s: seq<Byte>, slots: seq<Slot>, from: nat) {
    && (forall i :: 0 <= i < |slots| ==> ValidAt(s, slots[i]) && from <= slots[i].start)
    && (forall i, j :: 0 <= i < j < |slots| ==> slots[i].start + slots[i].n <= slots[j].start)
  }

  lemma InOrderStep(s: seq<Byte>, slot: Slot, slots: seq<Slot>, from: nat)
    requires ValidAt(s, slot) && from <= slot.start && InOrder(s, slots, slot.start + slot.n)
    ensures InOrder(s, [slot] + slots, from)
  {
  }

  /** Delivered frames are valid slices of the input, in order and disjoint. */
  lemma {:induction false} SlotsInOrder(s: seq<Byte>, from: nat)
    requires from <= |s|
    ensures InOrder(s, Slots(s, from), from)
    decreases |s| - from
  {
    var verdict := Judge(s[from..]);
    if verdict.Accepted? {
      SlotsInOrder(s, from + verdict.n);
      AcceptedIsValid(s, from);
      InOrderStep(s, Slot(from, verdict.n), Slots(s, from + verdict.n), from);
    } else if verdict != Undecided {
      SlotsInOrder(s, from + 1);
    }
  }

  /** The scan's deliveries are exactly those slices. */
  lemma {:induction false} SlotsAreReported(s: seq<Byte>, from: nat)
    requires from <= |s|
    ensures OnlyDelivered(Scan(s[from..]).items) == Deliveries(s, Slots(s, from))
    decreases |s| - from
  {
    var verdict := Judge(s[from..]);
    if verdict.Accepted? {
      SliceOfDrop(s, from, verdict.n);
      SlotsAreReported(s, from + verdict.n);
      FilterStep(Delivered(s[from..][..verdict.n]), Scan(s[from..][verdict.n..]).items);
      DeliveriesStep(s, Slot(from, verdict.n), Slots(s, from + verdict.n));
    } else if verdict != Undecided {
      SliceOfDrop(s, from, 1);
      SlotsAreReported(s, from + 1);
      SkippedByteDeliversNothing(s[from..]);
    }
  }

  lemma SliceOfDrop(s: seq<Byte>, from: nat, n: nat)
    requires from + n <= |s|
    ensures s[from..][n..] == s[from + n..] && s[from..][..n] == s[from..from + n]
  {
  }

  lemma FilterStep(item: Item, rest: seq<Item>)
    ensures OnlyDelivered([item] + rest) ==
            if item.Delivered? then [item] + OnlyDelivered(rest) else OnlyDelivered(rest)
  {
    assert ([item] + rest)[1..] == rest;
  }

  lemma DeliveriesStep(s: seq<Byte>, slot: Slot, slots: seq<Slot>)
    ensures Deliveries(s, [slot] + slots) == [Cut(s, slot)] + Deliveries(s, slots)
  {
    var all := [slot] + slots;
    assert all[0] == slot && all[1..] == slots;
  }

  lemma SkippedByteDeliversNothing(s: seq<Byte>)
    requires Judge(s) != Undecided && !Judge(s).Accepted?
    ensures OnlyDelivered(Scan(s).items) == OnlyDelivered(Scan(s[1..]).items)
  {
    if Judge(s).BadLength? {
      FilterStep(Garbled(s[..4]), Scan(s[1..]).items);
    } else if Judge(s).BadFrame? {
      FilterStep(Garbled(s[..Judge(s).n]), Scan(s[1..]).items);
    }
  }

  ghost predicate Straddled(s: seq<Byte>, from: nat, p: nat)
    requires from <= |s|
  {
    exists slot :: slot in Slots(s, from) && slot.start < p < slot.start + slot.n
  }

  lemma ValidFrontIsAccepted(s: seq<Byte>, n: nat)
    requires n <= |s| && Parsed(s[..n]).Some?
    ensures Judge(s) == Accepted(n)
  {
    var wire := s[..n];
    assert wire[0] == s[0] && wire[1] == s[1] && wire[3] == s[3];
  }

  /** A valid frame that starts at p is delivered exactly when no delivered frame straddles p, provided
      the bytes any earlier front could still be waiting for have arrived. */
  lemma NoFrameLost(s: seq<Byte>, frame: Slot)
    requires ValidAt(s, frame)
    requires frame.start + MAX_FRAME - 1 <= |s|
    ensures frame in Slots(s, 0) <==> !Straddled(s, 0, frame.start)
  {
    SliceOfDrop(s, frame.start, frame.n);
    ValidFrontIsAccepted(s[frame.start..], frame.n);
    NoFrameLostFrom(s, 0, frame);
  }

  lemma {:induction false} NoFrameLostFrom(s: seq<Byte>, from: nat, frame: Slot)
    requires from <= frame.start <= |s| && Judge(s[frame.start..]) == Accepted(frame.n)
    requires frame.start + MAX_FRAME - 1 <= |s|
    ensures frame in Slots(s, from) <==> !Straddled(s, from, frame.start)
    decreases |s| - from
  {
    hide Slots, Straddled;
    var verdict := Judge(s[from..]);
    if from == frame.start {
      FrontSlotUnstraddled(s, from, frame.n);
    } else if verdict.Accepted? {
      if from + verdict.n <= frame.start {
        NoFrameLostFrom(s, from + verdict.n, frame);
        LaterSlotsDecide(s, from, verdict.n, frame);
      } else {
        StraddlingSlotDecides(s, from, verdict.n, frame);
      }
    } else {
      LongFrontIsDecided(s[from..]);
      NoFrameLostFrom(s, from + 1, frame);
      SkippedByteHoldsNoSlot(s, from);
    }
  }

  lemma LongFrontIsDecided(s: seq<Byte>)
    requires |s| >= MAX_FRAME
    ensures Judge(s) != Undecided
  {
  }

  lemma SkippedByteHoldsNoSlot(s: seq<Byte>, from: nat)
    requires from < |s| && Judge(s[from..]) != Undecided && !Judge(s[from..]).Accepted?
    ensures Slots(s, from) == Slots(s, from + 1)
    ensures forall p: nat :: Straddled(s, from, p) <==> Straddled(s, from + 1, p)
  {
  }

  lemma FrontSlotUnstraddled(s: seq<Byte>, from: nat, n: nat)
    requires from <= |s| && Judge(s[from..]) == Accepted(n)
    ensures Slot(from, n) in Slots(s, from) && !Straddled(s, from, from)
  {
    SlotsInOrder(s, from);
    assert Slots(s, from)[0] == Slot(from, n);
  }

  lemma LaterSlotsDecide(s: seq<Byte>, from: nat, n: nat, frame: Slot)
    requires from <= |s| && Judge(s[from..]) == Accepted(n) && from < from + n <= frame.start
    ensures frame in Slots(s, from) <==> frame in Slots(s, from + n)
    ensures Straddled(s, from, frame.start) <==> Straddled(s, from + n, frame.start)
  {
    assert forall slot :: slot in Slots(s, from) <==> slot == Slot(from, n) || slot in Slots(s, from + n);
  }

  lemma StraddlingSlotDecides(s: seq<Byte>, from: nat, n: nat, frame: Slot)
    requires from <= |s| && Judge(s[from..]) == Accepted(n) && from < frame.start < from + n
    ensures frame !in Slots(s, from) && Straddled(s, from, frame.start)
  {
    SlotsInOrder(s, from);
    assert Slots(s, from)[0] == Slot(from, n);
  }

  /** A packed frame alone on the line is delivered, and nothing is left over. */
  lemma PackedFrameScans(msgType: Byte, payload: seq<Byte>)
    requires 1 <= |payload| <= MAX_FRAME - 5 && payload[0] == |payload|
    ensures Parsed(Packed(msgType, payload)).Some?
    ensures Scan(Packed(msgType, payload)) == ScanResult([Delivered(Packed(msgType, payload))], [])
  {
    var wire := Packed(msgType, payload);
    PackParseRoundTrip(msgType, payload);
    assert wire[..|wire|] == wire;
    ValidFrontIsAccepted(wire, |wire|);
    assert wire[|wire|..] == [];
  }
}
