/** The receive buffer that reassembles frames byte by byte, proved to be the reference scan. */
module FrameFramer {
  import opened AcaiaWire
  import opened AcaiaEvents
  import opened FrameStream
  import opened Options

  class Framer {
    const buf: array<Byte>
    var len: nat
    var need: nat
    ghost var fed: seq<Byte> // everything pushed since construction or the last reset

    ghost predicate Shape()
      reads this
    {
      buf.Length == MAX_FRAME && len <= MAX_FRAME
    }

    ghost function Contents(): seq<Byte>
      reads this, buf
      requires Shape()
    {
      buf[..len]
    }

    /** The buffer holds exactly what the reference scan of the input so far is still waiting on. */
    ghost predicate Valid()
      reads this, buf
    {
      Shape() && Contents() == Scan(fed).rest
    }

    constructor ()
      ensures Valid() && fresh(buf) && fed == []
    {
      buf := new Byte[MAX_FRAME](_ => 0);
      len, need := 0, 0;
      fed := [];
    }

    method Reset()
      requires Shape()
      modifies this
      ensures Valid() && fed == [] && len == 0 && need == 0
    {
      len, need := 0, 0;
      fed := [];
    }

    /** The items of one notification are what the scan of the whole stream adds to the scan before it. */
    method Push(data: seq<Byte>) returns (items: seq<Item>)
      requires Valid()
      modifies this, buf
      ensures Valid() && fed == old(fed) + data
      ensures Since(old(fed), items, fed)
    {
      items := [];
      ghost var start := fed;
      for i := 0 to |data|
        invariant Valid() && fed == start + data[..i]
        invariant Since(start, items, fed)
      {
        OneMoreByte(start, items, fed, data[i]);
        AppendByte(data[i]);
        var more := Drain();
        items := items + more;
        fed := fed + [data[i]];
        assert data[..i + 1] == data[..i] + [data[i]];
      }
      assert data[..|data|] == data;
    }

    method AppendByte(b: Byte)
      requires Shape()
      modifies this, buf
      ensures Shape() && fed == old(fed)
      ensures Contents() == Appended(old(Contents()), b)
    {
      if len == 0 {
        if b == HDR1 {
          buf[len] := b;
          len := len + 1;
        }
        return;
      }
      if len == 1 {
        if b == HDR2 {
          buf[len] := b;
          len := len + 1;
        } else if b != HDR1 {
          len := 0;
        }
        return;
      }
      if len >= MAX_FRAME {
        len, need := 0, 0;
        if b == HDR1 {
          buf[len] := b;
          len := len + 1;
        }
        return;
      }
      buf[len] := b;
      len := len + 1;
    }

    /** Takes every decided item off the front of the buffer. */
    method Drain() returns (items: seq<Item>)
      requires Shape()
      modifies this, buf
      ensures Shape() && fed == old(fed)
      ensures ScanResult(items, Contents()) == Scan(old(Contents()))
    {
      hide Judge, Scan, Parsed, SkipNoise;
      items := [];
      ghost var all := Scan(Contents());
      while true
        invariant Shape() && fed == old(fed)
        invariant Remaining(all, items, Contents())
        decreases len
      {
        TakeNoise(all, items, Contents());
        SyncToHeader();
        ghost var front := Contents();
        if len < 4 {
          ShortFrontWaits(all, items, front);
          return;
        }
        var bodyLen := buf[3];
        if bodyLen == 0 || bodyLen > MAX_FRAME - 5 {
          JudgeFront(front);
          TakeGarbled(all, items, front, 4);
          var item := RejectFront(if len >= 4 then 4 else len);
          items := items + [item];
          continue;
        }
        need := bodyLen + 5;
        if len < need {
          ShortFrontWaits(all, items, front);
          return;
        }
        JudgeFront(front);
        var frame := ParseWireFrame(buf, need);
        assert front[..need] == buf[..need];
        if frame.Some? {
          TakeDelivered(all, items, front, need);
          items := items + [Delivered(frame.value.wire)];
          Discard(need);
        } else {
          TakeGarbled(all, items, front, need);
          var item := RejectFront(need);
          items := items + [item];
        }
      }
    }

    /** Reports the first n bytes and goes on one byte later. */
    method RejectFront(n: nat) returns (item: Item)
      requires Shape() && 2 <= n <= len
      modifies this, buf
      ensures Shape() && fed == old(fed) && len < old(len)
      ensures item == Garbled(old(Contents())[..n]) && Contents() == SkipNoise(old(Contents())[1..])
    {
      hide SkipNoise;
      assert Contents()[..n] == buf[..n];
      item := Garbled(buf[..n]);
      ResyncAfterReject();
    }

    method Discard(n: nat)
      requires Shape()
      modifies this, buf
      ensures Shape() && fed == old(fed)
      ensures Contents() == if n >= old(len) then [] else old(Contents())[n..]
    {
      if n >= len {
        len, need := 0, 0;
        return;
      }
      forall i | 0 <= i < len - n {
        buf[i] := buf[i + n];
      }
      len := len - n;
      need := 0;
    }

    method SyncToHeader()
      requires Shape()
      modifies this, buf
      ensures Shape() && fed == old(fed)
      ensures Contents() == SkipNoise(old(Contents()))
    {
      if len == 0 { return; }
      var i := 0;
      while i + 1 < len
        invariant i < len && len == old(len) && unchanged(buf)
        invariant forall j :: 0 <= j < i ==> !(buf[j] == HDR1 && buf[j + 1] == HDR2)
      {
        if buf[i] == HDR1 && buf[i + 1] == HDR2 {
          SkipNoiseFinds(Contents(), i);
          if i != 0 {
            Discard(i);
          }
          return;
        }
        i := i + 1;
      }
      SkipNoiseMisses(Contents());
      if buf[len - 1] == HDR1 {
        buf[0] := HDR1;
        len := 1;
      } else {
        len, need := 0, 0;
      }
    }

    /** After a rejection the search resumes one byte on. */
    method ResyncAfterReject()
      requires Shape()
      modifies this, buf
      ensures Shape() && fed == old(fed)
      ensures Contents() == if old(len) < 2 then SkipNoise(old(Contents())) else SkipNoise(old(Contents())[1..])
    {
      var i := 1;
      while i + 1 < len
        invariant 1 <= i && (len >= 2 ==> i < len) && len == old(len) && unchanged(buf)
        invariant forall j :: 1 <= j < i && j + 1 < len ==> !(buf[j] == HDR1 && buf[j + 1] == HDR2)
      {
        if buf[i] == HDR1 && buf[i + 1] == HDR2 {
          SkipNoiseFinds(Contents()[1..], i - 1);
          Discard(i);
          return;
        }
        i := i + 1;
      }
      if len >= 2 {
        SkipNoiseMisses(Contents()[1..]);
      }
      if len > 0 && buf[len - 1] == HDR1 {
        buf[0] := HDR1;
        len := 1;
        need := 0;
      } else {
        len, need := 0, 0;
      }
    }
  }

  /** The items found between the scan of `start` and the scan of s. */
  ghost predicate Since(start: seq<Byte>, items: seq<Item>, s: seq<Byte>) {
    Scan(s).items == Scan(start).items + items
  }

  lemma OneMoreByte(start: seq<Byte>, items: seq<Item>, s: seq<Byte>, b: Byte)
    requires Since(start, items, s)
    ensures var more := Scan(Appended(Scan(s).rest, b));
            Since(start, items + more.items, s + [b]) && Scan(s + [b]).rest == more.rest
  {
    ScanRest(s);
    ScanResumes(s, [b]);
    AppendIsScanned(Scan(s).rest, b);
    Together(Scan(start).items, items, Scan(Appended(Scan(s).rest, b)).items);
  }

  /** What is still to come from contents c, after `items`, completes the scan result `all`. */
  ghost predicate Remaining(all: ScanResult, items: seq<Item>, c: seq<Byte>) {
    all == ScanResult(items + Scan(c).items, Scan(c).rest)
  }

  lemma TakeNoise(all: ScanResult, items: seq<Item>, c: seq<Byte>)
    requires Remaining(all, items, c)
    ensures Remaining(all, items, SkipNoise(c))
  {
    SkipNoiseKeepsScan(c);
  }

  lemma ShortFrontWaits(all: ScanResult, items: seq<Item>, c: seq<Byte>)
    requires Remaining(all, items, c) && HeaderFront(c)
    requires |c| < 4 || (LengthOk(c[3]) && |c| < c[3] + 5)
    ensures all == ScanResult(items, c)
  {
    assert Judge(c) == Undecided;
  }

  /** A header with its length byte is decided by that byte, and then by the checksum. */
  lemma JudgeFront(c: seq<Byte>)
    requires HeaderFront(c) && |c| >= 4
    ensures !LengthOk(c[3]) ==> Judge(c) == BadLength
    ensures LengthOk(c[3]) && |c| >= c[3] + 5 ==>
              var n := c[3] + 5;
              Judge(c) == if Parsed(c[..n]).Some? then Accepted(n) else BadFrame(n)
    ensures LengthOk(c[3]) && |c| >= c[3] + 5 && Parsed(c[..c[3] + 5]).Some? ==>
              Parsed(c[..c[3] + 5]).value.wire == c[..c[3] + 5]
  {}

  lemma TakeGarbled(all: ScanResult, items: seq<Item>, c: seq<Byte>, n: nat)
    requires Remaining(all, items, c)
    requires (Judge(c) == BadLength && n == 4) || Judge(c) == BadFrame(n)
    ensures Remaining(all, items + [Garbled(c[..n])], SkipNoise(c[1..]))
  {
    SkipNoiseKeepsScan(c[1..]);
  }

  lemma TakeDelivered(all: ScanResult, items: seq<Item>, c: seq<Byte>, n: nat)
    requires Remaining(all, items, c) && Judge(c) == Accepted(n)
    ensures Remaining(all, items + [Delivered(c[..n])], c[n..]) && 0 < n <= |c|
    ensures |c| == n ==> c[n..] == []
  {
  }

  /** The buffer after one more byte: noise is dropped at the door, a full buffer starts over. */
  function Appended(c: seq<Byte>, b: Byte): seq<Byte> {
    if c == [] then (if b == HDR1 then [b] else [])
    else if |c| == 1 then (if b == HDR2 then c + [b] else if b == HDR1 then c else [])
    else if |c| >= MAX_FRAME then (if b == HDR1 then [b] else [])
    else c + [b]
  }

  /** Dropping noise early changes nothing while the buffer is not full. */
  lemma AppendIsScanned(c: seq<Byte>, b: Byte)
    requires Judge(c) == Undecided && |c| < MAX_FRAME
    ensures Scan(Appended(c, b)) == Scan(c + [b])
  {
    if |c| <= 1 {
      var s := c + [b];
      assert SkipNoise(s) == Appended(c, b) by {
        if |c| == 1 {
          assert s[1..] == [b] && s[1..][1..] == [];
        } else {
          assert s[1..] == [];
        }
      }
      SkipNoiseKeepsScan(s);
    }
  }

  /** Between two notifications the buffer always has room for the next byte. */
  lemma NeverFull(f: Framer)
    requires f.Valid()
    ensures f.len < MAX_FRAME
  {
    ScanRest(f.fed);
  }

  /** The diagnostic callback of one item, with the event emitted just before it. */
  datatype Report = Report(bytes: seq<Byte>, kind: InboundKind, event: Option<Event>)

  function ReportOf(item: Item): Report {
    match item
    case Garbled(bytes) => Report(bytes, Rejected, None)
    case Delivered(wire) =>
      if Parsed(wire).None? then Report(wire, Rejected, None)
      else Report(wire, Classify(Parsed(wire).value), Emitted(Parsed(wire).value))
  }

  ghost predicate ItemsVerified(items: seq<Item>) {
    forall i :: 0 <= i < |items| && items[i].Delivered? ==> Parsed(items[i].wire).Some?
  }

  /** A report tagged Rejected is either garbled bytes or a verified EVENT frame without a sub-event; every
      other report shows a verified frame. */
  lemma RejectedReports(s: seq<Byte>, i: nat)
    requires i < |Scan(s).items|
    ensures var item := Scan(s).items[i];
            ReportOf(item).kind == Rejected <==>
            item.Garbled? || (|item.wire| > 3 && item.wire[2] == EVENT && item.wire[3] == 1)
    ensures ReportOf(Scan(s).items[i]).kind == Rejected ==> ReportOf(Scan(s).items[i]).event == None
  {
    ScanVerifies(s);
  }

  lemma {:induction false} ScanVerifies(s: seq<Byte>)
    ensures ItemsVerified(Scan(s).items)
    decreases |s|
  {
    var verdict := Judge(s);
    if verdict != Undecided {
      ScanVerifies(s[if verdict.Accepted? then verdict.n else 1..]);
    }
  }
}
