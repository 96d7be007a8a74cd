/** Packets on a byte stream: a 4-byte big-endian header (total size, packet ID)
    and a body, and the greedy parse both ends apply to whatever has arrived. */
module Framing {
  import opened Protocol

  datatype Packet = Packet(id: nat, body: Bytes)

  /** The complete packets found, what is left over, and whether no bad size was met. */
  datatype Parsed = Parsed(packets: seq<Packet>, rest: Bytes, ok: bool)

  function ReadUInt16(high: byte, low: byte): nat {
    high * 256 + low
  }

  function UInt16Bytes(value: nat): Bytes
    requires value <= UINT16_MAX
  {
    [value / 256 % 256, value % 256]
  }

  /** What a packet can carry: a 16-bit ID and a body that fits. */
  predicate Fits(p: Packet) {
    p.id <= UINT16_MAX && |p.body| <= MAX_BODY_SIZE
  }

  predicate AllFit(ps: seq<Packet>) {
    forall i :: 0 <= i < |ps| ==> Fits(ps[i])
  }

  function Frame(p: Packet): Bytes
    requires Fits(p)
  {
    UInt16Bytes(HEADER_SIZE + |p.body|) + UInt16Bytes(p.id) + p.body
  }

  function Frames(ps: seq<Packet>): Bytes
    requires AllFit(ps)
  {
    if ps == [] then [] else Frames(ps[..|ps| - 1]) + Frame(ps[|ps| - 1])
  }

  function TotalSize(b: Bytes): nat
    requires |b| >= HEADER_SIZE
  {
    ReadUInt16(b[0], b[1])
  }

  predicate IsBadSize(size: nat) {
    size < HEADER_SIZE || size > MAX_PACKET_SIZE
  }

  /** A header with a good size has arrived, and all the bytes it announces. */
  predicate HasPacket(b: Bytes) {
    |b| >= HEADER_SIZE && !IsBadSize(TotalSize(b)) && TotalSize(b) <= |b|
  }

  predicate HasBadHeader(b: Bytes) {
    |b| >= HEADER_SIZE && IsBadSize(TotalSize(b))
  }

  function FirstPacket(b: Bytes): Packet
    requires HasPacket(b)
  {
    Packet(ReadUInt16(b[2], b[3]), b[HEADER_SIZE..TotalSize(b)])
  }

  function AfterFirst(b: Bytes): Bytes
    requires HasPacket(b)
  {
    b[TotalSize(b)..]
  }

  function Parse(b: Bytes): Parsed
    decreases |b|
  {
    if HasPacket(b) then Prepend([FirstPacket(b)], Parse(AfterFirst(b)))
    else Parsed([], b, !HasBadHeader(b))
  }

  function Prepend(ps: seq<Packet>, p: Parsed): Parsed {
    p.(packets := ps + p.packets)
  }

  lemma HeaderStays(a: Bytes, b: Bytes)
    requires |a| >= HEADER_SIZE
    ensures TotalSize(a + b) == TotalSize(a)
    ensures HasBadHeader(a + b) == HasBadHeader(a)
    ensures HasPacket(a) ==> HasPacket(a + b) && FirstPacket(a + b) == FirstPacket(a) && AfterFirst(a + b) == AfterFirst(a) + b
  {
    assert (a + b)[0] == a[0] && (a + b)[1] == a[1] && (a + b)[2] == a[2] && (a + b)[3] == a[3];
    if HasPacket(a) {
      assert FirstPacket(a + b).body == FirstPacket(a).body;
    }
  }

  lemma PrependTwice(p: Packet, ps: seq<Packet>, r: Parsed)
    ensures Prepend([p], Prepend(ps, r)) == Prepend([p] + ps, r)
  {
    assert [p] + (ps + r.packets) == ([p] + ps) + r.packets;
  }

  /** The stream in pieces parses as the stream in one: what the first part has
      yielded stands, and parsing resumes with what it left over. */
  lemma {:induction false} ParseInPieces(a: Bytes, b: Bytes)
    ensures Parse(a).ok ==> Parse(a + b) == Prepend(Parse(a).packets, Parse(Parse(a).rest + b))
    ensures !Parse(a).ok ==> Parse(a + b).packets == Parse(a).packets && !Parse(a + b).ok
    decreases |a|
  {
    if |a| >= HEADER_SIZE {
      HeaderStays(a, b);
      if HasPacket(a) {
        hide HasPacket, FirstPacket, AfterFirst, TotalSize;
        ParseInPieces(AfterFirst(a), b);
        PrependTwice(FirstPacket(a), Parse(AfterFirst(a)).packets, Parse(Parse(a).rest + b));
      }
    }
  }

  /** What is parsed is never taken back by bytes that follow. */
  lemma ParseGrows(a: Bytes, b: Bytes)
    ensures Parse(a).packets <= Parse(a + b).packets
    ensures Parse(a + b).ok ==> Parse(a).ok
  {
    ParseInPieces(a, b);
  }

  lemma WrittenIsRead(value: nat)
    requires value <= UINT16_MAX
    ensures |UInt16Bytes(value)| == 2 && ReadUInt16(UInt16Bytes(value)[0], UInt16Bytes(value)[1]) == value
  {
  }

  lemma ParseOneFrame(p: Packet)
    requires Fits(p)
    ensures Parse(Frame(p)) == Parsed([p], [], true)
  {
    hide UInt16Bytes, ReadUInt16;
    var f := Frame(p);
    WrittenIsRead(HEADER_SIZE + |p.body|);
    WrittenIsRead(p.id);
    assert TotalSize(f) == |f|;
    assert FirstPacket(f).body == p.body;
    assert AfterFirst(f) == [];
  }

  /** Round trip: parsing the frames of any packets gives back the packets. */
  lemma {:induction false} ParseFrames(ps: seq<Packet>)
    requires AllFit(ps)
    ensures Parse(Frames(ps)) == Parsed(ps, [], true)
  {
    if ps != [] {
      hide Parse, Frame, Fits, FirstPacket;
      var front, last := ps[..|ps| - 1], ps[|ps| - 1];
      assert Fits(last);
      ParseFrames(front);
      ParseInPieces(Frames(front), Frame(last));
      ParseOneFrame(last);
      assert [] + Frame(last) == Frame(last);
      assert front + [last] == ps;
    }
  }

  /** Any part of the frames that has arrived yields a prefix of the packets. */
  lemma PartOfFramesParses(ps: seq<Packet>, part: Bytes)
    requires AllFit(ps) && part <= Frames(ps)
    ensures Parse(part).ok && Parse(part).packets <= ps
  {
    ParseFrames(ps);
    assert Frames(ps) == part + Frames(ps)[|part|..];
    ParseGrows(part, Frames(ps)[|part|..]);
  }

  lemma {:induction false} FramesOfMore(a: seq<Packet>, b: seq<Packet>)
    requires AllFit(a) && AllFit(b)
    ensures AllFit(a + b) && Frames(a + b) == Frames(a) + Frames(b)
    decreases |b|
  {
    if b == [] {
      assert a + b == a;
    } else {
      hide Frame, Fits;
      var front, last := b[..|b| - 1], b[|b| - 1];
      FramesOfMore(a, front);
      assert (a + b)[..|a + b| - 1] == a + front && (a + b)[|a + b| - 1] == last;
      assert forall i :: 0 <= i < |b| ==> (a + b)[|a| + i] == b[i];
      AppendTwice(Frames(a), Frames(front), Frame(last));
    }
  }

  lemma UInt16RoundTrip(high: byte, low: byte)
    ensures ReadUInt16(high, low) <= UINT16_MAX && UInt16Bytes(ReadUInt16(high, low)) == [high, low]
  {
  }

  lemma FirstFrame(b: Bytes)
    requires HasPacket(b)
    ensures Fits(FirstPacket(b)) && Frame(FirstPacket(b)) + AfterFirst(b) == b
  {
    var size, first := TotalSize(b), FirstPacket(b);
    UInt16RoundTrip(b[0], b[1]);
    UInt16RoundTrip(b[2], b[3]);
    assert b == [b[0], b[1]] + [b[2], b[3]] + b[4..size] + b[size..];
  }

  lemma FramesOfFirst(p: Packet, ps: seq<Packet>)
    requires Fits(p) && AllFit(ps)
    ensures AllFit([p] + ps) && Frames([p] + ps) == Frame(p) + Frames(ps)
  {
    FramesOfMore([p], ps);
    assert [p][..0] == [];
  }

  /** The other round trip: the packets found and the rest are exactly the bytes that arrived. */
  lemma {:induction false} ParseLosesNothing(b: Bytes)
    ensures AllFit(Parse(b).packets) && b == Frames(Parse(b).packets) + Parse(b).rest
    ensures Parse(b).ok ==> |Parse(b).rest| < MAX_PACKET_SIZE
    decreases |b|
  {
    if HasPacket(b) {
      hide HasPacket, FirstPacket, AfterFirst, Frame, Frames, Fits, AllFit;
      var first, after := FirstPacket(b), AfterFirst(b);
      FirstFrame(b);
      AfterFirstIsShorter(b);
      ParseLosesNothing(after);
      FramesOfFirst(first, Parse(after).packets);
      AppendTwice(Frame(first), Frames(Parse(after).packets), Parse(after).rest);
    }
  }

  lemma AfterFirstIsShorter(b: Bytes)
    requires HasPacket(b)
    ensures |AfterFirst(b)| < |b|
  {
  }

  // ----- the parse step by step -----

  lemma NothingParsed(b: Bytes)
    ensures b[0..] == b && Prepend([], Parse(b[0..])) == Parse(b)
  {
    assert [] + Parse(b).packets == Parse(b).packets;
  }

  lemma PrependOne(done: seq<Packet>, p: Packet, rest: Parsed)
    ensures Prepend(done, Prepend([p], rest)) == Prepend(done + [p], rest)
  {
    assert done + ([p] + rest.packets) == done + [p] + rest.packets;
  }

  /** The cases of the parse, in the order in which the loop meets them. */
  lemma ParseStep(b: Bytes)
    ensures |b| < HEADER_SIZE ==> Parse(b) == Parsed([], b, true)
    ensures |b| >= HEADER_SIZE ==>
              var size := ReadUInt16(b[0], b[1]);
              if size < HEADER_SIZE || size > MAX_PACKET_SIZE then Parse(b) == Parsed([], b, false)
              else if |b| < size then Parse(b) == Parsed([], b, true)
              else Parse(b) == Prepend([Packet(ReadUInt16(b[2], b[3]), b[HEADER_SIZE..size])], Parse(b[size..]))
  {
  }
}
