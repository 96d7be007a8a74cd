/** The building blocks of packet bodies (RoomCodecDetail in Common/RoomPacketCodec.h):
    what is written, what is read back, and the Writer and Reader objects. */
module WireFormat {
  import opened Protocol

  type uint32 = x: int | 0 <= x < 0x1_0000_0000

  /** What reading from the front of b yields: a value and the bytes after it. */
  datatype Read<+T> = Fail | Got(value: T, rest: Bytes) {
    predicate IsFailure() {
      Fail?
    }

    function PropagateFailure<U>(): Read<U>
      requires Fail?
    {
      Fail
    }

    function Extract(): (T, Bytes)
      requires Got?
    {
      (value, rest)
    }
  }

  /** A whole body that was read to its end. */
  function Whole<T>(r: Read<T>): Option<T> {
    if r.Got? && r.rest == [] then Some(r.value) else None
  }

  function ToU32(x: nat): uint32 {
    x % 0x1_0000_0000
  }

  function ToU8(x: nat): byte {
    x % 256
  }

  function U32Bytes(v: uint32): Bytes {
    [v / 256 / 256 / 256, v / 256 / 256 % 256, v / 256 % 256, v % 256]
  }

  function Combined(b0: int, b1: int, b2: int, b3: int): int {
    ((b0 * 256 + b1) * 256 + b2) * 256 + b3
  }

  /** Only texts of at most 255 bytes are ever written. */
  function Text8Bytes(text: Bytes): Bytes {
    [|text| % 256] + text
  }

  function GetU8(b: Bytes): Read<byte> {
    if b == [] then Fail else Got(b[0], b[1..])
  }

  function GetU32(b: Bytes): Read<uint32> {
    if |b| < 4 then Fail else CombinedFits(b[0], b[1], b[2], b[3]); Got(Combined(b[0], b[1], b[2], b[3]), b[4..])
  }

  function GetText8(b: Bytes): Read<Bytes> {
    if b == [] || |b| - 1 < b[0] then Fail else Got(b[1..1 + b[0]], b[1 + b[0]..])
  }

  /** Each reader is the exact inverse of its writer, whatever follows. */
  lemma U8Exact(b: Bytes, v: byte, rest: Bytes)
    ensures GetU8(b) == Got(v, rest) <==> b == [v] + rest
  {
    if b != [] { assert b == [b[0]] + b[1..]; }
  }

  lemma U32Exact(b: Bytes, v: uint32, rest: Bytes)
    ensures GetU32(b) == Got(v, rest) <==> b == U32Bytes(v) + rest
  {
    if |b| >= 4 {
      assert b == [b[0], b[1], b[2], b[3]] + b[4..];
      CombinedDigits(b[0], b[1], b[2], b[3]);
      DigitsCombined(v);
    }
  }

  lemma CombinedFits(b0: byte, b1: byte, b2: byte, b3: byte)
    ensures 0 <= Combined(b0, b1, b2, b3) < 0x1_0000_0000
  {
  }

  lemma LastDigit(q: int, r: int)
    requires 0 <= r < 256
    ensures (q * 256 + r) / 256 == q && (q * 256 + r) % 256 == r
  {
  }

  lemma CombinedDigits(b0: byte, b1: byte, b2: byte, b3: byte)
    ensures 0 <= Combined(b0, b1, b2, b3) < 0x1_0000_0000 && U32Bytes(Combined(b0, b1, b2, b3)) == [b0, b1, b2, b3]
  {
    var x0: int, x1: int := b0, b1;
    LastDigit(x0, b1);
    LastDigit(x0 * 256 + x1, b2);
    LastDigit(Combined(0, b0, b1, b2), b3);
  }

  lemma DigitsCombined(v: uint32)
    ensures var d := U32Bytes(v); Combined(d[0], d[1], d[2], d[3]) == v
  {
  }

  /** Shifting right by 8, 16 and 24 bits is dividing by 256 once, twice and three times. */
  lemma Shifts(v: uint32)
    ensures v / 0x100_0000 == v / 256 / 256 / 256 && v / 0x1_0000 == v / 256 / 256 && v / 0x100_0000 < 256
  {
  }

  lemma U32IsFourBytes(v: uint32)
    ensures |U32Bytes(v)| == 4
  {
  }

  lemma Text8Exact(b: Bytes, text: Bytes, rest: Bytes)
    ensures GetText8(b) == Got(text, rest) <==> |text| <= 255 && b == Text8Bytes(text) + rest
  {
    if GetText8(b).Got? {
      assert b == [b[0]] + b[1..1 + b[0]] + b[1 + b[0]..];
    }
    if |text| <= 255 && b == Text8Bytes(text) + rest {
      assert b[0] == |text| && b[1..1 + b[0]] == text && b[1 + b[0]..] == rest;
    }
  }

  /** Collects a packet body. */
  class Writer {
    var body: Bytes

    constructor ()
      ensures body == []
    {
      body := [];
    }

    method U8(value: byte)
      modifies this
      ensures body == old(body) + [value]
    {
      body := body + [value];
    }

    method U32(value: uint32)
      modifies this
      ensures body == old(body) + U32Bytes(value)
    {
      Shifts(value);
      var divisor: int := 0x100_0000;
      ghost var written := 0;
      while divisor > 0
        invariant 0 <= written <= 4 && divisor == [0x100_0000, 0x1_0000, 0x100, 1, 0][written]
        invariant body == old(body) + U32Bytes(value)[..written]
        decreases divisor
      {
        U8(value / divisor % 256);
        assert U32Bytes(value)[..written + 1] == U32Bytes(value)[..written] + [U32Bytes(value)[written]];
        divisor := divisor / 256;
        written := written + 1;
      }
    }

    method Text8(text: Bytes) returns (ok: bool)
      modifies this
      ensures ok == (|text| <= 255)
      ensures body == if |text| <= 255 then old(body) + Text8Bytes(text) else old(body)
    {
      if |text| > 255 {
        return false;
      }
      U8(|text|);
      body := body + text;
      return true;
    }

    method Finish() returns (out: Option<Bytes>)
      ensures out == if |body| <= MAX_BODY_SIZE then Some(body) else None
    {
      if |body| > MAX_PACKET_SIZE - HEADER_SIZE {
        return None;
      }
      return Some(body);
    }
  }

  /** Walks over a received packet body. */
  class Reader {
    const body: Bytes
    var pos: nat

    ghost predicate Valid()
      reads this
    {
      pos <= |body|
    }

    ghost function Rest(): Bytes
      reads this
      requires Valid()
    {
      body[pos..]
    }

    constructor (body: Bytes)
      ensures Valid() && this.body == body && Rest() == body
    {
      this.body := body;
      pos := 0;
    }

    method U8() returns (out: Option<byte>)
      requires Valid()
      modifies this
      ensures Valid()
      ensures match GetU8(old(Rest()))
              case Fail => out == None
              case Got(value, rest) => out == Some(value) && Rest() == rest
    {
      if pos >= |body| {
        return None;
      }
      out := Some(body[pos]);
      pos := pos + 1;
    }

    method U32() returns (out: Option<uint32>)
      requires Valid()
      modifies this
      ensures Valid()
      ensures match GetU32(old(Rest()))
              case Fail => out == None
              case Got(value, rest) => out == Some(value) && Rest() == rest
    {
      if |body| - pos < 4 {
        return None;
      }
      ghost var b := Rest();
      ghost var start := pos;
      CombinedFits(b[0], b[1], b[2], b[3]);
      var value: int := 0;
      for i := 0 to 4
        invariant Valid() && pos == start + i
        invariant value == [0, Combined(0, 0, 0, b[0]), Combined(0, 0, b[0], b[1]), Combined(0, b[0], b[1], b[2]),
                            Combined(b[0], b[1], b[2], b[3])][i]
      {
        assert body[pos] == b[i];
        value := value * 256 + body[pos];
        pos := pos + 1;
      }
      assert body[pos..] == b[4..];
      out := Some(value);
    }

    method Text8() returns (out: Option<Bytes>)
      requires Valid()
      modifies this
      ensures Valid()
      ensures match GetText8(old(Rest()))
              case Fail => out == None
              case Got(value, rest) => out == Some(value) && Rest() == rest
    {
      ghost var b := Rest();
      var size := U8();
      if size == None {
        return None;
      }
      if |body| - pos < size.value {
        return None;
      }
      assert body[pos..pos + size.value] == b[1..1 + b[0]];
      assert body[pos + size.value..] == b[1 + b[0]..];
      out := Some(body[pos..pos + size.value]);
      pos := pos + size.value;
    }

    method Done() returns (done: bool)
      requires Valid()
      ensures done <==> Rest() == []
    {
      done := pos == |body|;
    }
  }
}
