/** The connection object of ChatClient/TcpClient.cpp: its buffers and its packet queue
    updated in place, specified by the rules. */
module TcpClients {
  import opened Protocol
  import opened Framing
  import opened NetRules
  import opened ClientNetRules
  import opened PacketUtils

  /** A connected client; the socket's answers are parameters. */
  class TcpClient {
    var recvBuffer: Bytes
    var sendBuffer: Bytes
    var packets: seq<Packet>

    /** Logs of everything received, taken from the stream, queued and sent. */
    ghost var received: Bytes
    ghost var taken: seq<Packet>
    ghost var queued: seq<Packet>
    ghost var wire: Bytes

    ghost function Model(): ClientNet
      reads this
    {
      ClientNet(recvBuffer, sendBuffer, packets, received, taken, queued, wire)
    }

    constructor ()
      ensures Model() == JUST_CONNECTED
    {
      recvBuffer, sendBuffer, packets := [], [], [];
      received, taken, queued, wire := [], [], [], [];
    }

    method SendPacket(id: nat, body: Bytes) returns (ok: bool)
      requires id <= UINT16_MAX
      modifies this
      ensures (Model(), ok) == ClientNetRules.SendPacket(old(Model()), id, body)
    {
      if |body| > MAX_PACKET_SIZE - HEADER_SIZE {
        return false;
      }
      var totalSize := HEADER_SIZE + |body|;
      if |sendBuffer| + totalSize > MAX_SEND_BUFFER {
        return false;
      }
      var packet := WritePacket(id, body);
      sendBuffer := sendBuffer + packet[..];
      queued := queued + [Packet(id, body)];
      return true;
    }

    method TryPopPacket() returns (out: Option<Packet>)
      modifies this
      ensures (Model(), out) == ClientNetRules.TryPopPacket(old(Model()))
    {
      if packets == [] {
        return None;
      }
      out := Some(packets[0]);
      packets := packets[1..];
    }

    method Receive(outcome: RecvOutcome) returns (keep: bool)
      modifies this
      ensures (Model(), keep) == ClientNetRules.Receive(old(Model()), outcome)
    {
      hide ClientNetRules.ProcessRecvBuffer;
      match outcome
      case RecvWouldBlock => return true;
      case RecvFailed => return false;
      case Data(offered) =>
        var bytes := Clip(offered, RECV_CHUNK);
        if bytes == [] {
          return false;
        }
        received := received + bytes;
        if |recvBuffer| + |bytes| > MAX_RECV_BUFFER {
          return false;
        }
        recvBuffer := recvBuffer + bytes;
        keep := ProcessRecvBuffer();
    }

    method FlushSend(outcome: SendOutcome) returns (keep: bool)
      modifies this
      ensures (Model(), keep) == ClientNetRules.FlushSend(old(Model()), outcome)
    {
      if sendBuffer == [] {
        return true;
      }
      match outcome
      case SendWouldBlock => return true;
      case SendFailed => return false;
      case Sent(count) =>
        var sent := if count <= |sendBuffer| then count else |sendBuffer|;
        if sent == 0 {
          return false;
        }
        wire := wire + sendBuffer[..sent];
        sendBuffer := sendBuffer[sent..];
        return true;
    }

    /** Walks over the receive buffer packet by packet; what is incomplete stays in it. */
    method ProcessRecvBuffer() returns (keep: bool)
      modifies this
      ensures (Model(), keep) == ClientNetRules.ProcessRecvBuffer(old(Model()))
    {
      hide HasPacket, FirstPacket, AfterFirst, Parse;
      ghost var slots := PendingSlots(Model());
      ghost var done: seq<Packet> := [];
      var readPos := 0;
      NothingParsed(recvBuffer);
      assert packets + [] == packets && taken + [] == taken;
      while true
        invariant readPos <= |recvBuffer| && recvBuffer == old(recvBuffer)
        invariant Parse(recvBuffer) == Prepend(done, Parse(recvBuffer[readPos..]))
        invariant |done| <= slots && Model() == Take(old(Model()), done)
        decreases |recvBuffer| - readPos
      {
        var packet := recvBuffer[readPos..];
        ParseStep(packet);
        assert done + [] == done;
        if |packet| < HEADER_SIZE {
          break;
        }
        var totalSize := ReadUInt16(packet[0], packet[1]);
        var packetId := ReadUInt16(packet[2], packet[3]);
        if totalSize < HEADER_SIZE || totalSize > MAX_PACKET_SIZE {
          return false;
        }
        if |packet| < totalSize {
          break;
        }
        var next := Packet(packetId, packet[HEADER_SIZE..totalSize]);
        PrependOne(done, next, Parse(packet[totalSize..]));
        if |packets| >= MAX_PENDING_PACKETS {
          assert Parse(recvBuffer).packets[..slots] == done;
          return false;
        }
        packets := packets + [next];
        taken := taken + [next];
        assert old(packets) + (done + [next]) == old(packets) + done + [next];
        assert old(taken) + (done + [next]) == old(taken) + done + [next];
        done := done + [next];
        assert recvBuffer[readPos + totalSize..] == packet[totalSize..];
        readPos := readPos + totalSize;
      }
      assert Parse(recvBuffer) == Parsed(done, recvBuffer[readPos..], true);
      assert recvBuffer[0..] == recvBuffer;
      if readPos > 0 {
        recvBuffer := recvBuffer[readPos..];
      }
      return true;
    }
  }
}
