/** Packet frames written into a byte buffer (Common/PacketUtils.h). */
module PacketUtils {
  import opened Protocol
  import opened Framing

  method WriteUInt16(data: array<byte>, at: nat, value: nat)
    requires at + 2 <= data.Length && value <= UINT16_MAX
    modifies data
    ensures data[..] == old(data[..at]) + UInt16Bytes(value) + old(data[at + 2..])
  {
    data[at] := value / 256 % 256;
    data[at + 1] := value % 256;
  }

  /** Header and body of one packet, as QueuePacket and SendPacket write them. */
  method WritePacket(id: nat, body: Bytes) returns (packet: array<byte>)
    requires id <= UINT16_MAX && |body| <= MAX_BODY_SIZE
    ensures fresh(packet) && packet[..] == Frame(Packet(id, body))
  {
    var totalSize := HEADER_SIZE + |body|;
    packet := new byte[totalSize](_ => 0);
    WriteUInt16(packet, 0, totalSize);
    WriteUInt16(packet, 2, id);
    assert packet[..HEADER_SIZE] == UInt16Bytes(totalSize) + UInt16Bytes(id);
    for i := 0 to |body|
      invariant packet[..HEADER_SIZE] == UInt16Bytes(totalSize) + UInt16Bytes(id)
      invariant packet[HEADER_SIZE..HEADER_SIZE + i] == body[..i]
    {
      packet[HEADER_SIZE + i] := body[i];
    }
    assert packet[..] == packet[..HEADER_SIZE] + packet[HEADER_SIZE..HEADER_SIZE + |body|];
  }
}

/** The network object of ChatServerFolder/SeverNetLib/TcpNetwork.cpp: connections and
    event queue updated in place, specified by the rules. */
module TcpNetworks {
  import opened Protocol
  import opened Framing
  import opened NetRules
  import opened PacketUtils

  class TcpNetwork {
    var config: NetConfig
    var clients: seq<Client>
    var events: seq<Event>
    var lastSessionId: SessionId

    /** Logs of the last ID given out before this opening, and of everything emitted, received,
        queued and sent since. */
    ghost var openedAt: SessionId
    ghost var emitted: seq<Event>
    ghost var received: map<SessionId, Bytes>
    ghost var queued: map<SessionId, seq<Packet>>
    ghost var wire: map<SessionId, Bytes>

    ghost function Model(): NetState
      reads this
    {
      NetState(config, clients, events, lastSessionId, openedAt, emitted, received, queued, wire)
    }

    constructor ()
      ensures lastSessionId == 0 && clients == [] && events == []
    {
      config := NetConfig(0, 0, 0, 0, 0, 0, 0);
      clients, events, lastSessionId := [], [], 0;
      openedAt, emitted, received, queued, wire := 0, [], map[], map[], map[];
    }

    /** An accepted configuration opens an empty network that goes on counting sessions; any
        other leaves a closed one. */
    method Init(newConfig: NetConfig) returns (accepted: bool)
      modifies this
      ensures accepted == IsAcceptedNetConfig(newConfig)
      ensures Model() == if accepted then Listening(newConfig, old(lastSessionId))
                         else old(Model()).(clients := [], events := [])
    {
      clients, events := [], [];
      if newConfig.port == 0 || newConfig.port > UINT16_MAX || newConfig.maxClients == 0
         || newConfig.maxClients > FD_SETSIZE - 1 || newConfig.maxAcceptsPerRun == 0
         || newConfig.maxRecvBufferBytes < MAX_PACKET_SIZE + 4096 || newConfig.maxSendBufferBytes < MAX_PACKET_SIZE
         || newConfig.maxSendBufferBytes > INT_MAX || newConfig.maxQueuedEvents < newConfig.maxClients * 2
         || newConfig.selectTimeoutMs <= 0 || newConfig.selectTimeoutMs > 1000 {
        return false;
      }
      config := newConfig;
      openedAt, emitted, received, queued, wire := lastSessionId, [], map[], map[], map[];
      return true;
    }

    method TryPopEvent() returns (out: Option<Event>)
      modifies this
      ensures (Model(), out) == NetRules.TryPopEvent(old(Model()))
    {
      if events == [] {
        return None;
      }
      out := Some(events[0]);
      events := events[1..];
    }

    method IsConnected(session: SessionId) returns (connected: bool)
      ensures connected == NetRules.IsConnected(Model(), session)
    {
      for i := 0 to |clients|
        invariant forall j :: 0 <= j < i ==> clients[j].id != session
      {
        if clients[i].id == session {
          return true;
        }
      }
      return false;
    }

    /** The position of a session, or the number of clients. */
    method FindClient(session: SessionId) returns (i: nat)
      ensures i == IndexOf(clients, session)
    {
      i := 0;
      while i < |clients| && clients[i].id != session
        invariant i <= |clients| && forall j :: 0 <= j < i ==> clients[j].id != session
      {
        i := i + 1;
      }
    }

    method SendPacket(session: SessionId, id: nat, body: Bytes) returns (ok: bool)
      requires id <= UINT16_MAX
      modifies this
      ensures (Model(), ok) == NetRules.SendPacket(old(Model()), session, id, body)
    {
      var i := FindClient(session);
      if i < |clients| {
        ok := QueuePacket(i, id, body);
        return;
      }
      return false;
    }

    method Disconnect(session: SessionId)
      modifies this
      ensures Model() == NetRules.Disconnect(old(Model()), session)
    {
      var i := FindClient(session);
      if i < |clients| {
        CloseClient(i);
      }
    }

    method PushEvent(e: Event)
      modifies this`events, this`emitted
      ensures Model() == Emit(old(Model()), e)
    {
      events := events + [e];
      emitted := emitted + [e];
    }

    method AcceptClient(outcome: AcceptOutcome) returns (error: NetError)
      modifies this
      ensures (Model(), error) == NetRules.AcceptClient(old(Model()), outcome)
    {
      if outcome.AcceptWouldBlock? {
        return AcceptWouldBlockError;
      }
      if outcome.AcceptFailed? {
        return AcceptApiError;
      }
      if |clients| >= config.maxClients {
        return MaxSessionCount;
      }
      if |events| + |clients| + 2 > config.maxQueuedEvents {
        return EventQueueFull;
      }
      if lastSessionId == UINT64_MAX {
        return SessionIdExhausted;
      }
      if !outcome.nonBlocking {
        return NonBlockError;
      }
      lastSessionId := lastSessionId + 1;
      clients := clients + [Client(lastSessionId, [], [])];
      received, queued, wire := received[lastSessionId := []], queued[lastSessionId := []], wire[lastSessionId := []];
      PushEvent(Connected(lastSessionId, outcome.now));
      return NoError;
    }

    /** The answer of recv is a parameter. */
    method ReceiveClient(i: nat, outcome: RecvOutcome) returns (keep: bool)
      requires i < |clients|
      modifies this
      ensures (Model(), keep) == NetRules.ReceiveClient(old(Model()), i, outcome)
    {
      hide NetRules.ProcessRecvBuffer;
      match outcome
      case RecvWouldBlock => return true;
      case RecvFailed => return false;
      case Data(offered) =>
        var bytes := Clip(offered, RECV_CHUNK);
        if bytes == [] {
          return false;
        }
        var client := clients[i];
        received := Extended(received, client.id, bytes);
        if |client.recvBuffer| > config.maxRecvBufferBytes || |bytes| > config.maxRecvBufferBytes - |client.recvBuffer| {
          return false;
        }
        clients := clients[i := client.(recvBuffer := client.recvBuffer + bytes)];
        keep := ProcessRecvBuffer(i);
    }

    /** The answer of send is a parameter. */
    method SendClient(i: nat, outcome: SendOutcome) returns (keep: bool)
      requires i < |clients|
      modifies this
      ensures (Model(), keep) == NetRules.SendClient(old(Model()), i, outcome)
    {
      var client := clients[i];
      if client.sendBuffer == [] {
        return true;
      }
      match outcome
      case SendWouldBlock => return true;
      case SendFailed => return false;
      case Sent(count) =>
        var taken := if count <= |client.sendBuffer| then count else |client.sendBuffer|;
        if taken == 0 {
          return false;
        }
        wire := Extended(wire, client.id, client.sendBuffer[..taken]);
        clients := clients[i := client.(sendBuffer := client.sendBuffer[taken..])];
        return true;
    }

    /** Walks over the receive buffer packet by packet; what is incomplete stays in it. */
    method ProcessRecvBuffer(i: nat) returns (keep: bool)
      requires i < |clients|
      modifies this
      ensures (Model(), keep) == NetRules.ProcessRecvBuffer(old(Model()), i)
    {
      hide HasPacket, FirstPacket, AfterFirst, Parse;
      var client := clients[i];
      ghost var slots := FreeSlots(Model());
      ghost var done: seq<Packet> := [];
      var readPos := 0;
      NothingParsed(client.recvBuffer);
      assert old(events) + Arrivals(client.id, []) == old(events);
      assert old(emitted) + Arrivals(client.id, []) == old(emitted);
      while true
        invariant readPos <= |client.recvBuffer|
        invariant Parse(client.recvBuffer) == Prepend(done, Parse(client.recvBuffer[readPos..]))
        invariant |done| <= slots && Model() == EmitArrivals(old(Model()), client.id, done)
        decreases |client.recvBuffer| - readPos
      {
        var packet := client.recvBuffer[readPos..];
        ParseStep(packet);
        assert done + [] == done;
        if |packet| < HEADER_SIZE {
          break;
        }
        var totalSize := ReadUInt16(packet[0], packet[1]);
        var packetId := ReadUInt16(packet[2], packet[3]);
        if totalSize < HEADER_SIZE || totalSize > MAX_PACKET_SIZE {
          return false;
        }
        if |packet| < totalSize {
          break;
        }
        var body := packet[HEADER_SIZE..totalSize];
        OneArrivalMore(old(Model()), client.id, done, Packet(packetId, body));
        PrependOne(done, Packet(packetId, body), Parse(packet[totalSize..]));
        var queuedIt := EnqueueReceivedPacket(client.id, packetId, body);
        if !queuedIt {
          assert Parse(client.recvBuffer).packets[..slots] == done;
          return false;
        }
        done := done + [Packet(packetId, body)];
        assert client.recvBuffer[readPos + totalSize..] == packet[totalSize..];
        readPos := readPos + totalSize;
      }
      assert Parse(client.recvBuffer) == Parsed(done + [], client.recvBuffer[readPos..], true) && done + [] == done;
      if readPos > 0 {
        clients := clients[i := client.(recvBuffer := client.recvBuffer[readPos..])];
      } else {
        assert client.recvBuffer[0..] == client.recvBuffer && clients[i := client] == clients;
      }
      return true;
    }

    method EnqueueReceivedPacket(session: SessionId, id: nat, body: Bytes) returns (ok: bool)
      modifies this`events, this`emitted
      ensures ok == (|old(events)| + |clients| < config.maxQueuedEvents)
      ensures Model() == if ok then Emit(old(Model()), Arrived(session, Packet(id, body))) else old(Model())
    {
      if |events| + |clients| >= config.maxQueuedEvents {
        return false;
      }
      PushEvent(Arrived(session, Packet(id, body)));
      return true;
    }

    method QueuePacket(i: nat, id: nat, body: Bytes) returns (ok: bool)
      requires i < |clients| && id <= UINT16_MAX
      modifies this
      ensures (Model(), ok) == NetRules.QueuePacket(old(Model()), i, id, body)
    {
      hide Frame;
      if |body| > MAX_PACKET_SIZE - HEADER_SIZE {
        return false;
      }
      var client := clients[i];
      var totalSize := HEADER_SIZE + |body|;
      if |client.sendBuffer| > config.maxSendBufferBytes || totalSize > config.maxSendBufferBytes - |client.sendBuffer| {
        return false;
      }
      var packet := WritePacket(id, body);
      clients := clients[i := client.(sendBuffer := client.sendBuffer + packet[..])];
      queued := queued[client.id := (if client.id in queued then queued[client.id] else []) + [Packet(id, body)]];
      return true;
    }

    method CloseClient(i: nat)
      requires i < |clients|
      modifies this
      ensures Model() == NetRules.CloseClient(old(Model()), i)
    {
      var session := clients[i].id;
      clients := clients[..i] + clients[i + 1..];
      PushEvent(Event.Disconnected(session));
    }

    /** One pass: every client is served as far as select found it ready, and a closed one
        makes room for the next; then new connections are accepted. */
    method Run(r: Readiness)
      modifies this
      ensures Model() == NetRules.Run(old(Model()), r)
    {
      hide Sweep, AcceptAll;
      SweepKeepsConfig(Model(), 0, r);
      SweepClients(r);
      if r.listenerReadable {
        AcceptClients(r.accepts);
      }
    }

    method SweepClients(r: Readiness)
      modifies this
      ensures Model() == Sweep(old(Model()), 0, r)
    {
      hide NetRules.ReceiveClient, NetRules.SendClient, NetRules.CloseClient;
      var i := 0;
      while i < |clients|
        invariant Sweep(Model(), i, r) == Sweep(old(Model()), 0, r)
        decreases |clients| - i
      {
        label before:
        var keep, id := true, clients[i].id;
        if id in r.readable {
          keep := ReceiveClient(i, RecvOf(r, id));
        }
        if keep && id in r.writable {
          keep := SendClient(i, SendOf(r, id));
        }
        assert (Model(), keep) == ServeClient(old@before(Model()), i, r);
        if !keep {
          ClosingShortens(Model(), i);
          CloseClient(i);
          continue;
        }
        i := i + 1;
      }
    }

    method AcceptClients(outcomes: seq<AcceptOutcome>)
      modifies this
      ensures Model() == AcceptAll(old(Model()), outcomes, old(config).maxAcceptsPerRun)
    {
      hide NetRules.AcceptClient;
      var limit := config.maxAcceptsPerRun;
      var attempt := 0;
      while attempt < limit && attempt < |outcomes|
        invariant attempt <= limit && attempt <= |outcomes|
        invariant AcceptAll(Model(), outcomes[attempt..], limit - attempt) == AcceptAll(old(Model()), outcomes, limit)
      {
        assert outcomes[attempt..][1..] == outcomes[attempt + 1..];
        var error := AcceptClient(outcomes[attempt]);
        attempt := attempt + 1;
        if error == NoError {
          continue;
        }
        if error == AcceptWouldBlockError {
          break;
        }
        if error == MaxSessionCount || error == EventQueueFull {
          continue;
        }
        break;
      }
    }
  }

  lemma {:induction false} SweepKeepsConfig(n: NetState, i: nat, r: Readiness)
    ensures Sweep(n, i, r).config == n.config
    decreases |n.clients| - i
  {
    if i < |n.clients| {
      hide ServeClient;
      var (served, open) := ServeClient(n, i, r);
      if open { SweepKeepsConfig(served, i + 1, r); } else { SweepKeepsConfig(NetRules.CloseClient(served, i), i, r); }
    }
  }

  lemma ClosingShortens(n: NetState, i: nat)
    requires i < |n.clients|
    ensures |NetRules.CloseClient(n, i).clients| == |n.clients| - 1
  {
  }

  lemma OneArrivalMore(n: NetState, id: SessionId, done: seq<Packet>, p: Packet)
    ensures EmitArrivals(n, id, done + [p]) == Emit(EmitArrivals(n, id, done), Arrived(id, p))
  {
    assert Arrivals(id, done + [p]) == Arrivals(id, done) + [Arrived(id, p)];
    assert n.events + (Arrivals(id, done) + [Arrived(id, p)]) == n.events + Arrivals(id, done) + [Arrived(id, p)];
    assert n.emitted + (Arrivals(id, done) + [Arrived(id, p)]) == n.emitted + Arrivals(id, done) + [Arrived(id, p)];
  }
}
