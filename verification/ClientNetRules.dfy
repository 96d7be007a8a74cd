/** The client's end of a connection as a value (ChatClient/TcpClient.cpp), and
    delivery from one end to the other. */
module ClientNetRules {
  import opened Protocol
  import opened Framing
  import opened NetRules
  import opened NetInvariant
  import NetRuns

  const MAX_RECV_BUFFER: nat := MAX_PACKET_SIZE * 2
  const MAX_SEND_BUFFER: nat := 1024 * 1024
  const MAX_PENDING_PACKETS: nat := 1024

  /** One connection of the client. The four logs record the bytes received, the packets
      ever taken from them, the packets queued for sending and the bytes put on the wire. */
  datatype ClientNet = ClientNet(
    recvBuffer: Bytes, sendBuffer: Bytes, packets: seq<Packet>,
    received: Bytes, taken: seq<Packet>, queued: seq<Packet>, wire: Bytes)

  const JUST_CONNECTED: ClientNet := ClientNet([], [], [], [], [], [], [])

  function PendingSlots(c: ClientNet): nat {
    if |c.packets| < MAX_PENDING_PACKETS then MAX_PENDING_PACKETS - |c.packets| else 0
  }

  function Take(c: ClientNet, ps: seq<Packet>): ClientNet {
    c.(packets := c.packets + ps, taken := c.taken + ps)
  }

  function ProcessRecvBuffer(c: ClientNet): (ClientNet, bool) {
    var p, slots := Parse(c.recvBuffer), PendingSlots(c);
    if |p.packets| > slots then (Take(c, p.packets[..slots]), false)
    else if !p.ok then (Take(c, p.packets), false)
    else (Take(c.(recvBuffer := p.rest), p.packets), true)
  }

  function Receive(c: ClientNet, outcome: RecvOutcome): (ClientNet, bool) {
    match outcome
    case RecvWouldBlock => (c, true)
    case RecvFailed => (c, false)
    case Data(offered) =>
      var bytes := Clip(offered, RECV_CHUNK);
      if bytes == [] then (c, false)
      else
        var heard := c.(received := c.received + bytes);
        if |c.recvBuffer| + |bytes| > MAX_RECV_BUFFER then (heard, false)
        else ProcessRecvBuffer(heard.(recvBuffer := c.recvBuffer + bytes))
  }

  function FlushSend(c: ClientNet, outcome: SendOutcome): (ClientNet, bool) {
    if c.sendBuffer == [] then (c, true)
    else
      match outcome
      case SendWouldBlock => (c, true)
      case SendFailed => (c, false)
      case Sent(count) =>
        var taken := if count <= |c.sendBuffer| then count else |c.sendBuffer|;
        if taken == 0 then (c, false)
        else (c.(sendBuffer := c.sendBuffer[taken..], wire := c.wire + c.sendBuffer[..taken]), true)
  }

  function SendPacket(c: ClientNet, id: nat, body: Bytes): (ClientNet, bool)
    requires id <= UINT16_MAX
  {
    if |body| > MAX_BODY_SIZE then (c, false)
    else if |c.sendBuffer| + HEADER_SIZE + |body| > MAX_SEND_BUFFER then (c, false)
    else (c.(sendBuffer := c.sendBuffer + Frame(Packet(id, body)), queued := c.queued + [Packet(id, body)]), true)
  }

  function TryPopPacket(c: ClientNet): (ClientNet, Option<Packet>) {
    if c.packets == [] then (c, None) else (c.(packets := c.packets[1..]), Some(c.packets[0]))
  }

  // ----- the invariant; open says no call has failed so far -----

  ghost predicate ClientNetInv(c: ClientNet, open: bool) {
    && c.taken <= Parse(c.received).packets
    && (open ==> Parse(c.received) == Parsed(c.taken, c.recvBuffer, true))
    && |c.packets| <= |c.taken| && c.packets == c.taken[|c.taken| - |c.packets|..]
    && AllFit(c.queued) && c.wire + c.sendBuffer == Frames(c.queued)
  }

  lemma ReceiveKeeps(c: ClientNet, outcome: RecvOutcome)
    requires ClientNetInv(c, true)
    ensures var (d, open) := Receive(c, outcome); ClientNetInv(d, open)
  {
    hide Parse, Frames, AllFit;
    if outcome.Data? && outcome.bytes != [] {
      BufferedStream(c.received, c.recvBuffer, c.taken, Clip(outcome.bytes, RECV_CHUNK));
    }
  }

  /** The receive limit of the client cannot be hit either. */
  lemma ClientRecvNeverOverflows(c: ClientNet, bytes: Bytes)
    requires ClientNetInv(c, true)
    ensures |c.recvBuffer| + |Clip(bytes, RECV_CHUNK)| <= MAX_RECV_BUFFER
  {
    hide Parse, Frames, AllFit;
    ParseLosesNothing(c.received);
  }

  lemma FlushSendKeeps(c: ClientNet, open: bool, outcome: SendOutcome)
    requires ClientNetInv(c, open)
    ensures ClientNetInv(FlushSend(c, outcome).0, open)
  {
    hide Parse, Frames, AllFit;
    if c.sendBuffer != [] && outcome.Sent? && outcome.count != 0 {
      var taken := if outcome.count <= |c.sendBuffer| then outcome.count else |c.sendBuffer|;
      assert c.wire + c.sendBuffer == (c.wire + c.sendBuffer[..taken]) + c.sendBuffer[taken..];
    }
  }

  lemma SendPacketKeeps(c: ClientNet, open: bool, id: nat, body: Bytes)
    requires ClientNetInv(c, open) && id <= UINT16_MAX
    ensures ClientNetInv(SendPacket(c, id, body).0, open)
  {
    hide Parse, Frames, Frame, AllFit;
    var (d, ok) := SendPacket(c, id, body);
    if ok {
      FramesOfNext(c.queued, Packet(id, body));
      AppendTwice(c.wire, c.sendBuffer, Frame(Packet(id, body)));
    }
  }

  // ----- any sequence of calls; after a failure nothing more is read -----

  datatype ClientOp =
    | DoReceive(recv: RecvOutcome)
    | DoFlush(send: SendOutcome)
    | DoSend(id: nat, body: Bytes)
    | DoPop

  datatype ClientRun = ClientRun(net: ClientNet, open: bool)

  predicate AllLegal(ops: seq<ClientOp>) {
    forall i :: 0 <= i < |ops| && ops[i].DoSend? ==> ops[i].id <= UINT16_MAX
  }

  function Do(r: ClientRun, op: ClientOp): ClientRun
    requires op.DoSend? ==> op.id <= UINT16_MAX
  {
    if !r.open then r
    else
      match op
      case DoReceive(recv) => var (d, ok) := Receive(r.net, recv); ClientRun(d, ok)
      case DoFlush(send) => var (d, ok) := FlushSend(r.net, send); ClientRun(d, ok)
      case DoSend(id, body) => ClientRun(SendPacket(r.net, id, body).0, true)
      case DoPop => ClientRun(TryPopPacket(r.net).0, true)
  }

  function DoAll(ops: seq<ClientOp>): ClientRun
    requires AllLegal(ops)
  {
    if ops == [] then ClientRun(JUST_CONNECTED, true) else Do(DoAll(ops[..|ops| - 1]), ops[|ops| - 1])
  }

  lemma {:induction false} EveryClientRun(ops: seq<ClientOp>)
    requires AllLegal(ops)
    ensures ClientNetInv(DoAll(ops).net, DoAll(ops).open)
  {
    if ops != [] {
      hide Parse, Frames, AllFit, Receive, FlushSend, SendPacket;
      var before := DoAll(ops[..|ops| - 1]);
      EveryClientRun(ops[..|ops| - 1]);
      if before.open {
        match ops[|ops| - 1]
        case DoReceive(recv) => ReceiveKeeps(before.net, recv);
        case DoFlush(send) =>
          FlushSendKeeps(before.net, true, send);
        case DoSend(id, body) => SendPacketKeeps(before.net, true, id, body);
        case DoPop =>
      }
    }
  }

  // ----- from one end to the other -----

  /** The session is open and nothing is left to send on it. */
  predicate Flushed(n: NetState, s: SessionId) {
    exists i :: 0 <= i < |n.clients| && n.clients[i].id == s && n.clients[i].sendBuffer == []
  }

  /** What a client that has heard a part of the wire of session s has taken from it: a prefix
      of the packets queued, and all of them once every byte has drained. */
  lemma TakenIsQueued(n: NetState, s: SessionId, clientOps: seq<ClientOp>)
    requires NetInv(n) && IsGiven(n, s) && AllLegal(clientOps)
    ensures var c := DoAll(clientOps);
            && s in n.wire && s in n.queued
            && (c.net.received <= n.wire[s] ==>
                  && c.net.taken <= n.queued[s]
                  && (Flushed(n, s) && c.open && c.net.received == n.wire[s] ==> c.net.taken == n.queued[s]))
  {
    hide QueueInv, IdsInv, StagesInv, DoAll, Parse, Frames, PacketsOf, AllFit;
    EveryClientRun(clientOps);
    var c := DoAll(clientOps);
    assert LogsInv(n, s);
    if c.net.received <= n.wire[s] {
      PartOfFramesParses(n.queued[s], c.net.received);
      ParseFrames(n.queued[s]);
      if Flushed(n, s) && c.open && c.net.received == n.wire[s] {
        var i :| 0 <= i < |n.clients| && n.clients[i].id == s && n.clients[i].sendBuffer == [];
        assert ClientInv(n, n.clients[i]);
        assert n.wire[s] + [] == n.wire[s];
      }
    }
  }

  /** From server to client, over any run of either side: when the client has heard a part of
      what the server put on the wire for session s, the packets it took are a prefix of the
      packets the server queued; and they are all of them once every byte has drained. */
  lemma ServerToClient(config: NetConfig, openedAt: SessionId, serverOps: seq<NetRuns.NetOp>, clientOps: seq<ClientOp>, s: SessionId)
    requires IsAcceptedNetConfig(config) && openedAt <= UINT64_MAX && NetRuns.AllLegal(serverOps) && AllLegal(clientOps)
    requires IsGiven(NetRuns.DoAll(config, openedAt, serverOps), s)
    ensures var n, c := NetRuns.DoAll(config, openedAt, serverOps), DoAll(clientOps);
            && s in n.wire && s in n.queued
            && (c.net.received <= n.wire[s] ==>
                  && c.net.taken <= n.queued[s]
                  && (Flushed(n, s) && c.open && c.net.received == n.wire[s] ==> c.net.taken == n.queued[s]))
  {
    hide NetInvBut, NetRuns.DoAll, DoAll;
    NetRuns.EveryRunKeepsNetInv(config, openedAt, serverOps);
    TakenIsQueued(NetRuns.DoAll(config, openedAt, serverOps), s, clientOps);
  }

  /** From client to server: the packets delivered to the server's logic for session s are a
      prefix of the packets the client queued; all of them once every byte has drained. */
  lemma ClientToServer(config: NetConfig, openedAt: SessionId, serverOps: seq<NetRuns.NetOp>, clientOps: seq<ClientOp>, s: SessionId)
    requires IsAcceptedNetConfig(config) && openedAt <= UINT64_MAX && NetRuns.AllLegal(serverOps) && AllLegal(clientOps)
    requires IsGiven(NetRuns.DoAll(config, openedAt, serverOps), s)
    ensures var n, c := NetRuns.DoAll(config, openedAt, serverOps), DoAll(clientOps);
            && s in n.received
            && (n.received[s] <= c.net.wire ==>
                  && PacketsOf(n.emitted, s) <= c.net.queued
                  && (IsConnected(n, s) && c.net.sendBuffer == [] && n.received[s] == c.net.wire ==>
                        PacketsOf(n.emitted, s) == c.net.queued))
  {
    hide QueueInv, IdsInv, StagesInv, NetRuns.DoAll, DoAll, Parse, Frames, PacketsOf, AllFit;
    NetRuns.EveryRunKeepsNetInv(config, openedAt, serverOps);
    EveryClientRun(clientOps);
    var n, c := NetRuns.DoAll(config, openedAt, serverOps), DoAll(clientOps);
    assert LogsInv(n, s);
    if n.received[s] <= c.net.wire {
      assert n.received[s] <= Frames(c.net.queued);
      PartOfFramesParses(c.net.queued, n.received[s]);
      ParseFrames(c.net.queued);
      if IsConnected(n, s) && c.net.sendBuffer == [] && n.received[s] == c.net.wire {
        var i :| 0 <= i < |n.clients| && n.clients[i].id == s;
        assert ClientInv(n, n.clients[i]);
        assert c.net.wire + [] == c.net.wire;
      }
    }
  }
}
