/** The server's connections and event queue as a value: what each call of
    TcpNetwork.cpp does. What the operating system answers is a parameter. */
module NetRules {
  import opened Protocol
  import opened Framing

  const FD_SETSIZE: nat := 64
  const INT_MAX: nat := 0x7FFF_FFFF
  const RECV_CHUNK: nat := 4096

  datatype NetConfig = NetConfig(
    port: nat, maxClients: nat, maxAcceptsPerRun: nat, maxRecvBufferBytes: nat,
    maxSendBufferBytes: nat, maxQueuedEvents: nat, selectTimeoutMs: int)

  datatype Event =
    | Connected(session: SessionId, occurredAt: Time)
    | Arrived(session: SessionId, packet: Packet)
    | Disconnected(session: SessionId)

  datatype Client = Client(id: SessionId, recvBuffer: Bytes, sendBuffer: Bytes)

  /** The logs only record: the last ID given out before this opening, every event emitted
      since, and per session the bytes received, the packets queued for sending and the
      bytes put on the wire. */
  datatype NetState = NetState(
    config: NetConfig, clients: seq<Client>, events: seq<Event>, lastSessionId: SessionId,
    openedAt: SessionId, emitted: seq<Event>, received: map<SessionId, Bytes>,
    queued: map<SessionId, seq<Packet>>, wire: map<SessionId, Bytes>)

  /** recv: some bytes (none when the peer has finished), nothing yet, or an error. */
  datatype RecvOutcome = Data(bytes: Bytes) | RecvWouldBlock | RecvFailed

  /** send: how many bytes were taken, nothing yet, or an error. */
  datatype SendOutcome = Sent(count: nat) | SendWouldBlock | SendFailed

  /** accept: a socket that could or could not be made non-blocking, nothing yet, or an error. */
  datatype AcceptOutcome = Socket(nonBlocking: bool, now: Time) | AcceptWouldBlock | AcceptFailed

  datatype NetError =
    | NoError | AcceptWouldBlockError | AcceptApiError | MaxSessionCount | EventQueueFull
    | SessionIdExhausted | NonBlockError

  predicate IsAcceptedNetConfig(c: NetConfig) {
    && 0 < c.port <= UINT16_MAX
    && 0 < c.maxClients <= FD_SETSIZE - 1
    && c.maxAcceptsPerRun != 0
    && c.maxRecvBufferBytes >= MAX_PACKET_SIZE + RECV_CHUNK
    && MAX_PACKET_SIZE <= c.maxSendBufferBytes <= INT_MAX
    && c.maxQueuedEvents >= c.maxClients * 2
    && 0 < c.selectTimeoutMs <= 1000
  }

  /** A network just opened; openedAt is 0 unless it was open before. */
  function Listening(config: NetConfig, openedAt: SessionId): NetState {
    NetState(config, [], [], openedAt, openedAt, [], map[], map[], map[])
  }

  /** The session has been given out since the network was opened. */
  predicate IsGiven(n: NetState, session: SessionId) {
    n.openedAt < session <= n.lastSessionId
  }

  // ----- looking up a client -----

  function IndexOf(clients: seq<Client>, session: SessionId): (i: nat)
    ensures i <= |clients|
    ensures i < |clients| ==> clients[i].id == session
    ensures forall j :: 0 <= j < i ==> clients[j].id != session
  {
    if clients == [] || clients[0].id == session then 0 else 1 + IndexOf(clients[1..], session)
  }

  predicate IsConnected(n: NetState, session: SessionId) {
    exists i :: 0 <= i < |n.clients| && n.clients[i].id == session
  }

  // ----- events -----

  function Emit(n: NetState, e: Event): NetState {
    n.(events := n.events + [e], emitted := n.emitted + [e])
  }

  function Arrivals(session: SessionId, ps: seq<Packet>): (es: seq<Event>)
    ensures |es| == |ps| && forall i :: 0 <= i < |ps| ==> es[i] == Arrived(session, ps[i])
  {
    seq(|ps|, i requires 0 <= i < |ps| => Arrived(session, ps[i]))
  }

  function EmitArrivals(n: NetState, session: SessionId, ps: seq<Packet>): NetState {
    n.(events := n.events + Arrivals(session, ps), emitted := n.emitted + Arrivals(session, ps))
  }

  function TryPopEvent(n: NetState): (NetState, Option<Event>) {
    if n.events == [] then (n, None) else (n.(events := n.events[1..]), Some(n.events[0]))
  }

  // ----- connections -----

  function CloseClient(n: NetState, i: nat): NetState
    requires i < |n.clients|
  {
    Emit(n.(clients := n.clients[..i] + n.clients[i + 1..]), Event.Disconnected(n.clients[i].id))
  }

  function Disconnect(n: NetState, session: SessionId): NetState {
    var i := IndexOf(n.clients, session);
    if i < |n.clients| then CloseClient(n, i) else n
  }

  function AcceptClient(n: NetState, outcome: AcceptOutcome): (NetState, NetError) {
    match outcome
    case AcceptWouldBlock => (n, AcceptWouldBlockError)
    case AcceptFailed => (n, AcceptApiError)
    case Socket(nonBlocking, now) =>
      if |n.clients| >= n.config.maxClients then (n, MaxSessionCount)
      else if |n.events| + |n.clients| + 2 > n.config.maxQueuedEvents then (n, EventQueueFull)
      else if n.lastSessionId == UINT64_MAX then (n, SessionIdExhausted)
      else if !nonBlocking then (n, NonBlockError)
      else
        var id := n.lastSessionId + 1;
        (Emit(n.(clients := n.clients + [Client(id, [], [])], lastSessionId := id,
                 received := n.received[id := []], queued := n.queued[id := []], wire := n.wire[id := []]),
              Connected(id, now)), NoError)
  }

  /** The same connections in the same order. */
  predicate SameSessions(n: NetState, m: NetState) {
    m.config == n.config && m.lastSessionId == n.lastSessionId && m.openedAt == n.openedAt && |m.clients| == |n.clients|
    && forall i :: 0 <= i < |n.clients| ==> m.clients[i].id == n.clients[i].id
  }

  // ----- receiving -----

  /** How many more packets the queue takes; a slot stays reserved per connection. */
  function FreeSlots(n: NetState): nat {
    if |n.events| + |n.clients| < n.config.maxQueuedEvents then n.config.maxQueuedEvents - |n.events| - |n.clients| else 0
  }

  /** Queue the complete packets in the receive buffer and keep the rest; false when a
      packet has a bad size or finds the queue full. */
  function ProcessRecvBuffer(n: NetState, i: nat): (r: (NetState, bool))
    requires i < |n.clients|
    ensures SameSessions(n, r.0)
  {
    var c, slots := n.clients[i], FreeSlots(n);
    var p := Parse(c.recvBuffer);
    if |p.packets| > slots then (EmitArrivals(n, c.id, p.packets[..slots]), false)
    else if !p.ok then (EmitArrivals(n, c.id, p.packets), false)
    else (EmitArrivals(n.(clients := n.clients[i := c.(recvBuffer := p.rest)]), c.id, p.packets), true)
  }

  function Clip(bytes: Bytes, limit: nat): Bytes {
    if |bytes| <= limit then bytes else bytes[..limit]
  }

  /** Buffer what has been received. */
  function Buffered(n: NetState, i: nat, bytes: Bytes): NetState
    requires i < |n.clients|
  {
    var c := n.clients[i];
    n.(clients := n.clients[i := c.(recvBuffer := c.recvBuffer + bytes)])
  }

  predicate RecvOverflows(n: NetState, c: Client, bytes: Bytes) {
    |c.recvBuffer| > n.config.maxRecvBufferBytes || |bytes| > n.config.maxRecvBufferBytes - |c.recvBuffer|
  }

  function Extended(m: map<SessionId, Bytes>, session: SessionId, bytes: Bytes): map<SessionId, Bytes> {
    m[session := (if session in m then m[session] else []) + bytes]
  }

  /** One recv of at most RECV_CHUNK bytes; false when the connection has to be closed. */
  function ReceiveClient(n: NetState, i: nat, outcome: RecvOutcome): (r: (NetState, bool))
    requires i < |n.clients|
    ensures SameSessions(n, r.0)
  {
    match outcome
    case RecvWouldBlock => (n, true)
    case RecvFailed => (n, false)
    case Data(offered) =>
      var bytes := Clip(offered, RECV_CHUNK);
      if bytes == [] then (n, false)
      else
        var heard := n.(received := Extended(n.received, n.clients[i].id, bytes));
        if RecvOverflows(n, n.clients[i], bytes) then (heard, false)
        else ProcessRecvBuffer(Buffered(heard, i, bytes), i)
  }

  // ----- sending -----

  /** One send of the whole send buffer, of which the system takes a part. */
  function SendClient(n: NetState, i: nat, outcome: SendOutcome): (r: (NetState, bool))
    requires i < |n.clients|
    ensures SameSessions(n, r.0)
  {
    var c := n.clients[i];
    if c.sendBuffer == [] then (n, true)
    else
      match outcome
      case SendWouldBlock => (n, true)
      case SendFailed => (n, false)
      case Sent(count) =>
        var taken := if count <= |c.sendBuffer| then count else |c.sendBuffer|;
        if taken == 0 then (n, false)
        else (n.(clients := n.clients[i := c.(sendBuffer := c.sendBuffer[taken..])],
                 wire := Extended(n.wire, c.id, c.sendBuffer[..taken])), true)
  }

  predicate SendOverflows(n: NetState, c: Client, totalSize: nat) {
    |c.sendBuffer| > n.config.maxSendBufferBytes || totalSize > n.config.maxSendBufferBytes - |c.sendBuffer|
  }

  /** Frame a packet and append it to the send buffer, or refuse it whole. */
  function QueuePacket(n: NetState, i: nat, id: nat, body: Bytes): (r: (NetState, bool))
    requires i < |n.clients| && id <= UINT16_MAX
    ensures SameSessions(n, r.0)
  {
    var c := n.clients[i];
    if |body| > MAX_BODY_SIZE then (n, false)
    else if SendOverflows(n, c, HEADER_SIZE + |body|) then (n, false)
    else
      var p := Packet(id, body);
      (n.(clients := n.clients[i := c.(sendBuffer := c.sendBuffer + Frame(p))],
          queued := n.queued[c.id := (if c.id in n.queued then n.queued[c.id] else []) + [p]]), true)
  }

  function SendPacket(n: NetState, session: SessionId, id: nat, body: Bytes): (NetState, bool)
    requires id <= UINT16_MAX
  {
    var i := IndexOf(n.clients, session);
    if i < |n.clients| then QueuePacket(n, i, id, body) else (n, false)
  }

  // ----- one pass over the sockets -----

  /** What select found, and what each socket then answers. */
  datatype Readiness = Readiness(
    readable: set<SessionId>, writable: set<SessionId>, listenerReadable: bool,
    recvs: map<SessionId, RecvOutcome>, sends: map<SessionId, SendOutcome>, accepts: seq<AcceptOutcome>)

  function RecvOf(r: Readiness, session: SessionId): RecvOutcome {
    if session in r.recvs then r.recvs[session] else RecvWouldBlock
  }

  function SendOf(r: Readiness, session: SessionId): SendOutcome {
    if session in r.sends then r.sends[session] else SendWouldBlock
  }

  /** Receive from and send to client i as far as select found it ready. */
  function ServeClient(n: NetState, i: nat, r: Readiness): (served: (NetState, bool))
    requires i < |n.clients|
    ensures SameSessions(n, served.0)
  {
    var id := n.clients[i].id;
    var (heard, open) := if id in r.readable then ReceiveClient(n, i, RecvOf(r, id)) else (n, true);
    if open && id in r.writable then SendClient(heard, i, SendOf(r, id)) else (heard, open)
  }

  /** The clients from i on, each served once; a closed one makes room for the next. */
  function Sweep(n: NetState, i: nat, r: Readiness): NetState
    decreases |n.clients| - i
  {
    if i >= |n.clients| then n
    else
      var (served, open) := ServeClient(n, i, r);
      if open then Sweep(served, i + 1, r)
      else Sweep(CloseClient(served, i), i, r)
  }

  function AcceptAll(n: NetState, outcomes: seq<AcceptOutcome>, attempts: nat): NetState
    decreases attempts
  {
    if attempts == 0 || outcomes == [] then n
    else
      var (accepted, error) := AcceptClient(n, outcomes[0]);
      if error == NoError || error == MaxSessionCount || error == EventQueueFull
      then AcceptAll(accepted, outcomes[1..], attempts - 1)
      else accepted
  }

  function Run(n: NetState, r: Readiness): NetState {
    var swept := Sweep(n, 0, r);
    if r.listenerReadable then AcceptAll(swept, r.accepts, n.config.maxAcceptsPerRun) else swept
  }
}
