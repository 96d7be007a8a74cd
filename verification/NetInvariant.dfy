/** What every call of the server network keeps: the shape of each session's event
    trace, the reserved queue slots, and the two byte streams of each session. */
module NetInvariant {
  import opened Protocol
  import opened Framing
  import opened NetRules

  // ----- the trace of one session -----

  datatype Stage = Unborn | Live | Gone | Broken

  /** Connected first, then arrivals, then at most one Disconnected; anything else is Broken. */
  function NextStage(stage: Stage, e: Event): Stage {
    match e
    case Connected(_, _) => if stage == Unborn then Live else Broken
    case Arrived(_, _) => if stage == Live then Live else Broken
    case Disconnected(_) => if stage == Live then Gone else Broken
  }

  function StageOf(es: seq<Event>, s: SessionId): Stage {
    if es == [] then Unborn
    else
      var before, last := StageOf(es[..|es| - 1], s), es[|es| - 1];
      if last.session == s then NextStage(before, last) else before
  }

  function PacketsOf(es: seq<Event>, s: SessionId): seq<Packet> {
    if es == [] then []
    else
      var before, last := PacketsOf(es[..|es| - 1], s), es[|es| - 1];
      if last.Arrived? && last.session == s then before + [last.packet] else before
  }

  /** The events of one session, in order. */
  function TraceOf(es: seq<Event>, s: SessionId): seq<Event> {
    if es == [] then []
    else
      var before, last := TraceOf(es[..|es| - 1], s), es[|es| - 1];
      if last.session == s then before + [last] else before
  }

  lemma OneMore(es: seq<Event>, e: Event, s: SessionId)
    ensures StageOf(es + [e], s) == if e.session == s then NextStage(StageOf(es, s), e) else StageOf(es, s)
    ensures PacketsOf(es + [e], s) == if e.Arrived? && e.session == s then PacketsOf(es, s) + [e.packet] else PacketsOf(es, s)
  {
    assert (es + [e])[..|es|] == es;
  }

  lemma {:induction false} MoreArrivals(es: seq<Event>, id: SessionId, ps: seq<Packet>, s: SessionId)
    ensures PacketsOf(es + Arrivals(id, ps), s) == PacketsOf(es, s) + (if s == id then ps else [])
    ensures s != id || StageOf(es, s) == Live ==> StageOf(es + Arrivals(id, ps), s) == StageOf(es, s)
    decreases |ps|
  {
    hide StageOf, PacketsOf;
    if ps == [] {
      assert es + Arrivals(id, ps) == es;
    } else {
      var front, last := ps[..|ps| - 1], ps[|ps| - 1];
      MoreArrivals(es, id, front, s);
      OneMore(es + Arrivals(id, front), Arrived(id, last), s);
      assert es + Arrivals(id, ps) == (es + Arrivals(id, front)) + [Arrived(id, last)];
      assert ps == front + [last];
    }
  }

  /** The stages say what they are meant to say about the trace. */
  lemma {:induction false} StageIsTraceShape(es: seq<Event>, s: SessionId)
    requires StageOf(es, s) != Broken
    ensures var trace, arrivals := TraceOf(es, s), Arrivals(s, PacketsOf(es, s));
            match StageOf(es, s)
            case Unborn => trace == [] && arrivals == []
            case Live => exists t :: trace == [Connected(s, t)] + arrivals
            case Gone => exists t :: trace == [Connected(s, t)] + arrivals + [Event.Disconnected(s)]
  {
    if es != [] {
      var front, last := es[..|es| - 1], es[|es| - 1];
      StageIsTraceShape(front, s);
      if last.session == s {
        var arrivals := Arrivals(s, PacketsOf(front, s));
        match last
        case Connected(_, t) => assert [] + [last] == [Connected(s, t)] + arrivals;
        case Arrived(_, p) =>
          var t :| TraceOf(front, s) == [Connected(s, t)] + arrivals;
          assert TraceOf(es, s) == [Connected(s, t)] + Arrivals(s, PacketsOf(es, s));
        case Disconnected(_) =>
      }
    }
  }

  // ----- the invariant -----

  ghost predicate QueueInv(n: NetState) {
    && IsAcceptedNetConfig(n.config) && n.openedAt <= n.lastSessionId <= UINT64_MAX
    && |n.clients| <= n.config.maxClients
    && |n.events| + |n.clients| <= n.config.maxQueuedEvents
    && |n.events| <= |n.emitted| && n.events == n.emitted[|n.emitted| - |n.events|..]
  }

  /** Session IDs grow with the position, so none is there twice. */
  ghost predicate IdsInv(n: NetState) {
    && (forall i :: 0 <= i < |n.clients| ==> IsGiven(n, n.clients[i].id))
    && (forall i, j :: 0 <= i < j < |n.clients| ==> n.clients[i].id < n.clients[j].id)
  }

  ghost predicate StagesInv(n: NetState) {
    forall s: SessionId :: StageOf(n.emitted, s) ==
      if IsConnected(n, s) then Live else if IsGiven(n, s) then Gone else Unborn
  }

  /** Logs of a session, open or closed: what was delivered is part of what was received,
      what is on the wire is part of what was queued. */
  ghost predicate LogsInv(n: NetState, s: SessionId) {
    && s in n.received && s in n.queued && s in n.wire
    && PacketsOf(n.emitted, s) <= Parse(n.received[s]).packets
    && AllFit(n.queued[s]) && n.wire[s] <= Frames(n.queued[s])
  }

  /** An open session: delivered are exactly the packets of all bytes received so far, the
      rest waits in the buffer; what is queued and not on the wire waits in the other. */
  ghost predicate ClientInv(n: NetState, c: Client) {
    && c.id in n.received && c.id in n.queued && c.id in n.wire && AllFit(n.queued[c.id])
    && Parse(n.received[c.id]) == Parsed(PacketsOf(n.emitted, c.id), c.recvBuffer, true)
    && n.wire[c.id] + c.sendBuffer == Frames(n.queued[c.id])
  }

  /** The invariant, leaving out the streams of the client at position k. */
  ghost predicate NetInvBut(n: NetState, k: int) {
    && QueueInv(n) && IdsInv(n) && StagesInv(n)
    && (forall s :: IsGiven(n, s) ==> LogsInv(n, s))
    && (forall i :: 0 <= i < |n.clients| && i != k ==> ClientInv(n, n.clients[i]))
  }

  ghost predicate NetInv(n: NetState) {
    NetInvBut(n, -1)
  }

  lemma ListeningInv(config: NetConfig, openedAt: SessionId)
    requires IsAcceptedNetConfig(config) && openedAt <= UINT64_MAX
    ensures NetInv(Listening(config, openedAt))
  {
  }

  // ----- events -----

  /** n and m agree on what the streams of session s are. */
  ghost predicate SameStreams(n: NetState, m: NetState, s: SessionId) {
    && (s in n.received <==> s in m.received) && (s in n.received ==> n.received[s] == m.received[s])
    && (s in n.queued <==> s in m.queued) && (s in n.queued ==> n.queued[s] == m.queued[s])
    && (s in n.wire <==> s in m.wire) && (s in n.wire ==> n.wire[s] == m.wire[s])
    && PacketsOf(n.emitted, s) == PacketsOf(m.emitted, s)
  }

  lemma StreamsStay(n: NetState, m: NetState, s: SessionId)
    requires SameStreams(n, m, s)
    ensures LogsInv(n, s) ==> LogsInv(m, s)
    ensures forall c: Client :: c.id == s && ClientInv(n, c) ==> ClientInv(m, c)
  {
    hide Parse, Frames, PacketsOf, AllFit;
  }

  lemma PoppedStreams(n: NetState)
    requires forall i :: 0 <= i < |n.clients| ==> ClientInv(n, n.clients[i])
    ensures var m := TryPopEvent(n).0;
            && (forall s :: LogsInv(n, s) ==> LogsInv(m, s))
            && (forall i :: 0 <= i < |m.clients| ==> ClientInv(m, m.clients[i]))
  {
    hide LogsInv, ClientInv, PacketsOf;
    var m := TryPopEvent(n).0;
    forall s ensures LogsInv(n, s) ==> LogsInv(m, s) {
      StreamsStay(n, m, s);
    }
    forall i | 0 <= i < |m.clients| ensures ClientInv(m, m.clients[i]) {
      StreamsStay(n, m, m.clients[i].id);
    }
  }

  lemma PoppedStages(n: NetState)
    requires StagesInv(n) && IdsInv(n)
    ensures StagesInv(TryPopEvent(n).0) && IdsInv(TryPopEvent(n).0)
  {
    hide StageOf, IsConnected;
    forall s ensures IsConnected(TryPopEvent(n).0, s) <==> IsConnected(n, s) {
      PoppedIsConnected(n, s);
    }
  }

  lemma TryPopKeepsNetInv(n: NetState)
    requires NetInv(n)
    ensures NetInv(TryPopEvent(n).0)
  {
    hide QueueInv, IdsInv, StagesInv, LogsInv, ClientInv;
    PoppedQueue(n);
    PoppedStages(n);
    PoppedStreams(n);
  }

  lemma PoppedQueue(n: NetState)
    requires QueueInv(n)
    ensures QueueInv(TryPopEvent(n).0)
  {
  }

  lemma PoppedIsConnected(n: NetState, s: SessionId)
    ensures IsConnected(TryPopEvent(n).0, s) <==> IsConnected(n, s)
  {
  }

  lemma OneEventMore(es: seq<Event>, e: Event)
    ensures forall s :: StageOf(es + [e], s) == if e.session == s then NextStage(StageOf(es, s), e) else StageOf(es, s)
    ensures !e.Arrived? ==> forall s :: PacketsOf(es + [e], s) == PacketsOf(es, s)
  {
    hide NextStage, StageOf, PacketsOf;
    forall s ensures StageOf(es + [e], s) == (if e.session == s then NextStage(StageOf(es, s), e) else StageOf(es, s))
      && (!e.Arrived? ==> PacketsOf(es + [e], s) == PacketsOf(es, s)) {
      OneMore(es, e, s);
    }
  }

  lemma CloseKeepsStages(n: NetState, i: nat)
    requires i < |n.clients| && IdsInv(n) && StagesInv(n)
    ensures StagesInv(CloseClient(n, i))
    ensures forall s :: IsConnected(CloseClient(n, i), s) <==> IsConnected(n, s) && s != n.clients[i].id
  {
    hide StageOf;
    var m, id := CloseClient(n, i), n.clients[i].id;
    OneEventMore(n.emitted, Event.Disconnected(id));
    forall s ensures IsConnected(m, s) <==> IsConnected(n, s) && s != id {
      ConnectedAfterClose(n, i, s);
    }
    assert IsConnected(n, id);
  }

  lemma CloseKeepsStreams(n: NetState, i: nat)
    requires i < |n.clients| && forall j :: 0 <= j < |n.clients| && j != i ==> ClientInv(n, n.clients[j])
    ensures var m := CloseClient(n, i);
            && (forall s :: LogsInv(n, s) ==> LogsInv(m, s))
            && (forall j :: 0 <= j < |m.clients| ==> ClientInv(m, m.clients[j]))
  {
    hide LogsInv, ClientInv, PacketsOf;
    var m := CloseClient(n, i);
    OneEventMore(n.emitted, Event.Disconnected(n.clients[i].id));
    forall s ensures LogsInv(n, s) ==> LogsInv(m, s) {
      StreamsStay(n, m, s);
    }
    forall j | 0 <= j < |m.clients| ensures ClientInv(m, m.clients[j]) {
      assert m.clients[j] == n.clients[if j < i then j else j + 1];
      StreamsStay(n, m, m.clients[j].id);
    }
  }

  lemma CloseKeepsIds(n: NetState, i: nat)
    requires i < |n.clients| && IdsInv(n)
    ensures IdsInv(CloseClient(n, i))
  {
  }

  /** Closing trades the connection for the slot that was reserved for its event. */
  lemma CloseKeepsNetInv(n: NetState, i: nat)
    requires i < |n.clients| && NetInvBut(n, i)
    ensures NetInv(CloseClient(n, i))
    ensures forall s :: IsConnected(CloseClient(n, i), s) <==> IsConnected(n, s) && s != n.clients[i].id
  {
    hide QueueInv, IdsInv, StagesInv, LogsInv, ClientInv, IsConnected;
    CloseKeepsQueue(n, i);
    CloseKeepsIds(n, i);
    CloseKeepsStages(n, i);
    CloseKeepsStreams(n, i);
  }

  lemma CloseKeepsQueue(n: NetState, i: nat)
    requires i < |n.clients| && QueueInv(n)
    ensures QueueInv(CloseClient(n, i))
  {
  }

  lemma ConnectedAfterClose(n: NetState, i: nat, s: SessionId)
    requires i < |n.clients| && IdsInv(n)
    ensures IsConnected(CloseClient(n, i), s) <==> IsConnected(n, s) && s != n.clients[i].id
  {
    var m := CloseClient(n, i);
    if j :| 0 <= j < |n.clients| && n.clients[j].id == s && j != i {
      assert m.clients[if j < i then j else j - 1].id == s;
    }
    if k :| 0 <= k < |m.clients| && m.clients[k].id == s {
      assert n.clients[if k < i then k else k + 1].id == s;
    }
  }

  lemma IndexIsPosition(n: NetState, i: nat)
    requires i < |n.clients| && IdsInv(n)
    ensures IndexOf(n.clients, n.clients[i].id) == i
  {
    var k := IndexOf(n.clients, n.clients[i].id);
  }

  lemma DisconnectKeepsNetInv(n: NetState, s: SessionId)
    requires NetInv(n)
    ensures NetInv(Disconnect(n, s))
    ensures forall o :: IsConnected(Disconnect(n, s), o) <==> IsConnected(n, o) && o != s
  {
    hide NetInvBut, CloseClient;
    var i := IndexOf(n.clients, s);
    if i < |n.clients| {
      OmitOne(n, i);
      CloseKeepsNetInv(n, i);
    }
  }

  lemma OmitOne(n: NetState, i: nat)
    requires NetInv(n)
    ensures NetInvBut(n, i)
  {
    hide QueueInv, IdsInv, StagesInv, LogsInv, ClientInv;
  }

  // ----- accepting -----

  lemma AcceptedStreams(n: NetState, now: Time)
    requires StageOf(n.emitted, n.lastSessionId + 1) == Unborn && NetInv(n)
    requires AcceptClient(n, Socket(true, now)).1 == NoError
    ensures var m := AcceptClient(n, Socket(true, now)).0;
            && (forall s :: IsGiven(m, s) ==> LogsInv(m, s))
            && (forall j :: 0 <= j < |m.clients| ==> ClientInv(m, m.clients[j]))
  {
    hide LogsInv, ClientInv, PacketsOf, StageOf, QueueInv, StagesInv;
    var m, id := AcceptClient(n, Socket(true, now)).0, n.lastSessionId + 1;
    OneEventMore(n.emitted, Connected(id, now));
    UnbornHasNoPackets(n.emitted, id);
    forall s | s != id ensures LogsInv(n, s) ==> LogsInv(m, s) {
      StreamsStay(n, m, s);
    }
    NewStreams(m, id);
    forall j | 0 <= j < |m.clients| ensures ClientInv(m, m.clients[j]) {
      if j < |n.clients| { StreamsStay(n, m, m.clients[j].id); }
    }
  }

  lemma AcceptedStages(n: NetState, now: Time)
    requires IdsInv(n) && StagesInv(n) && n.openedAt <= n.lastSessionId
    requires AcceptClient(n, Socket(true, now)).1 == NoError
    ensures var m, id := AcceptClient(n, Socket(true, now)).0, n.lastSessionId + 1;
            && StageOf(n.emitted, id) == Unborn && IdsInv(m) && StagesInv(m)
            && !IsConnected(n, id) && (forall s :: IsConnected(m, s) <==> IsConnected(n, s) || s == id)
  {
    hide StageOf;
    var m, id := AcceptClient(n, Socket(true, now)).0, n.lastSessionId + 1;
    assert !IsConnected(n, id);
    OneEventMore(n.emitted, Connected(id, now));
    forall s ensures IsConnected(m, s) <==> IsConnected(n, s) || s == id {
      ConnectedAfterAccept(n, m, s);
    }
  }

  lemma AcceptedQueue(n: NetState, now: Time)
    requires QueueInv(n) && AcceptClient(n, Socket(true, now)).1 == NoError
    ensures QueueInv(AcceptClient(n, Socket(true, now)).0)
  {
  }

  lemma AcceptKeepsNetInv(n: NetState, outcome: AcceptOutcome)
    requires NetInv(n)
    ensures var (m, error) := AcceptClient(n, outcome);
            && NetInv(m) && (error != NoError ==> m == n)
            && (error == NoError ==>
                  && m.lastSessionId == n.lastSessionId + 1 && !IsConnected(n, m.lastSessionId)
                  && forall s :: IsConnected(m, s) <==> IsConnected(n, s) || s == m.lastSessionId)
  {
    hide LogsInv, ClientInv, StagesInv, IdsInv, StageOf, IsConnected;
    if AcceptClient(n, outcome).1 == NoError {
      assert outcome == Socket(true, outcome.now);
      AcceptedStages(n, outcome.now);
      AcceptedStreams(n, outcome.now);
      AcceptedQueue(n, outcome.now);
    }
  }

  lemma ConnectedAfterAccept(n: NetState, m: NetState, s: SessionId)
    requires |m.clients| == |n.clients| + 1 && m.clients[..|n.clients|] == n.clients
    ensures IsConnected(m, s) <==> IsConnected(n, s) || s == m.clients[|n.clients|].id
  {
    if i :| 0 <= i < |n.clients| && n.clients[i].id == s {
      assert m.clients[i] == n.clients[i];
    }
    if i :| 0 <= i < |m.clients| && m.clients[i].id == s && i < |n.clients| {
      assert m.clients[i] == n.clients[i];
    }
    assert m.clients[|n.clients|].id == m.clients[|n.clients|].id;
  }

  lemma {:induction false} UnbornHasNoPackets(es: seq<Event>, s: SessionId)
    requires StageOf(es, s) == Unborn
    ensures PacketsOf(es, s) == []
  {
    if es != [] {
      UnbornHasNoPackets(es[..|es| - 1], s);
    }
  }

  lemma NewStreams(m: NetState, id: SessionId)
    requires id in m.received && id in m.queued && id in m.wire
    requires m.received[id] == [] && m.queued[id] == [] && m.wire[id] == [] && PacketsOf(m.emitted, id) == []
    ensures LogsInv(m, id) && ClientInv(m, Client(id, [], []))
  {
    hide PacketsOf;
  }

  // ----- receiving -----

  /** A buffer read on from where parsing stood yields the parse of the whole stream. */
  lemma BufferedStream(heard: Bytes, buffer: Bytes, delivered: seq<Packet>, bytes: Bytes)
    requires Parse(heard) == Parsed(delivered, buffer, true)
    ensures Parse(heard + bytes) == Prepend(delivered, Parse(buffer + bytes))
  {
    ParseInPieces(heard, bytes);
  }

  lemma RecvBufferIsSmall(n: NetState, i: nat)
    requires i < |n.clients| && ClientInv(n, n.clients[i])
    ensures |n.clients[i].recvBuffer| < MAX_PACKET_SIZE
  {
    hide Parse, Frames;
    ParseLosesNothing(n.received[n.clients[i].id]);
  }

  /** The receive limit cannot be hit under any accepted configuration. */
  lemma RecvNeverOverflows(n: NetState, i: nat, bytes: Bytes)
    requires NetInv(n) && i < |n.clients|
    ensures !RecvOverflows(n, n.clients[i], Clip(bytes, RECV_CHUNK))
  {
    hide LogsInv, StagesInv, ClientInv;
    RecvBufferIsSmall(n, i);
  }

  /** n after client i has been sent bytes, of whose packets ps were delivered. */
  ghost predicate Heard(n: NetState, m: NetState, i: nat, bytes: Bytes, ps: seq<Packet>) {
    && i < |n.clients| && SameSessions(n, m)
    && var c := n.clients[i];
    && m == EmitArrivals(n.(clients := m.clients, received := Extended(n.received, c.id, bytes)), c.id, ps)
    && (forall j :: 0 <= j < |n.clients| && j != i ==> m.clients[j] == n.clients[j])
    && m.clients[i].sendBuffer == c.sendBuffer
    && ps <= Parse(c.recvBuffer + bytes).packets && |ps| <= FreeSlots(n)
  }

  lemma StreamsAfterHearing(n: NetState, m: NetState, i: nat, bytes: Bytes, ps: seq<Packet>)
    requires Heard(n, m, i, bytes, ps) && ClientInv(n, n.clients[i]) && LogsInv(n, n.clients[i].id)
    ensures LogsInv(m, n.clients[i].id)
    ensures var p := Parse(n.clients[i].recvBuffer + bytes);
            p.ok && ps == p.packets && m.clients[i].recvBuffer == p.rest ==> ClientInv(m, m.clients[i])
  {
    hide Parse, Frames, PacketsOf, AllFit;
    var c := n.clients[i];
    MoreArrivals(n.emitted, c.id, ps, c.id);
    BufferedStream(n.received[c.id], c.recvBuffer, PacketsOf(n.emitted, c.id), bytes);
  }

  lemma HeardKeepsStages(n: NetState, m: NetState, i: nat, bytes: Bytes, ps: seq<Packet>)
    requires Heard(n, m, i, bytes, ps) && StagesInv(n)
    ensures StagesInv(m)
    ensures forall s :: IsConnected(m, s) <==> IsConnected(n, s)
    ensures forall s :: s != n.clients[i].id ==> SameStreams(n, m, s)
  {
    hide StageOf, PacketsOf, Parse;
    var id := n.clients[i].id;
    forall s ensures IsConnected(m, s) <==> IsConnected(n, s) {
      SameSessionsSameConnected(n, m, s);
    }
    assert IsConnected(n, id);
    forall s: SessionId
      ensures StageOf(m.emitted, s) == StageOf(n.emitted, s) && (s != id ==> PacketsOf(m.emitted, s) == PacketsOf(n.emitted, s))
    {
      MoreArrivals(n.emitted, id, ps, s);
      assert PacketsOf(n.emitted, s) + [] == PacketsOf(n.emitted, s);
    }
  }

  lemma SameSessionsSameConnected(n: NetState, m: NetState, s: SessionId)
    requires SameSessions(n, m)
    ensures IsConnected(m, s) <==> IsConnected(n, s)
  {
    if i :| 0 <= i < |n.clients| && n.clients[i].id == s { assert m.clients[i].id == s; }
    if i :| 0 <= i < |m.clients| && m.clients[i].id == s { assert n.clients[i].id == s; }
  }

  lemma HeardKeepsNetInv(n: NetState, m: NetState, i: nat, bytes: Bytes, ps: seq<Packet>)
    requires NetInv(n) && Heard(n, m, i, bytes, ps)
    ensures NetInvBut(m, i)
    ensures var p := Parse(n.clients[i].recvBuffer + bytes);
            p.ok && ps == p.packets && m.clients[i].recvBuffer == p.rest ==> NetInv(m)
  {
    hide LogsInv, ClientInv, StagesInv, SameStreams, Parse;
    var id := n.clients[i].id;
    HeardKeepsStages(n, m, i, bytes, ps);
    StreamsAfterHearing(n, m, i, bytes, ps);
    forall s | s != id ensures LogsInv(n, s) ==> LogsInv(m, s) {
      StreamsStay(n, m, s);
    }
    forall j | 0 <= j < |m.clients| && j != i ensures ClientInv(m, m.clients[j]) {
      StreamsStay(n, m, m.clients[j].id);
    }
    assert QueueInv(m);
    assert IdsInv(m);
  }

  lemma ReceiveKeepsNetInv(n: NetState, i: nat, outcome: RecvOutcome)
    requires NetInv(n) && i < |n.clients|
    ensures var (m, open) := ReceiveClient(n, i, outcome);
            && NetInvBut(m, i) && (open ==> NetInv(m))
            && m.queued == n.queued && m.wire == n.wire && m.clients[i].sendBuffer == n.clients[i].sendBuffer
  {
    hide LogsInv, ClientInv, StagesInv, QueueInv, IdsInv, Parse, RecvOverflows;
    if outcome.Data? && outcome.bytes != [] {
      var bytes := Clip(outcome.bytes, RECV_CHUNK);
      var c := n.clients[i];
      var p := Parse(c.recvBuffer + bytes);
      var (m, open) := ReceiveClient(n, i, outcome);
      RecvNeverOverflows(n, i, outcome.bytes);
      var ps := if |p.packets| > FreeSlots(n) then p.packets[..FreeSlots(n)] else p.packets;
      assert Heard(n, m, i, bytes, ps);
      HeardKeepsNetInv(n, m, i, bytes, ps);
    }
  }

  // ----- sending and queueing -----

  /** n after client i's outgoing stream has moved on. */
  ghost predicate Spoken(n: NetState, m: NetState, i: nat) {
    && i < |n.clients| && SameSessions(n, m)
    && m == n.(clients := m.clients, queued := m.queued, wire := m.wire)
    && (forall j :: 0 <= j < |n.clients| && j != i ==> m.clients[j] == n.clients[j])
    && m.clients[i].recvBuffer == n.clients[i].recvBuffer
    && (forall s :: s != n.clients[i].id ==> SameStreams(n, m, s))
  }

  lemma SpokenKeepsNetInv(n: NetState, m: NetState, i: nat)
    requires NetInv(n) && Spoken(n, m, i)
    requires ClientInv(m, m.clients[i]) && LogsInv(m, n.clients[i].id)
    ensures NetInv(m)
  {
    hide LogsInv, ClientInv, StageOf, SameStreams;
    var id := n.clients[i].id;
    forall s ensures IsConnected(m, s) <==> IsConnected(n, s) {
      SameSessionsSameConnected(n, m, s);
    }
    forall s | s != id ensures LogsInv(n, s) ==> LogsInv(m, s) {
      StreamsStay(n, m, s);
    }
    forall j | 0 <= j < |m.clients| && j != i ensures ClientInv(m, m.clients[j]) {
      StreamsStay(n, m, m.clients[j].id);
    }
    assert QueueInv(m);
    assert IdsInv(m);
  }

  lemma SendKeepsNetInv(n: NetState, i: nat, outcome: SendOutcome)
    requires NetInv(n) && i < |n.clients|
    ensures NetInv(SendClient(n, i, outcome).0)
  {
    hide StagesInv, QueueInv, IdsInv, Parse, Frames, PacketsOf, AllFit;
    var m, c := SendClient(n, i, outcome).0, n.clients[i];
    assert ClientInv(n, c) && LogsInv(n, c.id);
    if c.sendBuffer != [] && outcome.Sent? && outcome.count != 0 {
      var taken := if outcome.count <= |c.sendBuffer| then outcome.count else |c.sendBuffer|;
      assert n.wire[c.id] + c.sendBuffer == (n.wire[c.id] + c.sendBuffer[..taken]) + c.sendBuffer[taken..];
      assert ClientInv(m, m.clients[i]) && LogsInv(m, c.id);
      SpokenKeepsNetInv(n, m, i);
    }
  }

  lemma QueueKeepsNetInv(n: NetState, i: nat, id: nat, body: Bytes)
    requires NetInv(n) && i < |n.clients| && id <= UINT16_MAX
    ensures var (m, ok) := QueuePacket(n, i, id, body);
            NetInv(m) && (ok ==> Spoken(n, m, i)) && (!ok ==> m == n)
  {
    hide StagesInv, QueueInv, IdsInv, Parse, Frames, Frame, PacketsOf, AllFit;
    var (m, ok) := QueuePacket(n, i, id, body);
    if ok {
      var c, p := n.clients[i], Packet(id, body);
      assert ClientInv(n, c) && LogsInv(n, c.id);
      FramesOfNext(n.queued[c.id], p);
      assert n.wire[c.id] + (c.sendBuffer + Frame(p)) == (n.wire[c.id] + c.sendBuffer) + Frame(p);
      assert ClientInv(m, m.clients[i]) && LogsInv(m, c.id);
      SpokenKeepsNetInv(n, m, i);
    }
  }

  lemma FramesOfNext(ps: seq<Packet>, p: Packet)
    requires AllFit(ps) && Fits(p)
    ensures AllFit(ps + [p]) && Frames(ps + [p]) == Frames(ps) + Frame(p)
  {
    assert (ps + [p])[..|ps|] == ps;
  }

  lemma SendPacketKeepsNetInv(n: NetState, s: SessionId, id: nat, body: Bytes)
    requires NetInv(n) && id <= UINT16_MAX
    ensures NetInv(SendPacket(n, s, id, body).0)
  {
    hide NetInvBut, QueuePacket;
    var i := IndexOf(n.clients, s);
    if i < |n.clients| { QueueKeepsNetInv(n, i, id, body); }
  }
}
