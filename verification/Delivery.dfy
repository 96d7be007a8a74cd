/** What the answers of the sockets do to the byte streams of a session, call by call; and
    that everything queued goes out when its socket goes on taking bytes. */
module Delivery {
  import opened Protocol
  import opened Framing
  import opened NetRules
  import opened NetInvariant
  import opened NetRuns
  import opened ClientNetRules

  // ----- single calls -----

  function Least(a: nat, b: nat): nat {
    if a <= b then a else b
  }

  /** How many bytes queued for a session have not been put on the wire. */
  ghost function Unsent(n: NetState, s: SessionId): int {
    if s in n.queued && s in n.wire && AllFit(n.queued[s]) then |Frames(n.queued[s])| - |n.wire[s]| else 0
  }

  /** Exactly the bytes that send has taken leave the buffer for the wire; send is not called
      for an empty buffer, and a send that fails or takes nothing closes the connection. */
  lemma SendLaw(n: NetState, i: nat, outcome: SendOutcome)
    requires NetInv(n) && i < |n.clients|
    ensures var c := n.clients[i];
            var (m, open) := SendClient(n, i, outcome);
            && c.id in n.wire && c.id in n.queued && AllFit(n.queued[c.id])
            && (c.sendBuffer == [] || outcome.SendWouldBlock? ==> open && m == n)
            && (c.sendBuffer != [] && (outcome.SendFailed? || outcome == Sent(0)) ==> !open && m == n)
            && (c.sendBuffer != [] && outcome.Sent? && outcome.count > 0 ==>
                  && open && m == n.(clients := m.clients, wire := m.wire)
                  && var taken := Least(outcome.count, |c.sendBuffer|);
                  && m.clients == n.clients[i := c.(sendBuffer := c.sendBuffer[taken..])]
                  && m.wire == n.wire[c.id := n.wire[c.id] + c.sendBuffer[..taken]]
                  && m.wire[c.id] == Frames(n.queued[c.id])[..|n.wire[c.id]| + taken]
                  && Unsent(m, c.id) == Unsent(n, c.id) - taken)
  {
    hide QueueInv, IdsInv, StagesInv, LogsInv, Parse, Frames, PacketsOf, AllFit;
    assert ClientInv(n, n.clients[i]);
  }

  /** What recv delivers is heard to the last byte, and yields exactly the packets it completes,
      as far as the queue takes them; the connection stays open unless the stream is malformed,
      the queue is full, or the peer has finished. */
  lemma ReceiveLaw(n: NetState, i: nat, outcome: RecvOutcome)
    requires NetInv(n) && i < |n.clients|
    ensures var id := n.clients[i].id;
            var (m, open) := ReceiveClient(n, i, outcome);
            && id in n.received
            && (outcome.RecvWouldBlock? ==> open && m == n)
            && (outcome.RecvFailed? || outcome == Data([]) ==> !open && m == n)
            && (outcome.Data? && outcome.bytes != [] ==>
                  var heard := n.received[id] + Clip(outcome.bytes, RECV_CHUNK);
                  var before, all := PacketsOf(n.emitted, id), Parse(heard).packets;
                  && before <= all
                  && var taken := Least(|all| - |before|, FreeSlots(n));
                  && m.received == n.received[id := heard]
                  && m.events == n.events + Arrivals(id, all[|before|..|before| + taken])
                  && (open <==> Parse(heard).ok && |all| - |before| <= FreeSlots(n)))
  {
    hide QueueInv, IdsInv, StagesInv, LogsInv, Parse, Frames, PacketsOf, AllFit, RecvOverflows;
    var c := n.clients[i];
    assert ClientInv(n, c);
    if outcome.Data? && outcome.bytes != [] {
      var bytes := Clip(outcome.bytes, RECV_CHUNK);
      RecvNeverOverflows(n, i, outcome.bytes);
      BufferedStream(n.received[c.id], c.recvBuffer, PacketsOf(n.emitted, c.id), bytes);
      var before, found := PacketsOf(n.emitted, c.id), Parse(c.recvBuffer + bytes).packets;
      var taken := Least(|found|, FreeSlots(n));
      assert (before + found)[|before|..|before| + taken] == found[..taken];
      assert found[..|found|] == found;
    }
  }

  lemma NoneHasTheId(n: NetState, s: SessionId)
    ensures IndexOf(n.clients, s) < |n.clients| <==> IsConnected(n, s)
  {
  }

  /** A packet is queued, whole and behind all others, exactly when its session is open and the
      limits leave room for it; otherwise nothing changes. */
  lemma QueueLaw(n: NetState, s: SessionId, id: nat, body: Bytes)
    requires NetInv(n) && id <= UINT16_MAX
    ensures var (m, ok) := NetRules.SendPacket(n, s, id, body);
            && (ok <==>
                  && IsConnected(n, s) && |body| <= MAX_BODY_SIZE
                  && Unsent(n, s) + HEADER_SIZE + |body| <= n.config.maxSendBufferBytes)
            && (!ok ==> m == n)
            && (ok ==> s in n.queued && m == n.(clients := m.clients, queued := n.queued[s := n.queued[s] + [Packet(id, body)]]))
  {
    hide QueueInv, IdsInv, StagesInv, LogsInv, Parse, Frames, Frame, PacketsOf, AllFit;
    NoneHasTheId(n, s);
    var i := IndexOf(n.clients, s);
    if i < |n.clients| { assert ClientInv(n, n.clients[i]); }
  }

  /** Why a connection is refused, and what an accepted one looks like. */
  lemma AcceptLaw(n: NetState, outcome: AcceptOutcome)
    requires NetInv(n)
    ensures var (m, error) := AcceptClient(n, outcome);
            var full := |n.clients| == n.config.maxClients;
            var crowded := |n.events| + |n.clients| + 2 > n.config.maxQueuedEvents;
            && (error == AcceptWouldBlockError <==> outcome.AcceptWouldBlock?)
            && (error == AcceptApiError <==> outcome.AcceptFailed?)
            && (error == MaxSessionCount <==> outcome.Socket? && full)
            && (error == EventQueueFull <==> outcome.Socket? && !full && crowded)
            && (error == SessionIdExhausted <==> outcome.Socket? && !full && !crowded && n.lastSessionId == UINT64_MAX)
            && (error == NonBlockError <==>
                  outcome.Socket? && !full && !crowded && n.lastSessionId < UINT64_MAX && !outcome.nonBlocking)
            && (error != NoError ==> m == n)
            && (error == NoError ==>
                  var id := n.lastSessionId + 1;
                  && outcome.Socket? && m.clients == n.clients + [Client(id, [], [])]
                  && m.events == n.events + [Connected(id, outcome.now)] && m.lastSessionId == id)
  {
    hide IdsInv, StagesInv, LogsInv, ClientInv;
  }

  /** There is room for k more connections, each with its Connected and its Disconnected event. */
  predicate RoomFor(n: NetState, k: nat) {
    && |n.clients| + k <= n.config.maxClients && |n.events| + |n.clients| + 2 * k <= n.config.maxQueuedEvents
    && n.lastSessionId + k <= UINT64_MAX
  }

  /** The j-th connection accepted between n and m has that ID, and its event that time. */
  predicate IsAcceptedAs(n: NetState, m: NetState, j: nat, id: SessionId, now: Time) {
    && |n.clients| + j < |m.clients| && m.clients[|n.clients| + j] == Client(id, [], [])
    && |n.events| + j < |m.events| && m.events[|n.events| + j] == Connected(id, now)
  }

  /** What one accept does to the lists. */
  lemma AcceptAppends(n: NetState, outcome: AcceptOutcome)
    ensures var (m, error) := AcceptClient(n, outcome);
            && n.clients <= m.clients && |m.clients| <= |n.clients| + 1 && n.events <= m.events
            && (error != NoError ==> m == n)
            && (RoomFor(n, 1) && outcome.Socket? && outcome.nonBlocking ==>
                  && error == NoError && IsAcceptedAs(n, m, 0, n.lastSessionId + 1, outcome.now)
                  && |m.clients| == |n.clients| + 1 && |m.events| == |n.events| + 1
                  && m.lastSessionId == n.lastSessionId + 1 && m.config == n.config)
  {
  }

  lemma LaterAccepted(n: NetState, m: NetState, k: NetState, j: nat, id: SessionId, now: Time)
    requires n.clients <= m.clients && n.events <= m.events && m.clients <= k.clients && m.events <= k.events
    ensures j == 0 && IsAcceptedAs(n, m, 0, id, now) ==> IsAcceptedAs(n, k, 0, id, now)
    ensures j > 0 && |m.clients| == |n.clients| + 1 && |m.events| == |n.events| + 1 && IsAcceptedAs(m, k, j - 1, id, now) ==>
              IsAcceptedAs(n, k, j, id, now)
  {
  }

  /** The first k sockets waiting are all accepted, in order, when one pass may and there is
      room; and a pass never accepts more than it may. */
  lemma {:induction false} AcceptAllLaw(n: NetState, outcomes: seq<AcceptOutcome>, attempts: nat, k: nat)
    requires k <= attempts && k <= |outcomes| && RoomFor(n, k)
    requires forall i :: 0 <= i < k ==> outcomes[i].Socket? && outcomes[i].nonBlocking
    ensures var m := AcceptAll(n, outcomes, attempts);
            && |m.clients| <= |n.clients| + attempts && n.clients <= m.clients && n.events <= m.events
            && forall j :: 0 <= j < k ==> IsAcceptedAs(n, m, j, n.lastSessionId + 1 + j, outcomes[j].now)
    decreases attempts
  {
    if attempts != 0 && outcomes != [] {
      hide AcceptClient, IsAcceptedAs;
      var (accepted, error) := AcceptClient(n, outcomes[0]);
      AcceptAppends(n, outcomes[0]);
      AcceptAllLaw(accepted, outcomes[1..], attempts - 1, if k > 0 then k - 1 else 0);
      var m := AcceptAll(n, outcomes, attempts);
      forall j | 0 <= j < k ensures IsAcceptedAs(n, m, j, n.lastSessionId + 1 + j, outcomes[j].now) {
        LaterAccepted(n, accepted, m, j, n.lastSessionId + 1 + j, outcomes[j].now);
        if j > 0 {
          assert outcomes[1..][j - 1] == outcomes[j];
          assert IsAcceptedAs(accepted, m, j - 1, accepted.lastSessionId + 1 + (j - 1), outcomes[1..][j - 1].now);
        }
      }
    }
  }

  // ----- a session's send buffer over whole passes -----

  /** The session is open and b is all that waits to be sent on it. */
  ghost predicate Holds(n: NetState, s: SessionId, b: Bytes) {
    exists i :: 0 <= i < |n.clients| && n.clients[i].id == s && n.clients[i].sendBuffer == b
  }

  /** What is left of b when the session's socket has been served once. */
  function Left(b: Bytes, r: Readiness, s: SessionId): Bytes {
    if s in r.writable && SendOf(r, s).Sent? then b[Least(SendOf(r, s).count, |b|)..] else b
  }

  lemma HoldsAt(n: NetState, s: SessionId, b: Bytes) returns (i: nat)
    requires IdsInv(n) && Holds(n, s, b)
    ensures i < |n.clients| && n.clients[i].id == s && n.clients[i].sendBuffer == b && IndexOf(n.clients, s) == i
  {
    i :| i < |n.clients| && n.clients[i].id == s && n.clients[i].sendBuffer == b;
    IndexIsPosition(n, i);
  }

  lemma ServedBuffers(n: NetState, i: nat, r: Readiness)
    requires i < |n.clients|
    ensures var (m, open) := ServeClient(n, i, r);
            && SameSessions(n, m)
            && (forall j :: 0 <= j < |n.clients| && j != i ==> m.clients[j] == n.clients[j])
            && (open ==> m.clients[i].sendBuffer == Left(n.clients[i].sendBuffer, r, n.clients[i].id))
  {
    hide Parse;
  }

  lemma ServeSessionHolds(n: NetState, x: SessionId, r: Readiness, s: SessionId, b: Bytes)
    requires IdsInv(n)
    ensures var m := ServeSession(n, x, r);
            && IdsInv(m) && (IsConnected(m, s) ==> IsConnected(n, s))
            && (Holds(n, s, b) && x != s ==> Holds(m, s, b))
            && (Holds(n, s, b) && x == s && IsConnected(m, s) ==> Holds(m, s, Left(b, r, s)))
  {
    hide ServeClient, IdsInv, Left, CloseClient;
    var i := IndexOf(n.clients, x);
    if i < |n.clients| {
      var (served, open) := ServeClient(n, i, r);
      ServedBuffers(n, i, r);
      SameSessionsSameIds(n, served);
      SameSessionsSameConnected(n, served, s);
      CloseKeepsIds(served, i);
      ConnectedAfterClose(served, i, s);
      if Holds(n, s, b) {
        var j := HoldsAt(n, s, b);
        assert served.clients[j].id == s;
        if x != s {
          assert served.clients[j].sendBuffer == b;
          OthersHold(served, i, s, b);
        } else if open {
          assert served.clients[i].sendBuffer == Left(b, r, s);
        }
      }
    }
  }

  lemma OthersHold(n: NetState, i: nat, s: SessionId, b: Bytes)
    requires i < |n.clients| && n.clients[i].id != s && Holds(n, s, b)
    ensures Holds(CloseClient(n, i), s, b)
  {
    var j :| 0 <= j < |n.clients| && n.clients[j].id == s && n.clients[j].sendBuffer == b;
    assert CloseClient(n, i).clients[if j < i then j else j - 1] == n.clients[j];
  }

  lemma {:induction false} ServeAllHolds(n: NetState, ids: seq<SessionId>, r: Readiness, s: SessionId, b: Bytes)
    requires IdsInv(n) && forall i, j :: 0 <= i < j < |ids| ==> ids[i] != ids[j]
    ensures var m := ServeAll(n, ids, r);
            && (IsConnected(m, s) ==> IsConnected(n, s))
            && (Holds(n, s, b) && s !in ids ==> Holds(m, s, b))
            && (Holds(n, s, b) && s in ids && IsConnected(m, s) ==> Holds(m, s, Left(b, r, s)))
    decreases |ids|
  {
    hide ServeSession, IdsInv, Holds, IsConnected, Left;
    if ids != [] {
      var m := ServeSession(n, ids[0], r);
      ServeSessionHolds(n, ids[0], r, s, b);
      assert ids == [ids[0]] + ids[1..];
      if ids[0] == s {
        ServeAllHolds(m, ids[1..], r, s, Left(b, r, s));
      } else {
        ServeAllHolds(m, ids[1..], r, s, b);
      }
    }
  }

  lemma {:induction false} AcceptAllHolds(n: NetState, outcomes: seq<AcceptOutcome>, attempts: nat, s: SessionId, b: Bytes)
    ensures var m := AcceptAll(n, outcomes, attempts);
            && (Holds(n, s, b) ==> Holds(m, s, b))
            && (s <= n.lastSessionId && IsConnected(m, s) ==> IsConnected(n, s))
    decreases attempts
  {
    if attempts != 0 && outcomes != [] {
      var (m, error) := AcceptClient(n, outcomes[0]);
      if Holds(n, s, b) {
        var i :| 0 <= i < |n.clients| && n.clients[i].id == s && n.clients[i].sendBuffer == b;
        assert m.clients[i] == n.clients[i];
      }
      if error == NoError { ConnectedAfterAccept(n, m, s); }
      hide AcceptClient, Holds, IsConnected;
      AcceptAllHolds(m, outcomes[1..], attempts - 1, s, b);
    }
  }

  /** One pass over the sockets takes from a session that stays open exactly the bytes its
      socket accepts. */
  lemma RunHolds(n: NetState, r: Readiness, s: SessionId, b: Bytes)
    requires NetInv(n) && Holds(n, s, b) && IsConnected(Run(n, r), s) && IsGiven(n, s)
    ensures Holds(Run(n, r), s, Left(b, r, s))
  {
    hide LogsInv, ClientInv, StagesInv, QueueInv, ServeAll, Sweep, AcceptAll, Left;
    var ids := Sessions(n.clients);
    var i := HoldsAt(n, s, b);
    assert ids[i] == s;
    assert ids[0..] == ids;
    SweepServesEachOnce(n, 0, r);
    ServeAllHolds(n, ids, r, s, b);
    var swept := Sweep(n, 0, r);
    SweepQueuesNothing(n, 0, r);
    AcceptAllHolds(swept, r.accepts, n.config.maxAcceptsPerRun, s, Left(b, r, s));
  }

  lemma ServedHears(n: NetState, i: nat, r: Readiness)
    requires i < |n.clients|
    ensures var id, m := n.clients[i].id, ServeClient(n, i, r).0;
            && m.received == (if HearsIn(r, id) then Extended(n.received, id, Clip(RecvOf(r, id).bytes, RECV_CHUNK)) else n.received)
  {
    hide Parse, FreeSlots;
  }

  /** select has found the session readable, and recv delivers bytes. */
  predicate HearsIn(r: Readiness, s: SessionId) {
    s in r.readable && RecvOf(r, s).Data? && RecvOf(r, s).bytes != []
  }

  function HeardBy(m: map<SessionId, Bytes>, s: SessionId): Bytes {
    if s in m then m[s] else []
  }

  lemma ServeSessionHears(n: NetState, x: SessionId, r: Readiness, s: SessionId)
    ensures HeardBy(ServeSession(n, x, r).received, s) == HeardBy(n.received, s) +
              if x == s && IsConnected(n, s) && HearsIn(r, s) then Clip(RecvOf(r, s).bytes, RECV_CHUNK) else []
  {
    hide ServeClient;
    NoneHasTheId(n, x);
    var i := IndexOf(n.clients, x);
    if i < |n.clients| { ServedHears(n, i, r); }
  }

  lemma {:induction false} ServeAllHears(n: NetState, ids: seq<SessionId>, r: Readiness, s: SessionId)
    requires IdsInv(n) && forall i, j :: 0 <= i < j < |ids| ==> ids[i] != ids[j]
    ensures HeardBy(ServeAll(n, ids, r).received, s) == HeardBy(n.received, s) +
              if s in ids && IsConnected(n, s) && HearsIn(r, s) then Clip(RecvOf(r, s).bytes, RECV_CHUNK) else []
    decreases |ids|
  {
    hide ServeSession, IdsInv, IsConnected, HearsIn, HeardBy;
    if ids != [] {
      var m := ServeSession(n, ids[0], r);
      ServeSessionHears(n, ids[0], r, s);
      ServeSessionHolds(n, ids[0], r, s, []);
      assert ids == [ids[0]] + ids[1..];
      ServeAllHears(m, ids[1..], r, s);
      if ids[0] != s { OthersStayOpen(n, ids[0], r, s); }
    }
  }

  lemma OthersStayOpen(n: NetState, x: SessionId, r: Readiness, s: SessionId)
    requires IdsInv(n) && x != s
    ensures IsConnected(ServeSession(n, x, r), s) <==> IsConnected(n, s)
  {
    hide ServeClient, IdsInv, CloseClient;
    var i := IndexOf(n.clients, x);
    if i < |n.clients| {
      var served := ServeClient(n, i, r).0;
      SameSessionsSameIds(n, served);
      SameSessionsSameConnected(n, served, s);
      ConnectedAfterClose(served, i, s);
    }
  }

  lemma {:induction false} AcceptAllHears(n: NetState, outcomes: seq<AcceptOutcome>, attempts: nat, s: SessionId)
    requires s <= n.lastSessionId
    ensures HeardBy(AcceptAll(n, outcomes, attempts).received, s) == HeardBy(n.received, s)
    decreases attempts
  {
    if attempts != 0 && outcomes != [] {
      AcceptAllHears(AcceptClient(n, outcomes[0]).0, outcomes[1..], attempts - 1, s);
    }
  }

  /** One pass hears from every open session exactly the one chunk that recv delivers for it. */
  lemma RunHears(n: NetState, r: Readiness, s: SessionId)
    requires NetInv(n) && IsGiven(n, s)
    ensures HeardBy(Run(n, r).received, s) == HeardBy(n.received, s) +
              if IsConnected(n, s) && HearsIn(r, s) then Clip(RecvOf(r, s).bytes, RECV_CHUNK) else []
  {
    hide LogsInv, ClientInv, StagesInv, QueueInv, ServeAll, Sweep, AcceptAll, HearsIn, HeardBy;
    var ids := Sessions(n.clients);
    assert ids[0..] == ids;
    SweepServesEachOnce(n, 0, r);
    ServeAllHears(n, ids, r, s);
    if IsConnected(n, s) {
      var i :| 0 <= i < |n.clients| && n.clients[i].id == s;
      assert ids[i] == s;
    }
    SweepQueuesNothing(n, 0, r);
    AcceptAllHears(Sweep(n, 0, r), r.accepts, n.config.maxAcceptsPerRun, s);
  }

  /** And at its end it accepts the sockets that wait: the first k if it may and there is room
      for them once the clients have been served, and none if select has not reported any. */
  lemma RunAccepts(n: NetState, r: Readiness, k: nat)
    requires k <= n.config.maxAcceptsPerRun && k <= |r.accepts| && RoomFor(Sweep(n, 0, r), k)
    requires forall i :: 0 <= i < k ==> r.accepts[i].Socket? && r.accepts[i].nonBlocking
    ensures var u, m := Sweep(n, 0, r), Run(n, r);
            && |m.clients| <= |u.clients| + n.config.maxAcceptsPerRun && (!r.listenerReadable ==> m == u)
            && (r.listenerReadable ==>
                  forall j :: 0 <= j < k ==> IsAcceptedAs(u, m, j, u.lastSessionId + 1 + j, r.accepts[j].now))
  {
    hide Sweep, AcceptAll, IsAcceptedAs;
    AcceptAllLaw(Sweep(n, 0, r), r.accepts, n.config.maxAcceptsPerRun, k);
  }

  // ----- any calls: everything queued goes out -----

  /** In each pass the session's socket is writable and takes at least a byte, and nothing more
      is queued for the session. */
  predicate Drains(op: NetOp, s: SessionId) {
    match op
    case DoRun(r) => s in r.writable && SendOf(r, s).Sent? && SendOf(r, s).count > 0
    case DoSend(session, _, _) => session != s
    case _ => true
  }

  predicate AllDrain(ops: seq<NetOp>, s: SessionId) {
    forall i :: 0 <= i < |ops| ==> Drains(ops[i], s)
  }

  function PassesIn(ops: seq<NetOp>): nat {
    if ops == [] then 0 else PassesIn(ops[..|ops| - 1]) + if ops[|ops| - 1].DoRun? then 1 else 0
  }

  lemma QueueingHolds(n: NetState, x: SessionId, id: nat, body: Bytes, s: SessionId, b: Bytes)
    requires IdsInv(n) && Holds(n, s, b) && x != s && id <= UINT16_MAX
    ensures Holds(NetRules.SendPacket(n, x, id, body).0, s, b)
  {
    var j := HoldsAt(n, s, b);
    assert NetRules.SendPacket(n, x, id, body).0.clients[j] == n.clients[j];
  }

  lemma ClosingHolds(n: NetState, x: SessionId, s: SessionId, b: Bytes)
    requires IdsInv(n) && Holds(n, s, b) && x != s
    ensures Holds(Disconnect(n, x), s, b)
  {
    hide CloseClient;
    var i := IndexOf(n.clients, x);
    if i < |n.clients| { OthersHold(n, i, s, b); }
  }

  lemma StillConnected(n: NetState, op: NetOp, s: SessionId)
    requires NetInv(n) && NetRuns.Legal(op) && IsGiven(n, s) && IsConnected(NetRuns.Do(n, op), s)
    ensures IsConnected(n, s)
  {
    hide LogsInv, ClientInv, StagesInv, QueueInv, Sweep, AcceptAll, QueuePacket, IsConnected, ServeAll;
    match op
    case DoRun(r) =>
      SweepServesEachOnce(n, 0, r);
      assert Sessions(n.clients)[0..] == Sessions(n.clients);
      ServeAllHolds(n, Sessions(n.clients), r, s, []);
      SweepQueuesNothing(n, 0, r);
      AcceptAllHolds(Sweep(n, 0, r), r.accepts, n.config.maxAcceptsPerRun, s, []);
    case DoSend(session, id, body) =>
      SameSessionsSameConnected(n, NetRules.SendPacket(n, session, id, body).0, s);
    case DoDisconnect(session) => DisconnectKeepsNetInv(n, session);
    case DoPop => PoppedIsConnected(n, s);
  }

  /** One call leaves less to send for an open session, or nothing. */
  lemma OneCallDrains(n: NetState, op: NetOp, s: SessionId, b: Bytes)
    requires NetInv(n) && NetRuns.Legal(op) && Drains(op, s) && Holds(n, s, b) && IsGiven(n, s)
    requires IsConnected(NetRuns.Do(n, op), s)
    ensures exists rest :: Holds(NetRuns.Do(n, op), s, rest) && (|rest| < |b| || rest == b == [] || (rest == b && !op.DoRun?))
  {
    hide LogsInv, ClientInv, StagesInv, QueueInv, NetRules.Run, NetRules.SendPacket, Disconnect;
    match op
    case DoRun(r) => RunHolds(n, r, s, b); assert Holds(NetRuns.Do(n, op), s, Left(b, r, s));
    case DoSend(session, id, body) => QueueingHolds(n, session, id, body, s, b); assert Holds(NetRuns.Do(n, op), s, b);
    case DoDisconnect(session) =>
      DisconnectKeepsNetInv(n, session);
      ClosingHolds(n, session, s, b);
      assert Holds(NetRuns.Do(n, op), s, b);
    case DoPop => PoppedHolds(n, s, b); assert Holds(NetRuns.Do(n, op), s, b);
  }

  lemma PoppedHolds(n: NetState, s: SessionId, b: Bytes)
    requires Holds(n, s, b)
    ensures Holds(TryPopEvent(n).0, s, b)
  {
    var i :| 0 <= i < |n.clients| && n.clients[i].id == s && n.clients[i].sendBuffer == b;
    assert TryPopEvent(n).0.clients[i] == n.clients[i];
  }

  /** At most so many bytes wait to be sent on the open session. */
  ghost predicate HoldsAtMost(n: NetState, s: SessionId, most: int) {
    exists b :: Holds(n, s, b) && |b| <= most
  }

  lemma LogsOfCall(n: NetState, op: NetOp, s: SessionId)
    requires NetRuns.Legal(op) && IsGiven(n, s) && s in n.queued
    ensures var m := NetRuns.Do(n, op);
            IsGiven(m, s) && s in m.queued && (Drains(op, s) ==> m.queued[s] == n.queued[s])
  {
    hide Sweep, AcceptAll, Frames, Parse;
    match op
    case DoRun(r) =>
      SweepQueuesNothing(n, 0, r);
      SweepKeepsOpening(n, 0, r);
      AcceptAllKeepsLogs(Sweep(n, 0, r), r.accepts, n.config.maxAcceptsPerRun, s);
    case _ =>
  }

  lemma {:induction false} SweepKeepsOpening(n: NetState, i: nat, r: Readiness)
    ensures Sweep(n, i, r).openedAt == n.openedAt && Sweep(n, i, r).config == n.config
    decreases |n.clients| - i
  {
    if i < |n.clients| {
      hide ServeClient;
      var (served, open) := ServeClient(n, i, r);
      if open { SweepKeepsOpening(served, i + 1, r); } else { SweepKeepsOpening(CloseClient(served, i), i, r); }
    }
  }

  lemma {:induction false} AcceptAllKeepsLogs(n: NetState, outcomes: seq<AcceptOutcome>, attempts: nat, s: SessionId)
    requires s in n.queued && IsGiven(n, s)
    ensures var m := AcceptAll(n, outcomes, attempts); s in m.queued && m.queued[s] == n.queued[s] && IsGiven(m, s)
    decreases attempts
  {
    if attempts != 0 && outcomes != [] {
      AcceptAllKeepsLogs(AcceptClient(n, outcomes[0]).0, outcomes[1..], attempts - 1, s);
    }
  }

  lemma OpenHolds(n: NetState, s: SessionId)
    requires NetInv(n) && IsConnected(n, s)
    ensures s in n.queued && s in n.wire && AllFit(n.queued[s]) && Unsent(n, s) >= 0 && HoldsAtMost(n, s, Unsent(n, s))
    ensures forall b :: Holds(n, s, b) ==> |b| == Unsent(n, s) && n.wire[s] + b == Frames(n.queued[s])
  {
    hide QueueInv, StagesInv, LogsInv, IdsInv, Parse, Frames, PacketsOf, AllFit;
    var i :| 0 <= i < |n.clients| && n.clients[i].id == s;
    assert ClientInv(n, n.clients[i]);
    assert Holds(n, s, n.clients[i].sendBuffer);
    forall j | 0 <= j < |n.clients| && n.clients[j].id == s
      ensures |n.clients[j].sendBuffer| == Unsent(n, s) && n.wire[s] + n.clients[j].sendBuffer == Frames(n.queued[s])
    {
      assert ClientInv(n, n.clients[j]);
    }
  }

  lemma LegalFront(before: seq<NetOp>, front: seq<NetOp>, last: NetOp)
    requires NetRuns.AllLegal(before + (front + [last]))
    ensures NetRuns.AllLegal(before + front) && NetRuns.AllLegal(before) && NetRuns.Legal(last)
  {
    var all := before + (front + [last]);
    assert all[|all| - 1] == last;
    assert forall i :: 0 <= i < |before + front| ==> (before + front)[i] == all[i];
    assert forall i :: 0 <= i < |before| ==> before[i] == all[i];
  }

  lemma {:induction false} GivenStays(config: NetConfig, openedAt: SessionId, before: seq<NetOp>, after: seq<NetOp>, s: SessionId)
    requires IsAcceptedNetConfig(config) && openedAt <= UINT64_MAX && NetRuns.AllLegal(before + after)
    requires NetRuns.AllLegal(before) && IsGiven(NetRuns.DoAll(config, openedAt, before), s)
    ensures var m := NetRuns.DoAll(config, openedAt, before + after); IsGiven(m, s) && s in m.queued
    decreases |after|
  {
    hide NetRuns.Do, IsGiven, AllFit, Frames, Parse, QueueInv, StagesInv, ClientInv, IdsInv;
    if after == [] {
      assert before + after == before;
      EveryRunKeepsNetInv(config, openedAt, before);
      assert LogsInv(NetRuns.DoAll(config, openedAt, before), s);
    } else {
      var front, last := after[..|after| - 1], after[|after| - 1];
      assert after == front + [last];
      LegalFront(before, front, last);
      assert (before + after)[..|before + after| - 1] == before + front;
      GivenStays(config, openedAt, before, front, s);
      LogsOfCall(NetRuns.DoAll(config, openedAt, before + front), last, s);
    }
  }

  lemma {:induction false} UnsentShrinks(config: NetConfig, openedAt: SessionId, before: seq<NetOp>, after: seq<NetOp>, s: SessionId)
    requires IsAcceptedNetConfig(config) && openedAt <= UINT64_MAX && NetRuns.AllLegal(before + after)
    requires AllDrain(after, s) && NetRuns.AllLegal(before) && IsGiven(NetRuns.DoAll(config, openedAt, before), s)
    requires IsConnected(NetRuns.DoAll(config, openedAt, before + after), s)
    ensures var n, m := NetRuns.DoAll(config, openedAt, before), NetRuns.DoAll(config, openedAt, before + after);
            && IsConnected(n, s) && IsGiven(m, s) && s in n.queued && s in m.queued && m.queued[s] == n.queued[s]
            && AllFit(n.queued[s])
            && (Unsent(n, s) >= PassesIn(after) ==> HoldsAtMost(m, s, Unsent(n, s) - PassesIn(after)))
            && (Unsent(n, s) < PassesIn(after) ==> HoldsAtMost(m, s, 0))
    decreases |after|
  {
    hide NetInvBut, NetRuns.Do, IsConnected, IsGiven, Holds, Unsent, AllFit;
    var n, m := NetRuns.DoAll(config, openedAt, before), NetRuns.DoAll(config, openedAt, before + after);
    EveryRunKeepsNetInv(config, openedAt, before);
    if after == [] {
      assert before + after == before;
      OpenHolds(n, s);
    } else {
      var front, last := after[..|after| - 1], after[|after| - 1];
      assert after == front + [last];
      assert (before + after)[..|before + after| - 1] == before + front && (before + after)[|before + after| - 1] == last;
      LegalFront(before, front, last);
      var u := NetRuns.DoAll(config, openedAt, before + front);
      assert m == NetRuns.Do(u, last);
      EveryRunKeepsNetInv(config, openedAt, before + front);
      GivenStays(config, openedAt, before, front, s);
      StillConnected(u, last, s);
      UnsentShrinks(config, openedAt, before, front, s);
      LogsOfCall(u, last, s);
      var b :| Holds(u, s, b) && |b| <= (if Unsent(n, s) >= PassesIn(front) then Unsent(n, s) - PassesIn(front) else 0);
      OneCallDrains(u, last, s, b);
    }
  }

  /** Liveness of sending: when a session stays open through as many passes as it had bytes to
      send, its socket taking at least one byte in each, and nothing more is queued for it, then
      all that was queued is on the wire. */
  lemma EverythingGoesOut(config: NetConfig, openedAt: SessionId, before: seq<NetOp>, after: seq<NetOp>, s: SessionId)
    requires IsAcceptedNetConfig(config) && openedAt <= UINT64_MAX && NetRuns.AllLegal(before + after)
    requires AllDrain(after, s) && NetRuns.AllLegal(before) && IsGiven(NetRuns.DoAll(config, openedAt, before), s)
    requires IsConnected(NetRuns.DoAll(config, openedAt, before + after), s)
    requires PassesIn(after) >= Unsent(NetRuns.DoAll(config, openedAt, before), s)
    ensures var n, m := NetRuns.DoAll(config, openedAt, before), NetRuns.DoAll(config, openedAt, before + after);
            && s in n.queued && s in m.queued && s in m.wire && m.queued[s] == n.queued[s] && AllFit(n.queued[s])
            && Flushed(m, s) && m.wire[s] == Frames(n.queued[s])
  {
    hide NetInvBut, NetRuns.DoAll, IsConnected, IsGiven, AllFit, AllDrain, PassesIn, Frames;
    var m := NetRuns.DoAll(config, openedAt, before + after);
    UnsentShrinks(config, openedAt, before, after, s);
    EveryRunKeepsNetInv(config, openedAt, before + after);
    OpenHolds(m, s);
    var b :| Holds(m, s, b) && |b| <= 0;
    assert m.wire[s] + b == m.wire[s];
  }

  /** So everything arrives: a client that has received all that was put on the wire has taken
      exactly the packets queued for it, if it has not given up. */
  lemma EverythingArrives(config: NetConfig, openedAt: SessionId, before: seq<NetOp>, after: seq<NetOp>, s: SessionId,
                          clientOps: seq<ClientOp>)
    requires IsAcceptedNetConfig(config) && openedAt <= UINT64_MAX && NetRuns.AllLegal(before + after)
    requires AllDrain(after, s) && NetRuns.AllLegal(before) && IsGiven(NetRuns.DoAll(config, openedAt, before), s)
    requires IsConnected(NetRuns.DoAll(config, openedAt, before + after), s)
    requires PassesIn(after) >= Unsent(NetRuns.DoAll(config, openedAt, before), s)
    requires ClientNetRules.AllLegal(clientOps)
    ensures var n, m := NetRuns.DoAll(config, openedAt, before), NetRuns.DoAll(config, openedAt, before + after);
            var c := ClientNetRules.DoAll(clientOps);
            && s in n.queued && s in m.wire && (c.open && c.net.received == m.wire[s] ==> c.net.taken == n.queued[s])
  {
    hide NetInvBut, NetRuns.DoAll, ClientNetRules.DoAll, IsConnected, IsGiven, AllFit, AllDrain, PassesIn, Frames, Flushed;
    EverythingGoesOut(config, openedAt, before, after, s);
    GivenStays(config, openedAt, before, after, s);
    ServerToClient(config, openedAt, before + after, clientOps, s);
  }

  // ----- the client's end -----

  /** The same for the client: what send has taken, and nothing else, leaves the buffer. */
  lemma ClientSendLaw(c: ClientNet, outcome: SendOutcome)
    requires ClientNetInv(c, true)
    ensures var (d, open) := FlushSend(c, outcome);
            && (c.sendBuffer == [] || outcome.SendWouldBlock? ==> open && d == c)
            && (c.sendBuffer != [] && (outcome.SendFailed? || outcome == Sent(0)) ==> !open && d == c)
            && (c.sendBuffer != [] && outcome.Sent? && outcome.count > 0 ==>
                  var taken := Least(outcome.count, |c.sendBuffer|);
                  && open && d == c.(sendBuffer := c.sendBuffer[taken..], wire := c.wire + c.sendBuffer[..taken])
                  && d.wire == Frames(c.queued)[..|c.wire| + taken])
  {
    hide Parse, Frames, AllFit;
  }

  /** What the client hears yields exactly the packets it completes, up to the pending limit. */
  lemma ClientReceiveLaw(c: ClientNet, outcome: RecvOutcome)
    requires ClientNetInv(c, true)
    ensures var (d, open) := Receive(c, outcome);
            && (outcome.RecvWouldBlock? ==> open && d == c)
            && (outcome.RecvFailed? || outcome == Data([]) ==> !open && d == c)
            && (outcome.Data? && outcome.bytes != [] ==>
                  var heard := c.received + Clip(outcome.bytes, RECV_CHUNK);
                  var all := Parse(heard).packets;
                  && d.received == heard && |c.taken| <= |all|
                  && var count := Least(|all| - |c.taken|, PendingSlots(c));
                  && d.taken == all[..|c.taken| + count]
                  && d.packets == c.packets + all[|c.taken|..|c.taken| + count]
                  && (open <==> Parse(heard).ok && |all| - |c.taken| <= PendingSlots(c)))
  {
    hide Parse, Frames, AllFit;
    if outcome.Data? && outcome.bytes != [] {
      var bytes := Clip(outcome.bytes, RECV_CHUNK);
      ClientRecvNeverOverflows(c, outcome.bytes);
      BufferedStream(c.received, c.recvBuffer, c.taken, bytes);
      var found := Parse(c.recvBuffer + bytes).packets;
      var count := Least(|found|, PendingSlots(c));
      assert (c.taken + found)[|c.taken|..|c.taken| + count] == found[..count];
      assert (c.taken + found)[..|c.taken| + count] == c.taken + found[..count];
      assert found[..|found|] == found;
    }
  }

  lemma ClientQueueLaw(c: ClientNet, id: nat, body: Bytes)
    requires ClientNetInv(c, true) && id <= UINT16_MAX
    ensures var (d, ok) := ClientNetRules.SendPacket(c, id, body);
            && (ok <==> |body| <= MAX_BODY_SIZE && |Frames(c.queued)| - |c.wire| + HEADER_SIZE + |body| <= MAX_SEND_BUFFER)
            && (!ok ==> d == c)
            && (ok ==> d == c.(sendBuffer := d.sendBuffer, queued := c.queued + [Packet(id, body)]))
  {
    hide Parse, Frames, Frame, AllFit;
    assert |c.wire + c.sendBuffer| == |c.wire| + |c.sendBuffer|;
  }

  /** Every flush takes at least a byte, and nothing more is queued. */
  predicate ClientDrains(ops: seq<ClientOp>) {
    forall i :: 0 <= i < |ops| ==> !ops[i].DoSend? && (ops[i].DoFlush? ==> ops[i].send.Sent? && ops[i].send.count > 0)
  }

  function FlushesIn(ops: seq<ClientOp>): nat {
    if ops == [] then 0 else FlushesIn(ops[..|ops| - 1]) + if ops[|ops| - 1].DoFlush? then 1 else 0
  }

  lemma ClientCallDrains(r: ClientRun, op: ClientOp)
    requires !op.DoSend? && (op.DoFlush? ==> op.send.Sent? && op.send.count > 0) && ClientNetRules.Do(r, op).open
    ensures var d := ClientNetRules.Do(r, op);
            && r.open && d.net.queued == r.net.queued
            && (if op.DoFlush? then d.net.sendBuffer == [] || |d.net.sendBuffer| < |r.net.sendBuffer|
                else d.net.sendBuffer == r.net.sendBuffer)
  {
    hide Parse;
  }

  lemma {:induction false} ClientBufferShrinks(before: seq<ClientOp>, after: seq<ClientOp>)
    requires ClientNetRules.AllLegal(before + after) && ClientNetRules.AllLegal(before) && ClientDrains(after)
    requires ClientNetRules.DoAll(before + after).open
    ensures var c, d := ClientNetRules.DoAll(before), ClientNetRules.DoAll(before + after);
            && c.open && d.net.queued == c.net.queued
            && (d.net.sendBuffer == [] || |d.net.sendBuffer| + FlushesIn(after) <= |c.net.sendBuffer|)
    decreases |after|
  {
    hide ClientNetRules.Do;
    if after == [] {
      assert before + after == before;
    } else {
      var front, last := after[..|after| - 1], after[|after| - 1];
      assert (before + after)[..|before + after| - 1] == before + front && (before + after)[|before + after| - 1] == last;
      assert forall i :: 0 <= i < |before + front| ==> (before + front)[i] == (before + after)[i];
      ClientCallDrains(ClientNetRules.DoAll(before + front), last);
      ClientBufferShrinks(before, front);
    }
  }

  /** The same from the client to the server: all the packets it had queued reach the server's
      logic when its socket keeps taking bytes and the server has received what is on the wire. */
  lemma ClientEverythingArrives(config: NetConfig, openedAt: SessionId, serverOps: seq<NetOp>,
                                before: seq<ClientOp>, after: seq<ClientOp>, s: SessionId)
    requires IsAcceptedNetConfig(config) && openedAt <= UINT64_MAX && NetRuns.AllLegal(serverOps)
    requires ClientNetRules.AllLegal(before + after) && ClientNetRules.AllLegal(before) && ClientDrains(after)
    requires ClientNetRules.DoAll(before + after).open
    requires FlushesIn(after) >= |ClientNetRules.DoAll(before).net.sendBuffer|
    requires IsConnected(NetRuns.DoAll(config, openedAt, serverOps), s)
    ensures var n := NetRuns.DoAll(config, openedAt, serverOps);
            var c, d := ClientNetRules.DoAll(before), ClientNetRules.DoAll(before + after);
            && AllFit(c.net.queued) && d.net.wire == Frames(c.net.queued) && s in n.received
            && (n.received[s] == d.net.wire ==> PacketsOf(n.emitted, s) == c.net.queued)
  {
    hide NetInvBut, NetRuns.DoAll, ClientNetRules.DoAll, AllFit, ClientDrains, FlushesIn, Frames, Parse;
    var n := NetRuns.DoAll(config, openedAt, serverOps);
    var d := ClientNetRules.DoAll(before + after);
    ClientBufferShrinks(before, after);
    EveryClientRun(before + after);
    assert d.net.wire + [] == d.net.wire;
    EveryRunKeepsNetInv(config, openedAt, serverOps);
    OpenIsGiven(n, s);
    ClientToServer(config, openedAt, serverOps, before + after, s);
  }

  lemma OpenIsGiven(n: NetState, s: SessionId)
    requires NetInv(n) && IsConnected(n, s)
    ensures IsGiven(n, s)
  {
    hide QueueInv, StagesInv, LogsInv, ClientInv;
  }
}
