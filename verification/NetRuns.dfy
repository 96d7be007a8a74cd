/** Whole passes and any sequence of calls on the server network. */
module NetRuns {
  import opened Protocol
  import opened Framing
  import opened NetRules
  import opened NetInvariant

  // ----- one pass -----

  lemma ServeKeepsNetInv(n: NetState, i: nat, r: Readiness)
    requires NetInv(n) && i < |n.clients|
    ensures var (m, open) := ServeClient(n, i, r);
            NetInvBut(m, i) && (open ==> NetInv(m))
  {
    hide NetInvBut, ReceiveClient, SendClient;
    var id := n.clients[i].id;
    OmitOne(n, i);
    if id in r.readable { ReceiveKeepsNetInv(n, i, RecvOf(r, id)); }
    var (heard, open) := if id in r.readable then ReceiveClient(n, i, RecvOf(r, id)) else (n, true);
    if open && id in r.writable {
      SendKeepsNetInv(heard, i, SendOf(r, id));
      OmitOne(SendClient(heard, i, SendOf(r, id)).0, i);
    }
  }

  lemma {:induction false} SweepKeepsNetInv(n: NetState, i: nat, r: Readiness)
    requires NetInv(n)
    ensures NetInv(Sweep(n, i, r))
    decreases |n.clients| - i
  {
    if i < |n.clients| {
      hide NetInvBut, ServeClient;
      ServeKeepsNetInv(n, i, r);
      var (served, open) := ServeClient(n, i, r);
      if open {
        SweepKeepsNetInv(served, i + 1, r);
      } else {
        CloseKeepsNetInv(served, i);
        SweepKeepsNetInv(CloseClient(served, i), i, r);
      }
    }
  }

  lemma {:induction false} AcceptAllKeepsNetInv(n: NetState, outcomes: seq<AcceptOutcome>, attempts: nat)
    requires NetInv(n)
    ensures NetInv(AcceptAll(n, outcomes, attempts))
    decreases attempts
  {
    if attempts != 0 && outcomes != [] {
      hide NetInvBut, AcceptClient;
      AcceptKeepsNetInv(n, outcomes[0]);
      AcceptAllKeepsNetInv(AcceptClient(n, outcomes[0]).0, outcomes[1..], attempts - 1);
    }
  }

  lemma RunKeepsNetInv(n: NetState, r: Readiness)
    requires NetInv(n)
    ensures NetInv(Run(n, r))
  {
    hide NetInvBut;
    SweepKeepsNetInv(n, 0, r);
    AcceptAllKeepsNetInv(Sweep(n, 0, r), r.accepts, n.config.maxAcceptsPerRun);
  }

  // ----- a pass queues nothing -----

  lemma ReceiveQueuesNothing(n: NetState, i: nat, outcome: RecvOutcome)
    requires i < |n.clients|
    ensures ReceiveClient(n, i, outcome).0.queued == n.queued
  {
    hide Parse, FreeSlots, Arrivals;
  }

  lemma ServeQueuesNothing(n: NetState, i: nat, r: Readiness)
    requires i < |n.clients|
    ensures ServeClient(n, i, r).0.queued == n.queued
  {
    hide ReceiveClient;
    ReceiveQueuesNothing(n, i, RecvOf(r, n.clients[i].id));
  }

  lemma {:induction false} SweepQueuesNothing(n: NetState, i: nat, r: Readiness)
    ensures Sweep(n, i, r).queued == n.queued && Sweep(n, i, r).lastSessionId == n.lastSessionId
    decreases |n.clients| - i
  {
    hide ServeClient;
    if i < |n.clients| {
      ServeQueuesNothing(n, i, r);
      var (served, open) := ServeClient(n, i, r);
      if open { SweepQueuesNothing(served, i + 1, r); } else { SweepQueuesNothing(CloseClient(served, i), i, r); }
    }
  }

  // ----- the erase-in-place sweep serves every connection exactly once -----

  function Sessions(clients: seq<Client>): (ids: seq<SessionId>)
    ensures |ids| == |clients| && forall i :: 0 <= i < |ids| ==> ids[i] == clients[i].id
  {
    seq(|clients|, i requires 0 <= i < |clients| => clients[i].id)
  }

  /** Serve one session by name, and close it if it has failed. */
  function ServeSession(n: NetState, s: SessionId, r: Readiness): NetState {
    var i := IndexOf(n.clients, s);
    if i >= |n.clients| then n
    else
      var (served, open) := ServeClient(n, i, r);
      if open then served else CloseClient(served, i)
  }

  function ServeAll(n: NetState, ids: seq<SessionId>, r: Readiness): NetState
    decreases |ids|
  {
    if ids == [] then n else ServeAll(ServeSession(n, ids[0], r), ids[1..], r)
  }

  /** Walking the positions while erasing visits the sessions present at the start,
      in order, each once, and none else. */
  lemma {:induction false} SweepServesEachOnce(n: NetState, i: nat, r: Readiness)
    requires IdsInv(n) && i <= |n.clients|
    ensures Sweep(n, i, r) == ServeAll(n, Sessions(n.clients)[i..], r)
    decreases |n.clients| - i
  {
    if i < |n.clients| {
      hide ServeClient, ServeSession, CloseClient, Sessions, IdsInv, SameSessions;
      ServeByPosition(n, i, r);
      var (served, open) := ServeClient(n, i, r);
      if open {
        SweepServesEachOnce(served, i + 1, r);
      } else {
        SweepServesEachOnce(CloseClient(served, i), i, r);
      }
    }
  }

  lemma ServeByPosition(n: NetState, i: nat, r: Readiness)
    requires IdsInv(n) && i < |n.clients|
    ensures var ids := Sessions(n.clients)[i..];
            var (served, open) := ServeClient(n, i, r);
            && ids != [] && |served.clients| == |n.clients| && IdsInv(served)
            && ServeSession(n, ids[0], r) == (if open then served else CloseClient(served, i))
            && Sessions(served.clients)[i + 1..] == ids[1..]
            && var closed := CloseClient(served, i);
            |closed.clients| == |n.clients| - 1 && IdsInv(closed) && Sessions(closed.clients)[i..] == ids[1..]
  {
    hide ServeClient, IdsInv;
    IndexIsPosition(n, i);
    var served := ServeClient(n, i, r).0;
    assert Sessions(served.clients) == Sessions(n.clients);
    assert IdsInv(served) by { SameSessionsSameIds(n, served); }
    CloseDropsOne(served, i);
  }

  lemma SameSessionsSameIds(n: NetState, m: NetState)
    requires IdsInv(n) && SameSessions(n, m)
    ensures IdsInv(m)
  {
  }

  lemma CloseDropsOne(n: NetState, i: nat)
    requires IdsInv(n) && i < |n.clients|
    ensures var closed := CloseClient(n, i);
            && |closed.clients| == |n.clients| - 1 && IdsInv(closed)
            && Sessions(closed.clients)[i..] == Sessions(n.clients)[i..][1..]
  {
  }

  // ----- any sequence of calls -----

  datatype NetOp =
    | DoRun(readiness: Readiness)
    | DoPop
    | DoSend(session: SessionId, id: nat, body: Bytes)
    | DoDisconnect(session: SessionId)

  predicate Legal(op: NetOp) {
    op.DoSend? ==> op.id <= UINT16_MAX
  }

  function Do(n: NetState, op: NetOp): NetState
    requires Legal(op)
  {
    match op
    case DoRun(readiness) => Run(n, readiness)
    case DoPop => TryPopEvent(n).0
    case DoSend(session, id, body) => SendPacket(n, session, id, body).0
    case DoDisconnect(session) => Disconnect(n, session)
  }

  predicate AllLegal(ops: seq<NetOp>) {
    forall i :: 0 <= i < |ops| ==> Legal(ops[i])
  }

  function DoAll(config: NetConfig, openedAt: SessionId, ops: seq<NetOp>): NetState
    requires AllLegal(ops)
  {
    if ops == [] then Listening(config, openedAt) else Do(DoAll(config, openedAt, ops[..|ops| - 1]), ops[|ops| - 1])
  }

  lemma {:induction false} EveryRunKeepsNetInv(config: NetConfig, openedAt: SessionId, ops: seq<NetOp>)
    requires IsAcceptedNetConfig(config) && openedAt <= UINT64_MAX && AllLegal(ops)
    ensures NetInv(DoAll(config, openedAt, ops))
  {
    hide NetInvBut, Run, TryPopEvent, SendPacket, Disconnect;
    ListeningInv(config, openedAt);
    if ops != [] {
      var before := DoAll(config, openedAt, ops[..|ops| - 1]);
      EveryRunKeepsNetInv(config, openedAt, ops[..|ops| - 1]);
      match ops[|ops| - 1]
      case DoRun(readiness) => RunKeepsNetInv(before, readiness);
      case DoPop => TryPopKeepsNetInv(before);
      case DoSend(session, id, body) => SendPacketKeepsNetInv(before, session, id, body);
      case DoDisconnect(session) => DisconnectKeepsNetInv(before, session);
    }
  }

  /** The event queue never outgrows its limit, and a Disconnected event for every open
      connection would still fit: no push without a check can overflow. */
  lemma QueueNeverOverflows(config: NetConfig, openedAt: SessionId, ops: seq<NetOp>)
    requires IsAcceptedNetConfig(config) && openedAt <= UINT64_MAX && AllLegal(ops)
    ensures var n := DoAll(config, openedAt, ops);
            |n.events| + |n.clients| <= n.config.maxQueuedEvents
  {
    hide StagesInv, LogsInv, ClientInv, DoAll;
    EveryRunKeepsNetInv(config, openedAt, ops);
  }

  /** The trace of every session: Connected, its packets in the order of its bytes, and
      Disconnected exactly when it is not open any more. IDs are never used twice. */
  lemma EverySessionTrace(config: NetConfig, openedAt: SessionId, ops: seq<NetOp>, s: SessionId)
    requires IsAcceptedNetConfig(config) && openedAt <= UINT64_MAX && AllLegal(ops)
    ensures var n := DoAll(config, openedAt, ops);
            var trace, arrivals := TraceOf(n.emitted, s), Arrivals(s, PacketsOf(n.emitted, s));
            && (IsConnected(n, s) ==> exists t :: trace == [Connected(s, t)] + arrivals)
            && (!IsConnected(n, s) && IsGiven(n, s) ==>
                  exists t :: trace == [Connected(s, t)] + arrivals + [Event.Disconnected(s)])
            && (!IsGiven(n, s) ==> trace == [] && !IsConnected(n, s))
            && (IsGiven(n, s) ==>
                  s in n.received && PacketsOf(n.emitted, s) <= Parse(n.received[s]).packets)
  {
    hide QueueInv, ClientInv, DoAll, TraceOf, PacketsOf, Parse, Frames;
    EveryRunKeepsNetInv(config, openedAt, ops);
    var n := DoAll(config, openedAt, ops);
    StageIsTraceShape(n.emitted, s);
    if IsGiven(n, s) { assert LogsInv(n, s); }
  }
}
