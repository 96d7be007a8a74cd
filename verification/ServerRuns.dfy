/** The whole server: any interleaving of passes over the sockets and calls of Update,
    under any clock readings and any behaviour of the sockets. */
module ServerRuns {
  import opened Protocol
  import opened Framing
  import opened NetRules
  import opened NetInvariant
  import opened NetRuns
  import opened LobbyRules
  import opened LobbyInvariant
  import opened LobbyCalls
  import opened RoomPacketCodec
  import opened GamePacketCodec
  import opened ServerRules
  import opened ServerInvariant
  import opened ServerPartition

  // ----- a pass over the sockets lets every session keep its place -----

  lemma ArrivalsPass(n: NetState, m: NetState, id: SessionId, ps: seq<Packet>)
    requires SameSessions(n, m) && m.events == n.events + Arrivals(id, ps) && m.emitted == n.emitted + Arrivals(id, ps)
    ensures Passes(n, m)
  {
    forall s ensures IsConnected(m, s) <==> IsConnected(n, s) {
      SameSessionsSameConnected(n, m, s);
    }
  }

  lemma ReceivePasses(n: NetState, i: nat, outcome: RecvOutcome)
    requires i < |n.clients|
    ensures Passes(n, ReceiveClient(n, i, outcome).0)
  {
    hide Parse, Passes, Arrivals;
    var m, c := ReceiveClient(n, i, outcome).0, n.clients[i];
    if m.events == n.events {
      assert n.events + Arrivals(c.id, []) == n.events && n.emitted + Arrivals(c.id, []) == n.emitted;
      ArrivalsPass(n, m, c.id, []);
    } else {
      var p := Parse(c.recvBuffer + Clip(outcome.bytes, RECV_CHUNK));
      assert m.events == n.events + Arrivals(c.id, p.packets) || m.events == n.events + Arrivals(c.id, p.packets[..FreeSlots(n)]);
      if m.events == n.events + Arrivals(c.id, p.packets) {
        ArrivalsPass(n, m, c.id, p.packets);
      } else {
        ArrivalsPass(n, m, c.id, p.packets[..FreeSlots(n)]);
      }
    }
  }

  lemma SendPasses(n: NetState, i: nat, outcome: SendOutcome)
    requires i < |n.clients|
    ensures Passes(n, SendClient(n, i, outcome).0)
  {
    SameSessionsQuiet(n, SendClient(n, i, outcome).0);
  }

  lemma ServePasses(n: NetState, i: nat, r: Readiness)
    requires i < |n.clients|
    ensures Passes(n, ServeClient(n, i, r).0)
  {
    hide Passes, ReceiveClient, SendClient, Quiet;
    var id := n.clients[i].id;
    StaysQuiet(n);
    assert Passes(n, n) by { QuietPasses(n, n); }
    var (heard, open) := if id in r.readable then ReceiveClient(n, i, RecvOf(r, id)) else (n, true);
    if id in r.readable { ReceivePasses(n, i, RecvOf(r, id)); }
    SendPasses(heard, i, SendOf(r, id));
    PassesTwice(n, heard, SendClient(heard, i, SendOf(r, id)).0);
  }

  lemma QuietPasses(n: NetState, m: NetState)
    requires Quiet(n, m)
    ensures Passes(n, m)
  {
  }

  lemma AcceptPasses(n: NetState, outcome: AcceptOutcome)
    requires NetInv(n)
    ensures Passes(n, AcceptClient(n, outcome).0)
  {
    hide NetInvBut;
    AcceptKeepsNetInv(n, outcome);
    StaysQuiet(n);
    var (m, error) := AcceptClient(n, outcome);
    if error == NoError {
      assert m.events[|n.events|] == Connected(m.lastSessionId, outcome.now);
      assert ConnectPending(m, m.lastSessionId);
    }
  }

  lemma {:induction false} SweepPasses(n: NetState, i: nat, r: Readiness)
    requires NetInv(n)
    ensures Passes(n, Sweep(n, i, r))
    decreases |n.clients| - i
  {
    hide NetInvBut, ServeClient, CloseClient, Passes, Quiet;
    if i < |n.clients| {
      var (served, open) := ServeClient(n, i, r);
      ServeKeepsNetInv(n, i, r);
      ServePasses(n, i, r);
      if open {
        SweepPasses(served, i + 1, r);
        PassesTwice(n, served, Sweep(served, i + 1, r));
      } else {
        assert IdsInv(served) by { NetInvButHasIds(served, i); }
        CloseIsQuiet(served, i);
        var closed := CloseClient(served, i);
        QuietPasses(served, closed);
        PassesTwice(n, served, closed);
        CloseKeepsNetInv(served, i);
        ClosedIsShorter(served, i);
        SweepPasses(closed, i, r);
        PassesTwice(n, closed, Sweep(closed, i, r));
      }
    } else {
      StaysQuiet(n);
      QuietPasses(n, n);
    }
  }

  lemma NetInvButHasIds(n: NetState, k: int)
    requires NetInvBut(n, k)
    ensures IdsInv(n)
  {
  }

  lemma ClosedIsShorter(n: NetState, i: nat)
    requires i < |n.clients|
    ensures |CloseClient(n, i).clients| == |n.clients| - 1
  {
  }

  lemma {:induction false} AcceptAllPasses(n: NetState, outcomes: seq<AcceptOutcome>, attempts: nat)
    requires NetInv(n)
    ensures Passes(n, AcceptAll(n, outcomes, attempts))
    decreases attempts
  {
    hide NetInvBut, AcceptClient, Passes, Quiet;
    StaysQuiet(n);
    QuietPasses(n, n);
    if attempts != 0 && outcomes != [] {
      var accepted := AcceptClient(n, outcomes[0]).0;
      AcceptKeepsNetInv(n, outcomes[0]);
      AcceptPasses(n, outcomes[0]);
      AcceptAllPasses(accepted, outcomes[1..], attempts - 1);
      PassesTwice(n, accepted, AcceptAll(accepted, outcomes[1..], attempts - 1));
    }
  }

  lemma RunPasses(n: NetState, r: Readiness)
    requires NetInv(n)
    ensures Passes(n, NetRules.Run(n, r))
  {
    hide NetInvBut, Passes, Sweep, AcceptAll;
    SweepPasses(n, 0, r);
    SweepKeepsNetInv(n, 0, r);
    var swept := Sweep(n, 0, r);
    AcceptAllPasses(swept, r.accepts, n.config.maxAcceptsPerRun);
    PassesTwice(n, swept, AcceptAll(swept, r.accepts, n.config.maxAcceptsPerRun));
  }

  lemma NetPassKeeps(s: Server, r: Readiness)
    requires ServerInv(s)
    ensures ServerInv(s.(net := NetRules.Run(s.net, r)))
  {
    hide NetInvBut, RunInv, Passes, Partition, NetRules.Run;
    RunPasses(s.net, r);
    RunKeepsNetInv(s.net, r);
    assert IdsInv(s.net) by { NetInvHasIds(s.net); }
    PassesKeepsPartition(s.net, NetRules.Run(s.net, r), Users(s), s.deadlines.Keys);
  }

  // ----- one call of Update -----

  /** Everything Update learns from outside: hash orders and clock readings, two of them
      for each round of its loop. */
  datatype UpdateInput = UpdateInput(
    firstRooms: seq<RoomId>, firstNow: Time, readings: nat -> Reading,
    firstLogins: seq<SessionId>, firstCheck: Time, secondLogins: seq<SessionId>, secondCheck: Time,
    lastRooms: seq<RoomId>, lastNow: Time)

  /** The readings of rounds k, k + 1, ..., k + count - 1. */
  function Readings(clock: nat -> Reading, k: nat, count: nat): (readings: seq<Reading>)
    ensures |readings| == count && forall i :: 0 <= i < count ==> readings[i] == clock(k + i)
  {
    seq(count, i requires 0 <= i < count => clock(k + i))
  }

  /** The loop, which stops when the queue is empty; as DrainingTerminates shows, that is
      after at most Measure rounds, and a round on an empty queue does nothing. */
  ghost function Drained(s: Server, readings: nat -> Reading): Server {
    Rounds(s, Readings(readings, 0, Measure(s.net)))
  }

  ghost function AfterLoop(s: Server, u: UpdateInput): Server {
    Drained(SweepGames(s, u.firstRooms, u.firstNow), u.readings)
  }

  ghost function AfterFirstCheck(s: Server, u: UpdateInput): Server {
    CheckLoginTimeouts(AfterLoop(s, u), u.firstLogins, u.firstCheck)
  }

  ghost function AfterChecks(s: Server, u: UpdateInput): Server {
    CheckLoginTimeouts(AfterFirstCheck(s, u), u.secondLogins, u.secondCheck)
  }

  ghost function Update(s: Server, u: UpdateInput): Server {
    SweepGames(AfterChecks(s, u), u.lastRooms, u.lastNow)
  }

  ghost predicate MeetsRooms(s: Server, order: seq<RoomId>) {
    forall id :: id in s.run.lobby.rooms ==> id in order
  }

  ghost predicate MeetsLogins(s: Server, order: seq<SessionId>) {
    forall c :: c in s.deadlines ==> c in order
  }

  /** Each of the four walks meets every entry that is in its table when it starts. */
  ghost predicate MeetsAll(s: Server, u: UpdateInput) {
    && MeetsRooms(s, u.firstRooms) && MeetsLogins(AfterLoop(s, u), u.firstLogins)
    && MeetsLogins(AfterFirstCheck(s, u), u.secondLogins) && MeetsRooms(AfterChecks(s, u), u.lastRooms)
  }

  /** Update always gets through its loop, the queue is then empty, and what it leaves in
      the queue at its end are Disconnected events of connections it has just given up. */
  lemma UpdateKeeps(s: Server, u: UpdateInput)
    requires ServerInv(s)
    ensures ServerInv(AfterLoop(s, u)) && AfterLoop(s, u).net.events == []
    ensures ServerInv(AfterFirstCheck(s, u)) && ServerInv(AfterChecks(s, u)) && ServerInv(Update(s, u))
    ensures forall i :: 0 <= i < |Update(s, u).net.events| ==> Update(s, u).net.events[i].Disconnected?
  {
    hide ServerInv, SweepGames, Rounds, CheckLoginTimeouts, Passes;
    SweepGamesKeeps(s, u.firstRooms, u.firstNow);
    var swept := SweepGames(s, u.firstRooms, u.firstNow);
    DrainingTerminates(swept, Readings(u.readings, 0, Measure(swept.net)));
    var s1, s2, s3 := AfterLoop(s, u), AfterFirstCheck(s, u), AfterChecks(s, u);
    CheckLoginTimeoutsKeeps(s1, u.firstLogins, u.firstCheck);
    CheckLoginTimeoutsKeeps(s2, u.secondLogins, u.secondCheck);
    SweepGamesKeeps(s3, u.lastRooms, u.lastNow);
    QuietTwice(s1.net, s2.net, s3.net);
    QuietTwice(s1.net, s3.net, Update(s, u).net);
  }

  /** One round of the loop, as the rounds from k on see it. */
  lemma OneRound(s: Server, clock: nat -> Reading, k: nat)
    requires ServerInv(s) && s.net.events != []
    ensures var t := Round(s, clock(k).check, clock(k).now);
            && ServerInv(t) && Measure(t.net) + 1 == Measure(s.net)
            && Rounds(s, Readings(clock, k, Measure(s.net))) == Rounds(t, Readings(clock, k + 1, Measure(t.net)))
  {
    hide ServerInv, Round;
    RoundKeeps(s, clock(k).check, clock(k).now);
    var all := Readings(clock, k, Measure(s.net));
    assert all[1..] == Readings(clock, k + 1, Measure(s.net) - 1);
  }

  // ----- overdue games -----

  lemma {:induction false} FlushKeepsRooms(s: Server)
    ensures var t := FlushFinishedGames(s);
            && t.run == s.run.(lobby := s.run.lobby.(finished := []), popped := History(s.run))
            && t.deadlines == s.deadlines && t.loginTimeout == s.loginTimeout
    decreases |s.run.lobby.finished|
  {
    hide Broadcast, DisconnectAll, GameEndBytes, EndNotificationOf, IsValidGameEnd, SnapshotOf, ValidRoomState, RoomStateBytes;
    if s.run.lobby.finished == [] {
      assert s.run.popped + [] == s.run.popped;
    } else {
      var f := s.run.lobby.finished[0];
      FlushKeepsRooms(Announce(Popped(s), f));
      assert s.run.lobby.finished == [f] + s.run.lobby.finished[1..];
      assert (s.run.popped + [f]) + s.run.lobby.finished[1..] == History(s.run);
    }
  }

  /** A sweep that meets every room leaves no game whose turn is over and no result that has
      not been announced. */
  lemma NoOverdueGameStays(s: Server, order: seq<RoomId>, now: Time)
    requires ServerInv(s) && MeetsRooms(s, order)
    ensures var t := SweepGames(s, order, now).run.lobby;
            t.finished == [] && forall id :: id in t.rooms ==> !TurnIsOver(t.rooms[id], now)
  {
    hide NetInvBut, RunInv, Partition, UpdateTimeouts, FlushFinishedGames, TurnIsOver;
    UpdateTimeoutsKeepsRunInv(s.run, order, now);
    FlushKeepsRooms(WithLobby(s, UpdateTimeouts(s.run.lobby, order, now).0));
  }

  // ----- login deadlines -----

  /** A sweep of the login table leaves no entry that it meets and whose time is up, and drops
      exactly the connections these belonged to. */
  lemma {:induction false} NoExpiredLoginStays(s: Server, order: seq<SessionId>, now: Time)
    requires ServerInv(s)
    ensures var t := CheckLoginTimeouts(s, order, now);
            && (forall c: SessionId :: c in t.deadlines <==> c in s.deadlines && !(c in order && now >= s.deadlines[c]))
            && (forall c: SessionId :: c in t.deadlines ==> t.deadlines[c] == s.deadlines[c])
            && (forall c: SessionId :: IsConnected(t.net, c) <==>
                  IsConnected(s.net, c) && !(c in order && c in s.deadlines && now >= s.deadlines[c]))
    decreases |order|
  {
    hide ServerInv, Disconnect, IsConnected, Passes, Partition;
    if order != [] {
      var first := order[0];
      assert order == [first] + order[1..];
      if IsLoginExpired(s, first, now) {
        ExpireLoginKeeps(s, first);
        DisconnectIsGone(s, first);
        NoExpiredLoginStays(s.(deadlines := s.deadlines - {first}, net := Disconnect(s.net, first)), order[1..], now);
      } else {
        NoExpiredLoginStays(s, order[1..], now);
      }
    }
  }

  lemma DisconnectIsGone(s: Server, c: SessionId)
    requires ServerInv(s)
    ensures forall o: SessionId :: IsConnected(Disconnect(s.net, c), o) <==> IsConnected(s.net, o) && o != c
  {
    hide NetInvBut, RunInv, Partition, Disconnect;
    DisconnectKeepsNetInv(s.net, c);
  }

  /** What one Update achieves: no game is left whose turn was over at its last reading, no
      deadline that had come at either login check, every such session is cut off, and every
      result has been announced. Games overdue at its first reading end before its loop. */
  lemma UpdateLeavesNothingOverdue(s: Server, u: UpdateInput)
    requires ServerInv(s) && MeetsAll(s, u)
    ensures var swept := SweepGames(s, u.firstRooms, u.firstNow).run.lobby;
            swept.finished == [] && forall id :: id in swept.rooms ==> !TurnIsOver(swept.rooms[id], u.firstNow)
    ensures var t := Update(s, u);
            && t.run.lobby.finished == []
            && (forall id :: id in t.run.lobby.rooms ==> !TurnIsOver(t.run.lobby.rooms[id], u.lastNow))
            && (forall c :: c in t.deadlines ==> u.firstCheck < t.deadlines[c] && u.secondCheck < t.deadlines[c])
            && var looped := AfterLoop(s, u);
               forall c :: c in looped.deadlines && (looped.deadlines[c] <= u.firstCheck || looped.deadlines[c] <= u.secondCheck)
                 ==> !IsConnected(t.net, c)
  {
    hide ServerInv, AfterLoop, SweepGames, CheckLoginTimeouts, TurnIsOver, IsConnected, Passes;
    UpdateKeeps(s, u);
    NoOverdueGameStays(s, u.firstRooms, u.firstNow);
    NoExpiredLoginStays(AfterLoop(s, u), u.firstLogins, u.firstCheck);
    NoExpiredLoginStays(AfterFirstCheck(s, u), u.secondLogins, u.secondCheck);
    NoOverdueGameStays(AfterChecks(s, u), u.lastRooms, u.lastNow);
    SweepGamesKeeps(AfterChecks(s, u), u.lastRooms, u.lastNow);
    SweepKeepsDeadlines(AfterChecks(s, u), u.lastRooms, u.lastNow);
    forall c: SessionId | c in AfterChecks(s, u).deadlines
      ensures u.firstCheck < AfterChecks(s, u).deadlines[c] && u.secondCheck < AfterChecks(s, u).deadlines[c]
    {
      assert c in AfterFirstCheck(s, u).deadlines && c in AfterLoop(s, u).deadlines;
      assert AfterChecks(s, u).deadlines[c] == AfterFirstCheck(s, u).deadlines[c] == AfterLoop(s, u).deadlines[c];
    }
  }

  lemma SweepKeepsDeadlines(s: Server, order: seq<RoomId>, now: Time)
    ensures SweepGames(s, order, now).deadlines == s.deadlines && SweepGames(s, order, now).loginTimeout == s.loginTimeout
  {
    hide FlushFinishedGames, UpdateTimeouts;
    FlushKeepsRooms(WithLobby(s, UpdateTimeouts(s.run.lobby, order, now).0));
  }

  // ----- any run of the server -----

  datatype Step = NetPass(readiness: Readiness) | LogicPass(input: UpdateInput)

  ghost function DoStep(s: Server, step: Step): Server {
    match step
    case NetPass(readiness) => s.(net := NetRules.Run(s.net, readiness))
    case LogicPass(input) => Update(s, input)
  }

  /** A server that has just been started. */
  ghost predicate IsStart(s: Server) {
    && IsAcceptedNetConfig(s.net.config) && s.net.openedAt <= UINT64_MAX && s.net == Listening(s.net.config, s.net.openedAt)
    && IsAcceptedConfig(s.run.lobby.config) && s.run == LobbyInvariant.Run(Opened(s.run.lobby.config), [], map[])
    && s.deadlines == map[]
  }

  ghost function DoSteps(start: Server, steps: seq<Step>): Server {
    if steps == [] then start else DoStep(DoSteps(start, steps[..|steps| - 1]), steps[|steps| - 1])
  }

  lemma StartInv(s: Server)
    requires IsStart(s)
    ensures ServerInv(s)
  {
    hide RunInv, NetInvBut;
    ListeningInv(s.net.config, s.net.openedAt);
    OpenedInv(s.run.lobby.config);
  }

  /** The server's main theorem. After any run network, rooms and login table agree; and when
      the next Update has drained the queue, the open sessions are exactly the users and
      those still to log in, never both, and every room member is a live connection. */
  lemma {:induction false} EveryServerRun(start: Server, steps: seq<Step>, next: UpdateInput)
    requires IsStart(start)
    ensures ServerInv(DoSteps(start, steps))
    ensures var t := AfterLoop(DoSteps(start, steps), next);
            && t.net.events == []
            && (forall c: SessionId :: IsConnected(t.net, c) <==> c in Users(t) || c in t.deadlines)
            && Users(t) !! t.deadlines.Keys
            && (forall id, m :: id in t.run.lobby.rooms && m in t.run.lobby.rooms[id].members ==> IsConnected(t.net, m))
    decreases |steps|
  {
    hide ServerInv, AfterLoop, Update, Users, IsConnected, IsStart;
    if steps == [] {
      StartInv(start);
    } else {
      var before := DoSteps(start, steps[..|steps| - 1]);
      EveryServerRun(start, steps[..|steps| - 1], next);
      match steps[|steps| - 1]
      case NetPass(readiness) => NetPassKeeps(before, readiness);
      case LogicPass(input) => UpdateKeeps(before, input);
    }
    UpdateKeeps(DoSteps(start, steps), next);
    DrainedServer(AfterLoop(DoSteps(start, steps), next));
  }
}
