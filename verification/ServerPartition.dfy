/** Every open session is waiting to be announced, waiting to log in, or a user, and
    nothing else; draining the event queue terminates and leaves no stale user. */
module ServerPartition {
  import opened Protocol
  import opened Framing
  import opened NetRules
  import opened NetInvariant
  import opened RoomRules
  import opened UserRules
  import opened LobbyRules
  import opened LobbyInvariant
  import opened LobbyCalls
  import LobbyRuns
  import opened ServerRules
  import opened ServerInvariant

  /** users and waiting are the sessions logged in and those with a login deadline. */
  ghost predicate Partition(n: NetState, users: set<SessionId>, waiting: set<SessionId>) {
    && (forall s: SessionId :: IsConnected(n, s) && !ConnectPending(n, s) ==> (s in users <==> s !in waiting))
    && (forall s: SessionId :: s in users || s in waiting ==> Known(n, s))
  }

  /** Announced, and still open or about to be cleaned up. */
  ghost predicate Known(n: NetState, s: SessionId) {
    IsGiven(n, s) && !ConnectPending(n, s) && (IsConnected(n, s) || DropPending(n, s))
  }

  ghost predicate ServerInv(s: Server) {
    Sound(s) && Partition(s.net, Users(s), s.deadlines.Keys)
  }

  // ----- changes of the network -----

  lemma PassesKeepsPartition(n: NetState, m: NetState, users: set<SessionId>, waiting: set<SessionId>)
    requires IdsInv(n) && Passes(n, m) && Partition(n, users, waiting)
    ensures Partition(m, users, waiting)
  {
    hide IdsInv, ConnectPending, DropPending;
    forall s: SessionId ensures (s <= n.lastSessionId ==> (ConnectPending(m, s) <==> ConnectPending(n, s)))
      && (DropPending(n, s) ==> DropPending(m, s)) && (IsConnected(n, s) ==> s <= n.lastSessionId)
    {
      PendingGrows(n, m, s);
      if s <= n.lastSessionId { NoOldConnects(n, m, s); }
      ConnectedIsOld(n, s);
    }
  }

  lemma NoOldConnects(n: NetState, m: NetState, s: SessionId)
    requires Passes(n, m) && s <= n.lastSessionId
    ensures ConnectPending(m, s) ==> ConnectPending(n, s)
  {
    if i :| 0 <= i < |m.events| && m.events[i].Connected? && m.events[i].session == s {
      assert i < |n.events|;
      assert n.events[i] == m.events[i];
    }
  }

  lemma ConnectedIsOld(n: NetState, s: SessionId)
    requires IdsInv(n)
    ensures IsConnected(n, s) ==> IsGiven(n, s)
  {
  }

  lemma CalmKeepsServerInv(s: Server, t: Server)
    requires ServerInv(s) && Calm(s, t)
    ensures ServerInv(t)
  {
    hide NetInvBut, RunInv, Partition, Passes;
    assert IdsInv(s.net) by { NetInvHasIds(s.net); }
    PassesKeepsPartition(s.net, t.net, Users(s), s.deadlines.Keys);
  }

  /** A session that is not open any more may be forgotten. */
  lemma ForgetGone(n: NetState, users: set<SessionId>, waiting: set<SessionId>, s: SessionId)
    requires Partition(n, users, waiting) && !IsConnected(n, s)
    ensures Partition(n, users, waiting - {s}) && Partition(n, users - {s}, waiting - {s})
  {
    hide ConnectPending, DropPending;
  }

  // ----- popping one event -----

  lemma {:induction false} StageOnwards(a: seq<Event>, b: seq<Event>, s: SessionId)
    requires StageOf(a, s) != Unborn && StageOf(a + b, s) != Broken
    ensures StageOf(a + b, s) != Unborn
    ensures forall i :: 0 <= i < |b| ==> !(b[i].Connected? && b[i].session == s)
    ensures StageOf(a, s) == Gone ==> StageOf(a + b, s) == Gone
    decreases |b|
  {
    if b == [] {
      assert a + b == a;
    } else {
      var front, last := b[..|b| - 1], b[|b| - 1];
      assert a + b == (a + front) + [last];
      OneMore(a + front, last, s);
      StageOnwards(a, front, s);
      assert forall i :: 0 <= i < |front| ==> b[i] == front[i];
    }
  }

  /** What the first queued event says about its session and the events behind it. */
  lemma FirstEvent(n: NetState)
    requires NetInv(n) && n.events != []
    ensures var e, rest := n.events[0], TryPopEvent(n).0;
            && !ConnectPending(rest, e.session)
            && (!e.Connected? ==> !ConnectPending(n, e.session))
            && (e.Disconnected? ==> !IsConnected(n, e.session))
            && IsGiven(n, e.session)
  {
    hide LogsInv, ClientInv;
    var e, k := n.events[0], |n.emitted| - |n.events|;
    var before, after := n.emitted[..k], n.events[1..];
    assert n.emitted == (before + [e]) + after;
    assert StagesInv(n) && StageOf(n.emitted, e.session) != Broken;
    OneMore(before, e, e.session);
    if StageOf(before + [e], e.session) == Unborn { assert false; }
    StageOnwards(before + [e], after, e.session);
    forall i | 0 < i < |n.events| ensures !(n.events[i].Connected? && n.events[i].session == e.session) {
      assert after[i - 1] == n.events[i];
    }
    if e.Disconnected? {
      assert StageOf(before + [e], e.session) == Gone || StageOf(before + [e], e.session) == Broken;
      BrokenStays(before + [e], after, e.session);
    }
  }

  lemma {:induction false} BrokenStays(a: seq<Event>, b: seq<Event>, s: SessionId)
    ensures StageOf(a, s) == Broken ==> StageOf(a + b, s) == Broken
    decreases |b|
  {
    if b == [] {
      assert a + b == a;
    } else {
      var front, last := b[..|b| - 1], b[|b| - 1];
      assert a + b == (a + front) + [last];
      OneMore(a + front, last, s);
      BrokenStays(a, front, s);
    }
  }

  lemma PopPending(n: NetState, s: SessionId)
    requires n.events != []
    ensures var e, rest := n.events[0], TryPopEvent(n).0;
            && (ConnectPending(n, s) <==> ConnectPending(rest, s) || (e.Connected? && e.session == s))
            && (DropPending(n, s) <==> DropPending(rest, s) || (e.Disconnected? && e.session == s))
            && (IsConnected(n, s) <==> IsConnected(rest, s))
  {
    var e, rest := n.events[0], TryPopEvent(n).0;
    assert n.events == [e] + rest.events;
    assert e == n.events[0];
    if i :| 0 <= i < |rest.events| && rest.events[i].Connected? && rest.events[i].session == s {
      assert n.events[i + 1] == rest.events[i];
    }
    if i :| 0 < i < |n.events| && n.events[i].Connected? && n.events[i].session == s {
      assert rest.events[i - 1] == n.events[i];
    }
    if i :| 0 <= i < |rest.events| && rest.events[i].Disconnected? && rest.events[i].session == s {
      assert n.events[i + 1] == rest.events[i];
    }
    if i :| 0 < i < |n.events| && n.events[i].Disconnected? && n.events[i].session == s {
      assert rest.events[i - 1] == n.events[i];
    }
  }

  // ----- the handlers that log sessions in and out -----

  lemma ConnectedKeeps(s: Server, session: SessionId, occurredAt: Time)
    requires ServerInv(s) && s.net.events != [] && s.net.events[0] == Connected(session, occurredAt)
    ensures ServerInv(HandleConnected(s.(net := TryPopEvent(s.net).0), session, occurredAt))
  {
    hide NetInvBut, RunInv, ConnectPending, DropPending, IsConnected;
    var rest := TryPopEvent(s.net).0;
    FirstEvent(s.net);
    TryPopKeepsNetInv(s.net);
    forall c: SessionId ensures (ConnectPending(s.net, c) <==> ConnectPending(rest, c) || c == session)
      && (DropPending(s.net, c) <==> DropPending(rest, c)) && (IsConnected(s.net, c) <==> IsConnected(rest, c)) {
      PopPending(s.net, c);
    }
    var t := HandleConnected(s.(net := rest), session, occurredAt);
    assert t.deadlines.Keys == if IsConnected(rest, session) then s.deadlines.Keys + {session} else s.deadlines.Keys;
    assert Partition(s.net, Users(s), s.deadlines.Keys);
    assert Known(s.net, session) ==> !ConnectPending(s.net, session);
  }

  /** Other events may be taken off the queue when their session has been dealt with. */
  lemma PopKeepsPartition(n: NetState, users: set<SessionId>, waiting: set<SessionId>)
    requires NetInv(n) && n.events != [] && !n.events[0].Connected?
    requires Partition(n, users, waiting)
    requires n.events[0].Disconnected? ==> n.events[0].session !in users && n.events[0].session !in waiting
    ensures Partition(TryPopEvent(n).0, users, waiting)
  {
    hide NetInvBut, ConnectPending, DropPending, IsConnected;
    var e, rest := n.events[0], TryPopEvent(n).0;
    forall c: SessionId ensures (ConnectPending(n, c) <==> ConnectPending(rest, c))
      && (DropPending(n, c) <==> DropPending(rest, c) || (e.Disconnected? && e.session == c))
      && (IsConnected(n, c) <==> IsConnected(rest, c)) {
      PopPending(n, c);
    }
  }

  lemma LoginKeeps(s: Server, session: SessionId, body: Bytes)
    requires ServerInv(s) && IsConnected(s.net, session) && !ConnectPending(s.net, session)
    ensures ServerInv(HandleLogin(s, session, body)) && Quiet(s.net, HandleLogin(s, session, body).net)
  {
    hide NetInvBut, RunInv, Respond, Disconnect, Quiet, ConnectPending, DropPending, IsConnected;
    if |body| > MAX_BODY_SIZE {
      DisconnectIsQuiet(s.net, session);
      NetStepIsCalm(s, Disconnect(s.net, session));
      CalmKeepsServerInv(s, HandleLogin(s, session, body));
    } else {
      var (users, result) := Login(s.run.lobby.users, session, body);
      NetInvHasIds(s.net);
      ConnectedIsOld(s.net, session);
      LoginKeepsRunInv(s.run, session, body);
      var t := WithLobby(s, s.run.lobby.(users := users)).(
        deadlines := if result == LoginResult.Success then s.deadlines - {session} else s.deadlines);
      LoginPartition(s, t, session, result);
      RespondIsQuiet(t.net, session, LOGIN_RES, [LoginResultCode(result)]);
      NetStepIsCalm(t, Respond(t.net, session, LOGIN_RES, [LoginResultCode(result)]));
      CalmKeepsServerInv(t, HandleLogin(s, session, body));
    }
  }

  lemma LoginPartition(s: Server, t: Server, session: SessionId, result: LoginResult)
    requires Partition(s.net, Users(s), s.deadlines.Keys) && IsConnected(s.net, session) && !ConnectPending(s.net, session)
    requires t.net == s.net
    requires if result == LoginResult.Success then
               session !in Users(s) && Users(t) == Users(s) + {session} && t.deadlines == s.deadlines - {session}
             else Users(t) == Users(s) && t.deadlines == s.deadlines
    ensures Partition(t.net, Users(t), t.deadlines.Keys)
  {
    hide ConnectPending, DropPending, IsConnected;
    assert t.deadlines.Keys == if result == LoginResult.Success then s.deadlines.Keys - {session} else s.deadlines.Keys;
  }

  /** The lobby after a user has left and been removed: one disconnect of the run theorem. */
  lemma DisconnectRun(s: Server, session: SessionId, now: Time)
    requires Sound(s)
    ensures var lobby := s.run.lobby;
            var (left, o) := LeaveRoom(lobby, session, GameEndReason.Disconnected, now);
            var run := s.run.(lobby := left.(users := Remove(left.users, session)));
            && o.Returned? && RunInv(run) && run.lobby.users.bySession.Keys == Users(s) - {session}
  {
    hide NetInvBut, RunInv, LeaveRoom, EndOfLeaver;
    var op := LobbyRuns.DoDisconnect(session, now);
    LobbyRuns.OneCall(s.run, op);
    LeaveRoomKeepsRunInv(s.run, session, GameEndReason.Disconnected, now);
  }

  lemma DisconnectedKeeps(s: Server, session: SessionId, now: Time)
    requires ServerInv(s) && s.net.events != [] && s.net.events[0] == Event.Disconnected(session)
    ensures var t := s.(net := TryPopEvent(s.net).0);
            ServerInv(HandleDisconnected(t, session, now)) && Quiet(t.net, HandleDisconnected(t, session, now).net)
  {
    hide NetInvBut, RunInv, LeaveRoom, FlushFinishedGames, NotifyRoomMember, NotifyRoomState, Remove, Partition, TryPopEvent, Quiet;
    FirstEvent(s.net);
    TryPopKeepsNetInv(s.net);
    ForgetGone(s.net, Users(s), s.deadlines.Keys, session);
    var t := s.(net := TryPopEvent(s.net).0);
    var t0 := t.(deadlines := s.deadlines - {session});
    assert t0.deadlines.Keys == s.deadlines.Keys - {session};
    PopKeepsPartition(s.net, Users(s) - {session}, s.deadlines.Keys - {session});
    StaysQuiet(t.net);
    if session in s.run.lobby.users.bySession {
      var user := s.run.lobby.users.bySession[session];
      DisconnectRun(s, session, now);
      var left := LeaveRoom(s.run.lobby, session, GameEndReason.Disconnected, now).0;
      var t1 := WithLobby(t0, left.(users := Remove(left.users, session)));
      StaysCalm(t1);
      ThenFlush(t1, t1);
      var t2 := FlushFinishedGames(t1);
      ThenNotifyMember(t1, t2, user.roomId, RoomMemberChange.Disconnected, user.nickname);
      ThenNotifyState(t1, NotifyRoomMember(t2, user.roomId, RoomMemberChange.Disconnected, user.nickname), user.roomId);
      CalmKeepsServerInv(t1, HandleDisconnected(t, session, now));
    } else {
      assert Users(s) - {session} == Users(s);
    }
  }

  lemma ExpireLoginKeeps(s: Server, session: SessionId)
    requires ServerInv(s)
    ensures var t := s.(deadlines := s.deadlines - {session}, net := Disconnect(s.net, session));
            ServerInv(t) && Quiet(s.net, t.net)
  {
    hide NetInvBut, RunInv, Disconnect, Partition, Quiet;
    DisconnectIsQuiet(s.net, session);
    var m := Disconnect(s.net, session);
    NetStepIsCalm(s, m);
    CalmKeepsServerInv(s, s.(net := m));
    ForgetGone(m, Users(s), s.deadlines.Keys, session);
    assert (s.deadlines - {session}).Keys == s.deadlines.Keys - {session};
  }

  lemma {:induction false} CheckLoginTimeoutsKeeps(s: Server, order: seq<SessionId>, now: Time)
    requires ServerInv(s)
    ensures ServerInv(CheckLoginTimeouts(s, order, now)) && Quiet(s.net, CheckLoginTimeouts(s, order, now).net)
    decreases |order|
  {
    hide ServerInv, Quiet, Disconnect;
    if order == [] {
      StaysQuiet(s.net);
    } else if IsLoginExpired(s, order[0], now) {
      ExpireLoginKeeps(s, order[0]);
      var t := s.(deadlines := s.deadlines - {order[0]}, net := Disconnect(s.net, order[0]));
      CheckLoginTimeoutsKeeps(t, order[1..], now);
      QuietTwice(s.net, t.net, CheckLoginTimeouts(t, order[1..], now).net);
    } else {
      CheckLoginTimeoutsKeeps(s, order[1..], now);
    }
  }

  // ----- one round of the loop -----

  lemma PacketKeeps(s: Server, session: SessionId, p: Packet, now: Time)
    requires ServerInv(s) && IsConnected(s.net, session) && !ConnectPending(s.net, session)
    ensures ServerInv(ProcessPacket(s, session, p, now)) && Quiet(s.net, ProcessPacket(s, session, p, now).net)
  {
    if p.id == LOGIN_REQ {
      LoginKeeps(s, session, p.body);
    } else {
      OtherPacketIsCalm(s, session, p, now);
      CalmKeepsServerInv(s, ProcessPacket(s, session, p, now));
    }
  }

  lemma OtherPacketIsCalm(s: Server, session: SessionId, p: Packet, now: Time)
    requires Sound(s) && p.id != LOGIN_REQ
    ensures Calm(s, ProcessPacket(s, session, p, now))
  {
    hide Sound, Calm, HandleRoomCreate, HandleRoomList, HandleRoomEnter, HandleRoomLeave, HandleRoomReady, HandleRoomStart,
      HandleGameMove, HandleGameResign, HandleChat, Respond, Disconnect;
    StaysCalm(s);
    ThenDisconnect(s, s, session);
    ThenRespond(s, s, session, ECHO_RES, p.body);
    ChatIsCalm(s, session, p.body);
    RoomCreateIsCalm(s, session, p.body);
    RoomListIsCalm(s, session, p.body);
    RoomEnterIsCalm(s, session, p.body);
    RoomLeaveIsCalm(s, session, p.body, now);
    RoomReadyIsCalm(s, session, p.body);
    RoomStartIsCalm(s, session, p.body, now);
    GameMoveIsCalm(s, session, p.body, now);
    GameResignIsCalm(s, session, p.body, now);
  }

  lemma ConnectedIsQuiet(s: Server, session: SessionId, occurredAt: Time)
    ensures Quiet(s.net, HandleConnected(s, session, occurredAt).net)
  {
    StaysQuiet(s.net);
  }

  lemma ArrivedKeeps(s: Server, check: Time, now: Time)
    requires ServerInv(s) && s.net.events != [] && s.net.events[0].Arrived?
    ensures var t := s.(net := TryPopEvent(s.net).0);
            var e := s.net.events[0];
            ServerInv(HandleEvent(t, e, check, now)) && Quiet(t.net, HandleEvent(t, e, check, now).net)
  {
    hide Sound, NetInvBut, RunInv, Partition, Quiet, Disconnect, ProcessPacket, TryPopEvent;
    var e, t := s.net.events[0], s.(net := TryPopEvent(s.net).0);
    SoundParts(s);
    FirstEvent(s.net);
    TryPopKeepsNetInv(s.net);
    PopKeepsPartition(s.net, Users(s), s.deadlines.Keys);
    assert ServerInv(t) by { PoppedIsSound(s, t.net); }
    StaysQuiet(t.net);
    if IsConnected(t.net, e.session) {
      if IsLoginExpired(t, e.session, check) {
        ExpireLoginKeeps(t, e.session);
      } else {
        PacketKeeps(t, e.session, e.packet, now);
      }
    }
  }

  lemma PoppedIsSound(s: Server, m: NetState)
    requires Sound(s) && NetInv(m)
    ensures Sound(s.(net := m))
  {
    hide NetInvBut, RunInv;
  }

  /** One round keeps the invariant, and takes exactly one from the events and connections
      together: a handler only ever trades connections for events. */
  lemma RoundKeeps(s: Server, check: Time, now: Time)
    requires ServerInv(s)
    ensures ServerInv(Round(s, check, now))
    ensures s.net.events != [] ==> Measure(Round(s, check, now).net) == Measure(s.net) - 1
    ensures s.net.events == [] ==> Round(s, check, now) == s
  {
    hide ServerInv, HandleConnected, HandleDisconnected, ProcessPacket, NetInvBut;
    if s.net.events != [] {
      var e, t := s.net.events[0], s.(net := TryPopEvent(s.net).0);
      match e
      case Connected(session, occurredAt) =>
        ConnectedKeeps(s, session, occurredAt);
        ConnectedIsQuiet(t, session, occurredAt);
      case Arrived(session, packet) => ArrivedKeeps(s, check, now);
      case Disconnected(session) => DisconnectedKeeps(s, session, now);
    }
  }

  // ----- the draining loop -----

  datatype Reading = Reading(check: Time, now: Time)

  ghost function Rounds(s: Server, readings: seq<Reading>): Server
    decreases |readings|
  {
    if readings == [] then s else Rounds(Round(s, readings[0].check, readings[0].now), readings[1..])
  }

  lemma {:induction false} NothingToDrain(s: Server, readings: seq<Reading>)
    requires s.net.events == []
    ensures Rounds(s, readings) == s
    decreases |readings|
  {
    if readings != [] {
      NothingToDrain(s, readings[1..]);
    }
  }

  /** The loop ends: after at most as many rounds as there are events and connections the
      queue is empty, whatever the handlers have pushed meanwhile. */
  lemma {:induction false} DrainingTerminates(s: Server, readings: seq<Reading>)
    requires ServerInv(s)
    ensures ServerInv(Rounds(s, readings))
    ensures |readings| >= Measure(s.net) ==> Rounds(s, readings).net.events == []
    decreases |readings|
  {
    hide ServerInv, Round;
    if readings != [] {
      RoundKeeps(s, readings[0].check, readings[0].now);
      DrainingTerminates(Round(s, readings[0].check, readings[0].now), readings[1..]);
    }
    if s.net.events == [] { NothingToDrain(s, readings); }
  }

  /** With the queue drained there are no stale users: the open sessions are exactly the
      users and those still to log in, and every room member is a live connection. */
  lemma DrainedServer(s: Server)
    requires ServerInv(s) && s.net.events == []
    ensures forall c: SessionId :: IsConnected(s.net, c) <==> c in Users(s) || c in s.deadlines
    ensures Users(s) !! s.deadlines.Keys
    ensures forall id, m :: id in s.run.lobby.rooms && m in s.run.lobby.rooms[id].members ==> IsConnected(s.net, m)
  {
    hide NetInvBut, RoomInv, Conserved, ClocksInv, UsersInv, IsConnected;
    forall c: SessionId ensures !ConnectPending(s.net, c) && !DropPending(s.net, c) { }
    forall c | c in Users(s) ensures c !in s.deadlines.Keys {
      assert Known(s.net, c);
    }
    assert RunInv(s.run);
    forall id, m | id in s.run.lobby.rooms && m in s.run.lobby.rooms[id].members ensures IsConnected(s.net, m) {
      assert m in Users(s);
      assert Known(s.net, m);
    }
    forall c: SessionId | IsConnected(s.net, c) ensures c in Users(s) || c in s.deadlines {
      assert !ConnectPending(s.net, c);
      assert c in Users(s) <==> c !in s.deadlines.Keys;
    }
    forall c: SessionId | c in Users(s) || c in s.deadlines ensures IsConnected(s.net, c) {
      assert c in Users(s) || c in s.deadlines.Keys;
      assert Known(s.net, c);
    }
  }

  // ----- the whole server -----

  lemma SweepGamesKeeps(s: Server, order: seq<RoomId>, now: Time)
    requires ServerInv(s)
    ensures ServerInv(SweepGames(s, order, now)) && Quiet(s.net, SweepGames(s, order, now).net)
  {
    hide Sound, Partition, FlushFinishedGames, UpdateTimeouts, LobbyRuns.Broken, Quiet;
    var op := LobbyRuns.DoSweep(order, now);
    OpIsCalm(s, op);
    var t := s.(run := LobbyRuns.Do(s.run, op));
    assert t == WithLobby(s, UpdateTimeouts(s.run.lobby, order, now).0);
    ThenFlush(s, t);
    CalmKeepsServerInv(s, SweepGames(s, order, now));
  }
}
