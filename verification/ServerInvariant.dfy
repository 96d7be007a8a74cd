/** The processor keeps network, lobby and login table in step: every session is
    known exactly once, and draining the event queue terminates. */
module ServerInvariant {
  import opened Protocol
  import opened NetRules
  import opened NetInvariant
  import opened RoomRules
  import opened LobbyRules
  import opened LobbyInvariant
  import opened LobbyCalls
  import LobbyRuns
  import opened WireFormat
  import opened RoomPacketCodec
  import opened GamePacketCodec
  import opened ServerRules

  // ----- what is waiting in the event queue -----

  ghost predicate ConnectPending(n: NetState, s: SessionId) {
    exists i :: 0 <= i < |n.events| && n.events[i].Connected? && n.events[i].session == s
  }

  ghost predicate DropPending(n: NetState, s: SessionId) {
    exists i :: 0 <= i < |n.events| && n.events[i].Disconnected? && n.events[i].session == s
  }

  function Measure(n: NetState): nat {
    |n.events| + |n.clients|
  }

  /** Events are only added, also to the log, connections only come with a Connected event of a new ID and
      only go with a Disconnected event. */
  ghost predicate Passes(n: NetState, m: NetState) {
    && n.events <= m.events && n.emitted <= m.emitted && n.lastSessionId <= m.lastSessionId && n.openedAt == m.openedAt
    && (forall i :: |n.events| <= i < |m.events| && m.events[i].Connected? ==> m.events[i].session > n.lastSessionId)
    && (forall s: SessionId :: IsConnected(m, s) ==> IsConnected(n, s) || (s > n.lastSessionId && ConnectPending(m, s)))
    && (forall s: SessionId :: IsConnected(n, s) && !IsConnected(m, s) ==> DropPending(m, s))
  }

  /** What the logic does to the network: no new connections, no packets, and every
      connection it gives up becomes one event. */
  ghost predicate Quiet(n: NetState, m: NetState) {
    && Passes(n, m) && m.lastSessionId == n.lastSessionId && Measure(m) == Measure(n)
    && (forall s: SessionId :: IsConnected(m, s) ==> IsConnected(n, s))
    && (forall i :: |n.events| <= i < |m.events| ==> m.events[i].Disconnected?)
  }

  lemma PendingGrows(n: NetState, m: NetState, s: SessionId)
    requires n.events <= m.events
    ensures ConnectPending(n, s) ==> ConnectPending(m, s)
    ensures DropPending(n, s) ==> DropPending(m, s)
  {
    if i :| 0 <= i < |n.events| && n.events[i].Connected? && n.events[i].session == s { assert m.events[i] == n.events[i]; }
    if i :| 0 <= i < |n.events| && n.events[i].Disconnected? && n.events[i].session == s { assert m.events[i] == n.events[i]; }
  }

  lemma PassesTwice(a: NetState, b: NetState, c: NetState)
    requires Passes(a, b) && Passes(b, c)
    ensures Passes(a, c)
  {
    hide ConnectPending, DropPending;
    forall s ensures (ConnectPending(b, s) ==> ConnectPending(c, s)) && (DropPending(b, s) ==> DropPending(c, s)) {
      PendingGrows(b, c, s);
    }
    forall i | |a.events| <= i < |c.events| && c.events[i].Connected? ensures c.events[i].session > a.lastSessionId {
      if i < |b.events| { assert b.events[i] == c.events[i]; }
    }
  }

  lemma QuietTwice(a: NetState, b: NetState, c: NetState)
    requires Quiet(a, b) && Quiet(b, c)
    ensures Quiet(a, c)
  {
    hide ConnectPending, DropPending;
    PassesTwice(a, b, c);
    forall i | |a.events| <= i < |c.events| ensures c.events[i].Disconnected? {
      if i < |b.events| { assert b.events[i] == c.events[i]; }
    }
  }

  lemma StaysQuiet(n: NetState)
    ensures Quiet(n, n)
  {
  }

  lemma SameSessionsQuiet(n: NetState, m: NetState)
    requires SameSessions(n, m) && m.events == n.events && m.emitted == n.emitted
    ensures Quiet(n, m)
  {
    forall s ensures IsConnected(m, s) <==> IsConnected(n, s) {
      SameSessionsSameConnected(n, m, s);
    }
  }

  lemma CloseIsQuiet(n: NetState, i: nat)
    requires i < |n.clients| && IdsInv(n)
    ensures Quiet(n, CloseClient(n, i))
  {
    var m := CloseClient(n, i);
    assert m.events[|n.events|] == Event.Disconnected(n.clients[i].id);
    forall s ensures IsConnected(m, s) <==> IsConnected(n, s) && s != n.clients[i].id {
      ConnectedAfterClose(n, i, s);
    }
    assert DropPending(m, n.clients[i].id);
  }

  lemma NetInvHasIds(n: NetState)
    requires NetInv(n)
    ensures IdsInv(n)
  {
  }

  // ----- what the logic does to the network is quiet -----

  lemma DisconnectIsQuiet(n: NetState, s: SessionId)
    requires NetInv(n)
    ensures NetInv(Disconnect(n, s)) && Quiet(n, Disconnect(n, s)) && !IsConnected(Disconnect(n, s), s)
  {
    hide NetInvBut, Quiet, CloseClient;
    DisconnectKeepsNetInv(n, s);
    NetInvHasIds(n);
    StaysQuiet(n);
    var i := IndexOf(n.clients, s);
    if i < |n.clients| { CloseIsQuiet(n, i); }
  }

  lemma SendPacketIsQuiet(n: NetState, s: SessionId, id: nat, body: Bytes)
    requires NetInv(n) && id <= UINT16_MAX
    ensures var m := SendPacket(n, s, id, body).0; NetInv(m) && Quiet(n, m)
  {
    hide NetInvBut, Quiet;
    SendPacketKeepsNetInv(n, s, id, body);
    SameSessionsQuiet(n, SendPacket(n, s, id, body).0);
  }

  lemma RespondIsQuiet(n: NetState, s: SessionId, id: nat, body: Bytes)
    requires NetInv(n) && id <= UINT16_MAX
    ensures var m := Respond(n, s, id, body); NetInv(m) && Quiet(n, m)
  {
    hide NetInvBut, Quiet, SendPacket, Disconnect;
    SendPacketIsQuiet(n, s, id, body);
    var queued := SendPacket(n, s, id, body).0;
    DisconnectIsQuiet(queued, s);
    QuietTwice(n, queued, Disconnect(queued, s));
  }

  lemma {:induction false} BroadcastIsQuiet(n: NetState, targets: seq<SessionId>, id: nat, body: Bytes)
    requires NetInv(n) && id <= UINT16_MAX
    ensures var m := Broadcast(n, targets, id, body); NetInv(m) && Quiet(n, m)
    decreases |targets|
  {
    hide NetInvBut, Quiet, Respond;
    StaysQuiet(n);
    if targets != [] {
      RespondIsQuiet(n, targets[0], id, body);
      var first := if IsConnected(n, targets[0]) then Respond(n, targets[0], id, body) else n;
      BroadcastIsQuiet(first, targets[1..], id, body);
      QuietTwice(n, first, Broadcast(first, targets[1..], id, body));
    }
  }

  lemma {:induction false} DisconnectAllIsQuiet(n: NetState, targets: seq<SessionId>)
    requires NetInv(n)
    ensures var m := DisconnectAll(n, targets); NetInv(m) && Quiet(n, m)
    decreases |targets|
  {
    hide NetInvBut, Quiet, Disconnect;
    StaysQuiet(n);
    if targets != [] {
      DisconnectIsQuiet(n, targets[0]);
      DisconnectAllIsQuiet(Disconnect(n, targets[0]), targets[1..]);
      QuietTwice(n, Disconnect(n, targets[0]), DisconnectAll(Disconnect(n, targets[0]), targets[1..]));
    }
  }

  // ----- steps that log nobody in or out -----

  function Users(s: Server): set<SessionId> {
    s.run.lobby.users.bySession.Keys
  }

  ghost predicate Sound(s: Server) {
    NetInv(s.net) && RunInv(s.run)
  }

  ghost predicate Calm(s: Server, t: Server) {
    Sound(t) && Quiet(s.net, t.net) && t.deadlines == s.deadlines && t.loginTimeout == s.loginTimeout && Users(t) == Users(s)
  }

  lemma CalmTwice(a: Server, b: Server, c: Server)
    requires Calm(a, b) && Calm(b, c)
    ensures Calm(a, c)
  {
    hide Sound, Quiet;
    QuietTwice(a.net, b.net, c.net);
  }

  lemma NetStepIsCalm(s: Server, m: NetState)
    requires Sound(s) && NetInv(m) && Quiet(s.net, m)
    ensures Calm(s, s.(net := m))
  {
    hide NetInvBut, RunInv, Quiet;
  }

  lemma NotifyRoomStateIsCalm(s: Server, roomId: RoomId)
    requires Sound(s)
    ensures Calm(s, NotifyRoomState(s, roomId)) && NotifyRoomState(s, roomId).run == s.run
  {
    hide NetInvBut, RunInv, Quiet, Broadcast, SnapshotOf, ValidRoomState, RoomStateBytes;
    StaysQuiet(s.net);
    NetStepIsCalm(s, s.net);
    if roomId in s.run.lobby.rooms {
      var room := s.run.lobby.rooms[roomId];
      var snapshot := SnapshotOf(s.run.lobby, room);
      if snapshot.Some? {
        var body := RoomStateBytes(snapshot.value);
        BroadcastIsQuiet(s.net, room.members, ROOM_STATE_NTF, body);
        NetStepIsCalm(s, Broadcast(s.net, room.members, ROOM_STATE_NTF, body));
      }
    }
  }

  lemma NotifyRoomMemberIsCalm(s: Server, roomId: RoomId, change: RoomMemberChange, nickname: Bytes)
    requires Sound(s)
    ensures Calm(s, NotifyRoomMember(s, roomId, change, nickname)) && NotifyRoomMember(s, roomId, change, nickname).run == s.run
  {
    hide NetInvBut, RunInv, Quiet, Broadcast, RoomMemberBytes;
    StaysQuiet(s.net);
    NetStepIsCalm(s, s.net);
    if roomId in s.run.lobby.rooms {
      var members := s.run.lobby.rooms[roomId].members;
      var body := RoomMemberBytes(RoomMemberNotification(ToU32(roomId), change, nickname));
      BroadcastIsQuiet(s.net, members, ROOM_MEMBER_NTF, body);
      NetStepIsCalm(s, Broadcast(s.net, members, ROOM_MEMBER_NTF, body));
    }
  }

  lemma AnnounceIsCalm(s: Server, f: FinishedGame)
    requires Sound(s)
    ensures Calm(s, Announce(s, f)) && Announce(s, f).run == s.run
  {
    hide Sound, Quiet, Broadcast, DisconnectAll, NotifyRoomState, IsValidGameEnd, GameEndBytes, NetInvBut, RunInv;
    var p := EndNotificationOf(f);
    assert NetInv(s.net) by { SoundParts(s); }
    if IsValidGameEnd(p) {
      var m := Broadcast(s.net, f.targets, GAME_END_NTF, GameEndBytes(p));
      BroadcastIsQuiet(s.net, f.targets, GAME_END_NTF, GameEndBytes(p));
      NetStepIsCalm(s, m);
      NotifyRoomStateIsCalm(s.(net := m), f.room);
      CalmTwice(s, s.(net := m), NotifyRoomState(s.(net := m), f.room));
    } else {
      DisconnectAllIsQuiet(s.net, f.targets);
      NetStepIsCalm(s, DisconnectAll(s.net, f.targets));
    }
  }

  lemma SoundParts(s: Server)
    requires Sound(s)
    ensures NetInv(s.net) && RunInv(s.run)
  {
  }

  lemma RunStepIsCalm(s: Server, run: Run)
    requires Sound(s) && RunInv(run) && run.lobby.users.bySession.Keys == Users(s)
    ensures Calm(s, s.(run := run))
  {
    hide NetInvBut, RunInv;
    StaysQuiet(s.net);
  }

  lemma {:induction false} FlushIsCalm(s: Server)
    requires Sound(s)
    ensures Calm(s, FlushFinishedGames(s)) && FlushFinishedGames(s).run.lobby.finished == []
    decreases |s.run.lobby.finished|
  {
    hide Sound, Calm, Announce;
    if s.run.lobby.finished == [] {
      SoundParts(s);
      RunStepIsCalm(s, s.run);
    } else {
      var f := s.run.lobby.finished[0];
      SoundParts(s);
      PopKeepsRunInv(s.run);
      RunStepIsCalm(s, Popped(s).run);
      CalmIsSound(s, Popped(s));
      AnnounceIsCalm(Popped(s), f);
      CalmTwice(s, Popped(s), Announce(Popped(s), f));
      CalmIsSound(Popped(s), Announce(Popped(s), f));
      FlushIsCalm(Announce(Popped(s), f));
      CalmTwice(s, Announce(Popped(s), f), FlushFinishedGames(s));
    }
  }

  lemma CalmIsSound(s: Server, t: Server)
    requires Calm(s, t)
    ensures Sound(t)
  {
  }

  // ----- the room and game requests -----

  /** One call of the lobby, as in the run theorem, is calm when it moves no user in or out. */
  lemma OpIsCalm(s: Server, op: LobbyRuns.Op)
    requires Sound(s) && LobbyRuns.Legal(op)
    requires !op.DoLogin? && !op.DoDisconnect?
    ensures Calm(s, s.(run := LobbyRuns.Do(s.run, op))) && !LobbyRuns.Broken(s.run.lobby, op)
  {
    hide Sound, Calm, LobbyRuns.Do, LobbyRuns.Broken, LobbyRuns.Legal;
    SoundParts(s);
    LobbyRuns.OneCall(s.run, op);
    UsersStay(s.run, op);
    RunStepIsCalm(s, LobbyRuns.Do(s.run, op));
  }

  lemma UsersStay(run: Run, op: LobbyRuns.Op)
    requires RunInv(run) && !op.DoLogin? && !op.DoDisconnect?
    ensures LobbyRuns.Do(run, op).lobby.users.bySession.Keys == run.lobby.users.bySession.Keys
  {
    hide RunInv, LobbyInv, Linked, LobbyRules.PlaceStone, LobbyRules.Resign, LeaveRoom, UpdateTimeouts, EndOfLeaver, Moved;
    match op
    case DoLeave(session, now) => LeaveRoomKeepsRunInv(run, session, GameEndReason.LeftRoom, now);
    case DoMove(session, roomId, gameId, x, y, now) => PlaceStoneKeepsRunInv(run, session, roomId, gameId, x, y, now);
    case DoResign(session, roomId, gameId, now) => ResignKeepsRunInv(run, session, roomId, gameId, now);
    case DoSweep(order, now) => UpdateTimeoutsKeepsRunInv(run, order, now);
    case _ =>
  }

  lemma ThenRespond(s: Server, t: Server, session: SessionId, id: nat, body: Bytes)
    requires Calm(s, t) && id <= UINT16_MAX
    ensures Calm(s, t.(net := Respond(t.net, session, id, body)))
  {
    hide NetInvBut, RunInv, Quiet, Respond;
    RespondIsQuiet(t.net, session, id, body);
    NetStepIsCalm(t, Respond(t.net, session, id, body));
    CalmTwice(s, t, t.(net := Respond(t.net, session, id, body)));
  }

  lemma ThenDisconnect(s: Server, t: Server, session: SessionId)
    requires Calm(s, t)
    ensures Calm(s, t.(net := Disconnect(t.net, session)))
  {
    hide NetInvBut, RunInv, Quiet, Disconnect;
    DisconnectIsQuiet(t.net, session);
    NetStepIsCalm(t, Disconnect(t.net, session));
    CalmTwice(s, t, t.(net := Disconnect(t.net, session)));
  }

  lemma ThenBroadcast(s: Server, t: Server, targets: seq<SessionId>, id: nat, body: Bytes)
    requires Calm(s, t) && id <= UINT16_MAX
    ensures Calm(s, t.(net := Broadcast(t.net, targets, id, body)))
  {
    hide NetInvBut, RunInv, Quiet, Broadcast;
    BroadcastIsQuiet(t.net, targets, id, body);
    NetStepIsCalm(t, Broadcast(t.net, targets, id, body));
    CalmTwice(s, t, t.(net := Broadcast(t.net, targets, id, body)));
  }

  lemma ThenDisconnectAll(s: Server, t: Server, targets: seq<SessionId>)
    requires Calm(s, t)
    ensures Calm(s, t.(net := DisconnectAll(t.net, targets)))
  {
    hide NetInvBut, RunInv, Quiet, DisconnectAll;
    DisconnectAllIsQuiet(t.net, targets);
    NetStepIsCalm(t, DisconnectAll(t.net, targets));
    CalmTwice(s, t, t.(net := DisconnectAll(t.net, targets)));
  }

  lemma ThenNotifyState(s: Server, t: Server, roomId: RoomId)
    requires Calm(s, t)
    ensures Calm(s, NotifyRoomState(t, roomId))
  {
    hide Sound, Quiet, NotifyRoomState;
    CalmIsSound(s, t);
    NotifyRoomStateIsCalm(t, roomId);
    CalmTwice(s, t, NotifyRoomState(t, roomId));
  }

  lemma ThenNotifyMember(s: Server, t: Server, roomId: RoomId, change: RoomMemberChange, nickname: Bytes)
    requires Calm(s, t)
    ensures Calm(s, NotifyRoomMember(t, roomId, change, nickname))
  {
    hide Sound, Quiet, NotifyRoomMember;
    CalmIsSound(s, t);
    NotifyRoomMemberIsCalm(t, roomId, change, nickname);
    CalmTwice(s, t, NotifyRoomMember(t, roomId, change, nickname));
  }

  lemma ThenFlush(s: Server, t: Server)
    requires Calm(s, t)
    ensures Calm(s, FlushFinishedGames(t))
  {
    hide Sound, Quiet, FlushFinishedGames;
    CalmIsSound(s, t);
    FlushIsCalm(t);
    CalmTwice(s, t, FlushFinishedGames(t));
  }

  lemma StaysCalm(s: Server)
    requires Sound(s)
    ensures Calm(s, s)
  {
    hide NetInvBut, RunInv;
    StaysQuiet(s.net);
  }

  lemma RoomCreateIsCalm(s: Server, session: SessionId, body: Bytes)
    requires Sound(s)
    ensures Calm(s, HandleRoomCreate(s, session, body))
  {
    hide Sound, Calm, Respond, Disconnect, CreateRoom, NotifyRoomState, NotifyRoomMember, DecodedTitle, RoomActionBytes;
    StaysCalm(s);
    ThenDisconnect(s, s, session);
    var title := DecodedTitle(body);
    if title.Some? {
      var op := LobbyRuns.DoCreate(session, title.value);
      OpIsCalm(s, op);
      var (lobby, o, roomId) := CreateRoom(s.run.lobby, session, title.value);
      var t := WithLobby(s, lobby);
      assert t == s.(run := LobbyRuns.Do(s.run, op));
      var response := RoomActionResponse(o.value, if o.value == RoomResult.Success then ToU32(roomId) else 0);
      ThenRespond(s, t, session, ROOM_CREATE_RES, RoomActionBytes(response));
      var s1 := t.(net := RespondRoomAction(s.net, session, ROOM_CREATE_RES, o.value, roomId));
      if o.value == RoomResult.Success && session in lobby.users.bySession {
        var nickname := lobby.users.bySession[session].nickname;
        ThenNotifyMember(s, s1, roomId, RoomMemberChange.Joined, nickname);
        ThenNotifyState(s, NotifyRoomMember(s1, roomId, RoomMemberChange.Joined, nickname), roomId);
      }
    }
  }

  lemma RoomListIsCalm(s: Server, session: SessionId, body: Bytes)
    requires Sound(s)
    ensures Calm(s, HandleRoomList(s, session, body))
  {
    hide Sound, Calm, Respond, Disconnect, RoomListFor, ValidRoomList, RoomListBytes, DecodedRoomId;
    StaysCalm(s);
    ThenDisconnect(s, s, session);
    var after := DecodedRoomId(body);
    if after.Some? {
      ThenRespond(s, s, session, ROOM_LIST_RES, RoomListBytes(RoomListFor(s.run.lobby, session, after.value)));
    }
  }

  lemma RoomEnterIsCalm(s: Server, session: SessionId, body: Bytes)
    requires Sound(s)
    ensures Calm(s, HandleRoomEnter(s, session, body))
  {
    hide Sound, Calm, Respond, Disconnect, EnterRoom, NotifyRoomState, NotifyRoomMember, DecodedRoomId, RoomActionBytes;
    StaysCalm(s);
    ThenDisconnect(s, s, session);
    var roomId := DecodedRoomId(body);
    if roomId.Some? {
      var op := LobbyRuns.DoEnter(session, roomId.value);
      OpIsCalm(s, op);
      var (lobby, result) := EnterRoom(s.run.lobby, session, roomId.value);
      var t := WithLobby(s, lobby);
      assert t == s.(run := LobbyRuns.Do(s.run, op));
      var response := RoomActionResponse(result, if result == RoomResult.Success then ToU32(roomId.value) else 0);
      ThenRespond(s, t, session, ROOM_ENTER_RES, RoomActionBytes(response));
      var s1 := t.(net := RespondRoomAction(s.net, session, ROOM_ENTER_RES, result, roomId.value));
      if result == RoomResult.Success && session in lobby.users.bySession {
        var nickname := lobby.users.bySession[session].nickname;
        ThenNotifyMember(s, s1, roomId.value, RoomMemberChange.Joined, nickname);
        ThenNotifyState(s, NotifyRoomMember(s1, roomId.value, RoomMemberChange.Joined, nickname), roomId.value);
      }
    }
  }

  lemma RoomLeaveIsCalm(s: Server, session: SessionId, body: Bytes, now: Time)
    requires Sound(s)
    ensures Calm(s, HandleRoomLeave(s, session, body, now))
  {
    hide Sound, Calm, Respond, Disconnect, LeaveRoom, FlushFinishedGames, NotifyRoomState, NotifyRoomMember, RoomActionBytes;
    StaysCalm(s);
    ThenDisconnect(s, s, session);
    ThenRespond(s, s, session, ROOM_LEAVE_RES, RoomActionBytes(RoomActionResponse(RoomResult.UserNotFound, 0)));
    var lobby := s.run.lobby;
    if body == [] && session in lobby.users.bySession {
      var user := lobby.users.bySession[session];
      var op := LobbyRuns.DoLeave(session, now);
      OpIsCalm(s, op);
      var (left, o) := LeaveRoom(lobby, session, GameEndReason.LeftRoom, now);
      var t := WithLobby(s, left);
      assert t == s.(run := LobbyRuns.Do(s.run, op));
      ThenFlush(s, t);
      var s1 := FlushFinishedGames(t);
      var response := RoomActionResponse(o.value, if o.value == RoomResult.Success then ToU32(user.roomId) else 0);
      ThenRespond(s, s1, session, ROOM_LEAVE_RES, RoomActionBytes(response));
      var s2 := s1.(net := RespondRoomAction(s1.net, session, ROOM_LEAVE_RES, o.value, user.roomId));
      ThenNotifyMember(s, s2, user.roomId, RoomMemberChange.Left, user.nickname);
      ThenNotifyState(s, NotifyRoomMember(s2, user.roomId, RoomMemberChange.Left, user.nickname), user.roomId);
    }
  }

  lemma RoomReadyIsCalm(s: Server, session: SessionId, body: Bytes)
    requires Sound(s)
    ensures Calm(s, HandleRoomReady(s, session, body))
  {
    hide Sound, Calm, Respond, Disconnect, LobbyRules.SetReady, NotifyRoomState, RoomActionBytes, RoomOf, DecodedReady;
    StaysCalm(s);
    ThenDisconnect(s, s, session);
    var ready := DecodedReady(body);
    if ready.Some? {
      var op := LobbyRuns.DoReady(session, ready.value);
      OpIsCalm(s, op);
      var (lobby, result) := LobbyRules.SetReady(s.run.lobby, session, ready.value);
      var t := WithLobby(s, lobby);
      assert t == s.(run := LobbyRuns.Do(s.run, op));
      var roomId := if result == RoomResult.Success then RoomOf(lobby, session) else INVALID_ROOM_ID;
      var response := RoomActionResponse(result, if result == RoomResult.Success then ToU32(roomId) else 0);
      ThenRespond(s, t, session, ROOM_READY_RES, RoomActionBytes(response));
      ThenNotifyState(s, t.(net := RespondRoomAction(s.net, session, ROOM_READY_RES, result, roomId)), roomId);
    }
  }

  lemma RoomStartIsCalm(s: Server, session: SessionId, body: Bytes, now: Time)
    requires Sound(s)
    ensures Calm(s, HandleRoomStart(s, session, body, now))
  {
    hide Sound, Calm, Respond, Disconnect, LobbyRules.StartGame, LobbyCalls.Noted, NotifyRoomState, RoomActionBytes, RoomOf;
    StaysCalm(s);
    ThenDisconnect(s, s, session);
    if body == [] {
      var op := LobbyRuns.DoStart(session, now);
      OpIsCalm(s, op);
      var (lobby, result) := LobbyRules.StartGame(s.run.lobby, session, now);
      var t := s.(run := s.run.(lobby := lobby, starts := LobbyCalls.Noted(s.run, session, now)));
      assert t == s.(run := LobbyRuns.Do(s.run, op));
      var roomId := if result == RoomResult.Success then RoomOf(lobby, session) else INVALID_ROOM_ID;
      var response := RoomActionResponse(result, if result == RoomResult.Success then ToU32(roomId) else 0);
      ThenRespond(s, t, session, ROOM_START_RES, RoomActionBytes(response));
      ThenNotifyState(s, t.(net := RespondRoomAction(s.net, session, ROOM_START_RES, result, roomId)), roomId);
    }
  }

  lemma GameMoveIsCalm(s: Server, session: SessionId, body: Bytes, now: Time)
    requires Sound(s)
    ensures Calm(s, HandleGameMove(s, session, body, now))
  {
    hide Sound, Calm, Respond, Disconnect, LobbyRules.PlaceStone, GetMoveRequest, MoveResponseBytes, AnnounceMove;
    StaysCalm(s);
    ThenDisconnect(s, s, session);
    var request := Whole(GetMoveRequest(body));
    if request.Some? {
      var q := request.value;
      var op := LobbyRuns.DoMove(session, q.roomId, q.game, q.x, q.y, now);
      OpIsCalm(s, op);
      var (lobby, o, m) := LobbyRules.PlaceStone(s.run.lobby, session, q.roomId, q.game, q.x, q.y, now);
      var t := WithLobby(s, lobby);
      assert t == s.(run := LobbyRuns.Do(s.run, op));
      if o.Returned? {
        ThenRespond(s, t, session, GAME_MOVE_RES, MoveResponseBytes(o.value, q.game));
        if m.Some? { AnnounceMoveIsCalm(s, t, session, q.game, m.value); }
      }
    }
  }

  lemma AnnounceMoveIsCalm(s: Server, t: Server, session: SessionId, game: uint32, m: AcceptedMove)
    requires Calm(s, t)
    ensures Calm(s, AnnounceMove(t, session, game, m))
  {
    hide Calm, Respond, Disconnect, Broadcast, DisconnectAll, MoveResponseBytes, IsValidGameMove, GameMoveBytes;
    ThenDisconnect(s, t, session);
    if m.room in t.run.lobby.rooms {
      var targets := t.run.lobby.rooms[m.room].members;
      ThenDisconnectAll(s, t, targets);
      var body := MoveResponseBytes(GameMoveResult.Success, game);
      ThenRespond(s, t, session, GAME_MOVE_RES, body);
      if m.x >= 0 && m.y >= 0 {
        ThenBroadcast(s, t.(net := Respond(t.net, session, GAME_MOVE_RES, body)), targets, GAME_MOVE_NTF,
                      GameMoveBytes(Replica.NotificationOf(m)));
      }
    }
  }

  lemma GameResignIsCalm(s: Server, session: SessionId, body: Bytes, now: Time)
    requires Sound(s)
    ensures Calm(s, HandleGameResign(s, session, body, now))
  {
    hide Sound, Calm, Respond, Disconnect, LobbyRules.Resign, GetResignRequest, MoveResponseBytes;
    StaysCalm(s);
    ThenDisconnect(s, s, session);
    var request := Whole(GetResignRequest(body));
    if request.Some? {
      var (roomId, game) := request.value;
      var op := LobbyRuns.DoResign(session, roomId, game, now);
      OpIsCalm(s, op);
      var (lobby, o) := LobbyRules.Resign(s.run.lobby, session, roomId, game, now);
      var t := WithLobby(s, lobby);
      assert t == s.(run := LobbyRuns.Do(s.run, op));
      if o.Returned? { ThenRespond(s, t, session, GAME_RESIGN_RES, MoveResponseBytes(o.value, game)); }
    }
  }

  lemma ChatResultIsQuiet(n: NetState, session: SessionId, result: ChatResult)
    requires NetInv(n)
    ensures var m := SendChatResult(n, session, result).0; NetInv(m) && Quiet(n, m)
  {
    hide NetInvBut, Quiet, SendPacket, Disconnect;
    var body := [ChatResultCode(result)];
    SendPacketIsQuiet(n, session, CHAT_RES, body);
    var queued := SendPacket(n, session, CHAT_RES, body).0;
    DisconnectIsQuiet(queued, session);
    QuietTwice(n, queued, Disconnect(queued, session));
  }

  lemma ThenChatResult(s: Server, t: Server, session: SessionId, result: ChatResult)
    requires Calm(s, t)
    ensures Calm(s, t.(net := SendChatResult(t.net, session, result).0))
  {
    hide NetInvBut, RunInv, Quiet, SendChatResult;
    ChatResultIsQuiet(t.net, session, result);
    NetStepIsCalm(t, SendChatResult(t.net, session, result).0);
    CalmTwice(s, t, t.(net := SendChatResult(t.net, session, result).0));
  }

  lemma ChatIsCalm(s: Server, session: SessionId, body: Bytes)
    requires Sound(s)
    ensures Calm(s, HandleChat(s, session, body))
  {
    hide Sound, Calm, SendChatResult, Disconnect, Broadcast, IsValidChatMessage, ValidChat, ChatBytes;
    StaysCalm(s);
    ThenDisconnect(s, s, session);
    ThenChatResult(s, s, session, ChatResult.NotLoggedIn);
    ThenChatResult(s, s, session, ChatResult.NotInRoom);
    ThenChatResult(s, s, session, ChatResult.StateMismatch);
    ThenChatResult(s, s, session, ChatResult.InvalidMessage);
    ThenChatResult(s, s, session, ChatResult.Success);
    var t1 := s.(net := SendChatResult(s.net, session, ChatResult.Success).0);
    ThenChatResult(s, t1, session, ChatResult.Success);
    var t2 := t1.(net := SendChatResult(t1.net, session, ChatResult.Success).0);
    var lobby := s.run.lobby;
    if session in lobby.users.bySession && lobby.users.bySession[session].roomId in lobby.rooms {
      var user := lobby.users.bySession[session];
      ThenBroadcast(s, t2, lobby.rooms[user.roomId].members, CHAT_NTF, ChatBytes(user.nickname, body));
    }
  }
}
