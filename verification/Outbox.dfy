/** Which packets of one kind the server has queued for a session, and which of its steps
    queue none. */
module Outbox {
  import opened Protocol
  import opened Framing
  import opened NetRules
  import opened NetInvariant
  import NetRuns
  import opened LobbyRules
  import opened RoomRules
  import opened UserRules
  import opened WireFormat
  import opened RoomPacketCodec
  import opened GamePacketCodec
  import LobbyCalls
  import Replica
  import opened ServerRules
  import opened ServerInvariant

  function OfKind(ps: seq<Packet>, kind: nat): seq<Packet> {
    if ps == [] then []
    else
      var front, last := OfKind(ps[..|ps| - 1], kind), ps[|ps| - 1];
      if last.id == kind then front + [last] else front
  }

  /** The packets of a kind queued for a session, in order. */
  function SentTo(n: NetState, session: SessionId, kind: nat): seq<Packet> {
    if session in n.queued then OfKind(n.queued[session], kind) else []
  }

  lemma OneMoreOfKind(ps: seq<Packet>, p: Packet, kind: nat)
    ensures OfKind(ps + [p], kind) == if p.id == kind then OfKind(ps, kind) + [p] else OfKind(ps, kind)
  {
    assert (ps + [p])[..|ps|] == ps;
  }

  /** No packet of the kind has been queued for any session, old or new. */
  ghost predicate Mute(n: NetState, m: NetState, kind: nat) {
    && n.lastSessionId <= m.lastSessionId
    && (forall c: SessionId :: c <= n.lastSessionId ==> SentTo(m, c, kind) == SentTo(n, c, kind))
    && (forall c: SessionId :: n.lastSessionId < c <= m.lastSessionId ==> SentTo(m, c, kind) == [])
  }

  lemma MuteTwice(a: NetState, b: NetState, c: NetState, kind: nat)
    requires Mute(a, b, kind) && Mute(b, c, kind)
    ensures Mute(a, c, kind)
  {
  }

  // ----- sending -----

  /** One call of SendPacket adds the packet it is given to the log of its session, or nothing. */
  lemma SendPacketAdds(n: NetState, s: SessionId, id: nat, body: Bytes, c: SessionId, kind: nat)
    requires id <= UINT16_MAX
    ensures var (m, ok) := SendPacket(n, s, id, body);
            && m.lastSessionId == n.lastSessionId
            && SentTo(m, c, kind) == if ok && c == s && id == kind then SentTo(n, c, kind) + [Packet(id, body)] else SentTo(n, c, kind)
  {
    var (m, ok) := SendPacket(n, s, id, body);
    if ok && c == s {
      var before := if s in n.queued then n.queued[s] else [];
      assert m.queued[s] == before + [Packet(id, body)];
      OneMoreOfKind(before, Packet(id, body), kind);
    }
  }

  lemma DisconnectIsMute(n: NetState, s: SessionId, kind: nat)
    ensures Mute(n, Disconnect(n, s), kind) && Disconnect(n, s).lastSessionId == n.lastSessionId
    ensures forall c: SessionId :: SentTo(Disconnect(n, s), c, kind) == SentTo(n, c, kind)
  {
  }

  lemma RespondIsMute(n: NetState, s: SessionId, id: nat, body: Bytes, kind: nat)
    requires id <= UINT16_MAX && id != kind
    ensures Mute(n, Respond(n, s, id, body), kind)
  {
    hide SendPacket, Disconnect, SentTo;
    var queued := SendPacket(n, s, id, body).0;
    forall c: SessionId ensures SentTo(queued, c, kind) == SentTo(n, c, kind) {
      SendPacketAdds(n, s, id, body, c, kind);
    }
    SendPacketAdds(n, s, id, body, s, kind);
    DisconnectIsMute(queued, s, kind);
    MuteTwice(n, queued, Disconnect(queued, s), kind);
  }

  lemma {:induction false} BroadcastIsMute(n: NetState, targets: seq<SessionId>, id: nat, body: Bytes, kind: nat)
    requires id <= UINT16_MAX && id != kind
    ensures Mute(n, Broadcast(n, targets, id, body), kind)
    decreases |targets|
  {
    hide Respond, IsConnected, SentTo;
    if targets != [] {
      RespondIsMute(n, targets[0], id, body, kind);
      var first := if IsConnected(n, targets[0]) then Respond(n, targets[0], id, body) else n;
      BroadcastIsMute(first, targets[1..], id, body, kind);
      MuteTwice(n, first, Broadcast(first, targets[1..], id, body), kind);
    }
  }

  lemma {:induction false} DisconnectAllIsMute(n: NetState, targets: seq<SessionId>, kind: nat)
    ensures Mute(n, DisconnectAll(n, targets), kind)
    decreases |targets|
  {
    hide Disconnect, SentTo;
    if targets != [] {
      DisconnectIsMute(n, targets[0], kind);
      DisconnectAllIsMute(Disconnect(n, targets[0]), targets[1..], kind);
    }
  }

  /** The packet has been added to the log of c once or not at all. */
  ghost predicate Adds(n: NetState, m: NetState, c: SessionId, p: Packet) {
    SentTo(m, c, p.id) == SentTo(n, c, p.id) || SentTo(m, c, p.id) == SentTo(n, c, p.id) + [p]
  }

  lemma RespondAdds(n: NetState, s: SessionId, id: nat, body: Bytes, c: SessionId)
    requires NetInv(n) && id <= UINT16_MAX
    ensures var m, p := Respond(n, s, id, body), Packet(id, body);
            && m.lastSessionId == n.lastSessionId && Adds(n, m, c, p)
            && (c != s ==> SentTo(m, c, id) == SentTo(n, c, id))
            && (c == s && IsConnected(m, c) ==> SentTo(m, c, id) == SentTo(n, c, id) + [p])
  {
    hide NetInvBut, SendPacket, Disconnect, SentTo, IsConnected, Quiet;
    var queued := SendPacket(n, s, id, body).0;
    SendPacketAdds(n, s, id, body, c, id);
    DisconnectIsMute(queued, s, id);
    SendPacketIsQuiet(n, s, id, body);
    DisconnectIsQuiet(queued, s);
  }

  /** A broadcast adds its packet to the log of every target that is still connected
      afterwards, once, and to no other session's. */
  lemma {:induction false} BroadcastAdds(n: NetState, targets: seq<SessionId>, id: nat, body: Bytes, c: SessionId)
    requires NetInv(n) && id <= UINT16_MAX && Distinct(targets)
    ensures var m, p := Broadcast(n, targets, id, body), Packet(id, body);
            && m.lastSessionId == n.lastSessionId && Adds(n, m, c, p)
            && (c !in targets ==> SentTo(m, c, id) == SentTo(n, c, id))
            && (c in targets && IsConnected(m, c) ==> SentTo(m, c, id) == SentTo(n, c, id) + [p])
    decreases |targets|
  {
    hide NetInvBut, Respond, SentTo, IsConnected, Passes;
    if targets != [] {
      var first := if IsConnected(n, targets[0]) then Respond(n, targets[0], id, body) else n;
      RespondAdds(n, targets[0], id, body, c);
      RespondIsQuiet(n, targets[0], id, body);
      assert targets == [targets[0]] + targets[1..];
      BroadcastAdds(first, targets[1..], id, body, c);
      BroadcastIsQuiet(first, targets[1..], id, body);
      assert targets[0] !in targets[1..];
    }
  }

  // ----- a pass over the sockets queues nothing -----

  lemma SameLogIsMute(n: NetState, m: NetState, kind: nat)
    requires m.queued == n.queued && n.lastSessionId == m.lastSessionId
    ensures Mute(n, m, kind)
  {
  }

  lemma {:induction false} AcceptAllIsMute(n: NetState, outcomes: seq<AcceptOutcome>, attempts: nat, kind: nat)
    ensures Mute(n, AcceptAll(n, outcomes, attempts), kind)
    decreases attempts
  {
    if attempts != 0 && outcomes != [] {
      var accepted := AcceptClient(n, outcomes[0]).0;
      assert Mute(n, accepted, kind);
      hide AcceptClient;
      AcceptAllIsMute(accepted, outcomes[1..], attempts - 1, kind);
    }
  }

  lemma RunIsMute(n: NetState, r: Readiness, kind: nat)
    ensures Mute(n, NetRules.Run(n, r), kind)
  {
    hide Sweep, AcceptAll, SentTo;
    NetRuns.SweepQueuesNothing(n, 0, r);
    SameLogIsMute(n, Sweep(n, 0, r), kind);
    AcceptAllIsMute(Sweep(n, 0, r), r.accepts, n.config.maxAcceptsPerRun, kind);
  }

  // ----- notifications and results -----

  lemma NotifyMemberIsMute(s: Server, id: RoomId, change: RoomMemberChange, nickname: Bytes, kind: nat)
    requires kind != ROOM_MEMBER_NTF
    ensures Mute(s.net, NotifyRoomMember(s, id, change, nickname).net, kind)
  {
    hide Broadcast, RoomMemberBytes, SentTo;
    if id in s.run.lobby.rooms {
      BroadcastIsMute(s.net, s.run.lobby.rooms[id].members, ROOM_MEMBER_NTF,
                      RoomMemberBytes(RoomMemberNotification(ToU32(id), change, nickname)), kind);
    }
  }

  lemma NotifyStateIsMute(s: Server, id: RoomId, kind: nat)
    requires kind != ROOM_STATE_NTF
    ensures Mute(s.net, NotifyRoomState(s, id).net, kind)
  {
    hide Broadcast, RoomStateBytes, ValidRoomState, SnapshotOf, SentTo;
    if id in s.run.lobby.rooms && SnapshotOf(s.run.lobby, s.run.lobby.rooms[id]).Some? {
      var room := s.run.lobby.rooms[id];
      BroadcastIsMute(s.net, room.members, ROOM_STATE_NTF, RoomStateBytes(SnapshotOf(s.run.lobby, room).value), kind);
    }
  }

  lemma AnnounceIsMute(s: Server, f: FinishedGame, kind: nat)
    requires kind != ROOM_STATE_NTF && kind != GAME_END_NTF
    ensures Mute(s.net, Announce(s, f).net, kind)
  {
    hide Broadcast, DisconnectAll, NotifyRoomState, IsValidGameEnd, GameEndBytes, EndNotificationOf, SentTo;
    var body := GameEndBytes(EndNotificationOf(f));
    DisconnectAllIsMute(s.net, f.targets, kind);
    BroadcastIsMute(s.net, f.targets, GAME_END_NTF, body, kind);
    NotifyStateIsMute(s.(net := Broadcast(s.net, f.targets, GAME_END_NTF, body)), f.room, kind);
  }

  lemma {:induction false} FlushIsMute(s: Server, kind: nat)
    requires kind != ROOM_STATE_NTF && kind != GAME_END_NTF
    ensures Mute(s.net, FlushFinishedGames(s).net, kind)
    decreases |s.run.lobby.finished|
  {
    hide Announce, SentTo;
    if s.run.lobby.finished != [] {
      var f := s.run.lobby.finished[0];
      AnnounceIsMute(Popped(s), f, kind);
      AnnounceKeepsLobby(Popped(s), f);
      FlushIsMute(Announce(Popped(s), f), kind);
    }
  }

  lemma AnnounceKeepsLobby(s: Server, f: FinishedGame)
    ensures Announce(s, f).run == s.run
  {
    hide Broadcast, DisconnectAll, RoomStateBytes, ValidRoomState, SnapshotOf, IsValidGameEnd, GameEndBytes, EndNotificationOf;
  }

  // ----- the handlers -----

  lemma LoginIsMute(s: Server, session: SessionId, body: Bytes, kind: nat)
    requires kind != LOGIN_RES
    ensures Mute(s.net, HandleLogin(s, session, body).net, kind)
  {
    hide Respond, Disconnect, Login, SentTo;
    DisconnectIsMute(s.net, session, kind);
    RespondIsMute(s.net, session, LOGIN_RES, [LoginResultCode(Login(s.run.lobby.users, session, body).1)], kind);
  }

  lemma ChatResultIsMute(n: NetState, session: SessionId, result: ChatResult, kind: nat)
    requires kind != CHAT_RES
    ensures Mute(n, SendChatResult(n, session, result).0, kind)
  {
    RespondIsMute(n, session, CHAT_RES, [ChatResultCode(result)], kind);
  }

  lemma ChatIsMute(s: Server, session: SessionId, body: Bytes, kind: nat)
    requires kind != CHAT_RES && kind != CHAT_NTF
    ensures Mute(s.net, HandleChat(s, session, body).net, kind)
  {
    hide SendChatResult, Disconnect, Broadcast, IsValidChatMessage, ValidChat, ChatBytes, SentTo;
    var n := s.net;
    DisconnectIsMute(n, session, kind);
    ChatResultIsMute(n, session, ChatResult.NotLoggedIn, kind);
    ChatResultIsMute(n, session, ChatResult.NotInRoom, kind);
    ChatResultIsMute(n, session, ChatResult.StateMismatch, kind);
    ChatResultIsMute(n, session, ChatResult.InvalidMessage, kind);
    ChatResultIsMute(n, session, ChatResult.Success, kind);
    var n1 := SendChatResult(n, session, ChatResult.Success).0;
    ChatResultIsMute(n1, session, ChatResult.Success, kind);
    var n2 := SendChatResult(n1, session, ChatResult.Success).0;
    var lobby := s.run.lobby;
    if session in lobby.users.bySession && lobby.users.bySession[session].roomId in lobby.rooms {
      var user := lobby.users.bySession[session];
      BroadcastIsMute(n2, lobby.rooms[user.roomId].members, CHAT_NTF, ChatBytes(user.nickname, body), kind);
    }
  }

  lemma ListIsMute(s: Server, session: SessionId, body: Bytes, kind: nat)
    requires kind != ROOM_LIST_RES
    ensures Mute(s.net, HandleRoomList(s, session, body).net, kind)
  {
    hide Respond, Disconnect, RoomListFor, ValidRoomList, RoomListBytes, DecodedRoomId, SentTo;
    DisconnectIsMute(s.net, session, kind);
    var after := DecodedRoomId(body);
    if after.Some? {
      RespondIsMute(s.net, session, ROOM_LIST_RES, RoomListBytes(RoomListFor(s.run.lobby, session, after.value)), kind);
    }
  }

  lemma ActionIsMute(n: NetState, session: SessionId, id: nat, result: RoomResult, roomId: RoomId, kind: nat)
    requires id <= UINT16_MAX && id != kind
    ensures Mute(n, RespondRoomAction(n, session, id, result, roomId), kind)
  {
    RespondIsMute(n, session, id, RoomActionBytes(ActionResponse(result, roomId)), kind);
  }

  lemma ReadyIsMute(s: Server, session: SessionId, body: Bytes, kind: nat)
    requires kind != ROOM_READY_RES && kind != ROOM_STATE_NTF
    ensures Mute(s.net, HandleRoomReady(s, session, body).net, kind)
  {
    hide RespondRoomAction, Disconnect, LobbyRules.SetReady, NotifyRoomState, DecodedReady, SentTo, RoomOf;
    DisconnectIsMute(s.net, session, kind);
    var ready := DecodedReady(body);
    if ready.Some? {
      var (lobby, result) := LobbyRules.SetReady(s.run.lobby, session, ready.value);
      var roomId := if result == RoomResult.Success then RoomOf(lobby, session) else INVALID_ROOM_ID;
      ActionIsMute(s.net, session, ROOM_READY_RES, result, roomId, kind);
      var s1 := WithLobby(s, lobby).(net := RespondRoomAction(s.net, session, ROOM_READY_RES, result, roomId));
      NotifyStateIsMute(s1, roomId, kind);
    }
  }

  lemma StartIsMute(s: Server, session: SessionId, body: Bytes, now: Time, kind: nat)
    requires kind != ROOM_START_RES && kind != ROOM_STATE_NTF
    ensures Mute(s.net, HandleRoomStart(s, session, body, now).net, kind)
  {
    hide RespondRoomAction, Disconnect, LobbyRules.StartGame, LobbyCalls.Noted, NotifyRoomState, SentTo, RoomOf;
    DisconnectIsMute(s.net, session, kind);
    var (lobby, result) := LobbyRules.StartGame(s.run.lobby, session, now);
    var roomId := if result == RoomResult.Success then RoomOf(lobby, session) else INVALID_ROOM_ID;
    ActionIsMute(s.net, session, ROOM_START_RES, result, roomId, kind);
    var s1 := s.(run := s.run.(lobby := lobby, starts := LobbyCalls.Noted(s.run, session, now)),
                 net := RespondRoomAction(s.net, session, ROOM_START_RES, result, roomId));
    NotifyStateIsMute(s1, roomId, kind);
  }

  lemma JoinedIsMute(s: Server, id: RoomId, change: RoomMemberChange, nickname: Bytes, kind: nat)
    requires kind != ROOM_MEMBER_NTF && kind != ROOM_STATE_NTF
    ensures Mute(s.net, NotifyRoomState(NotifyRoomMember(s, id, change, nickname), id).net, kind)
  {
    hide NotifyRoomState, NotifyRoomMember, SentTo;
    NotifyMemberIsMute(s, id, change, nickname, kind);
    NotifyStateIsMute(NotifyRoomMember(s, id, change, nickname), id, kind);
  }

  lemma CreateIsMute(s: Server, session: SessionId, body: Bytes, kind: nat)
    requires kind != ROOM_CREATE_RES && kind != ROOM_MEMBER_NTF && kind != ROOM_STATE_NTF
    ensures Mute(s.net, HandleRoomCreate(s, session, body).net, kind)
  {
    hide RespondRoomAction, Disconnect, CreateRoom, NotifyRoomState, NotifyRoomMember, DecodedTitle, SentTo;
    DisconnectIsMute(s.net, session, kind);
    var title := DecodedTitle(body);
    if title.Some? {
      var (lobby, o, roomId) := CreateRoom(s.run.lobby, session, title.value);
      if o.Returned? {
        ActionIsMute(s.net, session, ROOM_CREATE_RES, o.value, roomId, kind);
        var s1 := WithLobby(s, lobby).(net := RespondRoomAction(s.net, session, ROOM_CREATE_RES, o.value, roomId));
        if session in lobby.users.bySession {
          JoinedIsMute(s1, roomId, RoomMemberChange.Joined, lobby.users.bySession[session].nickname, kind);
        }
      }
    }
  }

  lemma EnterIsMute(s: Server, session: SessionId, body: Bytes, kind: nat)
    requires kind != ROOM_ENTER_RES && kind != ROOM_MEMBER_NTF && kind != ROOM_STATE_NTF
    ensures Mute(s.net, HandleRoomEnter(s, session, body).net, kind)
  {
    hide RespondRoomAction, Disconnect, EnterRoom, NotifyRoomState, NotifyRoomMember, DecodedRoomId, SentTo;
    DisconnectIsMute(s.net, session, kind);
    var roomId := DecodedRoomId(body);
    if roomId.Some? {
      var (lobby, result) := EnterRoom(s.run.lobby, session, roomId.value);
      ActionIsMute(s.net, session, ROOM_ENTER_RES, result, roomId.value, kind);
      var s1 := WithLobby(s, lobby).(net := RespondRoomAction(s.net, session, ROOM_ENTER_RES, result, roomId.value));
      if session in lobby.users.bySession {
        JoinedIsMute(s1, roomId.value, RoomMemberChange.Joined, lobby.users.bySession[session].nickname, kind);
      }
    }
  }

  lemma LeaveIsMute(s: Server, session: SessionId, body: Bytes, now: Time, kind: nat)
    requires kind != ROOM_LEAVE_RES && kind != ROOM_MEMBER_NTF && kind != ROOM_STATE_NTF && kind != GAME_END_NTF
    ensures Mute(s.net, HandleRoomLeave(s, session, body, now).net, kind)
  {
    hide RespondRoomAction, Disconnect, LeaveRoom, FlushFinishedGames, NotifyRoomState, NotifyRoomMember, SentTo;
    var lobby := s.run.lobby;
    DisconnectIsMute(s.net, session, kind);
    ActionIsMute(s.net, session, ROOM_LEAVE_RES, RoomResult.UserNotFound, INVALID_ROOM_ID, kind);
    if session in lobby.users.bySession {
      var user := lobby.users.bySession[session];
      var (left, o) := LeaveRoom(lobby, session, GameEndReason.LeftRoom, now);
      if o.Returned? {
        FlushIsMute(WithLobby(s, left), kind);
        var s1 := FlushFinishedGames(WithLobby(s, left));
        ActionIsMute(s1.net, session, ROOM_LEAVE_RES, o.value, user.roomId, kind);
        var s2 := s1.(net := RespondRoomAction(s1.net, session, ROOM_LEAVE_RES, o.value, user.roomId));
        JoinedIsMute(s2, user.roomId, RoomMemberChange.Left, user.nickname, kind);
      }
    }
  }

  lemma DisconnectedIsMute(s: Server, session: SessionId, now: Time, kind: nat)
    requires kind != ROOM_MEMBER_NTF && kind != ROOM_STATE_NTF && kind != GAME_END_NTF
    ensures Mute(s.net, HandleDisconnected(s, session, now).net, kind)
  {
    hide LeaveRoom, FlushFinishedGames, NotifyRoomState, NotifyRoomMember, Remove, SentTo;
    var lobby := s.run.lobby;
    if session in lobby.users.bySession {
      var user := lobby.users.bySession[session];
      var (left, o) := LeaveRoom(lobby, session, GameEndReason.Disconnected, now);
      if o.Returned? {
        var s0 := WithLobby(s.(deadlines := s.deadlines - {session}), left.(users := Remove(left.users, session)));
        FlushIsMute(s0, kind);
        JoinedIsMute(FlushFinishedGames(s0), user.roomId, RoomMemberChange.Disconnected, user.nickname, kind);
      }
    }
  }

  lemma ResignIsMute(s: Server, session: SessionId, body: Bytes, now: Time, kind: nat)
    requires kind != GAME_RESIGN_RES
    ensures Mute(s.net, HandleGameResign(s, session, body, now).net, kind)
  {
    hide Respond, Disconnect, LobbyRules.Resign, GetResignRequest, MoveResponseBytes, SentTo;
    DisconnectIsMute(s.net, session, kind);
    var request := Whole(GetResignRequest(body));
    if request.Some? {
      var o := LobbyRules.Resign(s.run.lobby, session, request.value.0, request.value.1, now).1;
      if o.Returned? { RespondIsMute(s.net, session, GAME_RESIGN_RES, MoveResponseBytes(o.value, request.value.1), kind); }
    }
  }

  lemma AnnounceMoveIsMute(s: Server, session: SessionId, game: uint32, m: AcceptedMove, kind: nat)
    requires kind != GAME_MOVE_RES && kind != GAME_MOVE_NTF
    ensures Mute(s.net, AnnounceMove(s, session, game, m).net, kind)
  {
    hide Respond, Disconnect, Broadcast, DisconnectAll, MoveResponseBytes, IsValidGameMove, GameMoveBytes, SentTo;
    DisconnectIsMute(s.net, session, kind);
    if m.room in s.run.lobby.rooms {
      var targets := s.run.lobby.rooms[m.room].members;
      DisconnectAllIsMute(s.net, targets, kind);
      var body := MoveResponseBytes(GameMoveResult.Success, game);
      RespondIsMute(s.net, session, GAME_MOVE_RES, body, kind);
      if m.x >= 0 && m.y >= 0 {
        BroadcastIsMute(Respond(s.net, session, GAME_MOVE_RES, body), targets, GAME_MOVE_NTF,
                        GameMoveBytes(Replica.NotificationOf(m)), kind);
      }
    }
  }

  lemma MoveIsMute(s: Server, session: SessionId, body: Bytes, now: Time, kind: nat)
    requires kind != GAME_MOVE_RES && kind != GAME_MOVE_NTF
    ensures Mute(s.net, HandleGameMove(s, session, body, now).net, kind)
  {
    hide Respond, Disconnect, LobbyRules.PlaceStone, GetMoveRequest, MoveResponseBytes, AnnounceMove, SentTo;
    DisconnectIsMute(s.net, session, kind);
    var request := Whole(GetMoveRequest(body));
    if request.Some? {
      var q := request.value;
      var (lobby, o, m) := LobbyRules.PlaceStone(s.run.lobby, session, q.roomId, q.game, q.x, q.y, now);
      if o.Returned? {
        RespondIsMute(s.net, session, GAME_MOVE_RES, MoveResponseBytes(o.value, q.game), kind);
        if m.Some? { AnnounceMoveIsMute(WithLobby(s, lobby), session, q.game, m.value, kind); }
      }
    }
  }

  lemma {:induction false} CheckIsMute(s: Server, order: seq<SessionId>, now: Time, kind: nat)
    ensures Mute(s.net, CheckLoginTimeouts(s, order, now).net, kind)
    decreases |order|
  {
    hide Disconnect, SentTo;
    if order != [] {
      if IsLoginExpired(s, order[0], now) {
        DisconnectIsMute(s.net, order[0], kind);
        CheckIsMute(s.(deadlines := s.deadlines - {order[0]}, net := Disconnect(s.net, order[0])), order[1..], now, kind);
      } else {
        CheckIsMute(s, order[1..], now, kind);
      }
    }
  }
}
