/** The packet processor object of ChatServerFolder/LogicLib/PacketProcessor*.cpp: it
    drives the network, user and room manager objects, specified by the server rules. */
module PacketProcessors {
  import opened Protocol
  import opened Framing
  import opened NetRules
  import opened RoomRules
  import opened UserRules
  import opened LobbyRules
  import opened LobbyInvariant
  import opened LobbyCalls
  import opened WireFormat
  import opened RoomPacketCodec
  import opened GamePacketCodec
  import opened Replica
  import RoomListing
  import opened ServerRules
  import opened ServerInvariant
  import opened ServerPartition
  import opened ServerRuns
  import opened UserManagers
  import opened Rooms
  import opened RoomManagers
  import opened TcpNetworks

  class PacketProcessor {
    const network: TcpNetwork
    const users: UserManager
    const rooms: RoomManager
    const loginTimeout: Time
    var loginDeadlines: map<SessionId, Time>

    /** Logs of the results taken from the room manager and of the start of each game. */
    ghost var popped: seq<FinishedGame>
    ghost var starts: map<GameId, Time>

    ghost predicate Valid()
      reads rooms, rooms.repr
    {
      rooms.users == users && rooms.Valid() && network !in rooms.repr && this !in rooms.repr
    }

    ghost function Model(): Server
      requires rooms.Closed() && rooms.users == users
      reads this, network, users, rooms, rooms.repr
    {
      Server(network.Model(), Run(rooms.Model(), popped, starts), loginDeadlines, loginTimeout)
    }

    /** The source throws when the login timeout is not positive. */
    constructor (network: TcpNetwork, config: RoomConfig, loginTimeout: Time)
      requires IsAcceptedConfig(config) && loginTimeout > 0
      ensures Valid() && this.network == network && this.loginTimeout == loginTimeout
      ensures Model() == Server(network.Model(), Run(Opened(config), [], map[]), map[], loginTimeout)
    {
      this.network, this.loginTimeout := network, loginTimeout;
      var table := new UserManager();
      users := table;
      rooms := new RoomManager(table, config);
      loginDeadlines, popped, starts := map[], [], map[];
    }

    // ----- sending -----

    /** Queue a packet, or drop the connection. */
    method Respond(session: SessionId, id: nat, body: Bytes)
      requires Valid() && id <= UINT16_MAX
      modifies network
      ensures Valid() && Model() == old(Model()).(net := ServerRules.Respond(old(Model()).net, session, id, body))
    {
      hide NetRules.SendPacket, NetRules.Disconnect, RoomManager.Valid, RoomManager.RoomStates;
      var queued := network.SendPacket(session, id, body);
      if !queued {
        network.Disconnect(session);
      }
    }

    method Disconnect(session: SessionId)
      requires Valid()
      modifies network
      ensures Valid() && Model() == old(Model()).(net := NetRules.Disconnect(old(Model()).net, session))
    {
      hide NetRules.Disconnect, RoomManager.Valid, RoomManager.RoomStates;
      network.Disconnect(session);
    }

    method Broadcast(targets: seq<SessionId>, id: nat, body: Bytes)
      requires Valid() && id <= UINT16_MAX
      modifies network
      ensures Valid() && Model() == old(Model()).(net := ServerRules.Broadcast(old(Model()).net, targets, id, body))
    {
      hide ServerRules.Respond, NetRules.IsConnected, RoomManager.Valid, RoomManager.RoomStates;
      ghost var all := ServerRules.Broadcast(network.Model(), targets, id, body);
      assert targets[0..] == targets;
      for i := 0 to |targets|
        invariant Valid() && Model() == old(Model()).(net := network.Model())
        invariant ServerRules.Broadcast(network.Model(), targets[i..], id, body) == all
      {
        assert targets[i..][1..] == targets[i + 1..];
        var connected := network.IsConnected(targets[i]);
        if !connected {
          continue;
        }
        Respond(targets[i], id, body);
      }
    }

    method DisconnectAll(targets: seq<SessionId>)
      requires Valid()
      modifies network
      ensures Valid() && Model() == old(Model()).(net := ServerRules.DisconnectAll(old(Model()).net, targets))
    {
      hide NetRules.Disconnect, RoomManager.Valid, RoomManager.RoomStates;
      ghost var all := ServerRules.DisconnectAll(network.Model(), targets);
      assert targets[0..] == targets;
      for i := 0 to |targets|
        invariant Valid() && Model() == old(Model()).(net := network.Model())
        invariant ServerRules.DisconnectAll(network.Model(), targets[i..]) == all
      {
        assert targets[i..][1..] == targets[i + 1..];
        Disconnect(targets[i]);
      }
    }

    method SendRoomActionResult(session: SessionId, id: nat, result: RoomResult, roomId: RoomId)
      requires Valid() && id <= UINT16_MAX
      modifies network
      ensures Valid()
      ensures Model() == old(Model()).(net := RespondRoomAction(old(Model()).net, session, id, result, roomId))
    {
      Respond(session, id, RoomActionBytes(ActionResponse(result, roomId)));
    }

    method SendGameMoveResult(session: SessionId, id: nat, result: GameMoveResult, game: uint32)
      requires Valid() && id <= UINT16_MAX
      modifies network
      ensures Valid() && Model() == old(Model()).(net := RespondMove(old(Model()).net, session, id, result, game))
    {
      Respond(session, id, MoveResponseBytes(result, game));
    }

    // ----- room notifications -----

    /** The names and marks of the members, or nothing when one is not found at home. */
    method DescribePlayers(room: Room) returns (players: Option<seq<RoomPlayerInfo>>)
      requires Valid()
      ensures players == PlayersOf(Model().run.lobby, room.Model(), room.members)
    {
      hide RoomManager.RoomStates, RoomManager.Valid;
      ghost var lobby, r := Model().run.lobby, room.Model();
      var found: seq<RoomPlayerInfo> := [];
      assert room.members[0..] == room.members;
      WithNoneFirst(PlayersOf(lobby, r, room.members));
      for i := 0 to |room.members|
        invariant PlayersOf(lobby, r, room.members) == WithFirst(found, PlayersOf(lobby, r, room.members[i..]))
      {
        assert room.members[i..][1..] == room.members[i + 1..];
        var user := users.Find(room.members[i]);
        if user == None || user.value.roomId != room.id {
          return None;
        }
        var player := RoomPlayerInfo(user.value.nickname, room.members[i] in room.readyMembers);
        WithFirstTwice(found, player, PlayersOf(lobby, r, room.members[i + 1..]));
        found := found + [player];
      }
      assert found + [] == found;
      players := Some(found);
    }

    method NotifyRoomState(roomId: RoomId)
      requires Valid()
      modifies network
      ensures Valid() && Model() == ServerRules.NotifyRoomState(old(Model()), roomId)
    {
      hide RoomManager.RoomStates, PlayersOf, ValidRoomState, RoomStateBytes, ServerRules.Broadcast, RoomManager.Valid;
      if roomId !in rooms.rooms {
        return;
      }
      var room := rooms.rooms[roomId];
      rooms.StateOf(roomId);
      var host := users.Find(room.host);
      if host == None {
        return;
      }
      var players := DescribePlayers(room);
      if players == None {
        return;
      }
      var notification := RoomStateNotification(
        ToU32(room.id), if room.members == [] then 0 else ToU32(room.gameId), room.phase, ToU8(room.capacity),
        host.value.nickname, players.value);
      var body := EncodeRoomState(notification);
      if body == None {
        return;
      }
      Broadcast(room.members, ROOM_STATE_NTF, body.value);
    }

    method NotifyRoomMember(roomId: RoomId, change: RoomMemberChange, nickname: Bytes)
      requires Valid()
      modifies network
      ensures Valid() && Model() == ServerRules.NotifyRoomMember(old(Model()), roomId, change, nickname)
    {
      hide RoomManager.RoomStates, RoomMemberBytes, ServerRules.Broadcast, RoomManager.Valid;
      if roomId !in rooms.rooms {
        return;
      }
      rooms.StateOf(roomId);
      var notification := RoomMemberNotification(ToU32(roomId), change, nickname);
      if !ValidRoomMember(notification) {
        return;
      }
      Broadcast(rooms.rooms[roomId].members, ROOM_MEMBER_NTF, RoomMemberBytes(notification));
    }

    /** One result, just taken from the queue, is sent to its players. */
    method Announce(f: FinishedGame)
      requires Valid()
      modifies network
      ensures Valid() && Model() == ServerRules.Announce(old(Model()), f)
    {
      hide RoomManager.RoomStates, RoomManager.Valid, IsValidGameEnd, GameEndBytes, ServerRules.Broadcast, ServerRules.DisconnectAll,
        ServerRules.NotifyRoomState;
      var notification := GameEndNotification(ToU32(f.room), ToU32(f.game), f.status, f.reason, ToU32(f.moveCount));
      var body := EncodeGameEnd(notification);
      if body == None {
        DisconnectAll(f.targets);
        return;
      }
      Broadcast(f.targets, GAME_END_NTF, body.value);
      NotifyRoomState(f.room);
    }

    method TakeFinishedGame() returns (f: Option<FinishedGame>)
      requires Valid()
      modifies this`popped, rooms`finished
      ensures Valid()
      ensures var s := old(Model());
              if s.run.lobby.finished == [] then f == None && Model() == s
              else f == Some(s.run.lobby.finished[0]) && Model() == Popped(s)
    {
      hide RoomManager.RoomStates, RoomManager.Valid;
      f := rooms.TryPopFinishedGame();
      if f.Some? {
        popped := popped + [f.value];
      }
    }

    method FlushFinishedGames()
      requires Valid()
      modifies this`popped, network, rooms`finished
      ensures Valid() && Model() == ServerRules.FlushFinishedGames(old(Model()))
    {
      hide RoomManager.RoomStates, RoomManager.Valid, ServerRules.Announce;
      while true
        invariant Valid() && ServerRules.FlushFinishedGames(Model()) == ServerRules.FlushFinishedGames(old(Model()))
        decreases |rooms.finished|
      {
        var finished := TakeFinishedGame();
        if finished == None {
          break;
        }
        Announce(finished.value);
      }
    }

    // ----- connections and logins -----

    method HandleConnected(session: SessionId, occurredAt: Time)
      requires Valid()
      modifies this`loginDeadlines
      ensures Valid() && Model() == ServerRules.HandleConnected(old(Model()), session, occurredAt)
    {
      hide RoomManager.RoomStates, RoomManager.Valid, NetRules.IsConnected;
      var connected := network.IsConnected(session);
      if !connected {
        return;
      }
      loginDeadlines := loginDeadlines[session := occurredAt + loginTimeout];
    }

    method LogIn(session: SessionId, body: Bytes) returns (result: LoginResult)
      requires Valid()
      modifies users
      ensures Valid()
      ensures var s := old(Model()); var (users, answer) := Login(s.run.lobby.users, session, body);
              result == answer && Model() == WithLobby(s, s.run.lobby.(users := users))
    {
      hide RoomManager.RoomStates, RoomManager.Valid, Login;
      result := users.Login(session, body);
    }

    method HandleLogin(session: SessionId, body: Bytes)
      requires Valid()
      modifies this`loginDeadlines, network, users
      ensures Valid() && Model() == ServerRules.HandleLogin(old(Model()), session, body)
    {
      hide RoomManager.RoomStates, RoomManager.Valid, ServerRules.Respond, NetRules.Disconnect, Login;
      if |body| > MAX_BODY_SIZE {
        Disconnect(session);
        return;
      }
      var result := LogIn(session, body);
      if result == LoginResult.Success {
        loginDeadlines := loginDeadlines - {session};
      }
      Respond(session, LOGIN_RES, [LoginResultCode(result)]);
    }

    method RemoveUser(session: SessionId)
      requires Valid()
      modifies users
      ensures Valid()
      ensures var s := old(Model()); Model() == WithLobby(s, s.run.lobby.(users := UserRules.Remove(s.run.lobby.users, session)))
    {
      hide RoomManager.RoomStates, RoomManager.Valid, UserRules.Remove;
      users.Remove(session);
    }

    method HandleDisconnected(session: SessionId, now: Time)
      requires Valid()
      modifies this`loginDeadlines, this`popped, network, users, rooms`rooms, rooms`finished, rooms.repr
      ensures Valid() && Model() == ServerRules.HandleDisconnected(old(Model()), session, now)
    {
      hide RoomManager.RoomStates, RoomManager.Valid, LeaveRoom, UserRules.Remove, ServerRules.FlushFinishedGames,
        ServerRules.NotifyRoomState, ServerRules.NotifyRoomMember;
      loginDeadlines := loginDeadlines - {session};
      var user := users.Find(session);
      if user == None {
        return;
      }
      var oldRoomId, nickname := user.value.roomId, user.value.nickname;
      var result := rooms.LeaveRoom(session, GameEndReason.Disconnected, now);
      if result.Threw? {
        return;
      }
      RemoveUser(session);
      FlushFinishedGames();
      if result.value == RoomResult.Success {
        NotifyRoomMember(oldRoomId, RoomMemberChange.Disconnected, nickname);
        NotifyRoomState(oldRoomId);
      }
    }

    method IsLoginExpired(session: SessionId, now: Time) returns (expired: bool)
      requires Valid()
      ensures expired == ServerRules.IsLoginExpired(Model(), session, now)
    {
      if session !in loginDeadlines {
        return false;
      }
      return now >= loginDeadlines[session];
    }

    /** The hash table is walked in any order. */
    method CheckLoginTimeouts(now: Time) returns (ghost order: seq<SessionId>)
      requires Valid()
      modifies this`loginDeadlines, network
      ensures Valid() && Model() == ServerRules.CheckLoginTimeouts(old(Model()), order, now)
      ensures forall c :: c in old(loginDeadlines) ==> c in order
    {
      hide RoomManager.RoomStates, RoomManager.Valid, NetRules.Disconnect, ServerRules.CheckLoginTimeouts;
      order := [];
      NoLoginsChecked(Model(), now);
      var left := loginDeadlines.Keys;
      while left != {}
        invariant Valid() && Model() == ServerRules.CheckLoginTimeouts(old(Model()), order, now)
        invariant left <= loginDeadlines.Keys && forall c :: c in old(loginDeadlines) ==> c in left || c in order
        decreases |left|
      {
        var session :| session in left;
        left := left - {session};
        OneLoginLater(old(Model()), order, session, now);
        order := order + [session];
        if now < loginDeadlines[session] {
          continue;
        }
        loginDeadlines := loginDeadlines - {session};
        Disconnect(session);
      }
    }

    // ----- room requests -----

    method HandleRoomCreate(session: SessionId, body: Bytes)
      requires Valid()
      modifies network, users, rooms
      ensures Valid() && fresh(rooms.repr - old(rooms.repr))
      ensures Model() == ServerRules.HandleRoomCreate(old(Model()), session, body)
    {
      hide RoomManager.RoomStates, RoomManager.Valid, CreateRoom, DecodedTitle, RespondRoomAction, NetRules.Disconnect,
        ServerRules.NotifyRoomState, ServerRules.NotifyRoomMember;
      var title := DecodedTitle(body);
      if title == None {
        Disconnect(session);
        return;
      }
      var result, roomId := rooms.CreateRoom(session, title.value);
      if result.Threw? {
        return;
      }
      SendRoomActionResult(session, ROOM_CREATE_RES, result.value, roomId);
      if result.value != RoomResult.Success {
        return;
      }
      var user := users.Find(session);
      if user == None {
        return;
      }
      NotifyRoomMember(roomId, RoomMemberChange.Joined, user.value.nickname);
      NotifyRoomState(roomId);
    }

    method HandleRoomList(session: SessionId, body: Bytes)
      requires Valid()
      modifies network
      ensures Valid() && Model() == ServerRules.HandleRoomList(old(Model()), session, body)
    {
      hide RoomManager.RoomStates, RoomManager.Valid, DecodedRoomId, NetRules.Disconnect, ServerRules.Respond, ValidRoomList,
        RoomListBytes, RoomListing.GetRoomsAfter;
      var after := DecodedRoomId(body);
      if after == None {
        Disconnect(session);
        return;
      }
      var response := RoomListResponse(RoomResult.Success, false, []);
      var user := users.Find(session);
      if user == None {
        response := response.(result := RoomResult.UserNotFound);
      } else if user.value.state != UserState.Lobby {
        response := response.(result := RoomResult.AlreadyInRoom);
      } else {
        var page, hasMore := rooms.GetRoomsAfter(after.value);
        response := response.(rooms := page, hasMore := hasMore);
      }
      var encoded := EncodeRoomList(response);
      if encoded == None {
        Disconnect(session);
        return;
      }
      Respond(session, ROOM_LIST_RES, encoded.value);
    }

    method HandleRoomEnter(session: SessionId, body: Bytes)
      requires Valid()
      modifies network, users, rooms.repr
      ensures Valid() && Model() == ServerRules.HandleRoomEnter(old(Model()), session, body)
    {
      hide RoomManager.RoomStates, RoomManager.Valid, EnterRoom, DecodedRoomId, RespondRoomAction, NetRules.Disconnect,
        ServerRules.NotifyRoomState, ServerRules.NotifyRoomMember;
      var roomId := DecodedRoomId(body);
      if roomId == None {
        Disconnect(session);
        return;
      }
      var result := rooms.EnterRoom(session, roomId.value);
      SendRoomActionResult(session, ROOM_ENTER_RES, result, roomId.value);
      if result != RoomResult.Success {
        return;
      }
      var user := users.Find(session);
      if user == None {
        return;
      }
      NotifyRoomMember(roomId.value, RoomMemberChange.Joined, user.value.nickname);
      NotifyRoomState(roomId.value);
    }

    method HandleRoomLeave(session: SessionId, body: Bytes, now: Time)
      requires Valid()
      modifies this`popped, network, users, rooms`rooms, rooms`finished, rooms.repr
      ensures Valid() && Model() == ServerRules.HandleRoomLeave(old(Model()), session, body, now)
    {
      hide RoomManager.RoomStates, RoomManager.Valid, LeaveRoom, RespondRoomAction, NetRules.Disconnect,
        ServerRules.FlushFinishedGames, ServerRules.NotifyRoomState, ServerRules.NotifyRoomMember;
      if body != [] {
        Disconnect(session);
        return;
      }
      var user := users.Find(session);
      if user == None {
        SendRoomActionResult(session, ROOM_LEAVE_RES, RoomResult.UserNotFound, INVALID_ROOM_ID);
        return;
      }
      var oldRoomId, nickname := user.value.roomId, user.value.nickname;
      var result := rooms.LeaveRoom(session, GameEndReason.LeftRoom, now);
      if result.Threw? {
        return;
      }
      FlushFinishedGames();
      SendRoomActionResult(session, ROOM_LEAVE_RES, result.value, oldRoomId);
      if result.value == RoomResult.Success {
        NotifyRoomMember(oldRoomId, RoomMemberChange.Left, nickname);
        NotifyRoomState(oldRoomId);
      }
    }

    method HandleRoomReady(session: SessionId, body: Bytes)
      requires Valid()
      modifies network, rooms.repr
      ensures Valid() && Model() == ServerRules.HandleRoomReady(old(Model()), session, body)
    {
      hide RoomManager.RoomStates, RoomManager.Valid, LobbyRules.SetReady, RespondRoomAction, NetRules.Disconnect,
        ServerRules.NotifyRoomState, DecodedReady;
      var ready := DecodedReady(body);
      if ready == None {
        Disconnect(session);
        return;
      }
      var result := rooms.SetReady(session, ready.value);
      var roomId := INVALID_ROOM_ID;
      if result == RoomResult.Success {
        var user := users.Find(session);
        roomId := if user.Some? then user.value.roomId else INVALID_ROOM_ID;
      }
      SendRoomActionResult(session, ROOM_READY_RES, result, roomId);
      if result == RoomResult.Success {
        NotifyRoomState(roomId);
      }
    }

    method StartNoted(session: SessionId, now: Time) returns (result: RoomResult)
      requires Valid()
      modifies this`starts, rooms`lastGameId, rooms.repr
      ensures Valid()
      ensures var s := old(Model()); var (lobby, answer) := LobbyRules.StartGame(s.run.lobby, session, now);
              result == answer && Model() == s.(run := s.run.(lobby := lobby, starts := Noted(s.run, session, now)))
    {
      hide RoomManager.RoomStates, RoomManager.Valid, LobbyRules.StartGame, Noted;
      starts := Noted(Model().run, session, now);
      result := rooms.StartGame(session, now);
    }

    method HandleRoomStart(session: SessionId, body: Bytes, now: Time)
      requires Valid()
      modifies this`starts, network, rooms`lastGameId, rooms.repr
      ensures Valid() && Model() == ServerRules.HandleRoomStart(old(Model()), session, body, now)
    {
      hide RoomManager.RoomStates, RoomManager.Valid, LobbyRules.StartGame, RespondRoomAction, NetRules.Disconnect,
        ServerRules.NotifyRoomState, Noted;
      if body != [] {
        Disconnect(session);
        return;
      }
      var result := StartNoted(session, now);
      var roomId := INVALID_ROOM_ID;
      if result == RoomResult.Success {
        var user := users.Find(session);
        roomId := if user.Some? then user.value.roomId else INVALID_ROOM_ID;
      }
      SendRoomActionResult(session, ROOM_START_RES, result, roomId);
      if result == RoomResult.Success {
        NotifyRoomState(roomId);
      }
    }

    // ----- game requests -----

    method HandleGameMove(session: SessionId, body: Bytes, now: Time)
      requires Valid()
      modifies network, rooms`finished, rooms.repr
      ensures Valid() && Model() == ServerRules.HandleGameMove(old(Model()), session, body, now)
    {
      hide RoomManager.RoomStates, RoomManager.Valid, LobbyRules.PlaceStone, RespondMove, NetRules.Disconnect, GetMoveRequest,
        ServerRules.AnnounceMove;
      var request := Whole(GetMoveRequest(body));
      if request == None {
        Disconnect(session);
        return;
      }
      var q := request.value;
      var result, accepted := rooms.PlaceStone(session, q.roomId, q.game, q.x, q.y, now);
      if result.Threw? {
        return;
      }
      if result.value != GameMoveResult.Success || accepted == None {
        SendGameMoveResult(session, GAME_MOVE_RES, result.value, q.game);
        return;
      }
      AnnounceMove(session, q.game, accepted.value);
    }

    /** The rest of HandleGameMove, once a move has been accepted. */
    method AnnounceMove(session: SessionId, game: uint32, m: AcceptedMove)
      requires Valid()
      modifies network
      ensures Valid() && Model() == ServerRules.AnnounceMove(old(Model()), session, game, m)
    {
      hide RoomManager.RoomStates, RoomManager.Valid, RespondMove, NetRules.Disconnect, IsValidGameMove,
        ServerRules.Broadcast, ServerRules.DisconnectAll, GameMoveBytes, NotificationOf;
      if m.room !in rooms.rooms {
        Disconnect(session);
        return;
      }
      rooms.StateOf(m.room);
      var targets := rooms.rooms[m.room].members;
      if m.x < 0 || m.y < 0 {
        DisconnectAll(targets);
        return;
      }
      var encoded := EncodeGameMove(NotificationOf(m));
      if encoded == None {
        DisconnectAll(targets);
        return;
      }
      SendGameMoveResult(session, GAME_MOVE_RES, GameMoveResult.Success, game);
      Broadcast(targets, GAME_MOVE_NTF, encoded.value);
    }

    method HandleGameResign(session: SessionId, body: Bytes, now: Time)
      requires Valid()
      modifies network, rooms`finished, rooms.repr
      ensures Valid() && Model() == ServerRules.HandleGameResign(old(Model()), session, body, now)
    {
      hide RoomManager.RoomStates, RoomManager.Valid, LobbyRules.Resign, RespondMove, NetRules.Disconnect, GetResignRequest;
      var request := Whole(GetResignRequest(body));
      if request == None {
        Disconnect(session);
        return;
      }
      var result := rooms.Resign(session, request.value.0, request.value.1, now);
      if result.Threw? {
        return;
      }
      SendGameMoveResult(session, GAME_RESIGN_RES, result.value, request.value.1);
    }

    // ----- echo and chat -----

    method HandleEcho(session: SessionId, body: Bytes)
      requires Valid()
      modifies network
      ensures Valid() && Model() == ServerRules.HandleEcho(old(Model()), session, body)
    {
      Respond(session, ECHO_RES, body);
    }

    method SendChatResult(session: SessionId, result: ChatResult) returns (queued: bool)
      requires Valid()
      modifies network
      ensures Valid()
      ensures var (n, ok) := ServerRules.SendChatResult(old(Model()).net, session, result);
              Model() == old(Model()).(net := n) && queued == ok
    {
      hide NetRules.SendPacket, NetRules.Disconnect, RoomManager.Valid, RoomManager.RoomStates;
      queued := network.SendPacket(session, CHAT_RES, [ChatResultCode(result)]);
      if !queued {
        network.Disconnect(session);
      }
    }

    method HandleChat(session: SessionId, body: Bytes)
      requires Valid()
      modifies network
      ensures Valid() && Model() == ServerRules.HandleChat(old(Model()), session, body)
    {
      hide RoomManager.RoomStates, RoomManager.Valid, ServerRules.SendChatResult, NetRules.Disconnect, ServerRules.Broadcast,
        IsValidChatMessage, ChatBytes;
      var user := users.Find(session);
      if user == None {
        var _ := SendChatResult(session, ChatResult.NotLoggedIn);
        return;
      }
      if user.value.state != UserState.InRoom {
        var _ := SendChatResult(session, ChatResult.NotInRoom);
        return;
      }
      var roomId := user.value.roomId;
      if roomId in rooms.rooms { rooms.StateOf(roomId); }
      if roomId !in rooms.rooms || !rooms.rooms[roomId].Contains(session) {
        var _ := SendChatResult(session, ChatResult.StateMismatch);
        return;
      }
      if |body| > MAX_BODY_SIZE {
        Disconnect(session);
        return;
      }
      if !IsValidChatMessage(rooms.config, body) {
        var _ := SendChatResult(session, ChatResult.InvalidMessage);
        return;
      }
      if !ValidChat(user.value.nickname, body) {
        Disconnect(session);
        return;
      }
      var first := SendChatResult(session, ChatResult.Success);
      if !first {
        return;
      }
      var targets := rooms.rooms[roomId].members;
      var second := SendChatResult(session, ChatResult.Success);
      if !second {
        return;
      }
      Broadcast(targets, CHAT_NTF, ChatBytes(user.value.nickname, body));
    }

    // ----- dispatch and loop -----

    method ProcessPacket(session: SessionId, packet: Packet, now: Time)
      requires Valid()
      modifies this, network, users, rooms, rooms.repr
      ensures Valid() && fresh(rooms.repr - old(rooms.repr))
      ensures Model() == ServerRules.ProcessPacket(old(Model()), session, packet, now)
    {
      hide RoomManager.RoomStates, RoomManager.Valid, ServerRules.HandleLogin, ServerRules.HandleEcho, ServerRules.HandleChat,
        ServerRules.HandleRoomCreate, ServerRules.HandleRoomList, ServerRules.HandleRoomEnter, ServerRules.HandleRoomLeave,
        ServerRules.HandleRoomReady, ServerRules.HandleRoomStart, ServerRules.HandleGameMove, ServerRules.HandleGameResign,
        NetRules.Disconnect;
      if packet.id == LOGIN_REQ {
        HandleLogin(session, packet.body);
      } else if packet.id == ECHO_REQ {
        HandleEcho(session, packet.body);
      } else if packet.id == CHAT_REQ {
        HandleChat(session, packet.body);
      } else if packet.id == ROOM_CREATE_REQ {
        HandleRoomCreate(session, packet.body);
      } else if packet.id == ROOM_LIST_REQ {
        HandleRoomList(session, packet.body);
      } else if packet.id == ROOM_ENTER_REQ {
        HandleRoomEnter(session, packet.body);
      } else if packet.id == ROOM_LEAVE_REQ {
        HandleRoomLeave(session, packet.body, now);
      } else if packet.id == ROOM_READY_REQ {
        HandleRoomReady(session, packet.body);
      } else if packet.id == ROOM_START_REQ {
        HandleRoomStart(session, packet.body, now);
      } else if packet.id == GAME_MOVE_REQ {
        HandleGameMove(session, packet.body, now);
      } else if packet.id == GAME_RESIGN_REQ {
        HandleGameResign(session, packet.body, now);
      } else {
        Disconnect(session);
      }
    }

    method HandleEvent(e: Event, check: Time, now: Time)
      requires Valid()
      modifies this, network, users, rooms, rooms.repr
      ensures Valid() && fresh(rooms.repr - old(rooms.repr))
      ensures Model() == ServerRules.HandleEvent(old(Model()), e, check, now)
    {
      hide RoomManager.RoomStates, RoomManager.Valid, ServerRules.HandleConnected, ServerRules.HandleDisconnected,
        ServerRules.ProcessPacket, NetRules.Disconnect, NetRules.IsConnected;
      match e
      case Connected(session, occurredAt) => HandleConnected(session, occurredAt);
      case Arrived(session, packet) =>
        var connected := network.IsConnected(session);
        if !connected {
          return;
        }
        var expired := IsLoginExpired(session, check);
        if expired {
          loginDeadlines := loginDeadlines - {session};
          Disconnect(session);
          return;
        }
        ProcessPacket(session, packet, now);
      case Disconnected(session) => HandleDisconnected(session, now);
    }

    /** Both walks of the room table meet every room, since nothing throws. */
    method SweepGames(now: Time) returns (ghost order: seq<RoomId>)
      requires Valid() && Sound(Model())
      modifies this`popped, network, rooms`finished, rooms.repr
      ensures Valid() && Model() == ServerRules.SweepGames(old(Model()), order, now)
      ensures MeetsRooms(old(Model()), order)
    {
      hide RoomManager.RoomStates, RoomManager.Valid, UpdateTimeouts, ServerRules.FlushFinishedGames, RunInv;
      ghost var run := Model().run;
      var o;
      o, order := rooms.UpdateTimeouts(now);
      UpdateTimeoutsKeepsRunInv(run, order, now);
      FlushFinishedGames();
    }

    /** Drains the event queue. The loop ends because every round takes one from the events
        and connections together; clock gives its readings. */
    method Drain(clock: nat -> Reading)
      requires Valid() && ServerInv(Model())
      modifies this, network, users, rooms, rooms.repr
      ensures Valid() && fresh(rooms.repr - old(rooms.repr))
      ensures Model() == Drained(old(Model()), clock)
    {
      hide RoomManager.RoomStates, RoomManager.Valid, ServerInv, Rounds, Readings, ServerRules.HandleEvent;
      ghost var start := Model();
      var k := 0;
      while true
        invariant Valid() && fresh(rooms.repr - old(rooms.repr)) && ServerInv(Model())
        invariant Rounds(Model(), Readings(clock, k, Measure(Model().net))) == Drained(start, clock)
        decreases Measure(Model().net)
      {
        ghost var before := Model();
        var e := network.TryPopEvent();
        if e == None {
          NothingToDrain(before, Readings(clock, k, Measure(before.net)));
          break;
        }
        OneRound(before, clock, k);
        HandleEvent(e.value, clock(k).check, clock(k).now);
        k := k + 1;
      }
    }

    /** One call of Update; the clock readings are parameters. */
    method Update(firstNow: Time, clock: nat -> Reading, firstCheck: Time, secondCheck: Time, lastNow: Time)
      returns (ghost input: UpdateInput)
      requires Valid() && ServerInv(Model())
      modifies this, network, users, rooms, rooms.repr
      ensures Valid() && fresh(rooms.repr - old(rooms.repr))
      ensures Model() == ServerRuns.Update(old(Model()), input) && ServerInv(Model())
      ensures MeetsAll(old(Model()), input)
      ensures input.firstNow == firstNow && input.readings == clock && input.firstCheck == firstCheck
      ensures input.secondCheck == secondCheck && input.lastNow == lastNow
    {
      hide RoomManager.RoomStates, RoomManager.Valid, ServerInv, Sound, ServerRules.SweepGames, ServerRules.CheckLoginTimeouts,
        Drained;
      ghost var start := Model();
      InvIsSound(start);
      ghost var firstRooms := SweepGames(firstNow);
      SweepGamesKeeps(start, firstRooms, firstNow);
      Drain(clock);
      ghost var firstLogins := CheckLoginTimeouts(firstCheck);
      ghost var secondLogins := CheckLoginTimeouts(secondCheck);
      ghost var u := UpdateInput(firstRooms, firstNow, clock, firstLogins, firstCheck, secondLogins, secondCheck, [], lastNow);
      UpdateKeeps(start, u);
      InvIsSound(Model());
      ghost var lastRooms := SweepGames(lastNow);
      input := u.(lastRooms := lastRooms);
      UpdateKeeps(start, input);
    }
  }

  lemma InvIsSound(s: Server)
    requires ServerInv(s)
    ensures Sound(s)
  {
  }

  lemma NoLoginsChecked(s: Server, now: Time)
    ensures ServerRules.CheckLoginTimeouts(s, [], now) == s
  {
  }

  lemma {:induction false} OneLoginLater(s: Server, order: seq<SessionId>, c: SessionId, now: Time)
    ensures var t := ServerRules.CheckLoginTimeouts(s, order, now);
            ServerRules.CheckLoginTimeouts(s, order + [c], now) ==
              if ServerRules.IsLoginExpired(t, c, now)
              then t.(deadlines := t.deadlines - {c}, net := NetRules.Disconnect(t.net, c)) else t
    decreases |order|
  {
    hide NetRules.Disconnect;
    if order == [] {
      assert [c][1..] == [];
    } else {
      assert (order + [c])[1..] == order[1..] + [c];
      if ServerRules.IsLoginExpired(s, order[0], now) {
        OneLoginLater(s.(deadlines := s.deadlines - {order[0]}, net := NetRules.Disconnect(s.net, order[0])), order[1..], c, now);
      } else {
        OneLoginLater(s, order[1..], c, now);
      }
    }
  }

  function WithFirst(found: seq<RoomPlayerInfo>, more: Option<seq<RoomPlayerInfo>>): Option<seq<RoomPlayerInfo>> {
    if more == None then None else Some(found + more.value)
  }

  lemma WithNoneFirst(more: Option<seq<RoomPlayerInfo>>)
    ensures WithFirst([], more) == more
  {
    if more.Some? { assert [] + more.value == more.value; }
  }

  lemma WithFirstTwice(found: seq<RoomPlayerInfo>, next: RoomPlayerInfo, more: Option<seq<RoomPlayerInfo>>)
    ensures WithFirst(found, WithFirst([next], more)) == WithFirst(found + [next], more)
  {
    if more.Some? { assert found + ([next] + more.value) == found + [next] + more.value; }
  }
}
