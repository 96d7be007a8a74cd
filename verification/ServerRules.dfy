/** The packet processor as a value: what handling one event, expiring logins and
    flushing results do to the network and the lobby (PacketProcessor*.cpp). */
module ServerRules {
  import opened Protocol
  import opened Framing
  import opened NetRules
  import opened RoomRules
  import opened UserRules
  import opened LobbyRules
  import opened LobbyInvariant
  import opened LobbyCalls
  import opened WireFormat
  import opened RoomPacketCodec
  import opened GamePacketCodec
  import opened Replica
  import RoomListing

  /** The run carries the lobby and its logs. */
  datatype Server = Server(net: NetState, run: Run, deadlines: map<SessionId, Time>, loginTimeout: Time)

  function WithLobby(s: Server, lobby: LobbyState): Server {
    s.(run := s.run.(lobby := lobby))
  }

  // ----- sending -----

  /** Queue a packet, or drop the connection. */
  function Respond(n: NetState, session: SessionId, id: nat, body: Bytes): NetState
    requires id <= UINT16_MAX
  {
    var (queued, ok) := SendPacket(n, session, id, body);
    if ok then queued else Disconnect(queued, session)
  }

  /** The same packet to every target that is still connected. */
  function Broadcast(n: NetState, targets: seq<SessionId>, id: nat, body: Bytes): NetState
    requires id <= UINT16_MAX
    decreases |targets|
  {
    if targets == [] then n
    else
      var first := if IsConnected(n, targets[0]) then Respond(n, targets[0], id, body) else n;
      Broadcast(first, targets[1..], id, body)
  }

  function DisconnectAll(n: NetState, targets: seq<SessionId>): NetState
    decreases |targets|
  {
    if targets == [] then n else DisconnectAll(Disconnect(n, targets[0]), targets[1..])
  }

  /** The room ID goes out with successes only. */
  function ActionResponse(result: RoomResult, roomId: RoomId): RoomActionResponse {
    RoomActionResponse(result, if result == RoomResult.Success then ToU32(roomId) else 0)
  }

  function RespondRoomAction(n: NetState, session: SessionId, id: nat, result: RoomResult, roomId: RoomId): NetState
    requires id <= UINT16_MAX
  {
    Respond(n, session, id, RoomActionBytes(ActionResponse(result, roomId)))
  }

  // ----- room snapshots -----

  function PlayersOf(s: LobbyState, room: RoomState, members: seq<SessionId>): Option<seq<RoomPlayerInfo>> {
    if members == [] then Some([])
    else if members[0] !in s.users.bySession || s.users.bySession[members[0]].roomId != room.id then None
    else
      var more := PlayersOf(s, room, members[1..]);
      if more == None then None
      else Some([RoomPlayerInfo(s.users.bySession[members[0]].nickname, members[0] in room.ready)] + more.value)
  }

  /** The notification about a room; None when host or members are not found as users of the room. */
  function SnapshotOf(s: LobbyState, room: RoomState): Option<RoomStateNotification> {
    var players := PlayersOf(s, room, room.members);
    if room.host !in s.users.bySession || players == None then None
    else Some(RoomStateNotification(ToU32(room.id), if room.members == [] then 0 else ToU32(room.gameId), room.phase,
                                    ToU8(room.capacity), s.users.bySession[room.host].nickname, players.value))
  }

  function NotifyRoomState(s: Server, roomId: RoomId): Server {
    var lobby := s.run.lobby;
    if roomId !in lobby.rooms then s
    else
      var room := lobby.rooms[roomId];
      var snapshot := SnapshotOf(lobby, room);
      if snapshot == None || !ValidRoomState(snapshot.value) then s
      else s.(net := Broadcast(s.net, room.members, ROOM_STATE_NTF, RoomStateBytes(snapshot.value)))
  }

  function NotifyRoomMember(s: Server, roomId: RoomId, change: RoomMemberChange, nickname: Bytes): Server {
    if roomId !in s.run.lobby.rooms then s
    else
      var p := RoomMemberNotification(ToU32(roomId), change, nickname);
      if !ValidRoomMember(p) then s
      else s.(net := Broadcast(s.net, s.run.lobby.rooms[roomId].members, ROOM_MEMBER_NTF, RoomMemberBytes(p)))
  }

  // ----- finished games -----

  function EndNotificationOf(f: FinishedGame): GameEndNotification {
    GameEndNotification(ToU32(f.room), ToU32(f.game), f.status, f.reason, ToU32(f.moveCount))
  }

  /** Announce one record taken from the queue. */
  function Announce(s: Server, f: FinishedGame): Server {
    var p := EndNotificationOf(f);
    if !IsValidGameEnd(p) then s.(net := DisconnectAll(s.net, f.targets))
    else NotifyRoomState(s.(net := Broadcast(s.net, f.targets, GAME_END_NTF, GameEndBytes(p))), f.room)
  }

  function Popped(s: Server): Server
    requires s.run.lobby.finished != []
  {
    s.(run := s.run.(lobby := TryPopFinishedGame(s.run.lobby).0, popped := s.run.popped + [s.run.lobby.finished[0]]))
  }

  function FlushFinishedGames(s: Server): Server
    decreases |s.run.lobby.finished|
  {
    if s.run.lobby.finished == [] then s
    else
      var f := s.run.lobby.finished[0];
      FlushFinishedGames(Announce(Popped(s), f))
  }

  // ----- connections and logins -----

  function HandleConnected(s: Server, session: SessionId, occurredAt: Time): Server {
    if !IsConnected(s.net, session) then s
    else s.(deadlines := s.deadlines[session := occurredAt + s.loginTimeout])
  }

  function LoginResultCode(r: LoginResult): byte {
    match r case Success => 0 case InvalidNickname => 1 case NicknameInUse => 2 case AlreadyLoggedIn => 3
  }

  function HandleLogin(s: Server, session: SessionId, body: Bytes): Server {
    if |body| > MAX_BODY_SIZE then s.(net := Disconnect(s.net, session))
    else
      var (users, result) := Login(s.run.lobby.users, session, body);
      var logged := WithLobby(s, s.run.lobby.(users := users));
      logged.(deadlines := if result == LoginResult.Success then s.deadlines - {session} else s.deadlines,
              net := Respond(s.net, session, LOGIN_RES, [LoginResultCode(result)]))
  }

  function HandleDisconnected(s: Server, session: SessionId, now: Time): Server {
    var s0 := s.(deadlines := s.deadlines - {session});
    var lobby := s.run.lobby;
    if session !in lobby.users.bySession then s0
    else
      var user := lobby.users.bySession[session];
      var (left, o) := LeaveRoom(lobby, session, GameEndReason.Disconnected, now);
      if o.Threw? then WithLobby(s0, left)
      else
        var s1 := FlushFinishedGames(WithLobby(s0, left.(users := Remove(left.users, session))));
        if o.value != RoomResult.Success then s1
        else NotifyRoomState(NotifyRoomMember(s1, user.roomId, RoomMemberChange.Disconnected, user.nickname), user.roomId)
  }

  predicate IsLoginExpired(s: Server, session: SessionId, now: Time) {
    session in s.deadlines && now >= s.deadlines[session]
  }

  /** The order in which the hash table of deadlines is walked is a parameter. */
  function CheckLoginTimeouts(s: Server, order: seq<SessionId>, now: Time): Server
    decreases |order|
  {
    if order == [] then s
    else if !IsLoginExpired(s, order[0], now) then CheckLoginTimeouts(s, order[1..], now)
    else CheckLoginTimeouts(s.(deadlines := s.deadlines - {order[0]}, net := Disconnect(s.net, order[0])), order[1..], now)
  }

  // ----- room requests -----

  function HandleRoomCreate(s: Server, session: SessionId, body: Bytes): Server {
    var title := DecodedTitle(body);
    if title == None then s.(net := Disconnect(s.net, session))
    else
      var (lobby, o, roomId) := CreateRoom(s.run.lobby, session, title.value);
      if o.Threw? then WithLobby(s, lobby)
      else
        var s1 := WithLobby(s, lobby).(net := RespondRoomAction(s.net, session, ROOM_CREATE_RES, o.value, roomId));
        if o.value != RoomResult.Success || session !in lobby.users.bySession then s1
        else NotifyRoomState(NotifyRoomMember(s1, roomId, RoomMemberChange.Joined, lobby.users.bySession[session].nickname), roomId)
  }

  ghost function RoomListFor(s: LobbyState, session: SessionId, after: RoomId): RoomListResponse {
    if session !in s.users.bySession then RoomListResponse(RoomResult.UserNotFound, false, [])
    else if s.users.bySession[session].state != UserState.Lobby then RoomListResponse(RoomResult.AlreadyInRoom, false, [])
    else
      var (rooms, hasMore) := RoomListing.GetRoomsAfter(s.rooms, after);
      RoomListResponse(RoomResult.Success, hasMore, rooms)
  }

  ghost function HandleRoomList(s: Server, session: SessionId, body: Bytes): Server {
    var after := DecodedRoomId(body);
    if after == None then s.(net := Disconnect(s.net, session))
    else
      var response := RoomListFor(s.run.lobby, session, after.value);
      if !ValidRoomList(response) then s.(net := Disconnect(s.net, session))
      else s.(net := Respond(s.net, session, ROOM_LIST_RES, RoomListBytes(response)))
  }

  function HandleRoomEnter(s: Server, session: SessionId, body: Bytes): Server {
    var roomId := DecodedRoomId(body);
    if roomId == None then s.(net := Disconnect(s.net, session))
    else
      var (lobby, result) := EnterRoom(s.run.lobby, session, roomId.value);
      var s1 := WithLobby(s, lobby).(net := RespondRoomAction(s.net, session, ROOM_ENTER_RES, result, roomId.value));
      if result != RoomResult.Success || session !in lobby.users.bySession then s1
      else
        var nickname := lobby.users.bySession[session].nickname;
        NotifyRoomState(NotifyRoomMember(s1, roomId.value, RoomMemberChange.Joined, nickname), roomId.value)
  }

  function HandleRoomLeave(s: Server, session: SessionId, body: Bytes, now: Time): Server {
    var lobby := s.run.lobby;
    if body != [] then s.(net := Disconnect(s.net, session))
    else if session !in lobby.users.bySession then
      s.(net := RespondRoomAction(s.net, session, ROOM_LEAVE_RES, RoomResult.UserNotFound, INVALID_ROOM_ID))
    else
      var user := lobby.users.bySession[session];
      var (left, o) := LeaveRoom(lobby, session, GameEndReason.LeftRoom, now);
      if o.Threw? then WithLobby(s, left)
      else
        var s1 := FlushFinishedGames(WithLobby(s, left));
        var s2 := s1.(net := RespondRoomAction(s1.net, session, ROOM_LEAVE_RES, o.value, user.roomId));
        if o.value != RoomResult.Success then s2
        else NotifyRoomState(NotifyRoomMember(s2, user.roomId, RoomMemberChange.Left, user.nickname), user.roomId)
  }

  /** Where a user is after a successful room request. */
  function RoomOf(s: LobbyState, session: SessionId): RoomId {
    if session in s.users.bySession then s.users.bySession[session].roomId else INVALID_ROOM_ID
  }

  function HandleRoomReady(s: Server, session: SessionId, body: Bytes): Server {
    var ready := DecodedReady(body);
    if ready == None then s.(net := Disconnect(s.net, session))
    else
      var (lobby, result) := LobbyRules.SetReady(s.run.lobby, session, ready.value);
      var roomId := if result == RoomResult.Success then RoomOf(lobby, session) else INVALID_ROOM_ID;
      var s1 := WithLobby(s, lobby).(net := RespondRoomAction(s.net, session, ROOM_READY_RES, result, roomId));
      if result == RoomResult.Success then NotifyRoomState(s1, roomId) else s1
  }

  function HandleRoomStart(s: Server, session: SessionId, body: Bytes, now: Time): Server {
    if body != [] then s.(net := Disconnect(s.net, session))
    else
      var (lobby, result) := LobbyRules.StartGame(s.run.lobby, session, now);
      var roomId := if result == RoomResult.Success then RoomOf(lobby, session) else INVALID_ROOM_ID;
      var s1 := s.(run := s.run.(lobby := lobby, starts := Noted(s.run, session, now)),
                   net := RespondRoomAction(s.net, session, ROOM_START_RES, result, roomId));
      if result == RoomResult.Success then NotifyRoomState(s1, roomId) else s1
  }

  // ----- game requests -----

  function RespondMove(n: NetState, session: SessionId, id: nat, result: GameMoveResult, game: uint32): NetState
    requires id <= UINT16_MAX
  {
    Respond(n, session, id, MoveResponseBytes(result, game))
  }

  ghost function HandleGameMove(s: Server, session: SessionId, body: Bytes, now: Time): Server {
    var request := Whole(GetMoveRequest(body));
    if request == None then s.(net := Disconnect(s.net, session))
    else
      var q := request.value;
      var (lobby, o, m) := LobbyRules.PlaceStone(s.run.lobby, session, q.roomId, q.game, q.x, q.y, now);
      var s1 := WithLobby(s, lobby);
      if o.Threw? then s1
      else if o.value != GameMoveResult.Success || m == None then
        s1.(net := RespondMove(s.net, session, GAME_MOVE_RES, o.value, q.game))
      else AnnounceMove(s1, session, q.game, m.value)
  }

  /** The rest of HandleGameMove, once a move has been accepted. */
  function AnnounceMove(s: Server, session: SessionId, game: uint32, m: AcceptedMove): Server {
    if m.room !in s.run.lobby.rooms then s.(net := Disconnect(s.net, session))
    else
      var targets := s.run.lobby.rooms[m.room].members;
      if m.x < 0 || m.y < 0 || !IsValidGameMove(NotificationOf(m)) then s.(net := DisconnectAll(s.net, targets))
      else
        var responded := RespondMove(s.net, session, GAME_MOVE_RES, GameMoveResult.Success, game);
        s.(net := Broadcast(responded, targets, GAME_MOVE_NTF, GameMoveBytes(NotificationOf(m))))
  }

  function HandleGameResign(s: Server, session: SessionId, body: Bytes, now: Time): Server {
    var request := Whole(GetResignRequest(body));
    if request == None then s.(net := Disconnect(s.net, session))
    else
      var (lobby, o) := LobbyRules.Resign(s.run.lobby, session, request.value.0, request.value.1, now);
      if o.Threw? then WithLobby(s, lobby)
      else WithLobby(s, lobby).(net := RespondMove(s.net, session, GAME_RESIGN_RES, o.value, request.value.1))
  }

  // ----- echo and chat -----

  function HandleEcho(s: Server, session: SessionId, body: Bytes): Server {
    s.(net := Respond(s.net, session, ECHO_RES, body))
  }

  predicate IsValidChatMessage(config: RoomConfig, message: Bytes) {
    && 0 < |message| <= MAX_CHAT_MESSAGE_BYTES
    && (forall i :: 0 <= i < |message| ==> IsTitleByte(message[i]))
    && (exists i :: 0 <= i < |message| && message[i] != ' ' as int)
    && config.isUtf8(message)
  }

  function ChatResultCode(r: ChatResult): byte {
    match r case Success => 0 case NotLoggedIn => 1 case InvalidMessage => 2 case NotInRoom => 3 case StateMismatch => 4
  }

  /** The network afterwards and whether the result was queued. */
  function SendChatResult(n: NetState, session: SessionId, result: ChatResult): (NetState, bool) {
    var (queued, ok) := SendPacket(n, session, CHAT_RES, [ChatResultCode(result)]);
    (if ok then queued else Disconnect(queued, session), ok)
  }

  function ChatBytes(nickname: Bytes, message: Bytes): Bytes {
    [|nickname| % 256] + nickname + UInt16Bytes(|message| % 0x1_0000) + message
  }

  /** Names and messages of the encoder's range. */
  predicate ValidChat(nickname: Bytes, message: Bytes) {
    0 < |nickname| <= MAX_NICKNAME_BYTES && 0 < |message| <= MAX_CHAT_MESSAGE_BYTES
  }

  /** The result is sent to the sender twice, as in the source. */
  function HandleChat(s: Server, session: SessionId, body: Bytes): Server {
    var lobby := s.run.lobby;
    if session !in lobby.users.bySession then s.(net := SendChatResult(s.net, session, ChatResult.NotLoggedIn).0)
    else
      var user := lobby.users.bySession[session];
      if user.state != UserState.InRoom then s.(net := SendChatResult(s.net, session, ChatResult.NotInRoom).0)
      else if user.roomId !in lobby.rooms || session !in lobby.rooms[user.roomId].members then
        s.(net := SendChatResult(s.net, session, ChatResult.StateMismatch).0)
      else if |body| > MAX_BODY_SIZE then s.(net := Disconnect(s.net, session))
      else if !IsValidChatMessage(lobby.config, body) then
        s.(net := SendChatResult(s.net, session, ChatResult.InvalidMessage).0)
      else if !ValidChat(user.nickname, body) then s.(net := Disconnect(s.net, session))
      else
        var (n1, first) := SendChatResult(s.net, session, ChatResult.Success);
        if !first then s.(net := n1)
        else
          var (n2, second) := SendChatResult(n1, session, ChatResult.Success);
          if !second then s.(net := n2)
          else s.(net := Broadcast(n2, lobby.rooms[user.roomId].members, CHAT_NTF, ChatBytes(user.nickname, body)))
  }

  // ----- dispatch -----

  ghost function ProcessPacket(s: Server, session: SessionId, p: Packet, now: Time): Server {
    if p.id == LOGIN_REQ then HandleLogin(s, session, p.body)
    else if p.id == ECHO_REQ then HandleEcho(s, session, p.body)
    else if p.id == CHAT_REQ then HandleChat(s, session, p.body)
    else if p.id == ROOM_CREATE_REQ then HandleRoomCreate(s, session, p.body)
    else if p.id == ROOM_LIST_REQ then HandleRoomList(s, session, p.body)
    else if p.id == ROOM_ENTER_REQ then HandleRoomEnter(s, session, p.body)
    else if p.id == ROOM_LEAVE_REQ then HandleRoomLeave(s, session, p.body, now)
    else if p.id == ROOM_READY_REQ then HandleRoomReady(s, session, p.body)
    else if p.id == ROOM_START_REQ then HandleRoomStart(s, session, p.body, now)
    else if p.id == GAME_MOVE_REQ then HandleGameMove(s, session, p.body, now)
    else if p.id == GAME_RESIGN_REQ then HandleGameResign(s, session, p.body, now)
    else s.(net := Disconnect(s.net, session))
  }

  /** One event that has just been popped; check and now are the two clock readings. */
  ghost function HandleEvent(s: Server, e: Event, check: Time, now: Time): Server {
    match e
    case Connected(session, occurredAt) => HandleConnected(s, session, occurredAt)
    case Arrived(session, packet) =>
      if !IsConnected(s.net, session) then s
      else if IsLoginExpired(s, session, check) then
        s.(deadlines := s.deadlines - {session}, net := Disconnect(s.net, session))
      else ProcessPacket(s, session, packet, now)
    case Disconnected(session) => HandleDisconnected(s, session, now)
  }

  /** One round of the draining loop of Update; nothing when the queue is empty. */
  ghost function Round(s: Server, check: Time, now: Time): Server {
    match TryPopEvent(s.net)
    case (_, None) => s
    case (rest, Some(e)) => HandleEvent(s.(net := rest), e, check, now)
  }

  /** The timeouts and results at the start and at the end of Update. */
  function SweepGames(s: Server, order: seq<RoomId>, now: Time): Server {
    FlushFinishedGames(WithLobby(s, UpdateTimeouts(s.run.lobby, order, now).0))
  }
}
