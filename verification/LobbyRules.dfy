/** Users, rooms and running games together as one value: what each call of
    RoomManager.cpp does, branch by branch. */
module LobbyRules {
  import opened Protocol
  import opened OmokRules
  import opened RoomRules
  import opened UserRules

  /** isUtf8 stands for the operating system's UTF-8 check. */
  datatype RoomConfig = RoomConfig(maxRooms: nat, capacity: nat, turnTime: Time, isUtf8: Bytes -> bool)

  datatype LobbyState = LobbyState(
    config: RoomConfig, users: UserTable, rooms: map<RoomId, RoomState>,
    lastRoomId: RoomId, lastGameId: GameId, finished: seq<FinishedGame>)

  datatype AcceptedMove = AcceptedMove(
    room: RoomId, game: GameId, x: int, y: int, placed: GameStone, nextTurn: GameStone,
    status: GameState, moveCount: nat)

  predicate IsAcceptedConfig(config: RoomConfig) {
    config.maxRooms != 0 && config.capacity == ROOM_PLAYER_COUNT && config.turnTime > 0
  }

  function Opened(config: RoomConfig): LobbyState {
    LobbyState(config, NO_USERS, map[], INVALID_ROOM_ID, 0, [])
  }

  predicate IsTitleByte(c: byte) {
    c >= 0x20 && c != 0x7F
  }

  predicate IsValidTitle(config: RoomConfig, title: Bytes) {
    && 0 < |title| <= MAX_ROOM_TITLE_BYTES
    && (forall i :: 0 <= i < |title| ==> IsTitleByte(title[i]))
    && (exists i :: 0 <= i < |title| && title[i] != ' ' as int)
    && config.isUtf8(title)
  }

  function CreateRoom(s: LobbyState, session: SessionId, title: Bytes): (LobbyState, Outcome<RoomResult>, RoomId) {
    if session !in s.users.bySession then (s, Returned(RoomResult.UserNotFound), INVALID_ROOM_ID)
    else
      var user := s.users.bySession[session];
      if user.state != UserState.Lobby then (s, Returned(RoomResult.AlreadyInRoom), INVALID_ROOM_ID)
      else if user.roomId != INVALID_ROOM_ID then (s, Returned(RoomResult.StateMismatch), INVALID_ROOM_ID)
      else if !IsValidTitle(s.config, title) then (s, Returned(RoomResult.InvalidTitle), INVALID_ROOM_ID)
      else if |s.rooms| >= s.config.maxRooms then (s, Returned(RoomResult.RoomLimitReached), INVALID_ROOM_ID)
      else if s.lastRoomId == UINT32_MAX then (s, Returned(RoomResult.RoomIdExhausted), INVALID_ROOM_ID)
      else OpenRoom(s, session, title)
  }

  /** The rest of CreateRoom, once nothing speaks against a new room. */
  function OpenRoom(s: LobbyState, session: SessionId, title: Bytes): (LobbyState, Outcome<RoomResult>, RoomId)
    requires session in s.users.bySession
  {
    var id := s.lastRoomId + 1;
    if !CanBuild(id, s.config.capacity, session, s.config.turnTime) then (s, Threw(InvalidArgument), INVALID_ROOM_ID)
    else if id in s.rooms then (s, Returned(RoomResult.StateMismatch), INVALID_ROOM_ID)
    else
      var room := NewRoom(id, title, s.config.capacity, session, s.config.turnTime);
      (s.(rooms := s.rooms[id := room], users := SeatIn(s.users, session, id), lastRoomId := id),
       Returned(RoomResult.Success), id)
  }

  function SetRoom(s: LobbyState, room: RoomState, id: RoomId): LobbyState {
    s.(rooms := s.rooms[id := room])
  }

  /** RoomManager::FinishRoom on the room named id. */
  function Finish(s: LobbyState, id: RoomId, reason: GameEndReason): (LobbyState, Outcome<()>)
    requires id in s.rooms
  {
    var (room, pushed) := FinishRoom(s.rooms[id], reason);
    match pushed
    case Threw(what) => (SetRoom(s, room, id), Threw(what))
    case Returned(records) => (SetRoom(s, room, id).(finished := s.finished + records), Returned(()))
  }

  /** RoomManager::ExpireRoom on the room named id. */
  function Expire(s: LobbyState, id: RoomId, now: Time): (LobbyState, Outcome<bool>)
    requires id in s.rooms
  {
    var (room, pushed) := ExpireRoom(s.rooms[id], now);
    match pushed
    case Threw(what) => (SetRoom(s, room, id), Threw(what))
    case Returned(records) =>
      (SetRoom(s, room, id).(finished := s.finished + records), Returned(IsTurnExpired(s.rooms[id], now)))
  }

  /** A running game is lost by the player who leaves. */
  function EndForLeaver(s: LobbyState, id: RoomId, session: SessionId, reason: GameEndReason): (LobbyState, Outcome<bool>)
    requires id in s.rooms
  {
    var room := s.rooms[id];
    if room.phase != RoomPhase.Playing then (s, Returned(true))
    else
      var (lost, ok) := RoomRules.Forfeit(room, PlayerStone(room, session));
      if !ok then (s, Returned(false))
      else
        match Finish(SetRoom(s, lost, id), id, reason)
        case (after, Threw(what)) => (after, Threw(what))
        case (after, Returned(_)) => (after, Returned(true))
  }

  /** The member goes back to the lobby; an empty room is erased. */
  function Detach(s: LobbyState, id: RoomId, session: SessionId): (LobbyState, RoomResult)
    requires id in s.rooms && session in s.users.bySession
  {
    var (room, ok) := RemoveMember(s.rooms[id], session);
    if !ok then (s, RoomResult.StateMismatch)
    else (s.(users := BackToLobby(s.users, session),
             rooms := if room.members == [] then s.rooms - {id} else s.rooms[id := room]), RoomResult.Success)
  }

  function LeaveRoom(s: LobbyState, session: SessionId, reason: GameEndReason, now: Time): (LobbyState, Outcome<RoomResult>) {
    if reason != GameEndReason.LeftRoom && reason != GameEndReason.Disconnected then (s, Threw(InvalidArgument))
    else if session !in s.users.bySession then (s, Returned(RoomResult.UserNotFound))
    else
      var user := s.users.bySession[session];
      var id := user.roomId;
      if user.state == UserState.Lobby then
        (s, Returned(if id != INVALID_ROOM_ID then RoomResult.StateMismatch else RoomResult.NotInRoom))
      else if id !in s.rooms then (s, Returned(RoomResult.StateMismatch))
      else if session !in s.rooms[id].members then (s, Returned(RoomResult.StateMismatch))
      else
        var (expired, o) := Expire(s, id, now);
        if o.Threw? then (expired, Threw(o.what))
        else
          var (ended, p) := EndForLeaver(expired, id, session, reason);
          if p.Threw? then (ended, Threw(p.what))
          else if !p.value then (ended, Returned(RoomResult.StateMismatch))
          else
            var (after, result) := Detach(ended, id, session);
            (after, Returned(result))
  }

  function EnterRoom(s: LobbyState, session: SessionId, roomId: RoomId): (LobbyState, RoomResult) {
    if session !in s.users.bySession then (s, RoomResult.UserNotFound)
    else
      var user := s.users.bySession[session];
      if user.state != UserState.Lobby then (s, RoomResult.AlreadyInRoom)
      else if user.roomId != INVALID_ROOM_ID then (s, RoomResult.StateMismatch)
      else if roomId !in s.rooms then (s, RoomResult.RoomNotFound)
      else
        var room := s.rooms[roomId];
        if room.phase == RoomPhase.Playing then (s, RoomResult.GameInProgress)
        else if session in room.members then (s, RoomResult.StateMismatch)
        else if |room.members| >= room.capacity then (s, RoomResult.RoomFull)
        else
          var (entered, ok) := AddMember(room, session);
          if !ok then (s, RoomResult.StateMismatch)
          else (SetRoom(s, entered, roomId).(users := SeatIn(s.users, session, roomId)), RoomResult.Success)
  }

  function SetReady(s: LobbyState, session: SessionId, ready: bool): (LobbyState, RoomResult) {
    if session !in s.users.bySession then (s, RoomResult.UserNotFound)
    else
      var user := s.users.bySession[session];
      var id := user.roomId;
      if user.state != UserState.InRoom then (s, RoomResult.NotInRoom)
      else if id !in s.rooms || session !in s.rooms[id].members then (s, RoomResult.StateMismatch)
      else if s.rooms[id].phase == RoomPhase.Playing then (s, RoomResult.GameInProgress)
      else if s.rooms[id].host == session then (s, RoomResult.HostCannotReady)
      else (SetRoom(s, RoomRules.SetReady(s.rooms[id], session, ready), id), RoomResult.Success)
  }

  predicate AllGuestsReady(r: RoomState) {
    forall i :: 0 <= i < |r.members| ==> r.members[i] == r.host || r.members[i] in r.ready
  }

  function StartGame(s: LobbyState, session: SessionId, now: Time): (LobbyState, RoomResult) {
    if session !in s.users.bySession then (s, RoomResult.UserNotFound)
    else
      var user := s.users.bySession[session];
      var id := user.roomId;
      if user.state != UserState.InRoom then (s, RoomResult.NotInRoom)
      else if id !in s.rooms || session !in s.rooms[id].members then (s, RoomResult.StateMismatch)
      else
        var room := s.rooms[id];
        if room.host != session then (s, RoomResult.NotHost)
        else if room.phase == RoomPhase.Playing then (s, RoomResult.GameAlreadyStarted)
        else if |room.members| != ROOM_PLAYER_COUNT then (s, RoomResult.NotEnoughPlayers)
        else if !AllGuestsReady(room) then (s, RoomResult.NotAllReady)
        else if s.lastGameId == UINT32_MAX then (s, RoomResult.GameIdExhausted)
        else (SetRoom(s, RoomRules.StartGame(room, s.lastGameId + 1, now), id).(lastGameId := s.lastGameId + 1),
              RoomResult.Success)
  }

  /** The checks PlaceStone and Resign share; None when the request may go on. */
  function RefusedGameRequest(s: LobbyState, session: SessionId, roomId: RoomId, gameId: GameId): Option<GameMoveResult> {
    if session !in s.users.bySession then Some(GameMoveResult.NotLoggedIn)
    else
      var user := s.users.bySession[session];
      if user.state != UserState.InRoom then Some(GameMoveResult.NotInRoom)
      else if user.roomId != roomId then Some(GameMoveResult.WrongRoom)
      else if roomId !in s.rooms || session !in s.rooms[roomId].members then Some(GameMoveResult.StateMismatch)
      else if gameId == 0 || gameId != s.rooms[roomId].gameId then Some(GameMoveResult.StaleGame)
      else None
  }

  function MoveAnswer(result: MoveResult): GameMoveResult {
    match result
    case GameNotRunning => GameMoveResult.GameNotRunning
    case OutOfBounds => GameMoveResult.OutOfBounds
    case NotYourTurn => GameMoveResult.NotYourTurn
    case Occupied => GameMoveResult.Occupied
    case InvalidStone => GameMoveResult.StateMismatch
    case Success => GameMoveResult.Success
  }

  ghost function PlaceStone(s: LobbyState, session: SessionId, roomId: RoomId, gameId: GameId, x: int, y: int, now: Time)
    : (LobbyState, Outcome<GameMoveResult>, Option<AcceptedMove>)
  {
    var refused := RefusedGameRequest(s, session, roomId, gameId);
    if refused.Some? then (s, Returned(refused.value), None)
    else
      var (s1, first) := Expire(s, roomId, now);
      if first.Threw? then (s1, Threw(first.what), None)
      else if first.value then (s1, Returned(GameMoveResult.GameNotRunning), None)
      else
        match Expire(s1, roomId, now)
        case (s2, Threw(what)) => (s2, Threw(what), None)
        case (s2, Returned(true)) => (s2, Returned(GameMoveResult.GameNotRunning), None)
        case (s2, Returned(false)) => AcceptMove(s2, session, roomId, x, y, now)
  }

  /** The rest of PlaceStone, once the turn is known not to be over. */
  ghost function AcceptMove(s: LobbyState, session: SessionId, roomId: RoomId, x: int, y: int, now: Time)
    : (LobbyState, Outcome<GameMoveResult>, Option<AcceptedMove>)
    requires roomId in s.rooms
  {
    var room := s.rooms[roomId];
    var (played, result) := RoomRules.PlaceStone(room, session, x, y, now);
    if result != MoveResult.Success then (SetRoom(s, played, roomId), Returned(MoveAnswer(result)), None)
    else
      var accepted := AcceptedMove(played.id, played.gameId, x, y, PlayerStone(room, session),
                                   played.game.nextTurn, played.game.status, played.game.moveCount);
      var s1 := SetRoom(s, played, roomId);
      if !IsFinal(accepted.status) then (s1, Returned(GameMoveResult.Success), Some(accepted))
      else
        var reason := if accepted.status == GameState.Draw then GameEndReason.BoardFull else GameEndReason.FiveInRow;
        match Finish(s1, roomId, reason)
        case (s2, Threw(what)) => (s2, Threw(what), Some(accepted))
        case (s2, Returned(_)) => (s2, Returned(GameMoveResult.Success), Some(accepted))
  }

  function Resign(s: LobbyState, session: SessionId, roomId: RoomId, gameId: GameId, now: Time)
    : (LobbyState, Outcome<GameMoveResult>)
  {
    var refused := RefusedGameRequest(s, session, roomId, gameId);
    if refused.Some? then (s, Returned(refused.value))
    else
      var (s1, expired) := Expire(s, roomId, now);
      if expired.Threw? then (s1, Threw(expired.what))
      else if expired.value then (s1, Returned(GameMoveResult.GameNotRunning))
      else GivenUp(s1, roomId, session)
  }

  /** The rest of Resign, once the turn is known not to be over. */
  function GivenUp(s: LobbyState, roomId: RoomId, session: SessionId): (LobbyState, Outcome<GameMoveResult>)
    requires roomId in s.rooms
  {
    var room := s.rooms[roomId];
    if room.phase != RoomPhase.Playing || room.game.status != GameState.Playing then
      (s, Returned(GameMoveResult.GameNotRunning))
    else
      var (lost, ok) := RoomRules.Forfeit(room, PlayerStone(room, session));
      if !ok then (s, Returned(GameMoveResult.StateMismatch))
      else
        match Finish(SetRoom(s, lost, roomId), roomId, GameEndReason.Resigned)
        case (after, Threw(what)) => (after, Threw(what))
        case (after, Returned(_)) => (after, Returned(GameMoveResult.Success))
  }

  /** The order in which a hash table is walked is not known, so it is a parameter. */
  function UpdateTimeouts(s: LobbyState, order: seq<RoomId>, now: Time): (LobbyState, Outcome<()>)
    decreases |order|
  {
    if order == [] then (s, Returned(()))
    else if order[0] !in s.rooms then UpdateTimeouts(s, order[1..], now)
    else
      match Expire(s, order[0], now)
      case (after, Threw(what)) => (after, Threw(what))
      case (after, Returned(_)) => UpdateTimeouts(after, order[1..], now)
  }

  function TryPopFinishedGame(s: LobbyState): (LobbyState, Option<FinishedGame>) {
    if s.finished == [] then (s, None) else (s.(finished := s.finished[1..]), Some(s.finished[0]))
  }
}
