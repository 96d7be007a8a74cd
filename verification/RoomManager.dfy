/** The room manager object of ChatServerFolder/LogicLib/RoomManager.cpp: rooms and
    results updated in place, specified by the rules of the lobby. */
module RoomManagers {
  import opened Protocol
  import opened OmokRules
  import opened RoomRules
  import opened UserRules
  import opened LobbyRules
  import opened WireFormat
  import opened RoomPacketCodec
  import opened RoomListing
  import opened UserManagers
  import opened Rooms

  class RoomManager {
    const users: UserManager
    const config: RoomConfig
    var rooms: map<RoomId, Room>
    var lastRoomId: uint32
    var lastGameId: uint32
    var finished: seq<FinishedGame>

    /** The objects that belong to rooms. */
    ghost var repr: set<object>

    ghost predicate Apart(a: Room, b: Room) {
      a != b && a.game != b.game && a.game.board != b.game.board
    }

    ghost predicate Closed()
      reads this`rooms, this`repr
    {
      && this !in repr && users !in repr
      && forall id :: id in rooms ==> rooms[id] in repr && rooms[id].game in repr && rooms[id].game.board in repr
    }

    ghost predicate Valid()
      reads this`rooms, this`repr, repr
      ensures Valid() ==> Closed()
    {
      && Closed()
      && (forall id :: id in rooms ==> rooms[id].id == id && id <= UINT32_MAX && rooms[id].Valid())
      && (forall id, other :: id in rooms && other in rooms && id != other ==> Apart(rooms[id], rooms[other]))
    }

    ghost function RoomStates(): (states: map<RoomId, RoomState>)
      requires Closed()
      reads this`rooms, this`repr, repr
      ensures states.Keys == rooms.Keys
    {
      map id | id in rooms :: rooms[id].Model()
    }

    ghost function Model(): LobbyState
      requires Closed()
      reads this, users, repr
    {
      LobbyState(config, users.Table(), RoomStates(), lastRoomId, lastGameId, finished)
    }

    lemma KeysAreIds()
      requires Valid()
      ensures forall id :: id in rooms ==> rooms[id].id == id
    {
      hide Room.Valid;
    }

    lemma IdsAreKeys()
      requires Valid()
      ensures forall id :: id in RoomStates() ==> RoomStates()[id].id == id <= UINT32_MAX
    {
      hide Room.Valid;
    }

    lemma RoomCount()
      requires Closed()
      ensures |RoomStates()| == |rooms|
    {
      assert |rooms| == |rooms.Keys| && |RoomStates().Keys| == |RoomStates()|;
    }

    lemma StateOf(id: RoomId)
      requires Closed() && id in rooms
      ensures RoomStates()[id] == rooms[id].Model()
    {
    }

    /** The source throws on any other configuration. */
    constructor (users: UserManager, config: RoomConfig)
      requires IsAcceptedConfig(config)
      ensures Valid() && this.users == users && this.config == config && repr == {}
      ensures Model() == Opened(config).(users := users.Table())
    {
      this.users, this.config := users, config;
      rooms, lastRoomId, lastGameId, finished, repr := map[], INVALID_ROOM_ID, 0, [], {};
    }

    /** When nothing but the objects of one room has changed, only its entry has. */
    twostate lemma OneRoomChanged(id: RoomId)
      requires old(Valid()) && rooms == old(rooms) && repr == old(repr) && id in rooms && rooms[id].Valid()
      requires forall i :: i in rooms && i != id ==> unchanged(rooms[i]) && unchanged(rooms[i].game) && unchanged(rooms[i].game.board)
      ensures Valid() && RoomStates() == old(RoomStates())[id := rooms[id].Model()]
      ensures rooms[id].Model() == old(rooms[id].Model()) ==> RoomStates() == old(RoomStates())
    {
    }

    method IsValidTitle(title: Bytes) returns (valid: bool)
      ensures valid == LobbyRules.IsValidTitle(config, title)
    {
      if title == [] || |title| > MAX_ROOM_TITLE_BYTES {
        return false;
      }
      var hasNonSpace := false;
      for i := 0 to |title|
        invariant forall j :: 0 <= j < i ==> IsTitleByte(title[j])
        invariant hasNonSpace <==> exists j :: 0 <= j < i && title[j] != ' ' as int
      {
        var ch := title[i];
        if ch < 0x20 || ch == 0x7F {
          return false;
        }
        if ch != ' ' as int {
          hasNonSpace := true;
        }
      }
      if !hasNonSpace {
        return false;
      }
      return config.isUtf8(title);
    }

    /** The source's emplace: an entry that is there already stays. */
    method Emplace(id: RoomId, room: Room) returns (inserted: bool)
      requires Valid() && room.Valid() && room.id == id && id <= UINT32_MAX
      requires room !in repr && room.game !in repr && room.game.board !in repr
      modifies this`rooms, this`repr
      ensures Valid() && inserted == (id !in old(rooms)) && repr <= old(repr) + {room, room.game, room.game.board}
      ensures RoomStates() == if inserted then old(RoomStates())[id := room.Model()] else old(RoomStates())
    {
      hide Room.Valid, Room.Model;
      inserted := id !in rooms;
      if inserted {
        rooms := rooms[id := room];
        repr := repr + {room, room.game, room.game.board};
      }
    }

    /** The user object remembers its room. */
    method Seat(session: SessionId, id: RoomId)
      requires Valid() && session in users.users
      modifies users
      ensures Valid() && Model() == old(Model()).(users := SeatIn(old(Model()).users, session, id))
    {
      hide RoomStates, Valid;
      users.EnterRoom(session, id);
    }

    /** The user object forgets its room. */
    method Unseat(session: SessionId)
      requires Valid() && session in users.users
      modifies users
      ensures Valid() && Model() == old(Model()).(users := BackToLobby(old(Model()).users, session))
    {
      hide RoomStates, Valid;
      users.ReturnToLobby(session);
    }

    method CreateRoom(session: SessionId, title: Bytes) returns (o: Outcome<RoomResult>, outRoomId: RoomId)
      requires Valid()
      modifies this, users
      ensures Valid() && fresh(repr - old(repr))
      ensures (Model(), o, outRoomId) == LobbyRules.CreateRoom(old(Model()), session, title)
    {
      hide LobbyRules.IsValidTitle, LobbyRules.OpenRoom, Room.Valid, Room.Model, RoomStates, Valid, Closed;
      outRoomId := INVALID_ROOM_ID;
      var user := users.Find(session);
      if user == None {
        return Returned(RoomResult.UserNotFound), outRoomId;
      }
      if user.value.state != UserState.Lobby {
        return Returned(RoomResult.AlreadyInRoom), outRoomId;
      }
      if user.value.roomId != INVALID_ROOM_ID {
        return Returned(RoomResult.StateMismatch), outRoomId;
      }
      var valid := IsValidTitle(title);
      if !valid {
        return Returned(RoomResult.InvalidTitle), outRoomId;
      }
      RoomCount();
      if |rooms| >= config.maxRooms {
        return Returned(RoomResult.RoomLimitReached), outRoomId;
      }
      if lastRoomId == UINT32_MAX {
        return Returned(RoomResult.RoomIdExhausted), outRoomId;
      }
      o, outRoomId := OpenRoom(session, title);
    }

    /** The creator sits in the new room, whose ID is now taken. */
    method RegisterRoom(session: SessionId, id: RoomId)
      requires Valid() && session in users.users && id <= UINT32_MAX
      modifies users, this`lastRoomId
      ensures Valid()
      ensures Model() == old(Model()).(users := SeatIn(old(Model()).users, session, id), lastRoomId := id)
    {
      hide RoomStates, Valid, SeatIn;
      Seat(session, id);
      lastRoomId := id;
    }

    /** The rest of CreateRoom, once nothing speaks against a new room. */
    method OpenRoom(session: SessionId, title: Bytes) returns (o: Outcome<RoomResult>, outRoomId: RoomId)
      requires Valid() && session in users.users && lastRoomId < UINT32_MAX
      modifies this, users
      ensures Valid() && fresh(repr - old(repr))
      ensures (Model(), o, outRoomId) == LobbyRules.OpenRoom(old(Model()), session, title)
    {
      hide Room.Valid, Room.Model, RoomStates, NewRoom, Valid, Closed, CanBuild, SeatIn;
      outRoomId := INVALID_ROOM_ID;
      var newRoomId := lastRoomId + 1;
      if !CanBuild(newRoomId, config.capacity, session, config.turnTime) {
        return Threw(InvalidArgument), outRoomId;
      }
      var room := new Room(newRoomId, title, config.capacity, session, config.turnTime);
      var inserted := Emplace(newRoomId, room);
      if !inserted {
        return Returned(RoomResult.StateMismatch), outRoomId;
      }
      RegisterRoom(session, newRoomId);
      outRoomId := newRoomId;
      return Returned(RoomResult.Success), outRoomId;
    }

    function Find(roomId: RoomId): (room: Option<Room>)
      reads this
      ensures room.Some? <==> roomId in rooms
      ensures room.Some? ==> room.value == rooms[roomId]
    {
      if roomId in rooms then Some(rooms[roomId]) else None
    }

    method FinishRoom(id: RoomId, reason: GameEndReason) returns (o: Outcome<()>)
      requires Valid() && id in rooms
      modifies this`finished, rooms[id]
      ensures Valid()
      ensures (Model(), o) == Finish(old(Model()), id, reason)
    {
      hide RoomStates, Valid, FinishGame;
      StateOf(id);
      NoChange(Model(), id);
      var room := rooms[id];
      if room.phase != RoomPhase.Playing {
        return Returned(());
      }
      var status := room.game.status;
      if status != GameState.BlackWon && status != GameState.WhiteWon && status != GameState.Draw {
        return Threw(LogicError);
      }
      finished := finished + [FinishedGame(room.id, room.gameId, status, reason, room.game.moveCount, room.members)];
      CloseGame(id);
      return Returned(());
    }

    /** The room goes back to waiting. */
    method CloseGame(id: RoomId)
      requires Valid() && id in rooms
      modifies rooms[id]
      ensures Valid() && Model() == SetRoom(old(Model()), FinishGame(old(Model()).rooms[id]), id)
    {
      hide RoomStates, Room.Valid;
      StateOf(id);
      rooms[id].FinishGame();
      OneRoomChanged(id);
    }

    /** One player of the room id loses the running game. */
    method Forfeit(id: RoomId, loser: GameStone) returns (ok: bool)
      requires Valid() && id in rooms
      modifies rooms[id].game
      ensures Valid()
      ensures var (lost, done) := RoomRules.Forfeit(old(Model()).rooms[id], loser);
              ok == done && Model() == if ok then SetRoom(old(Model()), lost, id) else old(Model())
    {
      hide RoomStates;
      StateOf(id);
      ok := rooms[id].Forfeit(loser);
      OneRoomChanged(id);
    }

    /** True when the turn was over. */
    method ExpireRoom(id: RoomId, now: Time) returns (o: Outcome<bool>)
      requires Valid() && id in rooms
      modifies this`finished, rooms[id], rooms[id].game
      ensures Valid()
      ensures (Model(), o) == Expire(old(Model()), id, now)
    {
      hide RoomStates, Valid, Finish;
      StateOf(id);
      NoChange(Model(), id);
      var room := rooms[id];
      if !room.IsTurnExpired(now) {
        return Returned(false);
      }
      ExpiryIsFinish(Model(), id, now);
      var ok := Forfeit(id, room.game.nextTurn);
      if !ok {
        return Threw(LogicError);
      }
      var finishing := FinishRoom(id, GameEndReason.TurnTimeout);
      match finishing
      case Threw(what) => return Threw(what);
      case Returned(_) => return Returned(true);
    }

    /** A running game is lost by the player who leaves. */
    method EndForLeaver(id: RoomId, session: SessionId, reason: GameEndReason) returns (o: Outcome<bool>)
      requires Valid() && id in rooms
      modifies this`finished, rooms[id], rooms[id].game
      ensures Valid()
      ensures (Model(), o) == LobbyRules.EndForLeaver(old(Model()), id, session, reason)
    {
      hide RoomStates, Finish;
      StateOf(id);
      var room := rooms[id];
      if room.phase != RoomPhase.Playing {
        return Returned(true);
      }
      var ok := Forfeit(id, room.GetPlayerStone(session));
      if !ok {
        return Returned(false);
      }
      var finishing := FinishRoom(id, reason);
      match finishing
      case Threw(what) => return Threw(what);
      case Returned(_) => return Returned(true);
    }

    /** The member goes back to the lobby; an empty room is erased. */
    method Detach(id: RoomId, session: SessionId) returns (result: RoomResult)
      requires Valid() && id in rooms && session in users.users
      modifies this`rooms, users, rooms[id], rooms[id].game, rooms[id].game.board
      ensures Valid()
      ensures (Model(), result) == LobbyRules.Detach(old(Model()), id, session)
    {
      hide RoomStates, Valid, RoomRules.RemoveMember;
      var ok := RemoveMember(id, session);
      StateOf(id);
      if !ok {
        return RoomResult.StateMismatch;
      }
      Unseat(session);
      if rooms[id].members == [] {
        ErasedIsGone(old(RoomStates()), id, RoomStates()[id]);
        Erase(id);
      }
      return RoomResult.Success;
    }

    method RemoveMember(id: RoomId, session: SessionId) returns (ok: bool)
      requires Valid() && id in rooms
      modifies rooms[id], rooms[id].game, rooms[id].game.board
      ensures Valid()
      ensures var (rest, done) := RoomRules.RemoveMember(old(Model()).rooms[id], session);
              ok == done && Model() == if ok then SetRoom(old(Model()), rest, id) else old(Model())
    {
      hide RoomStates;
      StateOf(id);
      ok := rooms[id].RemoveMember(session);
      OneRoomChanged(id);
    }

    method Erase(id: RoomId)
      requires Valid()
      modifies this`rooms
      ensures Valid() && RoomStates() == old(RoomStates()) - {id}
    {
      hide Room.Valid, Room.Model;
      rooms := rooms - {id};
      assert RoomStates() == old(RoomStates()) - {id};
    }

    method LeaveRoom(session: SessionId, reason: GameEndReason, now: Time) returns (o: Outcome<RoomResult>)
      requires Valid()
      modifies this`rooms, this`finished, users, repr
      ensures Valid()
      ensures (Model(), o) == LobbyRules.LeaveRoom(old(Model()), session, reason, now)
    {
      hide RoomStates, Expire, LobbyRules.EndForLeaver, LobbyRules.Detach, Room.Valid;
      if reason != GameEndReason.LeftRoom && reason != GameEndReason.Disconnected {
        return Threw(InvalidArgument);
      }
      var user := users.Find(session);
      if user == None {
        return Returned(RoomResult.UserNotFound);
      }
      if user.value.state == UserState.Lobby {
        if user.value.roomId != INVALID_ROOM_ID {
          return Returned(RoomResult.StateMismatch);
        }
        return Returned(RoomResult.NotInRoom);
      }
      var roomId := user.value.roomId;
      if roomId !in rooms {
        return Returned(RoomResult.StateMismatch);
      }
      StateOf(roomId);
      if !rooms[roomId].Contains(session) {
        return Returned(RoomResult.StateMismatch);
      }
      var expired := ExpireRoom(roomId, now);
      if expired.Threw? {
        return Threw(expired.what);
      }
      var ended := EndForLeaver(roomId, session, reason);
      if ended.Threw? {
        return Threw(ended.what);
      }
      if !ended.value {
        return Returned(RoomResult.StateMismatch);
      }
      var result := Detach(roomId, session);
      return Returned(result);
    }

    method EnterRoom(session: SessionId, roomId: RoomId) returns (result: RoomResult)
      requires Valid()
      modifies users, repr
      ensures Valid()
      ensures (Model(), result) == LobbyRules.EnterRoom(old(Model()), session, roomId)
    {
      hide RoomStates;
      var user := users.Find(session);
      if user == None {
        return RoomResult.UserNotFound;
      }
      if user.value.state != UserState.Lobby {
        return RoomResult.AlreadyInRoom;
      }
      if user.value.roomId != INVALID_ROOM_ID {
        return RoomResult.StateMismatch;
      }
      if roomId !in rooms {
        return RoomResult.RoomNotFound;
      }
      StateOf(roomId);
      var room := rooms[roomId];
      if room.phase == RoomPhase.Playing {
        return RoomResult.GameInProgress;
      }
      if room.Contains(session) {
        return RoomResult.StateMismatch;
      }
      if |room.members| >= room.capacity {
        return RoomResult.RoomFull;
      }
      var ok := room.AddMember(session);
      OneRoomChanged(roomId);
      if !ok {
        return RoomResult.StateMismatch;
      }
      Seat(session, roomId);
      return RoomResult.Success;
    }

    function EntryFor(room: Room): (info: RoomInfo)
      reads room, room.game
      ensures info == InfoOf(room.Model())
    {
      RoomInfo(ToU32(room.id), ToU8(|room.members|), ToU8(room.capacity), room.title)
    }

    /** The entries after an ID; the hash table is walked in any order. */
    method CollectAfter(after: RoomId) returns (result: seq<RoomInfo>, ghost ids: seq<RoomId>)
      requires Valid()
      ensures forall i :: 0 <= i < |ids| ==> ids[i] in RoomStates()
      ensures Collects(ids, rooms.Keys, after) && result == Infos(RoomStates(), ids)
    {
      hide Valid, Closed, Room.Valid, Room.Model, RoomStates, Infos, InfoOf, EntryFor, Collects;
      KeysAreIds();
      ghost var states := RoomStates();
      ids, result := [], [];
      var left := rooms.Keys;
      CollectsNothing(after);
      assert states.Keys - left == {};
      while left != {}
        invariant left <= rooms.Keys && Collects(ids, states.Keys - left, after)
        invariant (forall i :: 0 <= i < |ids| ==> ids[i] in states) && result == Infos(states, ids)
        decreases |left|
      {
        var id :| id in left;
        CollectsOneMore(ids, states.Keys - left, after, id);
        assert states.Keys - left + {id} == states.Keys - (left - {id});
        left := left - {id};
        var room := rooms[id];
        if room.id <= after {
          continue;
        }
        StateOf(id);
        result := result + [EntryFor(room)];
        OneEntryMore(states, ids, id);
        ids := ids + [id];
      }
      assert states.Keys - {} == rooms.Keys;
    }

    /** A page is cut from the sorted whole. */
    method GetRoomsAfter(after: RoomId) returns (result: seq<RoomInfo>, hasMore: bool)
      requires Valid()
      ensures (result, hasMore) == RoomListing.GetRoomsAfter(Model().rooms, after)
    {
      hide Valid, RoomStates, RoomListing.After, Infos, RoomListing.GetRoomsAfter, ById;
      ghost var ids;
      result, ids := CollectAfter(after);
      IdsAreKeys();
      result := SortById(result);
      SortedEntriesAreTheList(RoomStates(), after, ids, result);
      hasMore := |result| > ROOM_LIST_PAGE_SIZE;
      if hasMore {
        result := result[..ROOM_LIST_PAGE_SIZE];
      }
    }

    method SetReady(session: SessionId, ready: bool) returns (result: RoomResult)
      requires Valid()
      modifies repr
      ensures Valid()
      ensures (Model(), result) == LobbyRules.SetReady(old(Model()), session, ready)
    {
      hide RoomStates;
      var user := users.Find(session);
      if user == None {
        return RoomResult.UserNotFound;
      }
      if user.value.state != UserState.InRoom {
        return RoomResult.NotInRoom;
      }
      var roomId := user.value.roomId;
      if roomId in rooms { StateOf(roomId); }
      if roomId !in rooms || !rooms[roomId].Contains(session) {
        return RoomResult.StateMismatch;
      }
      StateOf(roomId);
      var room := rooms[roomId];
      if room.phase == RoomPhase.Playing {
        return RoomResult.GameInProgress;
      }
      if room.host == session {
        return RoomResult.HostCannotReady;
      }
      room.SetReady(session, ready);
      OneRoomChanged(roomId);
      return RoomResult.Success;
    }

    method StartGame(session: SessionId, now: Time) returns (result: RoomResult)
      requires Valid()
      modifies this`lastGameId, repr
      ensures Valid()
      ensures (Model(), result) == LobbyRules.StartGame(old(Model()), session, now)
    {
      hide RoomStates, RoomRules.StartGame, Valid;
      var user := users.Find(session);
      if user == None {
        return RoomResult.UserNotFound;
      }
      if user.value.state != UserState.InRoom {
        return RoomResult.NotInRoom;
      }
      var roomId := user.value.roomId;
      if roomId in rooms { StateOf(roomId); }
      if roomId !in rooms || !rooms[roomId].Contains(session) {
        return RoomResult.StateMismatch;
      }
      StateOf(roomId);
      var room := rooms[roomId];
      if room.host != session {
        return RoomResult.NotHost;
      }
      if room.phase == RoomPhase.Playing {
        return RoomResult.GameAlreadyStarted;
      }
      if |room.members| != ROOM_PLAYER_COUNT {
        return RoomResult.NotEnoughPlayers;
      }
      for i := 0 to |room.members|
        invariant forall j :: 0 <= j < i ==> room.members[j] == room.host || room.members[j] in room.readyMembers
      {
        if room.members[i] == room.host {
          continue;
        }
        if room.members[i] !in room.readyMembers {
          return RoomResult.NotAllReady;
        }
      }
      if lastGameId == UINT32_MAX {
        return RoomResult.GameIdExhausted;
      }
      var newGameId := lastGameId + 1;
      Begin(roomId, newGameId, now);
      lastGameId := newGameId;
      return RoomResult.Success;
    }

    method Begin(id: RoomId, gameId: GameId, now: Time)
      requires Valid() && id in rooms
      modifies rooms[id], rooms[id].game, rooms[id].game.board
      ensures Valid()
      ensures Model() == SetRoom(old(Model()), RoomRules.StartGame(old(Model()).rooms[id], gameId, now), id)
    {
      hide RoomStates, RoomRules.StartGame;
      StateOf(id);
      rooms[id].StartGame(gameId, now);
      OneRoomChanged(id);
    }

    /** The checks that moves and resignations share. */
    method CheckGameRequest(session: SessionId, roomId: RoomId, gameId: GameId) returns (refused: Option<GameMoveResult>)
      requires Valid()
      ensures refused == RefusedGameRequest(Model(), session, roomId, gameId)
    {
      hide RoomStates;
      var user := users.Find(session);
      if user == None {
        return Some(GameMoveResult.NotLoggedIn);
      }
      if user.value.state != UserState.InRoom {
        return Some(GameMoveResult.NotInRoom);
      }
      if user.value.roomId != roomId {
        return Some(GameMoveResult.WrongRoom);
      }
      if roomId in rooms { StateOf(roomId); }
      if roomId !in rooms || !rooms[roomId].Contains(session) {
        return Some(GameMoveResult.StateMismatch);
      }
      if gameId == 0 || gameId != rooms[roomId].gameId {
        return Some(GameMoveResult.StaleGame);
      }
      return None;
    }

    method PlaceStone(session: SessionId, roomId: RoomId, gameId: GameId, x: int, y: int, now: Time)
      returns (o: Outcome<GameMoveResult>, out: Option<AcceptedMove>)
      requires Valid()
      modifies this`finished, repr
      ensures Valid()
      ensures (Model(), o, out) == LobbyRules.PlaceStone(old(Model()), session, roomId, gameId, x, y, now)
    {
      hide RoomStates, Expire, LobbyRules.AcceptMove, RefusedGameRequest, Room.Valid, Room.Model, Valid;
      var refused := CheckGameRequest(session, roomId, gameId);
      if refused.Some? {
        return Returned(refused.value), None;
      }
      assert roomId in rooms by { RequestedRoomIsThere(Model(), session, roomId, gameId); }
      var first := ExpireRoom(roomId, now);
      if first.Threw? {
        return Threw(first.what), None;
      }
      if first.value {
        return Returned(GameMoveResult.GameNotRunning), None;
      }
      var second := ExpireRoom(roomId, now);
      if second.Threw? {
        return Threw(second.what), None;
      }
      if second.value {
        return Returned(GameMoveResult.GameNotRunning), None;
      }
      o, out := AcceptMove(session, roomId, x, y, now);
    }

    lemma RequestedRoomIsThere(s: LobbyState, session: SessionId, roomId: RoomId, gameId: GameId)
      requires RefusedGameRequest(s, session, roomId, gameId) == None
      ensures roomId in s.rooms
    {
    }

    /** The rest of PlaceStone, once the turn is known not to be over. */
    method AcceptMove(session: SessionId, roomId: RoomId, x: int, y: int, now: Time)
      returns (o: Outcome<GameMoveResult>, out: Option<AcceptedMove>)
      requires Valid() && roomId in rooms
      modifies this`finished, rooms[roomId], rooms[roomId].game, rooms[roomId].game.board
      ensures Valid()
      ensures (Model(), o, out) == LobbyRules.AcceptMove(old(Model()), session, roomId, x, y, now)
    {
      hide RoomStates, RoomRules.PlaceStone, Finish;
      StateOf(roomId);
      var room := rooms[roomId];
      var stone := room.GetPlayerStone(session);
      var result := room.PlaceStone(session, x, y, now);
      OneRoomChanged(roomId);
      if result != MoveResult.Success {
        return Returned(MoveAnswer(result)), None;
      }
      var accepted := AcceptedMove(room.id, room.gameId, x, y, stone, room.game.nextTurn, room.game.status, room.game.moveCount);
      out := Some(accepted);
      if accepted.status == GameState.BlackWon || accepted.status == GameState.WhiteWon {
        var finishing := FinishRoom(roomId, GameEndReason.FiveInRow);
        if finishing.Threw? {
          return Threw(finishing.what), out;
        }
      } else if accepted.status == GameState.Draw {
        var finishing := FinishRoom(roomId, GameEndReason.BoardFull);
        if finishing.Threw? {
          return Threw(finishing.what), out;
        }
      }
      return Returned(GameMoveResult.Success), out;
    }

    method Resign(session: SessionId, roomId: RoomId, gameId: GameId, now: Time) returns (o: Outcome<GameMoveResult>)
      requires Valid()
      modifies this`finished, repr
      ensures Valid()
      ensures (Model(), o) == LobbyRules.Resign(old(Model()), session, roomId, gameId, now)
    {
      hide RoomStates, Expire, RefusedGameRequest, LobbyRules.GivenUp, Room.Valid, Room.Model, Valid;
      var refused := CheckGameRequest(session, roomId, gameId);
      if refused.Some? {
        return Returned(refused.value);
      }
      assert roomId in rooms by { RequestedRoomIsThere(Model(), session, roomId, gameId); }
      var expired := ExpireRoom(roomId, now);
      if expired.Threw? {
        return Threw(expired.what);
      }
      if expired.value {
        return Returned(GameMoveResult.GameNotRunning);
      }
      o := GiveUp(roomId, session);
    }

    /** The rest of Resign, once the turn is known not to be over. */
    method GiveUp(roomId: RoomId, session: SessionId) returns (o: Outcome<GameMoveResult>)
      requires Valid() && roomId in rooms
      modifies this`finished, rooms[roomId], rooms[roomId].game
      ensures Valid()
      ensures (Model(), o) == GivenUp(old(Model()), roomId, session)
    {
      hide RoomStates, Finish;
      StateOf(roomId);
      var room := rooms[roomId];
      if room.phase != RoomPhase.Playing || room.game.status != GameState.Playing {
        return Returned(GameMoveResult.GameNotRunning);
      }
      var ok := Forfeit(roomId, room.GetPlayerStone(session));
      if !ok {
        return Returned(GameMoveResult.StateMismatch);
      }
      var finishing := FinishRoom(roomId, GameEndReason.Resigned);
      match finishing
      case Threw(what) => return Threw(what);
      case Returned(_) => return Returned(GameMoveResult.Success);
    }

    method UpdateTimeouts(now: Time) returns (o: Outcome<()>, ghost order: seq<RoomId>)
      requires Valid()
      modifies this`finished, repr
      ensures Valid()
      ensures (Model(), o) == LobbyRules.UpdateTimeouts(old(Model()), order, now)
      ensures o.Returned? ==> forall id :: id in rooms ==> id in order
    {
      hide RoomStates, Expire, Room.Valid, Room.Model, Valid, LobbyRules.UpdateTimeouts;
      NothingExpires(Model(), now);
      var left := rooms.Keys;
      order := [];
      while left != {}
        invariant Valid() && rooms == old(rooms) && repr == old(repr)
        invariant left <= rooms.Keys && forall id :: id in rooms ==> id in left || id in order
        invariant LobbyRules.UpdateTimeouts(old(Model()), order, now) == (Model(), Returned(()))
        decreases |left|
      {
        var id :| id in left;
        left := left - {id};
        OneRoomLater(old(Model()), order, id, now);
        var expired := ExpireRoom(id, now);
        order := order + [id];
        if expired.Threw? {
          return Threw(expired.what), order;
        }
      }
      o := Returned(());
    }

    method TryPopFinishedGame() returns (out: Option<FinishedGame>)
      requires Valid()
      modifies this`finished
      ensures Valid()
      ensures (Model(), out) == LobbyRules.TryPopFinishedGame(old(Model()))
    {
      if finished == [] {
        return None;
      }
      out := Some(finished[0]);
      finished := finished[1..];
    }
  }

  lemma NoChange(s: LobbyState, id: RoomId)
    requires id in s.rooms
    ensures SetRoom(s, s.rooms[id], id).(finished := s.finished + []) == s
  {
    assert s.rooms[id := s.rooms[id]] == s.rooms;
  }

  lemma ErasedIsGone(states: map<RoomId, RoomState>, id: RoomId, room: RoomState)
    ensures states[id := room] - {id} == states - {id}
  {
  }

  lemma ExpiryIsFinish(s: LobbyState, id: RoomId, now: Time)
    requires id in s.rooms && RoomRules.IsTurnExpired(s.rooms[id], now)
    ensures var (lost, ok) := RoomRules.Forfeit(s.rooms[id], s.rooms[id].game.nextTurn);
            var (t, o) := Finish(SetRoom(s, lost, id), id, GameEndReason.TurnTimeout);
            ok ==> Expire(s, id, now) == (t, match o case Threw(what) => Threw(what) case Returned(_) => Returned(true))
  {
    var lost := RoomRules.Forfeit(s.rooms[id], s.rooms[id].game.nextTurn).0;
    var room := FinishRoom(lost, GameEndReason.TurnTimeout).0;
    assert s.rooms[id := lost][id := room] == s.rooms[id := room];
  }

  lemma NothingExpires(s: LobbyState, now: Time)
    ensures LobbyRules.UpdateTimeouts(s, [], now) == (s, Returned(()))
  {
  }

  lemma {:induction false} OneRoomLater(s: LobbyState, order: seq<RoomId>, id: RoomId, now: Time)
    requires LobbyRules.UpdateTimeouts(s, order, now).1 == Returned(())
    ensures var t := LobbyRules.UpdateTimeouts(s, order, now).0;
            LobbyRules.UpdateTimeouts(s, order + [id], now) ==
              if id !in t.rooms then (t, Returned(()))
              else
                match Expire(t, id, now)
                case (after, Threw(what)) => (after, Threw(what))
                case (after, Returned(_)) => (after, Returned(()))
    decreases |order|
  {
    hide Expire;
    if order == [] {
      assert [id][1..] == [];
    } else {
      assert (order + [id])[1..] == order[1..] + [id];
      if order[0] !in s.rooms {
        OneRoomLater(s, order[1..], id, now);
      } else {
        OneRoomLater(Expire(s, order[0], now).0, order[1..], id, now);
      }
    }
  }
}
