/** Every public call of the room manager keeps the run invariant, never answers
    StateMismatch and never throws. */
module LobbyCalls {
  import opened Protocol
  import opened OmokRules
  import opened RoomRules
  import opened UserRules
  import opened LobbyRules
  import opened LobbyInvariant

  lemma SamePlaysConserved(rooms: map<RoomId, RoomState>, other: map<RoomId, RoomState>, last: GameId, history: seq<FinishedGame>)
    requires Conserved(rooms, last, history)
    requires forall i: RoomId, g: GameId :: Plays(other, i, g) <==> Plays(rooms, i, g)
    ensures Conserved(other, last, history)
  {
    hide SoundRecord;
  }

  // ----- login and removal -----

  lemma LoginKeepsRunInv(run: Run, session: SessionId, nickname: Bytes)
    requires RunInv(run) && session != 0
    ensures RunInv(run.(lobby := run.lobby.(users := Login(run.lobby.users, session, nickname).0)))
  {
    hide RoomInv, Conserved, ClocksInv;
    LoginKeepsUsersInv(run.lobby.users, session, nickname);
  }

  lemma RemovedIsLinked(users: map<SessionId, User>, rooms: map<RoomId, RoomState>, session: SessionId)
    requires Linked(users, rooms) && forall id :: id in rooms ==> session !in rooms[id].members
    ensures Linked(users - {session}, rooms)
  {
  }

  lemma RemoveKeepsLobbyInv(s: LobbyState, session: SessionId)
    requires LobbyInv(s)
    requires session in s.users.bySession ==> s.users.bySession[session].state == UserState.Lobby
    ensures LobbyInv(s.(users := Remove(s.users, session)))
  {
    hide RoomInv, UsersInv, UserInv, Linked;
    RemoveKeepsUsersInv(s.users, session);
    if session in s.users.bySession {
      UserIsInItsRoom(s, session);
      RemovedIsLinked(s.users.bySession, s.rooms, session);
    }
  }

  lemma RemoveKeepsRunInv(run: Run, session: SessionId)
    requires RunInv(run)
    requires session in run.lobby.users.bySession ==> run.lobby.users.bySession[session].state == UserState.Lobby
    ensures RunInv(run.(lobby := run.lobby.(users := Remove(run.lobby.users, session))))
  {
    hide LobbyInv, Conserved, ClocksInv, Remove;
    RemoveKeepsLobbyInv(run.lobby, session);
  }

  // ----- create, enter -----

  /** A user of the lobby takes a seat in a room, new or not. */
  lemma SeatingIsLinked(users: map<SessionId, User>, rooms: map<RoomId, RoomState>, session: SessionId, user: User,
                        id: RoomId, room: RoomState)
    requires Linked(users, rooms) && session in users && user.roomId == id
    requires forall i :: i in rooms ==> session !in rooms[i].members
    requires forall m :: m in room.members <==> m == session || (id in rooms && m in rooms[id].members)
    ensures Linked(users[session := user], rooms[id := room])
  {
    var moved, changed := users[session := user], rooms[id := room];
    forall s | s in moved && moved[s].roomId != INVALID_ROOM_ID
      ensures moved[s].roomId in changed && s in changed[moved[s].roomId].members
    {
      if s != session { assert moved[s] == users[s]; }
    }
    forall i, m | i in changed && m in changed[i].members ensures m in moved && moved[m].roomId == i {
      if m != session { assert i in rooms && m in rooms[i].members; }
    }
  }

  lemma SeatingKeepsRunInv(run: Run, session: SessionId, id: RoomId, room: RoomState, last: RoomId)
    requires RunInv(run) && session in run.lobby.users.bySession && id != INVALID_ROOM_ID
    requires forall i :: i in run.lobby.rooms ==> session !in run.lobby.rooms[i].members
    requires room.id == id <= last <= UINT32_MAX && run.lobby.lastRoomId <= last
    requires RoomInv(room) && room.turnTime == run.lobby.config.turnTime && room.phase == RoomPhase.Waiting
    requires id in run.lobby.rooms ==> run.lobby.rooms[id].phase == RoomPhase.Waiting
    requires id !in run.lobby.rooms ==> |run.lobby.rooms| < run.lobby.config.maxRooms
    requires forall m :: m in room.members <==> m == session || (id in run.lobby.rooms && m in run.lobby.rooms[id].members)
    ensures RunInv(run.(lobby := run.lobby.(
              rooms := run.lobby.rooms[id := room], users := SeatIn(run.lobby.users, session, id), lastRoomId := last)))
  {
    hide RoomInv, Conserved, ClocksInv, UsersInv, Linked;
    var s := run.lobby;
    var rooms := s.rooms[id := room];
    MovingKeepsUsersInv(s.users, session, id);
    SeatingIsLinked(s.users.bySession, s.rooms, session, SeatIn(s.users, session, id).bySession[session], id, room);
    assert rooms.Keys == s.rooms.Keys + {id};
    if id in s.rooms { assert rooms.Keys == s.rooms.Keys; }
    assert |rooms| == |rooms.Keys| && |s.rooms| == |s.rooms.Keys|;
    assert forall i: RoomId, g: GameId :: Plays(rooms, i, g) <==> Plays(s.rooms, i, g);
    SamePlaysConserved(s.rooms, rooms, s.lastGameId, History(run));
    SamePlaysClocks(s.rooms, rooms, run.starts);
  }

  lemma SamePlaysClocks(rooms: map<RoomId, RoomState>, other: map<RoomId, RoomState>, starts: map<GameId, Time>)
    requires ClocksInv(rooms, starts)
    requires forall i: RoomId, g: GameId :: Plays(other, i, g) ==> Plays(rooms, i, g) && other[i] == rooms[i]
    ensures ClocksInv(other, starts)
  {
  }

  /** The room id is new, waits under its title and has session as its only member and host. */
  predicate Created(s: LobbyState, t: LobbyState, session: SessionId, title: Bytes, id: RoomId) {
    && id != INVALID_ROOM_ID && id !in s.rooms && id > s.lastRoomId && id in t.rooms
    && t.rooms == s.rooms[id := t.rooms[id]] && t.lastRoomId == id
    && var r := t.rooms[id];
    r.members == [session] && r.host == session && r.title == title && r.phase == RoomPhase.Waiting && r.ready == {}
  }

  lemma CreateRoomKeepsRunInv(run: Run, session: SessionId, title: Bytes)
    requires RunInv(run)
    ensures var (t, o, id) := CreateRoom(run.lobby, session, title);
            && RunInv(run.(lobby := t))
            && o.Returned? && o.value != RoomResult.StateMismatch
            && (if o.value == RoomResult.Success then Created(run.lobby, t, session, title, id)
                else t == run.lobby && id == INVALID_ROOM_ID)
  {
    hide RunInv, LobbyInv, RoomInv, SeatIn, NewRoom;
    var s := run.lobby;
    RunHasLobbyInv(run);
    if session in s.users.bySession {
      UserIsInItsRoom(s, session);
      LobbyBounds(s);
      var (t, o, id) := CreateRoom(s, session, title);
      if o == Returned(RoomResult.Success) {
        var room := NewRoom(id, title, s.config.capacity, session, s.config.turnTime);
        NewRoomInv(id, title, session, s.config.turnTime);
        NewRoomShape(id, title, s.config.capacity, session, s.config.turnTime);
        SeatingKeepsRunInv(run, session, id, room, id);
      }
    }
  }

  lemma NewRoomShape(id: RoomId, title: Bytes, capacity: nat, creator: SessionId, turnTime: Time)
    ensures var r := NewRoom(id, title, capacity, creator, turnTime);
            && r.id == id && r.members == [creator] && r.phase == RoomPhase.Waiting && r.turnTime == turnTime
            && r.host == creator && r.title == title && r.ready == {}
  {
  }

  lemma LobbyBounds(s: LobbyState)
    requires LobbyInv(s)
    ensures IsAcceptedConfig(s.config) && s.lastRoomId <= UINT32_MAX
    ensures forall id :: id in s.rooms ==> id <= s.lastRoomId
  {
    hide RoomInv;
  }

  /** The user joins the members of the waiting room id, where everybody has to get ready again. */
  predicate Entered(s: LobbyState, t: LobbyState, session: SessionId, id: RoomId) {
    && id in s.rooms && id in t.rooms && t.rooms == s.rooms[id := t.rooms[id]]
    && s.rooms[id].phase == RoomPhase.Waiting && t.rooms[id].members == s.rooms[id].members + [session]
    && t.rooms[id].host == s.rooms[id].host && t.rooms[id].ready == {}
  }

  lemma EnterRoomKeepsRunInv(run: Run, session: SessionId, id: RoomId)
    requires RunInv(run)
    ensures var (t, result) := EnterRoom(run.lobby, session, id);
            && RunInv(run.(lobby := t))
            && result != RoomResult.StateMismatch
            && (if result == RoomResult.Success then Entered(run.lobby, t, session, id) else t == run.lobby)
  {
    hide RunInv, LobbyInv, RoomInv, SeatIn;
    var s := run.lobby;
    RunHasLobbyInv(run);
    if session in s.users.bySession {
      UserIsInItsRoom(s, session);
      LobbyBounds(s);
      if s.users.bySession[session].state == UserState.Lobby && id in s.rooms
         && s.rooms[id].phase == RoomPhase.Waiting && |s.rooms[id].members| < s.rooms[id].capacity {
        RoomsAreSound(s, id);
        RoomIdNotZero(s, id);
        AddMemberInv(s.rooms[id], session);
        SeatingKeepsRunInv(run, session, id, AddMember(s.rooms[id], session).0, s.lastRoomId);
      }
    }
  }

  // ----- leave -----

  lemma EndForLeaverKeepsRunInv(run: Run, id: RoomId, session: SessionId, reason: GameEndReason)
    requires RunInv(run) && id in run.lobby.rooms && session in run.lobby.rooms[id].members
    requires reason != GameEndReason.BoardFull
    ensures var s, r := run.lobby, run.lobby.rooms[id];
            var (t, o) := EndForLeaver(s, id, session, reason);
            && o == Returned(true) && RunInv(run.(lobby := t))
            && t == s.(rooms := t.rooms, finished := t.finished)
            && t.rooms == s.rooms[id := t.rooms[id]] && SameSeats(r, t.rooms[id])
            && t.rooms[id].phase == RoomPhase.Waiting
            && t.finished == s.finished + (if r.phase == RoomPhase.Waiting then [] else
                 [FinishedGame(id, r.gameId, WinFor(Opponent(PlayerStone(r, session))), reason, r.game.moveCount, r.members)])
  {
    hide RunInv, Finish, SetRoom, PlayerStone, RoomRules.Forfeit;
    var s := run.lobby;
    if s.rooms[id].phase == RoomPhase.Playing {
      ForfeitKeepsRunInv(run, id, session, reason);
    } else {
      assert s.rooms[id := s.rooms[id]] == s.rooms;
    }
  }

  lemma DetachKeepsRunInv(run: Run, id: RoomId, session: SessionId)
    requires RunInv(run) && session in run.lobby.users.bySession
    requires run.lobby.users.bySession[session].roomId == id
    requires id in run.lobby.rooms && session in run.lobby.rooms[id].members
    requires run.lobby.rooms[id].phase == RoomPhase.Waiting
    ensures var s := run.lobby;
            var (t, result) := Detach(s, id, session);
            && result == RoomResult.Success && RunInv(run.(lobby := t))
            && t == s.(rooms := t.rooms, users := BackToLobby(s.users, session))
            && (forall i :: i != id ==> (i in t.rooms <==> i in s.rooms) && (i in t.rooms ==> t.rooms[i] == s.rooms[i]))
            && (id in t.rooms <==> s.rooms[id].members != [session])
            && (id in t.rooms ==> t.rooms[id].phase == RoomPhase.Waiting)
            && (id in t.rooms ==> forall m :: m in t.rooms[id].members <==> m in s.rooms[id].members && m != session)
  {
    hide RoomInv, Conserved, ClocksInv, UserInv;
    var s := run.lobby;
    RoomsAreSound(s, id);
    RemoveMemberInv(s.rooms[id], session);
    var room := RemoveMember(s.rooms[id], session).0;
    var t := Detach(s, id, session).0;
    assert s.rooms[id].members == [session] <==> room.members == [] by { OnlyMember(s.rooms[id], session); }
    DetachKeepsLobbyInv(s, id, session);
    SamePlaysConserved(s.rooms, t.rooms, s.lastGameId, History(run));
    SamePlaysClocks(s.rooms, t.rooms, run.starts);
  }

  lemma OnlyMember(r: RoomState, session: SessionId)
    requires RoomInv(r) && session in r.members
    ensures r.members == [session] <==> Erase(r.members, session) == []
  {
    EraseSpec(r.members, session);
  }

  lemma DetachKeepsLobbyInv(s: LobbyState, id: RoomId, session: SessionId)
    requires LobbyInv(s) && session in s.users.bySession && s.users.bySession[session].roomId == id
    requires id in s.rooms && session in s.rooms[id].members
    ensures LobbyInv(Detach(s, id, session).0)
  {
    hide RoomInv, UsersInv, Linked;
    RoomsAreSound(s, id);
    RoomIdNotZero(s, id);
    MovingKeepsUsersInv(s.users, session, id);
    RemoveMemberInv(s.rooms[id], session);
    var t := Detach(s, id, session).0;
    assert t.rooms.Keys <= s.rooms.Keys;
    SubsetSize(t.rooms.Keys, s.rooms.Keys);
    assert |t.rooms| == |t.rooms.Keys| && |s.rooms| == |s.rooms.Keys|;
    LeavingIsLinked(s.users.bySession, s.rooms, session, t.users.bySession[session], id, t.rooms);
  }

  lemma LeavingIsLinked(users: map<SessionId, User>, rooms: map<RoomId, RoomState>, session: SessionId, user: User,
                        id: RoomId, after: map<RoomId, RoomState>)
    requires Linked(users, rooms) && session in users && users[session].roomId == id && id in rooms
    requires user.roomId == INVALID_ROOM_ID
    requires forall i :: i in after ==> i in rooms && (i != id ==> after[i] == rooms[i])
    requires forall i :: i in rooms && i != id ==> i in after
    requires id in after ==> forall m :: m in after[id].members <==> m in rooms[id].members && m != session
    requires id !in after ==> forall m :: m in rooms[id].members ==> m == session
    ensures Linked(users[session := user], after)
  {
    var moved := users[session := user];
    forall s | s in moved && moved[s].roomId != INVALID_ROOM_ID
      ensures moved[s].roomId in after && s in after[moved[s].roomId].members
    {
      assert s != session && moved[s] == users[s];
    }
    forall i, m | i in after && m in after[i].members ensures m in moved && moved[m].roomId == i {
      assert m in rooms[i].members;
    }
  }

  /** Leaving always works for a user in a room. A running game ends with exactly
      one record; when its turn is already over that record is the timeout, whoever leaves. */
  lemma LeaveRoomKeepsRunInv(run: Run, session: SessionId, reason: GameEndReason, now: Time)
    requires RunInv(run)
    requires reason == GameEndReason.LeftRoom || reason == GameEndReason.Disconnected
    ensures var s := run.lobby;
            var (t, o) := LeaveRoom(s, session, reason, now);
            && RunInv(run.(lobby := t)) && o.Returned? && o.value != RoomResult.StateMismatch
            && t == s.(rooms := t.rooms, users := t.users, finished := t.finished)
            && (o.value != RoomResult.Success ==> t == s)
            && (o.value == RoomResult.Success <==>
                  session in s.users.bySession && s.users.bySession[session].state == UserState.InRoom)
            && (o.value == RoomResult.Success ==>
                  var id := s.users.bySession[session].roomId;
                  && t.users == BackToLobby(s.users, session)
                  && id in s.rooms
                  && t.finished == s.finished + EndOfLeaver(s.rooms[id], session, reason, now)
                  && (forall i :: i != id ==> (i in t.rooms <==> i in s.rooms) && (i in t.rooms ==> t.rooms[i] == s.rooms[i]))
                  && (id in t.rooms <==> s.rooms[id].members != [session])
                  && (id in t.rooms ==> t.rooms[id].phase == RoomPhase.Waiting)
                  && (id in t.rooms ==> forall m :: m in t.rooms[id].members <==> m in s.rooms[id].members && m != session))
  {
    hide RunInv, LobbyInv, Expire, EndForLeaver, Detach, BackToLobby;
    var s := run.lobby;
    if session in s.users.bySession {
      assert LobbyInv(s) by { RunHasLobbyInv(run); }
      UserIsInItsRoom(s, session);
      var id := s.users.bySession[session].roomId;
      if s.users.bySession[session].state == UserState.InRoom {
        ExpireKeepsRunInv(run, id, now);
        var run1 := run.(lobby := Expire(s, id, now).0);
        EndForLeaverKeepsRunInv(run1, id, session, reason);
        var run2 := run.(lobby := EndForLeaver(run1.lobby, id, session, reason).0);
        DetachKeepsRunInv(run2, id, session);
      }
    }
  }

  /** The records a leaver causes: the timeout if the turn is over, else the loss of the leaver. */
  function EndOfLeaver(r: RoomState, session: SessionId, reason: GameEndReason, now: Time): seq<FinishedGame> {
    if r.phase == RoomPhase.Waiting then []
    else if TurnIsOver(r, now) then [TimeoutRecord(r)]
    else [FinishedGame(r.id, r.gameId, WinFor(Opponent(PlayerStone(r, session))), reason, r.game.moveCount, r.members)]
  }

  // ----- ready and start -----

  /** In the user's waiting room the user, not the host, is now marked as asked, and nobody
      else's mark has changed. */
  ghost predicate ReadySet(s: LobbyState, t: LobbyState, session: SessionId, ready: bool) {
    && session in s.users.bySession
    && var id := s.users.bySession[session].roomId;
    && id in s.rooms && s.rooms[id].phase == RoomPhase.Waiting && s.rooms[id].host != session
    && id in t.rooms && t.rooms == s.rooms[id := s.rooms[id].(ready := t.rooms[id].ready)]
    && forall m :: m in t.rooms[id].ready <==> if m == session then ready else m in s.rooms[id].ready
  }

  lemma SetReadyKeepsRunInv(run: Run, session: SessionId, ready: bool)
    requires RunInv(run)
    ensures var (t, result) := LobbyRules.SetReady(run.lobby, session, ready);
            && RunInv(run.(lobby := t))
            && result != RoomResult.StateMismatch
            && t == run.lobby.(rooms := t.rooms)
            && (if result == RoomResult.Success then ReadySet(run.lobby, t, session, ready) else t == run.lobby)
  {
    hide RunInv, LobbyInv, RoomInv;
    var s := run.lobby;
    RunHasLobbyInv(run);
    if session in s.users.bySession {
      UserIsInItsRoom(s, session);
      var (t, result) := LobbyRules.SetReady(s, session, ready);
      if result == RoomResult.Success {
        var id := s.users.bySession[session].roomId;
        ReadyRoomInv(s.rooms[id], session, ready);
        GoesOnKeepsRunInv(run, id, RoomRules.SetReady(s.rooms[id], session, ready));
      }
    }
  }

  lemma ReadyRoomInv(r: RoomState, session: SessionId, ready: bool)
    requires RoomInv(r) && session in r.members && session != r.host && r.phase == RoomPhase.Waiting
    ensures RoomInv(RoomRules.SetReady(r, session, ready))
  {
  }

  lemma StartingIsConserved(rooms: map<RoomId, RoomState>, last: GameId, history: seq<FinishedGame>, id: RoomId, after: RoomState)
    requires Conserved(rooms, last, history) && id in rooms && rooms[id].phase == RoomPhase.Waiting
    requires after.phase == RoomPhase.Playing && after.gameId == last + 1
    ensures Conserved(rooms[id := after], last + 1, history)
  {
    hide SoundRecord;
    var updated := rooms[id := after];
    assert forall i: RoomId, g: GameId :: Plays(updated, i, g) <==> Plays(rooms, i, g) || (i == id && g == last + 1);
    assert Plays(updated, id, last + 1);
    assert !Recorded(history, last + 1);
  }

  /** The room id starts the game with the next free game ID, host against the other member. */
  ghost predicate GameStarted(s: LobbyState, t: LobbyState, session: SessionId, now: Time) {
    && session in s.users.bySession
    && var id := s.users.bySession[session].roomId;
    && id in s.rooms && id in t.rooms && s.rooms[id].phase == RoomPhase.Waiting
    && t == s.(rooms := s.rooms[id := t.rooms[id]], lastGameId := s.lastGameId + 1)
    && t.rooms[id].gameId == t.lastGameId && t.rooms[id].phase == RoomPhase.Playing
    && t.rooms[id].host == session && Seated(t.rooms[id]) && t.rooms[id].game == Started()
    && t.rooms[id].deadline == now + s.config.turnTime
    && forall m :: m in s.rooms[id].members && m != session ==> m in s.rooms[id].ready
  }

  /** The map of start times after StartGame. */
  function Noted(run: Run, session: SessionId, now: Time): map<GameId, Time> {
    if LobbyRules.StartGame(run.lobby, session, now).1 != RoomResult.Success then run.starts
    else run.starts[run.lobby.lastGameId + 1 := now]
  }

  lemma StartGameKeepsRunInv(run: Run, session: SessionId, now: Time)
    requires RunInv(run)
    ensures var (t, result) := LobbyRules.StartGame(run.lobby, session, now);
            && RunInv(run.(lobby := t, starts := Noted(run, session, now)))
            && result != RoomResult.StateMismatch
            && (if result == RoomResult.Success then GameStarted(run.lobby, t, session, now) else t == run.lobby)
  {
    hide RunInv, LobbyInv, RoomInv;
    var s := run.lobby;
    RunHasLobbyInv(run);
    if session in s.users.bySession {
      UserIsInItsRoom(s, session);
      var (t, result) := LobbyRules.StartGame(s, session, now);
      if result == RoomResult.Success {
        var id := s.users.bySession[session].roomId;
        RoomsAreSound(s, id);
        StartGameInv(s.rooms[id], s.lastGameId + 1, now);
        PlayingRoomsPlay(t.rooms[id]);
        StartKeepsRunInv(run, id, now);
        forall m | m in s.rooms[id].members && m != session ensures m in s.rooms[id].ready {
          var i :| 0 <= i < |s.rooms[id].members| && s.rooms[id].members[i] == m;
        }
      }
    }
  }

  lemma GamesAreNumbered(run: Run, id: RoomId, g: GameId)
    requires RunInv(run) && Plays(run.lobby.rooms, id, g)
    ensures g <= run.lobby.lastGameId
  {
    hide LobbyInv;
  }

  lemma StartKeepsRunInv(run: Run, id: RoomId, now: Time)
    requires RunInv(run) && id in run.lobby.rooms && run.lobby.rooms[id].phase == RoomPhase.Waiting
    requires run.lobby.lastGameId < UINT32_MAX
    requires RoomInv(RoomRules.StartGame(run.lobby.rooms[id], run.lobby.lastGameId + 1, now))
    ensures var next := run.lobby.lastGameId + 1;
            RunInv(run.(lobby := SetRoom(run.lobby, RoomRules.StartGame(run.lobby.rooms[id], next, now), id).(lastGameId := next),
                        starts := run.starts[next := now]))
  {
    hide RoomInv, Conserved, UsersInv, Linked;
    var s, next := run.lobby, run.lobby.lastGameId + 1;
    var room := RoomRules.StartGame(s.rooms[id], next, now);
    SeatsKeepLobbyInv(s, id, room);
    StartingIsConserved(s.rooms, s.lastGameId, History(run), id, room);
    var rooms, starts := s.rooms[id := room], run.starts[next := now];
    forall i: RoomId, g: GameId | Plays(rooms, i, g)
      ensures g in starts && StartBound(rooms[i]) <= starts[g]
    {
      if i != id {
        assert Plays(s.rooms, i, g);
        GamesAreNumbered(run, i, g);
      }
    }
  }

  // ----- moves and resignations -----

  lemma NotRefused(s: LobbyState, session: SessionId, roomId: RoomId, gameId: GameId)
    requires LobbyInv(s)
    ensures var refused := RefusedGameRequest(s, session, roomId, gameId);
            && refused != Some(GameMoveResult.StateMismatch)
            && refused != Some(GameMoveResult.Success)
            && (refused == None <==>
                  && session in s.users.bySession && s.users.bySession[session].state == UserState.InRoom
                  && s.users.bySession[session].roomId == roomId
                  && roomId in s.rooms && gameId != 0 && gameId == s.rooms[roomId].gameId)
            && (refused == None ==> session in s.rooms[roomId].members)
  {
    hide LobbyInv, RoomInv;
    if session in s.users.bySession { UserIsInItsRoom(s, session); }
  }

  /** Resigning: refused, too late, not running, or the one record of the resigner's loss. */
  lemma ResignKeepsRunInv(run: Run, session: SessionId, roomId: RoomId, gameId: GameId, now: Time)
    requires RunInv(run)
    ensures var s := run.lobby;
            var (t, o) := Resign(s, session, roomId, gameId, now);
            && RunInv(run.(lobby := t)) && o.Returned? && o.value != GameMoveResult.StateMismatch
            && t == s.(rooms := t.rooms, finished := t.finished)
            && (RefusedGameRequest(s, session, roomId, gameId).Some? ==>
                  t == s && o.value == RefusedGameRequest(s, session, roomId, gameId).value)
            && (RefusedGameRequest(s, session, roomId, gameId) == None ==>
                  && roomId in t.rooms && t.rooms == s.rooms[roomId := t.rooms[roomId]]
                  && SameSeats(s.rooms[roomId], t.rooms[roomId]) && t.rooms[roomId].phase == RoomPhase.Waiting
                  && t.finished == s.finished + EndOfLeaver(s.rooms[roomId], session, GameEndReason.Resigned, now)
                  && (o.value == GameMoveResult.Success <==>
                        s.rooms[roomId].phase == RoomPhase.Playing && !TurnIsOver(s.rooms[roomId], now))
                  && (o.value != GameMoveResult.Success ==> o.value == GameMoveResult.GameNotRunning))
  {
    hide RunInv, LobbyInv, RoomInv, Expire, Finish, SetRoom, RoomRules.Forfeit, PlayerStone;
    var s := run.lobby;
    RunHasLobbyInv(run);
    NotRefused(s, session, roomId, gameId);
    if RefusedGameRequest(s, session, roomId, gameId) == None {
      ExpireKeepsRunInv(run, roomId, now);
      RoomsAreSound(s, roomId);
      PlayingRoomsPlay(s.rooms[roomId]);
      if s.rooms[roomId].phase == RoomPhase.Playing && !TurnIsOver(s.rooms[roomId], now) {
        ForfeitKeepsRunInv(run, roomId, session, GameEndReason.Resigned);
      } else {
        assert s.finished + [] == s.finished;
      }
    }
  }

  /** What an accepted move says about the room before (r) and after it. */
  ghost predicate MoveMade(r: RoomState, after: RoomState, session: SessionId, x: int, y: int, now: Time, m: AcceptedMove) {
    && Inside(Pos(x, y)) && Pos(x, y) !in r.game.board
    && m.placed == PlayerStone(r, session) == r.game.nextTurn && m.placed != GameStone.Empty
    && after.game.board == r.game.board[Pos(x, y) := m.placed]
    && m == AcceptedMove(r.id, r.gameId, x, y, m.placed, after.game.nextTurn, after.game.status, r.game.moveCount + 1)
    && after.game.moveCount == r.game.moveCount + 1 && SameSeats(r, after) && after.gameId == r.gameId
    && (HasLine(after.game.board, m.placed) <==> m.status == WinFor(m.placed))
    && (Full(after.game.board) && !HasLine(after.game.board, m.placed) <==> m.status == GameState.Draw)
    && (!Full(after.game.board) && !HasLine(after.game.board, m.placed) <==> m.status == GameState.Playing)
    && (if m.status == GameState.Playing then
          m.nextTurn == Opponent(m.placed) && after.phase == RoomPhase.Playing && after.deadline == now + r.turnTime
        else m.nextTurn == GameStone.Empty && after.phase == RoomPhase.Waiting)
  }

  /** The records a move causes: one when it ends the game, none otherwise. */
  function EndOfMove(r: RoomState, m: AcceptedMove): seq<FinishedGame> {
    if m.status == GameState.Playing then []
    else [FinishedGame(r.id, r.gameId, m.status,
                       if m.status == GameState.Draw then GameEndReason.BoardFull else GameEndReason.FiveInRow,
                       m.moveCount, r.members)]
  }

  ghost predicate Moved(s: LobbyState, t: LobbyState, session: SessionId, id: RoomId, x: int, y: int, now: Time, m: AcceptedMove) {
    && id in s.rooms && id in t.rooms && t.rooms == s.rooms[id := t.rooms[id]]
    && MoveMade(s.rooms[id], t.rooms[id], session, x, y, now, m)
    && t.finished == s.finished + EndOfMove(s.rooms[id], m)
  }

  /** The move as the server reports it, and the room the report leaves behind. */
  function Report(r: RoomState, session: SessionId, x: int, y: int, played: RoomState): AcceptedMove {
    AcceptedMove(played.id, played.gameId, x, y, PlayerStone(r, session),
                 played.game.nextTurn, played.game.status, played.game.moveCount)
  }

  function Settled(played: RoomState): RoomState {
    if IsFinal(played.game.status) then FinishGame(played) else played
  }

  lemma AcceptedMoveIsMade(r: RoomState, session: SessionId, x: int, y: int, now: Time)
    requires RoomInv(r) && session in r.members && RoomRules.PlaceStone(r, session, x, y, now).1 == MoveResult.Success
    ensures var played := RoomRules.PlaceStone(r, session, x, y, now).0;
            MoveMade(r, Settled(played), session, x, y, now, Report(r, session, x, y, played))
  {
    hide HasLine, Full, WellPlaced, RoomInv, TryPlaceStone, Lead;
    assert GameInv(r.game) && r.id != 0 by { RoomHasGameInv(r); }
    PlaceStoneSpec(r, session, x, y, now);
    PlaceStoneVerdict(r.game, PlayerStone(r, session), x, y);
  }

  lemma RoomHasGameInv(r: RoomState)
    requires RoomInv(r)
    ensures GameInv(r.game) && r.id != 0
  {
  }

  lemma AcceptedMoveEndsOrGoesOn(r: RoomState, session: SessionId, x: int, y: int, now: Time)
    requires RoomInv(r) && session in r.members && RoomRules.PlaceStone(r, session, x, y, now).1 == MoveResult.Success
    ensures var played := RoomRules.PlaceStone(r, session, x, y, now).0;
            var m, after := Report(r, session, x, y, played), Settled(played);
            && SameSeats(r, after) && RoomInv(after) && r.phase == RoomPhase.Playing
            && (if IsFinal(m.status) then
                  && m.status != GameState.Playing
                  && var f := EndOfMove(r, m)[0];
                  FinishRoom(played, f.reason) == (after, Returned([f])) && Ends(r, after, f)
                else
                  m.status == GameState.Playing && (now < r.deadline ==> GoesOn(r, after)))
  {
    hide HasLine, Full, WellPlaced, TryPlaceStone, RoomRules.PlaceStone, Lead, GameInv;
    PlaceStoneSpec(r, session, x, y, now);
    var played := RoomRules.PlaceStone(r, session, x, y, now).0;
    if IsFinal(played.game.status) {
      var reason := if played.game.status == GameState.Draw then GameEndReason.BoardFull else GameEndReason.FiveInRow;
      FinishAfterMove(r, played, reason);
    } else if now < r.deadline {
      OneTurnMore(r.game.moveCount, r.turnTime);
    }
  }

  lemma OneTurnMore(k: int, turnTime: Time)
    ensures (k + 2) * turnTime == (k + 1) * turnTime + turnTime
  {
  }

  lemma AcceptMoveKeepsRunInv(run: Run, session: SessionId, id: RoomId, x: int, y: int, now: Time)
    requires RunInv(run) && id in run.lobby.rooms && session in run.lobby.rooms[id].members
    requires !TurnIsOver(run.lobby.rooms[id], now)
    ensures var s := run.lobby;
            var (t, o, m) := AcceptMove(s, session, id, x, y, now);
            && RunInv(run.(lobby := t)) && o.Returned? && o.value != GameMoveResult.StateMismatch
            && t == s.(rooms := t.rooms, finished := t.finished)
            && (if o.value == GameMoveResult.Success then m.Some? && Moved(s, t, session, id, x, y, now, m.value)
                else t == s && m == None)
  {
    hide RunInv, LobbyInv, RoomInv, TryPlaceStone, RoomRules.PlaceStone, MoveMade, Ends, GoesOn;
    var s, r := run.lobby, run.lobby.rooms[id];
    RunHasLobbyInv(run);
    RoomsAreSound(s, id);
    PlaceStoneSpec(r, session, x, y, now);
    var (played, result) := RoomRules.PlaceStone(r, session, x, y, now);
    if result == MoveResult.Success {
      AcceptedMoveIsMade(r, session, x, y, now);
      AcceptedMoveEndsOrGoesOn(r, session, x, y, now);
      var m := AcceptMove(s, session, id, x, y, now).2.value;
      assert m == Report(r, session, x, y, played);
      if IsFinal(m.status) {
        EndsKeepsRunInv(run, id, FinishGame(played), EndOfMove(r, m)[0]);
        assert s.rooms[id := played][id := FinishGame(played)] == s.rooms[id := FinishGame(played)];
      } else {
        GoesOnKeepsRunInv(run, id, played);
        assert s.finished + [] == s.finished;
      }
    } else {
      assert s.rooms[id := r] == s.rooms;
    }
  }

  /** A move past its checks: when the turn is over it is refused and the timeout is
      the only record; otherwise it is accepted exactly as the game rules say. */
  lemma PlaceStoneKeepsRunInv(run: Run, session: SessionId, roomId: RoomId, gameId: GameId, x: int, y: int, now: Time)
    requires RunInv(run)
    ensures var s := run.lobby;
            var (t, o, m) := LobbyRules.PlaceStone(s, session, roomId, gameId, x, y, now);
            && RunInv(run.(lobby := t)) && o.Returned? && o.value != GameMoveResult.StateMismatch
            && t == s.(rooms := t.rooms, finished := t.finished)
            && (o.value == GameMoveResult.Success <==> m.Some?)
            && (o.value == GameMoveResult.Success ==> Moved(s, t, session, roomId, x, y, now, m.value))
            && (if RefusedGameRequest(s, session, roomId, gameId) == None && TurnIsOver(s.rooms[roomId], now) then
                  && o.value == GameMoveResult.GameNotRunning
                  && t.finished == s.finished + [TimeoutRecord(s.rooms[roomId])]
                  && roomId in t.rooms && t.rooms == s.rooms[roomId := t.rooms[roomId]]
                  && t.rooms[roomId].game.board == s.rooms[roomId].game.board
                  && SameSeats(s.rooms[roomId], t.rooms[roomId]) && t.rooms[roomId].phase == RoomPhase.Waiting
                else o.value != GameMoveResult.Success ==> t == s)
  {
    hide RunInv, LobbyInv, RoomInv, Expire, AcceptMove, Moved;
    var s := run.lobby;
    RunHasLobbyInv(run);
    NotRefused(s, session, roomId, gameId);
    if RefusedGameRequest(s, session, roomId, gameId) == None {
      ExpireKeepsRunInv(run, roomId, now);
      if !TurnIsOver(s.rooms[roomId], now) {
        AcceptMoveKeepsRunInv(run, session, roomId, x, y, now);
      }
    }
  }

  // ----- sweeps and results -----

  /** After a sweep no game is left whose turn is over, and nothing else has happened. */
  lemma {:induction false} UpdateTimeoutsKeepsRunInv(run: Run, order: seq<RoomId>, now: Time)
    requires RunInv(run)
    ensures var s := run.lobby;
            var (t, o) := UpdateTimeouts(s, order, now);
            && RunInv(run.(lobby := t)) && o == Returned(())
            && t == s.(rooms := t.rooms, finished := t.finished) && t.rooms.Keys == s.rooms.Keys
            && s.finished <= t.finished
            && (forall id :: id in order && id in t.rooms ==> !TurnIsOver(t.rooms[id], now))
            && (forall id :: id in t.rooms && !TurnIsOver(s.rooms[id], now) ==> t.rooms[id] == s.rooms[id])
            && (forall id :: id in t.rooms ==> SameSeats(s.rooms[id], t.rooms[id]))
            && (forall id :: id in t.rooms ==> t.rooms[id] == s.rooms[id] || t.rooms[id].phase == RoomPhase.Waiting)
    decreases |order|
  {
    hide RunInv, Expire;
    if order != [] {
      if order[0] in run.lobby.rooms {
        ExpireKeepsRunInv(run, order[0], now);
        UpdateTimeoutsKeepsRunInv(run.(lobby := Expire(run.lobby, order[0], now).0), order[1..], now);
      } else {
        UpdateTimeoutsKeepsRunInv(run, order[1..], now);
      }
      assert order == [order[0]] + order[1..];
    }
  }

  lemma PopKeepsRunInv(run: Run)
    requires RunInv(run)
    ensures var (t, f) := TryPopFinishedGame(run.lobby);
            var after := run.(lobby := t, popped := run.popped + (if f.Some? then [f.value] else []));
            && RunInv(after) && History(after) == History(run)
            && (f.Some? ==> run.lobby.finished == [f.value] + t.finished)
  {
    hide RoomInv, Conserved, ClocksInv, UsersInv, Linked;
    var (t, f) := TryPopFinishedGame(run.lobby);
    var after := run.(lobby := t, popped := run.popped + (if f.Some? then [f.value] else []));
    assert History(after) == History(run);
  }
}
