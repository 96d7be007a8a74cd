/** When each request to the lobby succeeds: exactly when the visible state allows it, since
    the tables never disagree. */
module LobbyVerdicts {
  import opened Protocol
  import opened OmokRules
  import opened RoomRules
  import opened UserRules
  import opened LobbyRules
  import opened LobbyInvariant
  import opened LobbyCalls

  predicate IsInLobby(s: LobbyState, session: SessionId) {
    session in s.users.bySession && s.users.bySession[session].state == UserState.Lobby
  }

  /** The user is in the room id. */
  predicate IsIn(s: LobbyState, session: SessionId, id: RoomId) {
    session in s.users.bySession && s.users.bySession[session].roomId == id && id in s.rooms
  }

  predicate MayCreate(s: LobbyState, session: SessionId, title: Bytes) {
    IsInLobby(s, session) && IsValidTitle(s.config, title) && |s.rooms| < s.config.maxRooms && s.lastRoomId < UINT32_MAX
  }

  predicate MayEnter(s: LobbyState, session: SessionId, id: RoomId) {
    && IsInLobby(s, session) && id in s.rooms
    && s.rooms[id].phase == RoomPhase.Waiting && |s.rooms[id].members| < ROOM_PLAYER_COUNT
  }

  predicate MayReady(s: LobbyState, session: SessionId) {
    exists id :: id in s.rooms && IsIn(s, session, id) && s.rooms[id].phase == RoomPhase.Waiting && s.rooms[id].host != session
  }

  predicate MayStart(s: LobbyState, session: SessionId) {
    && s.lastGameId < UINT32_MAX
    && exists id :: id in s.rooms && IsIn(s, session, id) && IsReadyFor(s.rooms[id], session)
  }

  /** A full waiting room of the host session, the guest ready. */
  predicate IsReadyFor(r: RoomState, session: SessionId) {
    && r.phase == RoomPhase.Waiting && r.host == session && |r.members| == ROOM_PLAYER_COUNT
    && forall i :: 0 <= i < |r.members| ==> r.members[i] == session || r.members[i] in r.ready
  }

  /** The game gameId runs in the user's room and its turn is not over. */
  predicate MayAct(s: LobbyState, session: SessionId, id: RoomId, gameId: GameId, now: Time) {
    && IsIn(s, session, id)
    && s.rooms[id].phase == RoomPhase.Playing && s.rooms[id].gameId == gameId && now < s.rooms[id].deadline
  }

  predicate MayMove(s: LobbyState, session: SessionId, id: RoomId, gameId: GameId, x: int, y: int, now: Time) {
    && MayAct(s, session, id, gameId, now)
    && var r := s.rooms[id];
    && Inside(Pos(x, y)) && Pos(x, y) !in r.game.board
    && session == (if r.game.nextTurn == GameStone.Black then r.black else r.white)
  }

  lemma CreateVerdict(run: Run, session: SessionId, title: Bytes)
    requires RunInv(run)
    ensures CreateRoom(run.lobby, session, title).1 == Returned(RoomResult.Success) <==> MayCreate(run.lobby, session, title)
  {
    hide RunInv, LobbyInv, RoomInv, IsValidTitle, NewRoom, SeatIn;
    RunHasLobbyInv(run);
    LobbyBounds(run.lobby);
    if session in run.lobby.users.bySession { UserIsInItsRoom(run.lobby, session); }
  }

  lemma EnterVerdict(run: Run, session: SessionId, id: RoomId)
    requires RunInv(run)
    ensures EnterRoom(run.lobby, session, id).1 == RoomResult.Success <==> MayEnter(run.lobby, session, id)
  {
    hide RunInv, LobbyInv, GameInv, SeatIn, Distinct;
    var s := run.lobby;
    RunHasLobbyInv(run);
    if session in s.users.bySession {
      UserIsInItsRoom(s, session);
      if id in s.rooms { RoomsAreSound(s, id); }
    }
  }

  lemma ReadyVerdict(run: Run, session: SessionId, ready: bool)
    requires RunInv(run)
    ensures LobbyRules.SetReady(run.lobby, session, ready).1 == RoomResult.Success <==> MayReady(run.lobby, session)
  {
    hide RunInv, LobbyInv, RoomInv;
    RunHasLobbyInv(run);
    if session in run.lobby.users.bySession {
      UserIsInItsRoom(run.lobby, session);
      ZeroIsNoRoom(run.lobby);
      assert IsIn(run.lobby, session, run.lobby.users.bySession[session].roomId) <==>
             run.lobby.users.bySession[session].state == UserState.InRoom;
    }
  }

  lemma ZeroIsNoRoom(s: LobbyState)
    requires LobbyInv(s)
    ensures INVALID_ROOM_ID !in s.rooms
  {
    if INVALID_ROOM_ID in s.rooms { RoomIdNotZero(s, INVALID_ROOM_ID); }
  }

  lemma StartVerdict(run: Run, session: SessionId, now: Time)
    requires RunInv(run)
    ensures LobbyRules.StartGame(run.lobby, session, now).1 == RoomResult.Success <==> MayStart(run.lobby, session)
  {
    hide RunInv, LobbyInv, RoomInv, RoomRules.StartGame;
    var s := run.lobby;
    RunHasLobbyInv(run);
    if session in s.users.bySession {
      UserIsInItsRoom(s, session);
      ZeroIsNoRoom(s);
      GameIdBound(s);
      var id := s.users.bySession[session].roomId;
      assert IsIn(s, session, id) <==> s.users.bySession[session].state == UserState.InRoom;
    }
  }

  lemma GameIdBound(s: LobbyState)
    requires LobbyInv(s)
    ensures s.lastGameId <= UINT32_MAX
  {
    hide RoomsInv, Linked, UsersInv;
  }

  lemma StoneVerdict(r: RoomState, session: SessionId, x: int, y: int, now: Time)
    requires RoomInv(r) && session in r.members
    ensures RoomRules.PlaceStone(r, session, x, y, now).1 == MoveResult.Success <==>
              && r.phase == RoomPhase.Playing && PlayerStone(r, session) == r.game.nextTurn
              && Inside(Pos(x, y)) && Pos(x, y) !in r.game.board
  {
    hide HasLine, Full, WellPlaced, Lead, TryPlaceStone;
    PlaceStoneVerdict(r.game, PlayerStone(r, session), x, y);
    PlayingRoomsPlay(r);
    if r.phase == RoomPhase.Playing { MembersHaveStones(r, session); }
  }

  lemma TurnOf(r: RoomState, session: SessionId)
    requires RoomInv(r) && session in r.members && r.phase == RoomPhase.Playing
    ensures r.gameId != 0
    ensures PlayerStone(r, session) == r.game.nextTurn <==> session == if r.game.nextTurn == GameStone.Black then r.black else r.white
  {
    MembersHaveStones(r, session);
  }

  lemma AcceptVerdict(run: Run, session: SessionId, id: RoomId, x: int, y: int, now: Time)
    requires RunInv(run) && id in run.lobby.rooms && session in run.lobby.rooms[id].members
    requires !TurnIsOver(run.lobby.rooms[id], now)
    ensures LobbyRules.AcceptMove(run.lobby, session, id, x, y, now).1 == Returned(GameMoveResult.Success) <==>
            RoomRules.PlaceStone(run.lobby.rooms[id], session, x, y, now).1 == MoveResult.Success
  {
    hide RunInv, RoomRules.PlaceStone, Moved;
    AcceptMoveKeepsRunInv(run, session, id, x, y, now);
  }

  lemma MoveVerdict(run: Run, session: SessionId, id: RoomId, gameId: GameId, x: int, y: int, now: Time)
    requires RunInv(run)
    ensures LobbyRules.PlaceStone(run.lobby, session, id, gameId, x, y, now).1 == Returned(GameMoveResult.Success) <==>
            MayMove(run.lobby, session, id, gameId, x, y, now)
  {
    hide RunInv, LobbyInv, RoomInv, Expire, AcceptMove, RoomRules.PlaceStone, RefusedGameRequest, PlayerStone;
    var s := run.lobby;
    RunHasLobbyInv(run);
    NotRefused(s, session, id, gameId);
    ZeroIsNoRoom(s);
    if session in s.users.bySession { UserIsInItsRoom(s, session); }
    if IsIn(s, session, id) {
      var r := s.rooms[id];
      RoomsAreSound(s, id);
      ExpireKeepsRunInv(run, id, now);
      StoneVerdict(r, session, x, y, now);
      if r.phase == RoomPhase.Playing { TurnOf(r, session); }
      if !TurnIsOver(r, now) { AcceptVerdict(run, session, id, x, y, now); }
    }
  }

  lemma ResignVerdict(run: Run, session: SessionId, id: RoomId, gameId: GameId, now: Time)
    requires RunInv(run)
    ensures LobbyRules.Resign(run.lobby, session, id, gameId, now).1 == Returned(GameMoveResult.Success) <==>
            MayAct(run.lobby, session, id, gameId, now)
  {
    hide RunInv, LobbyInv, RoomInv, LobbyRules.Resign, RefusedGameRequest, EndOfLeaver;
    var s := run.lobby;
    RunHasLobbyInv(run);
    NotRefused(s, session, id, gameId);
    ZeroIsNoRoom(s);
    ResignKeepsRunInv(run, session, id, gameId, now);
    if session in s.users.bySession { UserIsInItsRoom(s, session); }
    if IsIn(s, session, id) {
      RoomsAreSound(s, id);
      if s.rooms[id].phase == RoomPhase.Playing { TurnOf(s.rooms[id], session); }
    }
  }

  // ----- why a request is refused -----

  predicate IsUser(s: LobbyState, session: SessionId) {
    session in s.users.bySession
  }

  /** A user is in the lobby or in exactly one room. */
  lemma LobbyOrRoom(s: LobbyState, session: SessionId)
    requires LobbyInv(s)
    ensures IsUser(s, session) ==> (IsInLobby(s, session) <==> forall id :: !IsIn(s, session, id))
    ensures forall id, other :: IsIn(s, session, id) && IsIn(s, session, other) ==> id == other
  {
    hide LobbyInv, RoomInv;
    if IsUser(s, session) {
      UserIsInItsRoom(s, session);
      ZeroIsNoRoom(s);
      if !IsInLobby(s, session) { assert IsIn(s, session, s.users.bySession[session].roomId); }
    }
  }

  lemma CreateRefusals(run: Run, session: SessionId, title: Bytes)
    requires RunInv(run)
    ensures var s := run.lobby;
            var o := CreateRoom(s, session, title).1;
            var valid, full := IsValidTitle(s.config, title), |s.rooms| == s.config.maxRooms;
            && o.Returned?
            && (o.value == RoomResult.UserNotFound <==> !IsUser(s, session))
            && (o.value == RoomResult.AlreadyInRoom <==> exists id :: IsIn(s, session, id))
            && (o.value == RoomResult.InvalidTitle <==> IsInLobby(s, session) && !valid)
            && (o.value == RoomResult.RoomLimitReached <==> IsInLobby(s, session) && valid && full)
            && (o.value == RoomResult.RoomIdExhausted <==> IsInLobby(s, session) && valid && !full && s.lastRoomId == UINT32_MAX)
  {
    hide RunInv, RoomInv, IsValidTitle, NewRoom, SeatIn, IsIn, Linked, UsersInv;
    RunHasLobbyInv(run);
    LobbyOrRoom(run.lobby, session);
    LobbyOrRoomIsUser(run.lobby, session);
    LobbyBounds(run.lobby);
    if session in run.lobby.users.bySession { UserIsInItsRoom(run.lobby, session); }
  }

  lemma LobbyOrRoomIsUser(s: LobbyState, session: SessionId)
    ensures forall id :: IsIn(s, session, id) ==> IsUser(s, session)
  {
  }

  lemma EnterRefusals(run: Run, session: SessionId, id: RoomId)
    requires RunInv(run)
    ensures var s := run.lobby;
            var result := EnterRoom(s, session, id).1;
            && (result == RoomResult.UserNotFound <==> !IsUser(s, session))
            && (result == RoomResult.AlreadyInRoom <==> exists other :: IsIn(s, session, other))
            && (result == RoomResult.RoomNotFound <==> IsInLobby(s, session) && id !in s.rooms)
            && (result == RoomResult.GameInProgress <==>
                  IsInLobby(s, session) && id in s.rooms && s.rooms[id].phase == RoomPhase.Playing)
            && (result == RoomResult.RoomFull <==>
                  && IsInLobby(s, session) && id in s.rooms
                  && s.rooms[id].phase == RoomPhase.Waiting && |s.rooms[id].members| == ROOM_PLAYER_COUNT)
  {
    hide RunInv, LobbyInv, GameInv, SeatIn, Distinct, IsIn;
    var s := run.lobby;
    RunHasLobbyInv(run);
    LobbyOrRoom(s, session);
    LobbyOrRoomIsUser(s, session);
    if session in s.users.bySession { UserIsInItsRoom(s, session); }
    if id in s.rooms { RoomsAreSound(s, id); }
  }

  lemma LeaveRefusals(run: Run, session: SessionId, reason: GameEndReason, now: Time)
    requires RunInv(run) && (reason == GameEndReason.LeftRoom || reason == GameEndReason.Disconnected)
    ensures var s := run.lobby;
            var o := LeaveRoom(s, session, reason, now).1;
            && o.Returned?
            && (o.value == RoomResult.UserNotFound <==> !IsUser(s, session))
            && (o.value == RoomResult.NotInRoom <==> IsInLobby(s, session))
            && (o.value == RoomResult.Success <==> exists id :: IsIn(s, session, id))
  {
    hide RunInv, LobbyInv, RoomInv, Expire, EndForLeaver, Detach, IsIn, EndOfLeaver;
    RunHasLobbyInv(run);
    LobbyOrRoom(run.lobby, session);
    LobbyOrRoomIsUser(run.lobby, session);
    LeaveRoomKeepsRunInv(run, session, reason, now);
    if session in run.lobby.users.bySession { UserIsInItsRoom(run.lobby, session); }
  }

  lemma ReadyRefusals(run: Run, session: SessionId, ready: bool)
    requires RunInv(run)
    ensures var s := run.lobby;
            var result := LobbyRules.SetReady(s, session, ready).1;
            && (result == RoomResult.UserNotFound <==> !IsUser(s, session))
            && (result == RoomResult.NotInRoom <==> IsInLobby(s, session))
            && forall id :: IsIn(s, session, id) ==>
                 && (result == RoomResult.GameInProgress <==> s.rooms[id].phase == RoomPhase.Playing)
                 && (result == RoomResult.HostCannotReady <==> s.rooms[id].phase == RoomPhase.Waiting && s.rooms[id].host == session)
  {
    hide RunInv, LobbyInv, RoomInv;
    RunHasLobbyInv(run);
    if session in run.lobby.users.bySession {
      UserIsInItsRoom(run.lobby, session);
      ZeroIsNoRoom(run.lobby);
    }
  }

  lemma StartRefusals(run: Run, session: SessionId, now: Time)
    requires RunInv(run)
    ensures var s := run.lobby;
            var result := LobbyRules.StartGame(s, session, now).1;
            && (result == RoomResult.UserNotFound <==> !IsUser(s, session))
            && (result == RoomResult.NotInRoom <==> IsInLobby(s, session))
            && forall id :: IsIn(s, session, id) ==>
                 var r := s.rooms[id];
                 var waits := r.host == session && r.phase == RoomPhase.Waiting;
                 && (result == RoomResult.NotHost <==> r.host != session)
                 && (result == RoomResult.GameAlreadyStarted <==> r.host == session && r.phase == RoomPhase.Playing)
                 && (result == RoomResult.NotEnoughPlayers <==> waits && |r.members| < ROOM_PLAYER_COUNT)
                 && (result == RoomResult.NotAllReady <==>
                       waits && |r.members| == ROOM_PLAYER_COUNT && exists i :: 0 <= i < |r.members| && IsUnready(r, r.members[i]))
                 && (result == RoomResult.GameIdExhausted <==> IsReadyFor(r, session) && s.lastGameId == UINT32_MAX)
  {
    hide RunInv, LobbyInv, GameInv, Distinct, RoomRules.StartGame;
    var s := run.lobby;
    RunHasLobbyInv(run);
    if session in s.users.bySession {
      UserIsInItsRoom(s, session);
      ZeroIsNoRoom(s);
      GameIdBound(s);
    }
  }

  /** A guest who has not said to be ready. */
  predicate IsUnready(r: RoomState, m: SessionId) {
    m != r.host && m !in r.ready
  }

  /** Why a request about a game is refused before the game is looked at. */
  lemma GameRequestRefusals(run: Run, session: SessionId, id: RoomId, gameId: GameId)
    requires RunInv(run)
    ensures var s := run.lobby;
            var refused := RefusedGameRequest(s, session, id, gameId);
            && (refused == Some(GameMoveResult.NotLoggedIn) <==> !IsUser(s, session))
            && (refused == Some(GameMoveResult.NotInRoom) <==> IsInLobby(s, session))
            && (refused == Some(GameMoveResult.WrongRoom) <==> exists other :: other != id && IsIn(s, session, other))
            && (refused == Some(GameMoveResult.StaleGame) <==> IsIn(s, session, id) && (gameId == 0 || gameId != s.rooms[id].gameId))
            && (refused == None <==> IsIn(s, session, id) && gameId != 0 && gameId == s.rooms[id].gameId)
  {
    hide RunInv, LobbyInv, RoomInv;
    var s := run.lobby;
    RunHasLobbyInv(run);
    LobbyOrRoom(s, session);
    ZeroIsNoRoom(s);
    if session in s.users.bySession {
      UserIsInItsRoom(s, session);
      var at := s.users.bySession[session].roomId;
      if at in s.rooms { assert IsIn(s, session, at); }
    }
  }

  lemma StoneRefusals(r: RoomState, session: SessionId, x: int, y: int, now: Time)
    requires RoomInv(r) && session in r.members && r.phase == RoomPhase.Playing
    ensures var result := RoomRules.PlaceStone(r, session, x, y, now).1;
            var turn := session == if r.game.nextTurn == GameStone.Black then r.black else r.white;
            && (result == MoveResult.OutOfBounds <==> !Inside(Pos(x, y)))
            && (result == MoveResult.NotYourTurn <==> Inside(Pos(x, y)) && !turn)
            && (result == MoveResult.Occupied <==> Inside(Pos(x, y)) && turn && Pos(x, y) in r.game.board)
            && result != MoveResult.GameNotRunning && result != MoveResult.InvalidStone
  {
    hide HasLine, Full, WellPlaced, Lead;
    PlayingRoomsPlay(r);
    MembersHaveStones(r, session);
    TurnOf(r, session);
  }

  lemma AcceptRefusals(s: LobbyState, session: SessionId, id: RoomId, x: int, y: int, now: Time)
    requires id in s.rooms && RoomRules.PlaceStone(s.rooms[id], session, x, y, now).1 != MoveResult.Success
    ensures LobbyRules.AcceptMove(s, session, id, x, y, now).1 ==
              Returned(MoveAnswer(RoomRules.PlaceStone(s.rooms[id], session, x, y, now).1))
  {
    hide RoomRules.PlaceStone;
  }

  /** The answer to every move: while the named game runs in time, a cell off the board comes
      before the turn and the turn before a taken cell; a game that is over is not running. */
  lemma MoveRefusals(run: Run, session: SessionId, id: RoomId, gameId: GameId, x: int, y: int, now: Time)
    requires RunInv(run)
    ensures var s := run.lobby;
            var o := LobbyRules.PlaceStone(s, session, id, gameId, x, y, now).1;
            && o.Returned?
            && (RefusedGameRequest(s, session, id, gameId).Some? ==> o.value == RefusedGameRequest(s, session, id, gameId).value)
            && (RefusedGameRequest(s, session, id, gameId) == None ==>
                  (o.value == GameMoveResult.GameNotRunning <==> !MayAct(s, session, id, gameId, now)))
            && (MayAct(s, session, id, gameId, now) ==>
                  var r, inside := s.rooms[id], Inside(Pos(x, y));
                  var turn := session == if r.game.nextTurn == GameStone.Black then r.black else r.white;
                  && (o.value == GameMoveResult.OutOfBounds <==> !inside)
                  && (o.value == GameMoveResult.NotYourTurn <==> inside && !turn)
                  && (o.value == GameMoveResult.Occupied <==> inside && turn && Pos(x, y) in r.game.board))
  {
    hide RunInv, LobbyInv, RoomInv, Expire, AcceptMove, RoomRules.PlaceStone, RefusedGameRequest, PlayerStone, Moved;
    var s := run.lobby;
    RunHasLobbyInv(run);
    GameRequestRefusals(run, session, id, gameId);
    ZeroIsNoRoom(s);
    PlaceStoneKeepsRunInv(run, session, id, gameId, x, y, now);
    if IsIn(s, session, id) {
      var r := s.rooms[id];
      UserIsInItsRoom(s, session);
      RoomsAreSound(s, id);
      ExpireKeepsRunInv(run, id, now);
      if r.phase == RoomPhase.Playing {
        TurnOf(r, session);
        StoneRefusals(r, session, x, y, now);
        MoveVerdict(run, session, id, gameId, x, y, now);
      }
      if RefusedGameRequest(s, session, id, gameId) == None && !TurnIsOver(r, now) {
        if r.phase == RoomPhase.Waiting { WaitingIsNotRunning(r, session, x, y, now); }
        AcceptVerdict(run, session, id, x, y, now);
        if RoomRules.PlaceStone(r, session, x, y, now).1 != MoveResult.Success { AcceptRefusals(s, session, id, x, y, now); }
      }
    }
  }

  lemma WaitingIsNotRunning(r: RoomState, session: SessionId, x: int, y: int, now: Time)
    requires r.phase == RoomPhase.Waiting
    ensures RoomRules.PlaceStone(r, session, x, y, now).1 == MoveResult.GameNotRunning
  {
  }

  lemma ResignRefusals(run: Run, session: SessionId, id: RoomId, gameId: GameId, now: Time)
    requires RunInv(run)
    ensures var s := run.lobby;
            var o := LobbyRules.Resign(s, session, id, gameId, now).1;
            && o.Returned?
            && (RefusedGameRequest(s, session, id, gameId).Some? ==> o.value == RefusedGameRequest(s, session, id, gameId).value)
            && (RefusedGameRequest(s, session, id, gameId) == None ==>
                  o.value == if MayAct(s, session, id, gameId, now) then GameMoveResult.Success else GameMoveResult.GameNotRunning)
  {
    hide RunInv, LobbyInv, RoomInv, LobbyRules.Resign, RefusedGameRequest, EndOfLeaver, PlayerStone;
    GameRequestRefusals(run, session, id, gameId);
    ResignVerdict(run, session, id, gameId, now);
    ResignKeepsRunInv(run, session, id, gameId, now);
  }
}
