/** Everything the server builds from its state can be encoded and is decoded to the same
    value by the client: the branches for failed encodings are dead. */
module Encodability {
  import opened Protocol
  import opened OmokRules
  import opened RoomRules
  import opened UserRules
  import opened LobbyRules
  import opened LobbyInvariant
  import opened LobbyCalls
  import opened WireFormat
  import opened RoomPacketCodec
  import opened GamePacketCodec
  import opened Replica
  import RoomListing
  import opened ServerRules

  lemma Unchanged32(x: nat)
    requires x <= UINT32_MAX
    ensures ToU32(x) == x
  {
  }

  // ----- room snapshots -----

  /** The members listed are users of the room. */
  ghost predicate AtHome(s: LobbyState, room: RoomState, members: seq<SessionId>) {
    forall i :: 0 <= i < |members| ==> members[i] in s.users.bySession && s.users.bySession[members[i]].roomId == room.id
  }

  function PlayerInfo(s: LobbyState, room: RoomState, member: SessionId): RoomPlayerInfo
    requires member in s.users.bySession
  {
    RoomPlayerInfo(s.users.bySession[member].nickname, member in room.ready)
  }

  lemma {:induction false} PlayersAreFound(s: LobbyState, room: RoomState, members: seq<SessionId>)
    requires AtHome(s, room, members)
    ensures PlayersOf(s, room, members).Some? && |PlayersOf(s, room, members).value| == |members|
    ensures forall i :: 0 <= i < |members| ==> PlayersOf(s, room, members).value[i] == PlayerInfo(s, room, members[i])
    decreases |members|
  {
    if members != [] {
      PlayersAreFound(s, room, members[1..]);
    }
  }

  lemma MembersAreAtHome(s: LobbyState, id: RoomId)
    requires LobbyInv(s) && id in s.rooms
    ensures var r := s.rooms[id];
            AtHome(s, r, r.members) && r.host in s.users.bySession && RoomInv(r) && r.id == id && UsersInv(s.users)
  {
    hide UsersInv, GameInv;
    RoomsAreSound(s, id);
    assert Linked(s.users.bySession, s.rooms);
  }

  lemma NicknamesAreOk(t: UserTable, session: SessionId)
    requires UsersInv(t) && session in t.bySession
    ensures NameOk(t.bySession[session].nickname)
  {
    assert UserInv(session, t.bySession[session]);
  }

  /** The notification shows the room as it is: phase, game, host, and its members with their
      names and marks, in their order. */
  predicate Depicts(s: LobbyState, r: RoomState, p: RoomStateNotification) {
    && p.roomId == r.id && p.phase == r.phase && p.capacity == r.capacity
    && (r.phase == RoomPhase.Playing ==> p.game == r.gameId)
    && r.host in s.users.bySession && p.hostNickname == s.users.bySession[r.host].nickname
    && |p.players| == |r.members|
    && forall i :: 0 <= i < |r.members| ==>
         && r.members[i] in s.users.bySession
         && p.players[i].nickname == s.users.bySession[r.members[i]].nickname
         && (p.players[i].ready <==> r.members[i] in r.ready)
  }

  /** The snapshot of any room of a sound lobby: found, valid, exact, and read back as it is. */
  lemma SnapshotIsSent(run: Run, id: RoomId)
    requires RunInv(run) && id in run.lobby.rooms
    ensures var snapshot := SnapshotOf(run.lobby, run.lobby.rooms[id]);
            && snapshot.Some? && ValidRoomState(snapshot.value)
            && snapshot.value.roomId == id && Depicts(run.lobby, run.lobby.rooms[id], snapshot.value)
            && |RoomStateBytes(snapshot.value)| <= MAX_BODY_SIZE
            && DecodedRoomState(RoomStateBytes(snapshot.value)) == snapshot
  {
    hide RunInv, LobbyInv, RoomStateBytes, DecodedRoomState, UsersInv, GameInv, PlayersOf;
    var s, r := run.lobby, run.lobby.rooms[id];
    RunHasLobbyInv(run);
    MembersAreAtHome(s, id);
    PlayersAreFound(s, r, r.members);
    IdsFit(run, id);
    Unchanged32(id);
    if r.phase == RoomPhase.Playing { Unchanged32(r.gameId); }
    SnapshotIsValid(s, r, SnapshotOf(s, r).value);
    RoomStateFits(SnapshotOf(s, r).value);
    RoomStateExact(RoomStateBytes(SnapshotOf(s, r).value), SnapshotOf(s, r).value);
  }

  lemma SnapshotIsValid(s: LobbyState, r: RoomState, p: RoomStateNotification)
    requires UsersInv(s.users) && RoomInv(r) && AtHome(s, r, r.members) && r.host in s.users.bySession
    requires p.roomId == r.id && p.phase == r.phase && p.capacity == ToU8(r.capacity)
    requires p.hostNickname == s.users.bySession[r.host].nickname
    requires r.phase == RoomPhase.Playing ==> p.game == r.gameId
    requires |p.players| == |r.members|
    requires forall i :: 0 <= i < |r.members| ==> p.players[i] == PlayerInfo(s, r, r.members[i])
    ensures ValidRoomState(p)
  {
    hide UsersInv, GameInv;
    NicknamesAreOk(s.users, r.host);
    forall i | 0 <= i < |p.players| ensures PlayerOk(p, p.players[i]) {
      NicknamesAreOk(s.users, r.members[i]);
      if r.members[i] != r.host { NicknamesDiffer(s.users, r.members[i], r.host); }
    }
    forall i, j | 0 <= i < j < |p.players| ensures p.players[i].nickname != p.players[j].nickname {
      NicknamesDiffer(s.users, r.members[i], r.members[j]);
    }
    var h :| 0 <= h < |r.members| && r.members[h] == r.host;
    assert p.players[h].nickname == p.hostNickname;
  }

  /** So a room notification always goes out. */
  lemma RoomStateGoesOut(s: Server, id: RoomId)
    requires RunInv(s.run) && id in s.run.lobby.rooms
    ensures var room := s.run.lobby.rooms[id];
            var snapshot := SnapshotOf(s.run.lobby, room);
            && snapshot.Some?
            && NotifyRoomState(s, id) == s.(net := Broadcast(s.net, room.members, ROOM_STATE_NTF, RoomStateBytes(snapshot.value)))
  {
    hide RunInv, SnapshotOf, ValidRoomState, RoomStateBytes, DecodedRoomState, Broadcast;
    SnapshotIsSent(s.run, id);
  }

  /** And so does a member notification under any valid name. */
  lemma MemberNoticeGoesOut(s: Server, id: RoomId, change: RoomMemberChange, nickname: Bytes)
    requires RunInv(s.run) && id in s.run.lobby.rooms && NameOk(nickname)
    ensures NotifyRoomMember(s, id, change, nickname) ==
              s.(net := Broadcast(s.net, s.run.lobby.rooms[id].members, ROOM_MEMBER_NTF,
                                  RoomMemberBytes(RoomMemberNotification(id, change, nickname))))
  {
    hide RunInv, LobbyInv, UsersInv, GameInv, RoomMemberBytes, Broadcast;
    RunHasLobbyInv(s.run);
    MembersAreAtHome(s.run.lobby, id);
    IdsFit(s.run, id);
    Unchanged32(id);
  }

  /** So it goes out about any user. */
  lemma RoomMemberGoesOut(s: Server, id: RoomId, change: RoomMemberChange, session: SessionId)
    requires RunInv(s.run) && id in s.run.lobby.rooms && session in s.run.lobby.users.bySession
    ensures var nickname := s.run.lobby.users.bySession[session].nickname;
            NotifyRoomMember(s, id, change, nickname) ==
              s.(net := Broadcast(s.net, s.run.lobby.rooms[id].members, ROOM_MEMBER_NTF,
                                  RoomMemberBytes(RoomMemberNotification(id, change, nickname))))
  {
    hide RunInv, LobbyInv, UsersInv, NameOk, RoomMemberBytes, Broadcast, NotifyRoomMember;
    RunHasLobbyInv(s.run);
    MembersAreAtHome(s.run.lobby, id);
    NicknamesAreOk(s.run.lobby.users, session);
    MemberNoticeGoesOut(s, id, change, s.run.lobby.users.bySession[session].nickname);
  }

  // ----- finished games -----

  /** Every record of the run can be announced, and is read back with its own numbers. */
  lemma EndIsSent(run: Run, i: nat)
    requires RunInv(run) && i < |History(run)|
    ensures var f := History(run)[i];
            var p := EndNotificationOf(f);
            && IsValidGameEnd(p) && DecodedGameEnd(GameEndBytes(p)) == Some(p)
            && p == GameEndNotification(f.room, f.game, f.status, f.reason, f.moveCount)
  {
    hide LobbyInv, ClocksInv, GameEndBytes, DecodedGameEnd;
    var f := History(run)[i];
    GameIdsFit(run);
    assert SoundRecord(f) && f.game <= run.lobby.lastGameId;
    Unchanged32(f.room);
    Unchanged32(f.game);
    Unchanged32(f.moveCount);
    GameEndExact(GameEndBytes(EndNotificationOf(f)), EndNotificationOf(f));
  }

  lemma GameIdsFit(run: Run)
    requires RunInv(run)
    ensures run.lobby.lastGameId <= UINT32_MAX
  {
    hide Linked, UsersInv, RoomsInv, Conserved, ClocksInv;
  }

  /** So a flushed result never drops the players it is meant for. */
  lemma EndGoesOut(s: Server)
    requires RunInv(s.run) && s.run.lobby.finished != []
    ensures var f := s.run.lobby.finished[0];
            Announce(Popped(s), f) ==
              NotifyRoomState(Popped(s).(net := Broadcast(s.net, f.targets, GAME_END_NTF, GameEndBytes(EndNotificationOf(f)))), f.room)
  {
    hide RunInv, IsValidGameEnd, GameEndBytes, DecodedGameEnd, EndNotificationOf, Broadcast, NotifyRoomState;
    assert History(s.run)[|s.run.popped|] == s.run.lobby.finished[0];
    EndIsSent(s.run, |s.run.popped|);
  }

  // ----- moves -----

  /** The notification of the move at (x, y) may be sent, carries the numbers of the
      request, and is read back as it is. */
  predicate MoveArrives(m: AcceptedMove, id: RoomId, gameId: GameId, x: int, y: int) {
    && 0 <= x < GAME_BOARD_SIZE && 0 <= y < GAME_BOARD_SIZE && id <= UINT32_MAX && gameId <= UINT32_MAX
    && m.x == x && m.y == y && m.room == id && m.game == gameId && m.moveCount <= UINT32_MAX
    && var p := NotificationOf(m);
    && IsValidGameMove(p) && DecodedGameMove(GameMoveBytes(p)) == Some(p)
    && p == GameMoveNotification(id, gameId, x, y, m.placed, m.nextTurn, m.status, m.moveCount)
  }

  /** Every accepted move reaches the clients, and the room it is for is there. */
  lemma MoveIsSent(run: Run, session: SessionId, id: RoomId, gameId: GameId, x: int, y: int, now: Time)
    requires RunInv(run)
    requires LobbyRules.PlaceStone(run.lobby, session, id, gameId, x, y, now).1 == Returned(GameMoveResult.Success)
    ensures var (t, _, m) := LobbyRules.PlaceStone(run.lobby, session, id, gameId, x, y, now);
            m.Some? && id in t.rooms && MoveArrives(m.value, id, gameId, x, y)
  {
    hide RunInv, LobbyInv, RoomInv, LobbyRules.PlaceStone, HasLine, Full, IsValidGameMove, GameMoveBytes, DecodedGameMove, SameSeats;
    PlaceStoneKeepsRunInv(run, session, id, gameId, x, y, now);
    var (t, _, m) := LobbyRules.PlaceStone(run.lobby, session, id, gameId, x, y, now);
    assert Moved(run.lobby, t, session, id, x, y, now, m.value);
    var r := run.lobby.rooms[id];
    RunHasLobbyInv(run);
    RoomsAreSound(run.lobby, id);
    assert RunInv(run.(lobby := t));
    RunHasLobbyInv(run.(lobby := t));
    RoomsAreSound(t, id);
    RoomHasGameInv(t.rooms[id]);
    TurnMeansPlaying(r);
    IdsFit(run, id);
    AcceptedMoveIsValid(r, t.rooms[id], session, x, y, now, m.value);
    GameMoveExact(GameMoveBytes(NotificationOf(m.value)), NotificationOf(m.value));
    AcceptedIsRequested(run.lobby, session, id, gameId, x, y, now);
  }

  lemma AcceptedIsRequested(s: LobbyState, session: SessionId, id: RoomId, gameId: GameId, x: int, y: int, now: Time)
    requires LobbyRules.PlaceStone(s, session, id, gameId, x, y, now).1 == Returned(GameMoveResult.Success)
    ensures id in s.rooms && s.rooms[id].gameId == gameId
  {
    hide AcceptMove, Expire;
    if RefusedGameRequest(s, session, id, gameId) != None { assert false; }
  }

  // ----- room lists -----

  /** Whatever a client asks for, the list it gets back is valid and fits a packet. */
  lemma RoomListIsSent(run: Run, session: SessionId, after: RoomId)
    requires RunInv(run)
    ensures var p := RoomListFor(run.lobby, session, after);
            ValidRoomList(p) && |RoomListBytes(p)| <= MAX_BODY_SIZE && DecodedRoomList(RoomListBytes(p)) == Some(p)
  {
    hide RunInv, LobbyInv, RoomListBytes, DecodedRoomList, RoomListing.GetRoomsAfter;
    RunHasLobbyInv(run);
    RoomListing.PageIsValid(run.lobby, after);
    var p := RoomListFor(run.lobby, session, after);
    RoomListFits(p);
    RoomListExact(RoomListBytes(p), p);
  }

  // ----- room responses -----

  /** The client reads the response back as it is. */
  predicate ReadBack(result: RoomResult, roomId: RoomId) {
    DecodedRoomAction(RoomActionBytes(ActionResponse(result, roomId))) == Some(ActionResponse(result, roomId))
  }

  /** A success names a room that fits its field. */
  predicate Paired(result: RoomResult, roomId: RoomId) {
    result == RoomResult.Success ==> 0 < roomId <= UINT32_MAX
  }

  lemma PairedIsReadBack(result: RoomResult, roomId: RoomId)
    requires Paired(result, roomId)
    ensures ReadBack(result, roomId)
  {
    hide RoomActionBytes, DecodedRoomAction;
    RoomActionRoundTrip(ActionResponse(result, roomId));
  }

  /** The pairing the decoder demands and the encoder does not check holds for every response
      the server builds: success names a room, and all of them are read back. */
  lemma RoomResponsesArePaired(run: Run, session: SessionId, title: Bytes, id: RoomId, ready: bool, now: Time)
    requires RunInv(run)
    ensures var (_, created, newId) := CreateRoom(run.lobby, session, title);
            created.Returned? && Paired(created.value, newId) && ReadBack(created.value, newId)
    ensures var entered := EnterRoom(run.lobby, session, id).1; Paired(entered, id) && ReadBack(entered, id)
    ensures var left, roomId := LeaveRoom(run.lobby, session, GameEndReason.LeftRoom, now).1, RoomOf(run.lobby, session);
            left.Returned? && Paired(left.value, roomId) && ReadBack(left.value, roomId)
    ensures var (t, result) := LobbyRules.SetReady(run.lobby, session, ready);
            Paired(result, RoomOf(t, session)) && ReadBack(result, RoomOf(t, session))
    ensures var (t, result) := LobbyRules.StartGame(run.lobby, session, now);
            Paired(result, RoomOf(t, session)) && ReadBack(result, RoomOf(t, session))
  {
    hide RunInv, LobbyInv, CreateRoom, EnterRoom, LeaveRoom, LobbyRules.SetReady, LobbyRules.StartGame, RoomRules.SetReady,
      SameSeats, EndOfLeaver, Seated, BackToLobby, Noted, ReadBack;
    CreateRoomKeepsRunInv(run, session, title);
    var (t, created, newId) := CreateRoom(run.lobby, session, title);
    if created == Returned(RoomResult.Success) { IdsFit(run.(lobby := t), newId); }
    PairedIsReadBack(created.value, newId);
    EnterRoomKeepsRunInv(run, session, id);
    if id in run.lobby.rooms { IdsFit(run, id); }
    PairedIsReadBack(EnterRoom(run.lobby, session, id).1, id);
    LeaveRoomKeepsRunInv(run, session, GameEndReason.LeftRoom, now);
    SetReadyKeepsRunInv(run, session, ready);
    StartGameKeepsRunInv(run, session, now);
    if session in run.lobby.users.bySession && run.lobby.users.bySession[session].roomId in run.lobby.rooms {
      IdsFit(run, run.lobby.users.bySession[session].roomId);
    }
    PairedIsReadBack(LeaveRoom(run.lobby, session, GameEndReason.LeftRoom, now).1.value, RoomOf(run.lobby, session));
    var (r, readied) := LobbyRules.SetReady(run.lobby, session, ready);
    PairedIsReadBack(readied, RoomOf(r, session));
    var (g, begun) := LobbyRules.StartGame(run.lobby, session, now);
    PairedIsReadBack(begun, RoomOf(g, session));
  }
}
