/** Which room a call of the lobby changes for the eyes of its members, and for whom the results
    are that it records. */
module RoomChanges {
  import opened Protocol
  import opened OmokRules
  import opened RoomRules
  import opened UserRules
  import opened LobbyRules
  import opened LobbyInvariant
  import opened LobbyCalls
  import opened LobbyVerdicts
  import opened LobbyRuns
  import opened RoomPacketCodec
  import opened ServerRules
  import Replica
  import opened Overtaking

  /** The two rooms look the same in a notification. */
  predicate SameFace(r: RoomState, q: RoomState) {
    && q.id == r.id && q.members == r.members && q.host == r.host && q.ready == r.ready
    && q.phase == r.phase && q.gameId == r.gameId && q.capacity == r.capacity
  }

  predicate SameEntry(s: LobbyState, t: LobbyState, m: SessionId) {
    && (m in s.users.bySession <==> m in t.users.bySession)
    && (m in s.users.bySession ==> s.users.bySession[m] == t.users.bySession[m])
  }

  lemma {:induction false} PlayersFrame(s: LobbyState, t: LobbyState, r: RoomState, q: RoomState, members: seq<SessionId>)
    requires SameFace(r, q) && forall m :: m in members ==> SameEntry(s, t, m)
    ensures PlayersOf(s, r, members) == PlayersOf(t, q, members)
    decreases |members|
  {
    if members != [] {
      assert SameEntry(s, t, members[0]);
      PlayersFrame(s, t, r, q, members[1..]);
    }
  }

  lemma NoticeFrame(s: LobbyState, t: LobbyState, id: RoomId)
    requires id in s.rooms && id in t.rooms && SameFace(s.rooms[id], t.rooms[id])
    requires (forall m :: m in s.rooms[id].members ==> SameEntry(s, t, m)) && s.rooms[id].host in s.rooms[id].members
    ensures NoticeOf(s, id) == NoticeOf(t, id)
  {
    hide RoomStateBytes, PlayersOf;
    PlayersFrame(s, t, s.rooms[id], t.rooms[id], s.rooms[id].members);
    assert SameEntry(s, t, s.rooms[id].host);
  }

  /** Every room but those in xs has the members and the notification it had, or a result. */
  ghost predicate SameNotices(s: LobbyState, t: LobbyState, xs: set<RoomId>) {
    forall id :: id in t.rooms && id !in xs && !Pending(t, id) ==>
      id in s.rooms && !Pending(s, id) && s.rooms[id].members == t.rooms[id].members && NoticeOf(s, id) == NoticeOf(t, id)
  }

  lemma NothingChanges(s: LobbyState)
    ensures SameNotices(s, s, {})
  {
  }

  lemma PendingStays(s: LobbyState, t: LobbyState)
    requires s.finished <= t.finished
    ensures forall id :: Pending(s, id) ==> Pending(t, id)
  {
    forall id | Pending(s, id) ensures Pending(t, id) {
      var i :| 0 <= i < |s.finished| && s.finished[i].room == id;
      assert t.finished[i] == s.finished[i];
    }
  }

  /** A call that changes one room, and one user, who is in no other room afterwards. */
  lemma OthersStay(run: Run, after: Run, x: RoomId, session: SessionId)
    requires RunInv(run) && RunInv(after) && run.lobby.finished <= after.lobby.finished
    requires forall id :: id in after.lobby.rooms && id != x ==> id in run.lobby.rooms && after.lobby.rooms[id] == run.lobby.rooms[id]
    requires forall m :: m != session ==> SameEntry(run.lobby, after.lobby, m)
    requires session in after.lobby.users.bySession ==>
               after.lobby.users.bySession[session].roomId == x || after.lobby.users.bySession[session].roomId == INVALID_ROOM_ID
    ensures SameNotices(run.lobby, after.lobby, {x})
  {
    hide RunInv, NoticeOf, Pending;
    PendingStays(run.lobby, after.lobby);
    forall id | id in after.lobby.rooms && id != x && !Pending(after.lobby, id)
      ensures NoticeOf(run.lobby, id) == NoticeOf(after.lobby, id)
    {
      MembersAreElsewhere(after, id, session, x);
      NoticeFrame(run.lobby, after.lobby, id);
    }
  }

  lemma MembersAreElsewhere(run: Run, id: RoomId, session: SessionId, x: RoomId)
    requires RunInv(run) && id in run.lobby.rooms && id != x
    requires session in run.lobby.users.bySession ==>
               run.lobby.users.bySession[session].roomId == x || run.lobby.users.bySession[session].roomId == INVALID_ROOM_ID
    ensures session !in run.lobby.rooms[id].members && run.lobby.rooms[id].host in run.lobby.rooms[id].members
  {
    hide Conserved, ClocksInv, UsersInv, GameInv;
    RoomsAreSound(run.lobby, id);
    assert Linked(run.lobby.users.bySession, run.lobby.rooms);
  }

  /** A call that leaves the users alone and changes the looks of rooms only by a result. */
  lemma ResultsOnly(run: Run, after: Run)
    requires RunInv(run) && run.lobby.finished <= after.lobby.finished && after.lobby.users == run.lobby.users
    requires forall id :: id in after.lobby.rooms ==>
               id in run.lobby.rooms && (SameFace(run.lobby.rooms[id], after.lobby.rooms[id]) || Pending(after.lobby, id))
    ensures SameNotices(run.lobby, after.lobby, {})
  {
    hide RunInv, NoticeOf, Pending;
    PendingStays(run.lobby, after.lobby);
    forall id | id in after.lobby.rooms && !Pending(after.lobby, id) ensures NoticeOf(run.lobby, id) == NoticeOf(after.lobby, id) {
      HostIsMember(run, id);
      NoticeFrame(run.lobby, after.lobby, id);
    }
  }

  lemma HostIsMember(run: Run, id: RoomId)
    requires RunInv(run) && id in run.lobby.rooms
    ensures run.lobby.rooms[id].host in run.lobby.rooms[id].members
  {
    hide LobbyInv, GameInv;
    RoomsAreSound(run.lobby, id);
  }

  /** The room a call may change for the eyes of its members, results aside. */
  function Touched(run: Run, op: Op): set<RoomId> {
    match op
    case DoCreate(_, _) => {run.lobby.lastRoomId + 1}
    case DoEnter(_, roomId) => {roomId}
    case DoLeave(session, _) => {RoomOf(run.lobby, session)}
    case DoDisconnect(session, _) => {RoomOf(run.lobby, session)}
    case DoReady(session, _) => {RoomOf(run.lobby, session)}
    case DoStart(session, _) => {RoomOf(run.lobby, session)}
    case _ => {}
  }

  lemma SeatingEntries(s: LobbyState, session: SessionId, title: Bytes, id: RoomId)
    ensures var (t, o, roomId) := CreateRoom(s, session, title);
            && t.finished == s.finished && (forall m :: m != session ==> SameEntry(s, t, m))
            && (o == Returned(RoomResult.Success) ==>
                  roomId == s.lastRoomId + 1 && session in t.users.bySession && t.users.bySession[session].roomId == roomId)
    ensures var (t, result) := EnterRoom(s, session, id);
            && t.finished == s.finished && (forall m :: m != session ==> SameEntry(s, t, m))
            && (result == RoomResult.Success ==> session in t.users.bySession && t.users.bySession[session].roomId == id)
  {
    hide IsValidTitle, AddMember;
  }

  lemma LeavingEntries(s: LobbyState, session: SessionId)
    ensures var t := s.(users := Remove(s.users, session));
            session !in t.users.bySession && forall m :: m != session ==> SameEntry(s, t, m)
    ensures session in s.users.bySession ==>
              var t := s.(users := BackToLobby(s.users, session));
              && t.users.bySession[session].roomId == INVALID_ROOM_ID && (forall m :: m != session ==> SameEntry(s, t, m))
  {
  }

  lemma CreateTouches(run: Run, session: SessionId, title: Bytes)
    requires RunInv(run)
    ensures SameNotices(run.lobby, CreateRoom(run.lobby, session, title).0, {run.lobby.lastRoomId + 1})
  {
    hide RunInv, CreateRoom, SameNotices, SameEntry;
    CreateRoomKeepsRunInv(run, session, title);
    SeatingEntries(run.lobby, session, title, 0);
    var (t, o, id) := CreateRoom(run.lobby, session, title);
    NothingChanges(run.lobby);
    if o == Returned(RoomResult.Success) {
      OthersStay(run, run.(lobby := t), id, session);
    } else {
      MoreTouched(run.lobby, t, {run.lobby.lastRoomId + 1});
    }
  }

  lemma MoreTouched(s: LobbyState, t: LobbyState, xs: set<RoomId>)
    requires SameNotices(s, t, {})
    ensures SameNotices(s, t, xs)
  {
  }

  lemma EnterTouches(run: Run, session: SessionId, id: RoomId)
    requires RunInv(run)
    ensures SameNotices(run.lobby, EnterRoom(run.lobby, session, id).0, {id})
  {
    hide RunInv, EnterRoom, SameNotices, SameEntry;
    EnterRoomKeepsRunInv(run, session, id);
    SeatingEntries(run.lobby, session, [], id);
    var (t, result) := EnterRoom(run.lobby, session, id);
    NothingChanges(run.lobby);
    if result == RoomResult.Success { OthersStay(run, run.(lobby := t), id, session); } else { MoreTouched(run.lobby, t, {id}); }
  }

  lemma LeaveTouches(run: Run, session: SessionId, reason: GameEndReason, now: Time)
    requires RunInv(run) && (reason == GameEndReason.LeftRoom || reason == GameEndReason.Disconnected)
    ensures var left := LeaveRoom(run.lobby, session, reason, now).0;
            && SameNotices(run.lobby, left, {RoomOf(run.lobby, session)})
            && (forall m :: m != session ==> SameEntry(run.lobby, left, m)) && run.lobby.finished <= left.finished
  {
    hide RunInv, LeaveRoom, SameNotices, BackToLobby, EndOfLeaver;
    LeaveRoomKeepsRunInv(run, session, reason, now);
    var (left, o) := LeaveRoom(run.lobby, session, reason, now);
    LeavingEntries(run.lobby, session);
    if o == Returned(RoomResult.Success) {
      forall m | m != session ensures SameEntry(run.lobby, left, m) {
        assert SameEntry(run.lobby, run.lobby.(users := BackToLobby(run.lobby.users, session)), m);
      }
      OthersStay(run, run.(lobby := left), RoomOf(run.lobby, session), session);
    } else {
      NothingChanges(run.lobby);
      MoreTouched(run.lobby, left, {RoomOf(run.lobby, session)});
    }
  }

  lemma DisconnectTouches(run: Run, session: SessionId, now: Time)
    requires RunInv(run)
    ensures SameNotices(run.lobby, LobbyRuns.Do(run, DoDisconnect(session, now)).lobby, {RoomOf(run.lobby, session)})
  {
    hide RunInv, LeaveRoom, SameNotices, Remove, EndOfLeaver, SameEntry, LobbyRuns.Broken;
    LeaveTouches(run, session, GameEndReason.Disconnected, now);
    LeaveRoomKeepsRunInv(run, session, GameEndReason.Disconnected, now);
    var left := LeaveRoom(run.lobby, session, GameEndReason.Disconnected, now).0;
    OneCall(run, DoDisconnect(session, now));
    LeavingEntries(left, session);
    var gone := LobbyRuns.Do(run, DoDisconnect(session, now));
    forall m | m != session ensures SameEntry(run.lobby, gone.lobby, m) {
      EntryTwice(run.lobby, left, gone.lobby, m);
    }
    OthersStay(run, gone, RoomOf(run.lobby, session), session);
  }

  lemma EntryTwice(a: LobbyState, b: LobbyState, c: LobbyState, m: SessionId)
    requires SameEntry(a, b, m) && SameEntry(b, c, m)
    ensures SameEntry(a, c, m)
  {
  }

  lemma ReadyTouches(run: Run, session: SessionId, ready: bool)
    requires RunInv(run)
    ensures SameNotices(run.lobby, LobbyRules.SetReady(run.lobby, session, ready).0, {RoomOf(run.lobby, session)})
  {
    hide RunInv, LobbyRules.SetReady, SameNotices, ReadySet;
    SetReadyKeepsRunInv(run, session, ready);
    var (t, result) := LobbyRules.SetReady(run.lobby, session, ready);
    if result == RoomResult.Success {
      assert ReadySet(run.lobby, t, session, ready);
      ReadyRooms(run.lobby, t, session, ready);
      OthersStay(run, run.(lobby := t), RoomOf(run.lobby, session), session);
    } else {
      NothingChanges(run.lobby);
      MoreTouched(run.lobby, t, {RoomOf(run.lobby, session)});
    }
  }

  lemma ReadyRooms(s: LobbyState, t: LobbyState, session: SessionId, ready: bool)
    requires ReadySet(s, t, session, ready)
    ensures forall id :: id in t.rooms && id != RoomOf(s, session) ==> id in s.rooms && t.rooms[id] == s.rooms[id]
  {
  }

  lemma StartTouches(run: Run, session: SessionId, now: Time)
    requires RunInv(run)
    ensures SameNotices(run.lobby, LobbyRules.StartGame(run.lobby, session, now).0, {RoomOf(run.lobby, session)})
  {
    hide RunInv, LobbyRules.StartGame, SameNotices, Seated, Noted;
    StartGameKeepsRunInv(run, session, now);
    var (t, result) := LobbyRules.StartGame(run.lobby, session, now);
    if result == RoomResult.Success {
      OthersStay(run, run.(lobby := t, starts := Noted(run, session, now)), RoomOf(run.lobby, session), session);
    } else {
      NothingChanges(run.lobby);
      MoreTouched(run.lobby, t, {RoomOf(run.lobby, session)});
    }
  }

  lemma MoveTouches(run: Run, session: SessionId, id: RoomId, gameId: GameId, x: int, y: int, now: Time)
    requires RunInv(run)
    ensures SameNotices(run.lobby, LobbyRules.PlaceStone(run.lobby, session, id, gameId, x, y, now).0, {})
  {
    hide RunInv, LobbyInv, LobbyRules.PlaceStone, SameNotices, Moved, RefusedGameRequest, EndOfMove, TurnIsOver, Pending;
    PlaceStoneKeepsRunInv(run, session, id, gameId, x, y, now);
    RunHasLobbyInv(run);
    NotRefused(run.lobby, session, id, gameId);
    NothingChanges(run.lobby);
    var (t, o, m) := LobbyRules.PlaceStone(run.lobby, session, id, gameId, x, y, now);
    if o.value == GameMoveResult.Success {
      MovedFace(run, t, session, id, x, y, now, m.value);
      ResultsOnly(run, run.(lobby := t));
    } else if RefusedGameRequest(run.lobby, session, id, gameId) == None && TurnIsOver(run.lobby.rooms[id], now) {
      NamedById(run, id);
      RecordIsPending(run.lobby, t, [TimeoutRecord(run.lobby.rooms[id])], id);
      ResultsOnly(run, run.(lobby := t));
    }
  }

  lemma RecordIsPending(s: LobbyState, t: LobbyState, more: seq<FinishedGame>, id: RoomId)
    requires t.finished == s.finished + more && more != [] && more[0].room == id
    ensures Pending(t, id)
  {
    assert t.finished[|s.finished|] == more[0];
  }

  lemma MovedFace(run: Run, t: LobbyState, session: SessionId, id: RoomId, x: int, y: int, now: Time, m: AcceptedMove)
    requires RunInv(run) && Moved(run.lobby, t, session, id, x, y, now, m) && RunInv(run.(lobby := t))
    ensures id in run.lobby.rooms && id in t.rooms && t.rooms == run.lobby.rooms[id := t.rooms[id]]
    ensures run.lobby.finished <= t.finished && (SameFace(run.lobby.rooms[id], t.rooms[id]) || Pending(t, id))
  {
    hide RunInv, LobbyInv, GameInv, HasLine, Full, Distinct;
    NamedById(run, id);
    RunHasLobbyInv(run);
    RunHasLobbyInv(run.(lobby := t));
    RoomsAreSound(run.lobby, id);
    RoomsAreSound(t, id);
    Replica.TurnMeansPlaying(run.lobby.rooms[id]);
    if m.status != GameState.Playing { RecordIsPending(run.lobby, t, EndOfMove(run.lobby.rooms[id], m), id); }
  }

  lemma ResignTouches(run: Run, session: SessionId, id: RoomId, gameId: GameId, now: Time)
    requires RunInv(run)
    ensures SameNotices(run.lobby, LobbyRules.Resign(run.lobby, session, id, gameId, now).0, {})
  {
    hide RunInv, LobbyInv, LobbyRules.Resign, SameNotices, RefusedGameRequest, Pending, PlayerStone, TimeoutRecord;
    ResignKeepsRunInv(run, session, id, gameId, now);
    RunHasLobbyInv(run);
    NotRefused(run.lobby, session, id, gameId);
    NothingChanges(run.lobby);
    var t := LobbyRules.Resign(run.lobby, session, id, gameId, now).0;
    if RefusedGameRequest(run.lobby, session, id, gameId) == None {
      NamedById(run, id);
      var more := EndOfLeaver(run.lobby.rooms[id], session, GameEndReason.Resigned, now);
      if run.lobby.rooms[id].phase == RoomPhase.Waiting {
        WaitingResignation(run, session, id, gameId, now);
      } else {
        assert TimeoutRecord(run.lobby.rooms[id]).room == id by { TimeoutNamesRoom(run.lobby.rooms[id]); }
        RecordIsPending(run.lobby, t, more, id);
        ResultsOnly(run, run.(lobby := t));
      }
    }
  }

  lemma TimeoutNamesRoom(r: RoomState)
    ensures TimeoutRecord(r).room == r.id && TimeoutRecord(r).targets == r.members
  {
  }

  lemma WaitingResignation(run: Run, session: SessionId, id: RoomId, gameId: GameId, now: Time)
    requires RunInv(run) && id in run.lobby.rooms && run.lobby.rooms[id].phase == RoomPhase.Waiting
    ensures LobbyRules.Resign(run.lobby, session, id, gameId, now).0 == run.lobby
  {
    hide RunInv, Expire, RefusedGameRequest;
    ExpireKeepsRunInv(run, id, now);
  }

  lemma SweepTouches(run: Run, order: seq<RoomId>, now: Time)
    requires RunInv(run)
    ensures SameNotices(run.lobby, UpdateTimeouts(run.lobby, order, now).0, {})
  {
    hide RunInv, UpdateTimeouts, SameNotices, TimeoutRecord;
    UpdateTimeoutsKeepsRunInv(run, order, now);
    SweepRecords(run, order, now);
    var t := UpdateTimeouts(run.lobby, order, now).0;
    forall id | id in t.rooms && t.rooms[id] != run.lobby.rooms[id] ensures Pending(t, id) {
      NamedById(run, id);
      TimeoutNamesRoom(run.lobby.rooms[id]);
      var i :| 0 <= i < |t.finished| && t.finished[i] == TimeoutRecord(run.lobby.rooms[id]);
    }
    ResultsOnly(run, run.(lobby := t));
  }

  lemma LoginTouches(run: Run, session: SessionId, nickname: Bytes)
    requires RunInv(run) && session != 0
    ensures SameNotices(run.lobby, run.lobby.(users := Login(run.lobby.users, session, nickname).0), {})
  {
    hide RunInv, SameNotices, IsValidNickname, Pending;
    LoginKeepsRunInv(run, session, nickname);
    var t := run.lobby.(users := Login(run.lobby.users, session, nickname).0);
    if t != run.lobby {
      OthersStay(run, run.(lobby := t), 0, session);
      NoRoomZero(run);
      NotTouched(run.lobby, t, 0);
    } else {
      NothingChanges(run.lobby);
    }
  }

  lemma NoRoomZero(run: Run)
    requires RunInv(run)
    ensures INVALID_ROOM_ID !in run.lobby.rooms
  {
    hide LobbyInv, Conserved, ClocksInv;
    ZeroIsNoRoom(run.lobby);
  }

  lemma NotTouched(s: LobbyState, t: LobbyState, x: RoomId)
    requires SameNotices(s, t, {x}) && x !in t.rooms
    ensures SameNotices(s, t, {})
  {
  }

  /** Of no room but the one touched do its members have to be told anything new before its
      result is announced. */
  lemma CallTouches(run: Run, op: Op)
    requires RunInv(run) && LobbyRuns.Legal(op) && !op.DoPop?
    ensures SameNotices(run.lobby, LobbyRuns.Do(run, op).lobby, Touched(run, op))
  {
    hide RunInv, SameNotices, LeaveRoom, CreateRoom, EnterRoom, LobbyRules.SetReady, LobbyRules.StartGame, LobbyRules.PlaceStone,
      LobbyRules.Resign, UpdateTimeouts, Login, Remove, Noted, RoomOf;
    match op
    case DoLogin(session, nickname) => LoginTouches(run, session, nickname);
    case DoDisconnect(session, now) => DisconnectTouches(run, session, now);
    case DoCreate(session, title) => CreateTouches(run, session, title);
    case DoEnter(session, roomId) => EnterTouches(run, session, roomId);
    case DoLeave(session, now) => LeaveTouches(run, session, GameEndReason.LeftRoom, now);
    case DoReady(session, ready) => ReadyTouches(run, session, ready);
    case DoStart(session, now) => StartTouches(run, session, now);
    case DoMove(session, roomId, gameId, x, y, now) => MoveTouches(run, session, roomId, gameId, x, y, now);
    case DoResign(session, roomId, gameId, now) => ResignTouches(run, session, roomId, gameId, now);
    case DoSweep(order, now) => SweepTouches(run, order, now);
  }

  // ----- whom a record is for -----

  /** The record is for the members of a room. */
  ghost predicate IsForRoom(rooms: map<RoomId, RoomState>, f: FinishedGame) {
    exists id :: id in rooms && f.targets == rooms[id].members
  }

  ghost predicate AreForRooms(rooms: map<RoomId, RoomState>, records: seq<FinishedGame>) {
    forall i :: 0 <= i < |records| ==> IsForRoom(rooms, records[i])
  }

  lemma EndsAreForRooms(rooms: map<RoomId, RoomState>, id: RoomId, session: SessionId, reason: GameEndReason, now: Time, m: AcceptedMove)
    requires id in rooms
    ensures AreForRooms(rooms, EndOfLeaver(rooms[id], session, reason, now))
    ensures AreForRooms(rooms, EndOfMove(rooms[id], m)) && AreForRooms(rooms, [TimeoutRecord(rooms[id])])
  {
  }

  lemma AddedRecords(rooms: map<RoomId, RoomState>, before: seq<FinishedGame>, after: seq<FinishedGame>, more: seq<FinishedGame>)
    requires after == before + more && AreForRooms(rooms, more)
    ensures AreForRooms(rooms, after[|before|..])
  {
    assert after[|before|..] == more;
  }

  lemma LeaverRecords(run: Run, session: SessionId, reason: GameEndReason, now: Time)
    requires RunInv(run) && (reason == GameEndReason.LeftRoom || reason == GameEndReason.Disconnected)
    ensures var t := LeaveRoom(run.lobby, session, reason, now).0;
            run.lobby.finished <= t.finished && AreForRooms(run.lobby.rooms, t.finished[|run.lobby.finished|..])
  {
    hide RunInv, LeaveRoom, EndOfLeaver, AreForRooms, EndOfMove, BackToLobby;
    LeaveRoomKeepsRunInv(run, session, reason, now);
    var (t, o) := LeaveRoom(run.lobby, session, reason, now);
    if o == Returned(RoomResult.Success) {
      var id := run.lobby.users.bySession[session].roomId;
      EndsAreForRooms(run.lobby.rooms, id, session, reason, now, NO_MOVE);
      AddedRecords(run.lobby.rooms, run.lobby.finished, t.finished, EndOfLeaver(run.lobby.rooms[id], session, reason, now));
    } else {
      NoneAdded(run.lobby.rooms, t.finished);
    }
  }

  const NO_MOVE: AcceptedMove := AcceptedMove(0, 0, 0, 0, GameStone.Empty, GameStone.Empty, GameState.Playing, 0)

  lemma NoneAdded(rooms: map<RoomId, RoomState>, records: seq<FinishedGame>)
    ensures AreForRooms(rooms, records[|records|..])
  {
  }

  lemma MoverRecords(run: Run, session: SessionId, id: RoomId, gameId: GameId, x: int, y: int, now: Time)
    requires RunInv(run)
    ensures var t := LobbyRules.PlaceStone(run.lobby, session, id, gameId, x, y, now).0;
            run.lobby.finished <= t.finished && AreForRooms(run.lobby.rooms, t.finished[|run.lobby.finished|..])
  {
    hide RunInv, LobbyInv, LobbyRules.PlaceStone, AreForRooms, EndOfMove, MoveMade, RefusedGameRequest, TurnIsOver,
      TimeoutRecord, EndOfLeaver;
    PlaceStoneKeepsRunInv(run, session, id, gameId, x, y, now);
    RunHasLobbyInv(run);
    NotRefused(run.lobby, session, id, gameId);
    var (t, o, m) := LobbyRules.PlaceStone(run.lobby, session, id, gameId, x, y, now);
    NoneAdded(run.lobby.rooms, t.finished);
    if o.value == GameMoveResult.Success {
      EndsAreForRooms(run.lobby.rooms, id, session, GameEndReason.Resigned, now, m.value);
      AddedRecords(run.lobby.rooms, run.lobby.finished, t.finished, EndOfMove(run.lobby.rooms[id], m.value));
    } else if RefusedGameRequest(run.lobby, session, id, gameId) == None && TurnIsOver(run.lobby.rooms[id], now) {
      EndsAreForRooms(run.lobby.rooms, id, session, GameEndReason.Resigned, now, NO_MOVE);
      AddedRecords(run.lobby.rooms, run.lobby.finished, t.finished, [TimeoutRecord(run.lobby.rooms[id])]);
    }
  }

  lemma ResignerRecords(run: Run, session: SessionId, id: RoomId, gameId: GameId, now: Time)
    requires RunInv(run)
    ensures var t := LobbyRules.Resign(run.lobby, session, id, gameId, now).0;
            run.lobby.finished <= t.finished && AreForRooms(run.lobby.rooms, t.finished[|run.lobby.finished|..])
  {
    hide RunInv, LobbyInv, LobbyRules.Resign, AreForRooms, RefusedGameRequest, EndOfLeaver, EndOfMove;
    ResignKeepsRunInv(run, session, id, gameId, now);
    RunHasLobbyInv(run);
    NotRefused(run.lobby, session, id, gameId);
    var t := LobbyRules.Resign(run.lobby, session, id, gameId, now).0;
    NoneAdded(run.lobby.rooms, t.finished);
    if RefusedGameRequest(run.lobby, session, id, gameId) == None {
      EndsAreForRooms(run.lobby.rooms, id, session, GameEndReason.Resigned, now, NO_MOVE);
      AddedRecords(run.lobby.rooms, run.lobby.finished, t.finished, EndOfLeaver(run.lobby.rooms[id], session, GameEndReason.Resigned, now));
    }
  }

  lemma SweptRecords(run: Run, order: seq<RoomId>, now: Time)
    requires RunInv(run)
    ensures var t := UpdateTimeouts(run.lobby, order, now).0;
            run.lobby.finished <= t.finished && AreForRooms(run.lobby.rooms, t.finished[|run.lobby.finished|..])
  {
    hide RunInv, UpdateTimeouts, TurnIsOver;
    SweepRecords(run, order, now);
    var t := UpdateTimeouts(run.lobby, order, now).0;
    forall i | |run.lobby.finished| <= i < |t.finished| ensures IsForRoom(run.lobby.rooms, t.finished[i]) {
      assert TimedOut(run.lobby.rooms, t.finished[i], now);
    }
  }

  /** The records a call adds are for the members a room had before. */
  lemma NewRecords(run: Run, op: Op)
    requires RunInv(run) && LobbyRuns.Legal(op) && !op.DoPop?
    ensures var after := LobbyRuns.Do(run, op);
            && after.popped == run.popped && run.lobby.finished <= after.lobby.finished
            && AreForRooms(run.lobby.rooms, after.lobby.finished[|run.lobby.finished|..])
  {
    hide RunInv, LeaveRoom, LobbyRules.PlaceStone, LobbyRules.Resign, UpdateTimeouts, CreateRoom, EnterRoom, LobbyRules.SetReady,
      LobbyRules.StartGame, Noted, Login, Remove, AreForRooms;
    NoneAdded(run.lobby.rooms, run.lobby.finished);
    match op
    case DoDisconnect(session, now) => LeaverRecords(run, session, GameEndReason.Disconnected, now);
    case DoLeave(session, now) => LeaverRecords(run, session, GameEndReason.LeftRoom, now);
    case DoCreate(session, title) => SeatingEntries(run.lobby, session, title, 0);
    case DoEnter(session, roomId) => SeatingEntries(run.lobby, session, [], roomId);
    case DoReady(session, ready) => SetReadyKeepsRunInv(run, session, ready);
    case DoStart(session, now) => StartKeepsMembers(run.lobby, session, now);
    case DoMove(session, id, gameId, x, y, now) => MoverRecords(run, session, id, gameId, x, y, now);
    case DoResign(session, id, gameId, now) => ResignerRecords(run, session, id, gameId, now);
    case DoSweep(order, now) => SweptRecords(run, order, now);
    case _ =>
  }
}
