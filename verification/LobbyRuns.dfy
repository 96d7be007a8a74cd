/** Any sequence of calls on the lobby, and what holds after all of them. */
module LobbyRuns {
  import opened Protocol
  import opened OmokRules
  import opened RoomRules
  import opened UserRules
  import opened LobbyRules
  import opened LobbyInvariant
  import opened LobbyCalls

  datatype Op =
    | DoLogin(session: SessionId, nickname: Bytes)
    | DoDisconnect(session: SessionId, now: Time)
    | DoCreate(session: SessionId, title: Bytes)
    | DoEnter(session: SessionId, roomId: RoomId)
    | DoLeave(session: SessionId, now: Time)
    | DoReady(session: SessionId, ready: bool)
    | DoStart(session: SessionId, now: Time)
    | DoMove(session: SessionId, roomId: RoomId, gameId: GameId, x: int, y: int, now: Time)
    | DoResign(session: SessionId, roomId: RoomId, gameId: GameId, now: Time)
    | DoSweep(order: seq<RoomId>, now: Time)
    | DoPop

  /** Network sessions are never 0. */
  predicate Legal(op: Op) {
    op.DoLogin? ==> op.session != 0
  }

  /** The run after one call. A disconnect leaves the room first and then removes the user. */
  ghost function Do(run: Run, op: Op): Run {
    var s := run.lobby;
    match op
    case DoLogin(session, nickname) => run.(lobby := s.(users := Login(s.users, session, nickname).0))
    case DoDisconnect(session, now) =>
      var left := LeaveRoom(s, session, GameEndReason.Disconnected, now).0;
      run.(lobby := left.(users := Remove(left.users, session)))
    case DoCreate(session, title) => run.(lobby := CreateRoom(s, session, title).0)
    case DoEnter(session, roomId) => run.(lobby := EnterRoom(s, session, roomId).0)
    case DoLeave(session, now) => run.(lobby := LeaveRoom(s, session, GameEndReason.LeftRoom, now).0)
    case DoReady(session, ready) => run.(lobby := LobbyRules.SetReady(s, session, ready).0)
    case DoStart(session, now) =>
      run.(lobby := LobbyRules.StartGame(s, session, now).0, starts := Noted(run, session, now))
    case DoMove(session, roomId, gameId, x, y, now) =>
      run.(lobby := LobbyRules.PlaceStone(s, session, roomId, gameId, x, y, now).0)
    case DoResign(session, roomId, gameId, now) => run.(lobby := LobbyRules.Resign(s, session, roomId, gameId, now).0)
    case DoSweep(order, now) => run.(lobby := UpdateTimeouts(s, order, now).0)
    case DoPop =>
      var (t, f) := TryPopFinishedGame(s);
      run.(lobby := t, popped := run.popped + (if f.Some? then [f.value] else []))
  }

  /** The call throws, or answers that the server's own tables disagree. */
  ghost predicate Broken(s: LobbyState, op: Op) {
    match op
    case DoDisconnect(session, now) =>
      var o := LeaveRoom(s, session, GameEndReason.Disconnected, now).1;
      o.Threw? || o.value == RoomResult.StateMismatch
    case DoCreate(session, title) =>
      var o := CreateRoom(s, session, title).1;
      o.Threw? || o.value == RoomResult.StateMismatch
    case DoEnter(session, roomId) => EnterRoom(s, session, roomId).1 == RoomResult.StateMismatch
    case DoLeave(session, now) =>
      var o := LeaveRoom(s, session, GameEndReason.LeftRoom, now).1;
      o.Threw? || o.value == RoomResult.StateMismatch
    case DoReady(session, ready) => LobbyRules.SetReady(s, session, ready).1 == RoomResult.StateMismatch
    case DoStart(session, now) => LobbyRules.StartGame(s, session, now).1 == RoomResult.StateMismatch
    case DoMove(session, roomId, gameId, x, y, now) =>
      var o := LobbyRules.PlaceStone(s, session, roomId, gameId, x, y, now).1;
      o.Threw? || o.value == GameMoveResult.StateMismatch
    case DoResign(session, roomId, gameId, now) =>
      var o := LobbyRules.Resign(s, session, roomId, gameId, now).1;
      o.Threw? || o.value == GameMoveResult.StateMismatch
    case DoSweep(order, now) => UpdateTimeouts(s, order, now).1.Threw?
    case _ => false
  }

  ghost function DoAll(config: RoomConfig, ops: seq<Op>): Run {
    if ops == [] then Run(Opened(config), [], map[]) else Do(DoAll(config, ops[..|ops| - 1]), ops[|ops| - 1])
  }

  lemma OneCall(run: Run, op: Op)
    requires RunInv(run) && Legal(op)
    ensures RunInv(Do(run, op)) && !Broken(run.lobby, op)
  {
    hide RunInv, LobbyInv, Linked, Moved, Created, Entered, GameStarted, RefusedGameRequest, EndOfLeaver;
    var s := run.lobby;
    match op
    case DoLogin(session, nickname) => LoginKeepsRunInv(run, session, nickname);
    case DoDisconnect(session, now) =>
      LeaveRoomKeepsRunInv(run, session, GameEndReason.Disconnected, now);
      RemoveKeepsRunInv(run.(lobby := LeaveRoom(s, session, GameEndReason.Disconnected, now).0), session);
    case DoCreate(session, title) => CreateRoomKeepsRunInv(run, session, title);
    case DoEnter(session, roomId) => EnterRoomKeepsRunInv(run, session, roomId);
    case DoLeave(session, now) => LeaveRoomKeepsRunInv(run, session, GameEndReason.LeftRoom, now);
    case DoReady(session, ready) => SetReadyKeepsRunInv(run, session, ready);
    case DoStart(session, now) => StartGameKeepsRunInv(run, session, now);
    case DoMove(session, roomId, gameId, x, y, now) => PlaceStoneKeepsRunInv(run, session, roomId, gameId, x, y, now);
    case DoResign(session, roomId, gameId, now) => ResignKeepsRunInv(run, session, roomId, gameId, now);
    case DoSweep(order, now) => UpdateTimeoutsKeepsRunInv(run, order, now);
    case DoPop => PopKeepsRunInv(run);
  }

  lemma ResultsGrow(run: Run, op: Op)
    requires RunInv(run) && !op.DoPop?
    ensures run.lobby.finished <= Do(run, op).lobby.finished && Do(run, op).popped == run.popped
  {
    hide RunInv, LobbyInv, Linked, Broken, Created, EndOfLeaver, EndOfMove, MoveMade;
    var s := run.lobby;
    match op
    case DoDisconnect(session, now) => LeaveRoomKeepsRunInv(run, session, GameEndReason.Disconnected, now);
    case DoCreate(session, title) => CreateRoomKeepsResults(s, session, title);
    case DoLeave(session, now) => LeaveRoomKeepsRunInv(run, session, GameEndReason.LeftRoom, now);
    case DoMove(session, roomId, gameId, x, y, now) => PlaceStoneKeepsRunInv(run, session, roomId, gameId, x, y, now);
    case DoResign(session, roomId, gameId, now) => ResignKeepsRunInv(run, session, roomId, gameId, now);
    case DoSweep(order, now) => UpdateTimeoutsKeepsRunInv(run, order, now);
    case _ =>
  }

  /** No call takes back or changes a record. */
  lemma HistoryGrows(run: Run, op: Op)
    requires RunInv(run)
    ensures History(run) <= History(Do(run, op))
  {
    hide RunInv;
    if op.DoPop? {
      PopKeepsRunInv(run);
    } else {
      hide Do;
      ResultsGrow(run, op);
    }
  }

  lemma CreateRoomKeepsResults(s: LobbyState, session: SessionId, title: Bytes)
    ensures CreateRoom(s, session, title).0.finished == s.finished
  {
  }

  /** The room manager's main theorem: after any calls in any order the tables agree,
      games are conserved and clocks bounded, and the next call cannot break. */
  lemma {:induction false} EveryRunKeepsRunInv(config: RoomConfig, ops: seq<Op>, next: Op)
    requires IsAcceptedConfig(config) && Legal(next) && forall i :: 0 <= i < |ops| ==> Legal(ops[i])
    ensures RunInv(DoAll(config, ops)) && !Broken(DoAll(config, ops).lobby, next)
    decreases |ops|
  {
    OpenedInv(config);
    if ops != [] {
      EveryRunKeepsRunInv(config, ops[..|ops| - 1], ops[|ops| - 1]);
      OneCall(DoAll(config, ops[..|ops| - 1]), ops[|ops| - 1]);
    }
    OneCall(DoAll(config, ops), next);
  }

  ghost function PlayedIn(rooms: map<RoomId, RoomState>, g: GameId): set<RoomId> {
    set id | id in rooms && Plays(rooms, id, g)
  }

  ghost function RecordedAt(history: seq<FinishedGame>, g: GameId): set<nat> {
    set i: nat | i < |history| && history[i].game == g
  }

  lemma ConservedCounts(rooms: map<RoomId, RoomState>, last: GameId, history: seq<FinishedGame>, g: GameId)
    requires Conserved(rooms, last, history) && 1 <= g <= last
    ensures |PlayedIn(rooms, g)| + |RecordedAt(history, g)| == 1
  {
    hide SoundRecord;
    if Recorded(history, g) {
      var i :| 0 <= i < |history| && history[i].game == g;
      assert RecordedAt(history, g) == {i};
      assert PlayedIn(rooms, g) == {};
    } else {
      var id: RoomId :| Plays(rooms, id, g);
      assert PlayedIn(rooms, g) == {id};
      assert RecordedAt(history, g) == {};
    }
  }

  /** Conservation, spelled out: every game ever started is either being played in
      exactly one room or has exactly one record, never both. */
  lemma GamesAreConserved(config: RoomConfig, ops: seq<Op>, g: GameId)
    requires IsAcceptedConfig(config) && forall i :: 0 <= i < |ops| ==> Legal(ops[i])
    requires 1 <= g <= DoAll(config, ops).lobby.lastGameId
    ensures var run := DoAll(config, ops);
            |PlayedIn(run.lobby.rooms, g)| + |RecordedAt(History(run), g)| == 1
  {
    hide LobbyInv, Conserved, Broken, Do, DoAll, PlayedIn, RecordedAt;
    EveryRunKeepsRunInv(config, ops, DoPop);
    var run := DoAll(config, ops);
    ConservedCounts(run.lobby.rooms, run.lobby.lastGameId, History(run), g);
  }

  /** Records come out in the order they went in, and none is lost or changed. */
  lemma {:induction false} RecordsArePoppedInOrder(config: RoomConfig, ops: seq<Op>, k: nat)
    requires IsAcceptedConfig(config) && k <= |ops| && forall i :: 0 <= i < |ops| ==> Legal(ops[i])
    ensures DoAll(config, ops[..k]).popped <= History(DoAll(config, ops))
    ensures History(DoAll(config, ops[..k])) <= History(DoAll(config, ops))
    decreases |ops|
  {
    if k == |ops| {
      assert ops[..k] == ops;
    } else {
      var before := ops[..|ops| - 1];
      RecordsArePoppedInOrder(config, before, k);
      assert before[..k] == ops[..k];
      EveryRunKeepsRunInv(config, before, ops[|ops| - 1]);
      HistoryGrows(DoAll(config, before), ops[|ops| - 1]);
    }
  }

  /** The record is the timeout of a room whose turn is over. */
  ghost predicate TimedOut(rooms: map<RoomId, RoomState>, f: FinishedGame, now: Time) {
    exists id :: id in rooms && TurnIsOver(rooms[id], now) && f == TimeoutRecord(rooms[id])
  }

  /** A sweep records the timeouts of the overdue games it meets, and nothing else. */
  lemma {:induction false} SweepRecords(run: Run, order: seq<RoomId>, now: Time)
    requires RunInv(run)
    ensures var s, t := run.lobby, UpdateTimeouts(run.lobby, order, now).0;
            && s.finished <= t.finished
            && (forall i :: |s.finished| <= i < |t.finished| ==> TimedOut(s.rooms, t.finished[i], now))
            && (forall id :: id in order && id in s.rooms && TurnIsOver(s.rooms[id], now) ==> TimeoutRecord(s.rooms[id]) in t.finished)
            && t.rooms.Keys == s.rooms.Keys
            && (forall id :: id in t.rooms ==> t.rooms[id] == s.rooms[id] || TimeoutRecord(s.rooms[id]) in t.finished)
    decreases |order|
  {
    hide RunInv, Expire, TimeoutRecord;
    if order != [] {
      var s := run.lobby;
      assert order == [order[0]] + order[1..];
      if order[0] in s.rooms {
        ExpireKeepsRunInv(run, order[0], now);
        var u := Expire(s, order[0], now).0;
        SweepRecords(run.(lobby := u), order[1..], now);
        var t := UpdateTimeouts(u, order[1..], now).0;
        forall i | |s.finished| <= i < |t.finished| ensures TimedOut(s.rooms, t.finished[i], now) {
          if i >= |u.finished| {
            assert TimedOut(u.rooms, t.finished[i], now);
            var id :| id in u.rooms && TurnIsOver(u.rooms[id], now) && t.finished[i] == TimeoutRecord(u.rooms[id]);
            assert u.rooms[id] == s.rooms[id];
          } else {
            assert t.finished[i] == u.finished[i];
          }
        }
        if TurnIsOver(s.rooms[order[0]], now) {
          assert u.finished[|s.finished|] == TimeoutRecord(s.rooms[order[0]]);
          assert t.finished[|s.finished|] == TimeoutRecord(s.rooms[order[0]]);
        }
      } else {
        SweepRecords(run, order[1..], now);
      }
    }
  }

  lemma PlayingLeavesAFreeCell(r: RoomState)
    requires RoomInv(r) && r.phase == RoomPhase.Playing
    ensures r.game.moveCount < CELL_COUNT
  {
    FullIsCellCount(r.game.board);
  }

  /** No game survives a sweep made at or after its start plus one turn per cell. */
  lemma NoGameOutlivesItsTurns(run: Run, order: seq<RoomId>, now: Time, id: RoomId, g: GameId)
    requires RunInv(run) && (forall i :: i in run.lobby.rooms ==> i in order)
    requires Plays(UpdateTimeouts(run.lobby, order, now).0.rooms, id, g)
    ensures g in run.starts && now < run.starts[g] + CELL_COUNT * run.lobby.config.turnTime
  {
    hide LobbyInv, RoomInv, Conserved, UpdateTimeouts;
    UpdateTimeoutsKeepsRunInv(run, order, now);
    var t := UpdateTimeouts(run.lobby, order, now).0;
    var r := t.rooms[id];
    RoomsAreSound(t, id);
    PlayingLeavesAFreeCell(r);
    TurnTimeIsPositive(run.lobby);
    MoreTurnsTakeLonger(r.game.moveCount as int + 1, CELL_COUNT, r.turnTime);
  }

  lemma MoreTurnsTakeLonger(few: int, many: int, turnTime: Time)
    requires few <= many && turnTime > 0
    ensures few * turnTime <= many * turnTime
  {
  }

  lemma TurnTimeIsPositive(s: LobbyState)
    requires LobbyInv(s)
    ensures s.config.turnTime > 0
  {
    hide RoomInv;
  }

  /** A turn that is over decides the game before the request does, whoever acts and
      however: one record, lost by the side to move, on an unchanged board. */
  lemma TimeoutTakesPrecedence(run: Run, session: SessionId, id: RoomId, gameId: GameId, x: int, y: int, now: Time)
    requires RunInv(run) && session in run.lobby.users.bySession && id in run.lobby.rooms
    requires run.lobby.users.bySession[session].roomId == id && TurnIsOver(run.lobby.rooms[id], now)
    requires gameId == run.lobby.rooms[id].gameId
    ensures var s, r := run.lobby, run.lobby.rooms[id];
            var record := [FinishedGame(id, gameId, WinFor(Opponent(r.game.nextTurn)), GameEndReason.TurnTimeout,
                                        r.game.moveCount, r.members)];
            var left := LeaveRoom(s, session, GameEndReason.LeftRoom, now);
            var dropped := LeaveRoom(s, session, GameEndReason.Disconnected, now);
            var moved := LobbyRules.PlaceStone(s, session, id, gameId, x, y, now);
            var resigned := LobbyRules.Resign(s, session, id, gameId, now);
            && left.0.finished == dropped.0.finished == moved.0.finished == resigned.0.finished == s.finished + record
            && left.1 == dropped.1 == Returned(RoomResult.Success)
            && moved.1 == resigned.1 == Returned(GameMoveResult.GameNotRunning)
            && id in moved.0.rooms && moved.0.rooms[id].game.board == r.game.board
            && id in resigned.0.rooms && resigned.0.rooms[id].game.board == r.game.board
  {
    hide RunInv, LobbyInv, RoomInv, EndForLeaver, Detach;
    var s := run.lobby;
    RunHasLobbyInv(run);
    UserIsInItsRoom(s, session);
    RoomIdNotZero(s, id);
    RoomsAreSound(s, id);
    PlayingRoomsPlay(s.rooms[id]);
    NotRefused(s, session, id, gameId);
    LeaveRoomKeepsRunInv(run, session, GameEndReason.LeftRoom, now);
    LeaveRoomKeepsRunInv(run, session, GameEndReason.Disconnected, now);
    PlaceStoneKeepsRunInv(run, session, id, gameId, x, y, now);
    ResignKeepsRunInv(run, session, id, gameId, now);
    ExpireKeepsRunInv(run, id, now);
  }
}
