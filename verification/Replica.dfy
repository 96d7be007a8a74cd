/** The client's copy of a game (ChatClient/ClientGameView.h) follows the server's:
    it changes by accepted moves only, and every one of them is applied. */
module Replica {
  import opened Protocol
  import opened OmokRules
  import opened RoomRules
  import opened UserRules
  import opened LobbyRules
  import opened LobbyInvariant
  import opened LobbyCalls
  import opened LobbyRuns
  import opened WireFormat
  import opened GamePacketCodec

  datatype View = View(
    roomId: uint32, roomPlaying: bool, state: GameState, nextTurn: GameStone, moveCount: uint32,
    cells: Board, game: uint32)

  function ResetView(roomId: uint32): View {
    View(roomId, false, GameState.NotStarted, GameStone.Empty, 0, map[], 0)
  }

  function BeginView(roomId: uint32, game: uint32): View {
    ResetView(roomId).(game := game, roomPlaying := true, state := GameState.Playing, nextTurn := GameStone.Black)
  }

  /** The 32-bit increment of the source wraps around. */
  function NextCount(count: uint32): uint32 {
    (count + 1) as int % 0x1_0000_0000
  }

  function ApplyMove(v: View, p: GameMoveNotification): (View, bool) {
    var cell := Pos(p.x, p.y);
    if !v.roomPlaying || v.state != GameState.Playing || p.roomId != v.roomId || !Inside(cell)
       || p.moveCount != NextCount(v.moveCount) || p.placed != v.nextTurn
       || CellAt(v.cells, cell) != GameStone.Empty || p.game != v.game
    then (v, false)
    else (v.(cells := v.cells[cell := p.placed], state := p.state, nextTurn := p.nextTurn, moveCount := p.moveCount), true)
  }

  /** The notification the server builds from an accepted move. */
  function NotificationOf(m: AcceptedMove): GameMoveNotification
    requires m.x >= 0 && m.y >= 0
  {
    GameMoveNotification(ToU32(m.room), ToU32(m.game), ToU8(m.x), ToU8(m.y), m.placed, m.nextTurn, m.status, ToU32(m.moveCount))
  }

  ghost predicate Agrees(v: View, r: RoomState) {
    && v.roomPlaying && v.roomId == r.id && v.game == r.gameId
    && v.state == r.game.status && v.nextTurn == r.game.nextTurn && v.moveCount == r.game.moveCount
    && v.cells == r.game.board
  }

  /** The IDs that go over the wire fit their 32-bit fields. */
  lemma IdsFit(run: Run, id: RoomId)
    requires RunInv(run) && id in run.lobby.rooms
    ensures 0 < run.lobby.rooms[id].id == id <= UINT32_MAX
    ensures run.lobby.rooms[id].phase == RoomPhase.Playing ==> 0 < run.lobby.rooms[id].gameId <= UINT32_MAX
  {
    hide Linked, UsersInv, GameInv, ClocksInv, SoundRecord;
    var r := run.lobby.rooms[id];
    assert RoomInv(r);
    if r.phase == RoomPhase.Playing {
      assert Plays(run.lobby.rooms, id, r.gameId);
    }
  }

  /** Every accepted move may be sent: the encoder cannot refuse its notification. */
  lemma AcceptedMoveIsValid(r: RoomState, after: RoomState, session: SessionId, x: int, y: int, now: Time, m: AcceptedMove)
    requires MoveMade(r, after, session, x, y, now, m) && GameInv(after.game)
    requires 0 < r.id <= UINT32_MAX && 0 < r.gameId <= UINT32_MAX
    ensures var p := NotificationOf(m);
            && IsValidGameMove(p) && p.roomId == m.room && p.game == m.game && p.x == x && p.y == y
            && p.moveCount == m.moveCount
  {
    hide HasLine, Lead;
    FullIsCellCount(after.game.board);
  }

  lemma TurnMeansPlaying(r: RoomState)
    requires RoomInv(r) && r.game.nextTurn != GameStone.Empty
    ensures r.phase == RoomPhase.Playing && r.game.status == GameState.Playing
  {
  }

  lemma AppliedMoveAgrees(v: View, r: RoomState, after: RoomState, session: SessionId, x: int, y: int, now: Time, m: AcceptedMove)
    requires Agrees(v, r) && MoveMade(r, after, session, x, y, now, m) && r.game.status == GameState.Playing
    requires IsValidGameMove(NotificationOf(m))
    requires var p := NotificationOf(m);
             p.roomId == m.room && p.game == m.game && p.x == x && p.y == y && p.moveCount == m.moveCount
    ensures var (w, applied) := ApplyMove(v, NotificationOf(m)); applied && Agrees(w, after)
  {
    hide HasLine, Full;
  }

  /** One accepted move: its notification is valid, the view applies it, and view and
      server agree again, also when the move ends the game. */
  lemma ReplicaStep(run: Run, v: View, session: SessionId, id: RoomId, gameId: GameId, x: int, y: int, now: Time)
    requires RunInv(run) && id in run.lobby.rooms && Agrees(v, run.lobby.rooms[id])
    requires LobbyRules.PlaceStone(run.lobby, session, id, gameId, x, y, now).1 == Returned(GameMoveResult.Success)
    ensures var (t, _, m) := LobbyRules.PlaceStone(run.lobby, session, id, gameId, x, y, now);
            && m.Some? && m.value.x >= 0 && m.value.y >= 0 && IsValidGameMove(NotificationOf(m.value))
            && var (w, applied) := ApplyMove(v, NotificationOf(m.value));
            applied && id in t.rooms && Agrees(w, t.rooms[id])
  {
    hide RunInv, LobbyInv, RoomInv, LobbyRules.PlaceStone, HasLine, Full, Agrees, ApplyMove, IsValidGameMove;
    var r := run.lobby.rooms[id];
    PlaceStoneKeepsRunInv(run, session, id, gameId, x, y, now);
    var (t, _, m) := LobbyRules.PlaceStone(run.lobby, session, id, gameId, x, y, now);
    RunHasLobbyInv(run);
    RoomsAreSound(run.lobby, id);
    RunHasLobbyInv(run.(lobby := t));
    RoomsAreSound(t, id);
    RoomHasGameInv(t.rooms[id]);
    TurnMeansPlaying(r);
    IdsFit(run, id);
    AcceptedMoveIsValid(r, t.rooms[id], session, x, y, now, m.value);
    AppliedMoveAgrees(v, r, t.rooms[id], session, x, y, now, m.value);
  }

  // ----- a whole game -----

  /** Games in progress either end, or are left exactly as they are; new ones have new IDs. */
  ghost predicate GamesStay(s: LobbyState, t: LobbyState) {
    && (forall i :: i in s.rooms && s.rooms[i].phase == RoomPhase.Playing && i in t.rooms ==>
          t.rooms[i] == s.rooms[i] || t.rooms[i].phase == RoomPhase.Waiting)
    && (forall i :: i in t.rooms && t.rooms[i].phase == RoomPhase.Playing ==>
          (i in s.rooms && t.rooms[i] == s.rooms[i]) || t.rooms[i].gameId > s.lastGameId)
  }

  /** Only the room id changes, and no game is being played in it afterwards. */
  ghost predicate OnlyStops(s: LobbyState, t: LobbyState, id: RoomId) {
    && (forall i :: i != id ==> (i in t.rooms <==> i in s.rooms) && (i in t.rooms ==> t.rooms[i] == s.rooms[i]))
    && (id in t.rooms ==> t.rooms[id].phase == RoomPhase.Waiting)
  }

  lemma StoppedGamesStay(s: LobbyState, t: LobbyState, id: RoomId)
    requires OnlyStops(s, t, id)
    ensures GamesStay(s, t)
  {
  }

  lemma LeavingStops(run: Run, session: SessionId, reason: GameEndReason, now: Time)
    requires RunInv(run) && (reason == GameEndReason.LeftRoom || reason == GameEndReason.Disconnected)
    ensures GamesStay(run.lobby, LeaveRoom(run.lobby, session, reason, now).0)
  {
    hide RunInv, LobbyInv, Linked, LeaveRoom, EndOfLeaver, GamesStay;
    var s := run.lobby;
    LeaveRoomKeepsRunInv(run, session, reason, now);
    var (t, o) := LeaveRoom(s, session, reason, now);
    StoppedGamesStay(s, t, if o == Returned(RoomResult.Success) then s.users.bySession[session].roomId else 0) by {
      if o != Returned(RoomResult.Success) { RoomZeroIsFree(run); }
    }
  }

  lemma RoomZeroIsFree(run: Run)
    requires RunInv(run)
    ensures 0 !in run.lobby.rooms
  {
    hide UsersInv, Linked, Conserved, ClocksInv, GameInv;
  }

  lemma RoomCallsStay(run: Run, op: Op)
    requires RunInv(run) && (op.DoCreate? || op.DoEnter? || op.DoReady?)
    ensures GamesStay(run.lobby, Do(run, op).lobby)
  {
    hide RunInv, CreateRoom, EnterRoom, LobbyRules.SetReady, RoomRules.SetReady;
    match op
    case DoCreate(session, title) => CreateRoomKeepsRunInv(run, session, title); NewRoomWaits(run.lobby, session, title);
    case DoEnter(session, roomId) => EnterRoomKeepsRunInv(run, session, roomId); EnteredRoomWaits(run.lobby, session, roomId);
    case DoReady(session, ready) => SetReadyKeepsRunInv(run, session, ready); ReadyRoomWaits(run.lobby, session, ready);
  }

  /** Boards and deadlines of running games change by moves only. */
  lemma OnlyMovesMove(run: Run, op: Op)
    requires RunInv(run) && !op.DoMove?
    ensures GamesStay(run.lobby, Do(run, op).lobby)
  {
    hide RunInv, EndOfLeaver, RefusedGameRequest, RoomRules.StartGame, LobbyRules.StartGame, LobbyRules.Resign, LeaveRoom,
      UpdateTimeouts, CreateRoom, EnterRoom, LobbyRules.SetReady;
    match op
    case DoDisconnect(session, now) => LeavingStops(run, session, GameEndReason.Disconnected, now);
    case DoLeave(session, now) => LeavingStops(run, session, GameEndReason.LeftRoom, now);
    case DoStart(session, now) => StartGameKeepsRunInv(run, session, now);
    case DoResign(session, roomId, gameId, now) => ResignKeepsRunInv(run, session, roomId, gameId, now);
    case DoSweep(order, now) => UpdateTimeoutsKeepsRunInv(run, order, now);
    case _ => if op.DoCreate? || op.DoEnter? || op.DoReady? { RoomCallsStay(run, op); }
  }

  lemma EnteredRoomWaits(s: LobbyState, session: SessionId, id: RoomId)
    ensures var (t, result) := EnterRoom(s, session, id);
            result == RoomResult.Success ==> id in t.rooms && t.rooms[id].phase == RoomPhase.Waiting
  {
  }

  lemma ReadyRoomWaits(s: LobbyState, session: SessionId, ready: bool)
    ensures var (t, result) := LobbyRules.SetReady(s, session, ready);
            result == RoomResult.Success && session in s.users.bySession ==>
              var id := s.users.bySession[session].roomId; id in t.rooms && t.rooms[id].phase == RoomPhase.Waiting
  {
  }

  lemma NewRoomWaits(s: LobbyState, session: SessionId, title: Bytes)
    ensures var (t, o, id) := CreateRoom(s, session, title);
            o == Returned(RoomResult.Success) ==> id in t.rooms && t.rooms[id].phase == RoomPhase.Waiting
  {
  }

  ghost predicate IsAccepted(s: LobbyState, op: Op)
    requires op.DoMove?
  {
    LobbyRules.PlaceStone(s, op.session, op.roomId, op.gameId, op.x, op.y, op.now).1 == Returned(GameMoveResult.Success)
  }

  /** A move changes nothing but the room it is made in, and no game ID. */
  lemma MovesStayInTheirRoom(run: Run, op: Op, id: RoomId, g: GameId)
    requires RunInv(run) && op.DoMove? && Plays(Do(run, op).lobby.rooms, id, g)
    ensures Plays(run.lobby.rooms, id, g)
    ensures (IsAccepted(run.lobby, op) && op.roomId == id) || Do(run, op).lobby.rooms[id] == run.lobby.rooms[id]
  {
    hide RunInv, LobbyInv, RoomInv, LobbyRules.PlaceStone, RefusedGameRequest, HasLine, Full;
    PlaceStoneKeepsRunInv(run, op.session, op.roomId, op.gameId, op.x, op.y, op.now);
    RunHasLobbyInv(run);
    if op.roomId in run.lobby.rooms && run.lobby.rooms[op.roomId].game.nextTurn != GameStone.Empty {
      RoomsAreSound(run.lobby, op.roomId);
      TurnMeansPlaying(run.lobby.rooms[op.roomId]);
    }
  }

  ghost function Played(run: Run, ops: seq<Op>): Run {
    if ops == [] then run else Do(Played(run, ops[..|ops| - 1]), ops[|ops| - 1])
  }

  /** What the client in room id does when the server has processed op. */
  ghost function Fed(run: Run, v: View, op: Op, id: RoomId): (View, bool) {
    if op.DoMove? && op.roomId == id then
      var m := LobbyRules.PlaceStone(run.lobby, op.session, id, op.gameId, op.x, op.y, op.now).2;
      if m.Some? && m.value.x >= 0 && m.value.y >= 0 then ApplyMove(v, NotificationOf(m.value)) else (v, true)
    else (v, true)
  }

  /** The view after all of ops, and whether every notification was applied. */
  ghost function Watched(run: Run, v: View, ops: seq<Op>, id: RoomId): (View, bool) {
    if ops == [] then (v, true)
    else
      var front := ops[..|ops| - 1];
      var (w, ok) := Watched(run, v, front, id);
      var (u, applied) := Fed(Played(run, front), w, ops[|ops| - 1], id);
      (u, ok && applied)
  }

  lemma WatchOneOp(run: Run, v: View, op: Op, id: RoomId, g: GameId)
    requires RunInv(run) && g <= run.lobby.lastGameId && Plays(Do(run, op).lobby.rooms, id, g)
    ensures Plays(run.lobby.rooms, id, g)
    ensures Agrees(v, run.lobby.rooms[id]) ==>
            var (w, applied) := Fed(run, v, op, id); applied && Agrees(w, Do(run, op).lobby.rooms[id])
  {
    hide RunInv, Agrees, LobbyRules.PlaceStone, ApplyMove;
    if op.DoMove? {
      MovesStayInTheirRoom(run, op, id, g);
      if Agrees(v, run.lobby.rooms[id])
         && IsAccepted(run.lobby, op) && op.roomId == id {
        ReplicaStep(run, v, op.session, id, op.gameId, op.x, op.y, op.now);
      } else {
        PlaceStoneKeepsRunInv(run, op.session, op.roomId, op.gameId, op.x, op.y, op.now);
      }
    } else {
      hide Do;
      OnlyMovesMove(run, op);
    }
  }

  /** The replica theorem: whatever else happens on the server, as long as the game is being
      played every notification is applied and the two boards are equal. */
  lemma {:induction false} ViewFollowsGame(run: Run, v: View, ops: seq<Op>, id: RoomId, g: GameId)
    requires RunInv(run) && g <= run.lobby.lastGameId && (forall i :: 0 <= i < |ops| ==> Legal(ops[i]))
    requires Plays(Played(run, ops).lobby.rooms, id, g)
    ensures Plays(run.lobby.rooms, id, g)
    ensures Agrees(v, run.lobby.rooms[id]) ==>
            var (w, ok) := Watched(run, v, ops, id); ok && Agrees(w, Played(run, ops).lobby.rooms[id])
    decreases |ops|
  {
    if ops != [] {
      hide RunInv, Do, Fed, Agrees;
      var front, last := ops[..|ops| - 1], ops[|ops| - 1];
      var before := Played(run, front);
      PlayedKeepsRunInv(run, front);
      WatchOneOp(before, Watched(run, v, front, id).0, last, id, g);
      ViewFollowsGame(run, v, front, id, g);
    }
  }

  lemma {:induction false} PlayedKeepsRunInv(run: Run, ops: seq<Op>)
    requires RunInv(run) && (forall i :: 0 <= i < |ops| ==> Legal(ops[i]))
    ensures RunInv(Played(run, ops)) && Played(run, ops).lobby.lastGameId >= run.lobby.lastGameId
    decreases |ops|
  {
    if ops != [] {
      hide RunInv, Broken, Do;
      PlayedKeepsRunInv(run, ops[..|ops| - 1]);
      OneCall(Played(run, ops[..|ops| - 1]), ops[|ops| - 1]);
      GameIdsGrow(Played(run, ops[..|ops| - 1]), ops[|ops| - 1]);
    }
  }

  lemma GameIdsGrow(run: Run, op: Op)
    requires RunInv(run)
    ensures Do(run, op).lobby.lastGameId >= run.lobby.lastGameId
  {
    hide RunInv, LobbyInv, Linked, LeaveRoom, LobbyRules.PlaceStone, LobbyRules.Resign, UpdateTimeouts, EndOfLeaver, Moved;
    match op
    case DoDisconnect(session, now) => LeaveRoomKeepsRunInv(run, session, GameEndReason.Disconnected, now);
    case DoLeave(session, now) => LeaveRoomKeepsRunInv(run, session, GameEndReason.LeftRoom, now);
    case DoMove(session, roomId, gameId, x, y, now) => PlaceStoneKeepsRunInv(run, session, roomId, gameId, x, y, now);
    case DoResign(session, roomId, gameId, now) => ResignKeepsRunInv(run, session, roomId, gameId, now);
    case DoSweep(order, now) => UpdateTimeoutsKeepsRunInv(run, order, now);
    case _ =>
  }

  /** A view begun for the game just started agrees with it. */
  lemma BegunViewAgrees(run: Run, session: SessionId, now: Time)
    requires RunInv(run) && LobbyRules.StartGame(run.lobby, session, now).1 == RoomResult.Success
    ensures var t := LobbyRules.StartGame(run.lobby, session, now).0;
            && session in t.users.bySession
            && var id := t.users.bySession[session].roomId;
            && Plays(t.rooms, id, t.lastGameId) && id <= UINT32_MAX && t.lastGameId <= UINT32_MAX
            && Agrees(BeginView(id, t.lastGameId), t.rooms[id])
  {
    hide RunInv, LobbyInv, LobbyRules.StartGame;
    StartGameKeepsRunInv(run, session, now);
    var t := LobbyRules.StartGame(run.lobby, session, now).0;
    var after := run.(lobby := t, starts := Noted(run, session, now));
    var id := t.users.bySession[session].roomId;
    IdsFit(after, id);
  }
}
