/** The server runs the lobby: every event it handles is one call of the lobby, after which
    results may be taken out; so what holds of every run of the lobby holds of the server. */
module ServerRefinement {
  import opened Protocol
  import opened Framing
  import opened NetRules
  import opened NetInvariant
  import opened RoomRules
  import opened UserRules
  import opened LobbyRules
  import opened LobbyInvariant
  import opened LobbyCalls
  import opened LobbyRuns
  import opened WireFormat
  import opened RoomPacketCodec
  import opened GamePacketCodec
  import opened Replica
  import opened ServerRules
  import opened ServerInvariant
  import opened ServerPartition
  import opened ServerRuns

  /** The run after all its results have been taken out. */
  function AllPopped(run: LobbyInvariant.Run): LobbyInvariant.Run {
    run.(lobby := run.lobby.(finished := []), popped := History(run))
  }

  /** The calls after which the server announces all results at once. */
  predicate FlushesAfter(op: Op) {
    op.DoLeave? || op.DoDisconnect? || op.DoSweep?
  }

  /** The call has been made, and possibly all results have been taken out after it. */
  ghost predicate IsDone(run: LobbyInvariant.Run, after: LobbyInvariant.Run, op: Op) {
    after == LobbyRuns.Do(run, op) || (FlushesAfter(op) && after == AllPopped(LobbyRuns.Do(run, op)))
  }

  /** The lobby call a packet asks for, if it is well-formed and of such a kind. */
  function CallOf(session: SessionId, p: Packet, now: Time): Option<Op> {
    if p.id == LOGIN_REQ && |p.body| <= MAX_BODY_SIZE then Some(DoLogin(session, p.body))
    else if p.id == ROOM_CREATE_REQ && DecodedTitle(p.body).Some? then Some(DoCreate(session, DecodedTitle(p.body).value))
    else if p.id == ROOM_ENTER_REQ && DecodedRoomId(p.body).Some? then Some(DoEnter(session, DecodedRoomId(p.body).value))
    else if p.id == ROOM_LEAVE_REQ && p.body == [] then Some(DoLeave(session, now))
    else if p.id == ROOM_READY_REQ && DecodedReady(p.body).Some? then Some(DoReady(session, DecodedReady(p.body).value))
    else if p.id == ROOM_START_REQ && p.body == [] then Some(DoStart(session, now))
    else if p.id == GAME_MOVE_REQ && Whole(GetMoveRequest(p.body)).Some? then
      var q := Whole(GetMoveRequest(p.body)).value;
      Some(DoMove(session, q.roomId, q.game, q.x, q.y, now))
    else if p.id == GAME_RESIGN_REQ && Whole(GetResignRequest(p.body)).Some? then
      var q := Whole(GetResignRequest(p.body)).value;
      Some(DoResign(session, q.0, q.1, now))
    else None
  }

  // ----- the handlers -----

  lemma NoticesKeepRun(s: Server, id: RoomId, change: RoomMemberChange, nickname: Bytes)
    ensures NotifyRoomState(s, id).run == NotifyRoomMember(s, id, change, nickname).run == s.run
    ensures NotifyRoomState(NotifyRoomMember(s, id, change, nickname), id).run == s.run
  {
    hide Broadcast, SnapshotOf;
  }

  lemma CreateIsDone(s: Server, session: SessionId, body: Bytes)
    requires RunInv(s.run) && DecodedTitle(body).Some?
    ensures HandleRoomCreate(s, session, body).run == LobbyRuns.Do(s.run, DoCreate(session, DecodedTitle(body).value))
  {
    hide RunInv, RespondRoomAction, Disconnect, CreateRoom, NotifyRoomState, NotifyRoomMember, DecodedTitle;
    var (lobby, o, roomId) := CreateRoom(s.run.lobby, session, DecodedTitle(body).value);
    if o.Returned? && session in lobby.users.bySession {
      var s1 := WithLobby(s, lobby).(net := RespondRoomAction(s.net, session, ROOM_CREATE_RES, o.value, roomId));
      NoticesKeepRun(s1, roomId, RoomMemberChange.Joined, lobby.users.bySession[session].nickname);
    }
  }

  lemma EnterIsDone(s: Server, session: SessionId, body: Bytes)
    requires RunInv(s.run) && DecodedRoomId(body).Some?
    ensures HandleRoomEnter(s, session, body).run == LobbyRuns.Do(s.run, DoEnter(session, DecodedRoomId(body).value))
  {
    hide RunInv, RespondRoomAction, Disconnect, EnterRoom, NotifyRoomState, NotifyRoomMember, DecodedRoomId;
    var roomId := DecodedRoomId(body).value;
    var (lobby, result) := EnterRoom(s.run.lobby, session, roomId);
    if session in lobby.users.bySession {
      var s1 := WithLobby(s, lobby).(net := RespondRoomAction(s.net, session, ROOM_ENTER_RES, result, roomId));
      NoticesKeepRun(s1, roomId, RoomMemberChange.Joined, lobby.users.bySession[session].nickname);
    }
  }

  lemma LeaveIsDone(s: Server, session: SessionId, now: Time)
    requires RunInv(s.run)
    ensures IsDone(s.run, HandleRoomLeave(s, session, [], now).run, DoLeave(session, now))
  {
    hide RunInv, RespondRoomAction, Disconnect, LeaveRoom, FlushFinishedGames, NotifyRoomState, NotifyRoomMember;
    if session in s.run.lobby.users.bySession {
      var user := s.run.lobby.users.bySession[session];
      var (left, o) := LeaveRoom(s.run.lobby, session, GameEndReason.LeftRoom, now);
      FlushKeepsRooms(WithLobby(s, left));
      if o.Returned? {
        var s1 := FlushFinishedGames(WithLobby(s, left));
        var s2 := s1.(net := RespondRoomAction(s1.net, session, ROOM_LEAVE_RES, o.value, user.roomId));
        NoticesKeepRun(s2, user.roomId, RoomMemberChange.Left, user.nickname);
      }
    } else {
      StrangersLeaveNothing(s.run, session, GameEndReason.LeftRoom, now);
    }
  }

  lemma StrangersLeaveNothing(run: LobbyInvariant.Run, session: SessionId, reason: GameEndReason, now: Time)
    requires session !in run.lobby.users.bySession
    ensures LeaveRoom(run.lobby, session, reason, now).0 == run.lobby && Remove(run.lobby.users, session) == run.lobby.users
  {
  }

  lemma DisconnectedIsDone(s: Server, session: SessionId, now: Time)
    requires RunInv(s.run)
    ensures IsDone(s.run, HandleDisconnected(s, session, now).run, DoDisconnect(session, now))
  {
    hide RunInv, LeaveRoom, FlushFinishedGames, NotifyRoomState, NotifyRoomMember, Remove, EndOfLeaver;
    if session in s.run.lobby.users.bySession {
      var user := s.run.lobby.users.bySession[session];
      LeaveRoomKeepsRunInv(s.run, session, GameEndReason.Disconnected, now);
      var (left, o) := LeaveRoom(s.run.lobby, session, GameEndReason.Disconnected, now);
      var s0 := WithLobby(s.(deadlines := s.deadlines - {session}), left.(users := Remove(left.users, session)));
      FlushKeepsRooms(s0);
      NoticesKeepRun(FlushFinishedGames(s0), user.roomId, RoomMemberChange.Disconnected, user.nickname);
    } else {
      StrangersLeaveNothing(s.run, session, GameEndReason.Disconnected, now);
    }
  }

  lemma ReadyIsDone(s: Server, session: SessionId, body: Bytes)
    requires DecodedReady(body).Some?
    ensures HandleRoomReady(s, session, body).run == LobbyRuns.Do(s.run, DoReady(session, DecodedReady(body).value))
  {
    hide RespondRoomAction, Disconnect, LobbyRules.SetReady, NotifyRoomState, DecodedReady, RoomOf;
    var (lobby, result) := LobbyRules.SetReady(s.run.lobby, session, DecodedReady(body).value);
    var roomId := if result == RoomResult.Success then RoomOf(lobby, session) else INVALID_ROOM_ID;
    var s1 := WithLobby(s, lobby).(net := RespondRoomAction(s.net, session, ROOM_READY_RES, result, roomId));
    NoticesKeepRun(s1, roomId, RoomMemberChange.Joined, []);
  }

  lemma StartIsDone(s: Server, session: SessionId, now: Time)
    ensures HandleRoomStart(s, session, [], now).run == LobbyRuns.Do(s.run, DoStart(session, now))
  {
    hide RespondRoomAction, Disconnect, LobbyRules.StartGame, NotifyRoomState, RoomOf, Noted;
    var (lobby, result) := LobbyRules.StartGame(s.run.lobby, session, now);
    var roomId := if result == RoomResult.Success then RoomOf(lobby, session) else INVALID_ROOM_ID;
    var s1 := s.(run := s.run.(lobby := lobby, starts := Noted(s.run, session, now)),
                 net := RespondRoomAction(s.net, session, ROOM_START_RES, result, roomId));
    NoticesKeepRun(s1, roomId, RoomMemberChange.Joined, []);
  }

  lemma MoveIsDone(s: Server, session: SessionId, body: Bytes, now: Time)
    requires Whole(GetMoveRequest(body)).Some?
    ensures var q := Whole(GetMoveRequest(body)).value;
            HandleGameMove(s, session, body, now).run == LobbyRuns.Do(s.run, DoMove(session, q.roomId, q.game, q.x, q.y, now))
  {
    hide RespondMove, Disconnect, LobbyRules.PlaceStone, GetMoveRequest, Broadcast, DisconnectAll, IsValidGameMove, GameMoveBytes,
      NotificationOf;
  }

  lemma ResignIsDone(s: Server, session: SessionId, body: Bytes, now: Time)
    requires Whole(GetResignRequest(body)).Some?
    ensures var q := Whole(GetResignRequest(body)).value;
            HandleGameResign(s, session, body, now).run == LobbyRuns.Do(s.run, DoResign(session, q.0, q.1, now))
  {
    hide RespondMove, Disconnect, LobbyRules.Resign, GetResignRequest;
  }

  lemma LoginIsDone(s: Server, session: SessionId, body: Bytes)
    requires |body| <= MAX_BODY_SIZE
    ensures HandleLogin(s, session, body).run == LobbyRuns.Do(s.run, DoLogin(session, body))
  {
    hide Respond, Disconnect, Login;
  }

  lemma SilentHandlersKeepRun(s: Server, session: SessionId, body: Bytes)
    ensures HandleEcho(s, session, body).run == s.run && HandleChat(s, session, body).run == s.run
    ensures HandleRoomList(s, session, body).run == s.run
  {
    hide Respond, Disconnect, Broadcast, SendChatResult, RoomListFor, ValidRoomList, RoomListBytes;
  }

  /** A malformed packet, or one of another kind, leaves the lobby alone. */
  lemma OtherPacketsKeepRun(s: Server, session: SessionId, p: Packet, now: Time)
    requires CallOf(session, p, now) == None
    ensures ProcessPacket(s, session, p, now).run == s.run
  {
    hide HandleEcho, HandleChat, HandleRoomList, Disconnect, GetMoveRequest, GetResignRequest, DecodedReady, DecodedRoomId, DecodedTitle;
    SilentHandlersKeepRun(s, session, p.body);
  }

  /** Every packet makes the one call of the lobby it asks for, or none. */
  lemma PacketIsDone(s: Server, session: SessionId, p: Packet, now: Time)
    requires RunInv(s.run)
    ensures var t := ProcessPacket(s, session, p, now);
            match CallOf(session, p, now) case None => t.run == s.run case Some(op) => IsDone(s.run, t.run, op)
  {
    hide RunInv, HandleLogin, HandleRoomCreate, HandleRoomEnter, HandleRoomLeave, HandleRoomReady, HandleRoomStart, HandleGameMove,
      HandleGameResign, HandleEcho, HandleChat, HandleRoomList, Disconnect, GetMoveRequest, GetResignRequest, DecodedReady,
      DecodedRoomId, DecodedTitle, LobbyRuns.Do, AllPopped;
    match CallOf(session, p, now)
    case None => hide ProcessPacket; OtherPacketsKeepRun(s, session, p, now);
    case Some(op) =>
      match op
      case DoLogin(_, _) => LoginIsDone(s, session, p.body);
      case DoCreate(_, _) => CreateIsDone(s, session, p.body);
      case DoEnter(_, _) => EnterIsDone(s, session, p.body);
      case DoLeave(_, _) => LeaveIsDone(s, session, now);
      case DoReady(_, _) => ReadyIsDone(s, session, p.body);
      case DoStart(_, _) => StartIsDone(s, session, now);
      case DoMove(_, _, _, _, _, _) => MoveIsDone(s, session, p.body, now);
      case DoResign(_, _, _, _) => ResignIsDone(s, session, p.body, now);
      case _ =>
  }

  // ----- rounds, updates and runs of the server -----

  /** The lobby call made by one round of the loop: a packet is looked at only when its session
      is open and not due to be cut off. */
  ghost function RoundCall(s: Server, check: Time, now: Time): Option<Op> {
    if s.net.events == [] then None
    else
      match s.net.events[0]
      case Connected(_, _) => None
      case Disconnected(session) => Some(DoDisconnect(session, now))
      case Arrived(session, p) =>
        if !IsConnected(s.net, session) || IsLoginExpired(s, session, check) then None else CallOf(session, p, now)
  }

  lemma RoundIsDone(s: Server, check: Time, now: Time)
    requires ServerInv(s)
    ensures var t := Round(s, check, now);
            match RoundCall(s, check, now)
            case None => t.run == s.run
            case Some(op) => LobbyRuns.Legal(op) && IsDone(s.run, t.run, op)
  {
    hide NetInvBut, RunInv, Partition, ProcessPacket, HandleDisconnected, CallOf, IsDone, IsConnected, Disconnect;
    if s.net.events != [] {
      var u := s.(net := TryPopEvent(s.net).0);
      match s.net.events[0]
      case Connected(session, occurredAt) =>
      case Disconnected(session) => DisconnectedIsDone(u, session, now);
      case Arrived(session, p) =>
        PacketIsDone(u, session, p, now);
        PoppedIsConnected(s.net, session);
        if IsConnected(s.net, session) { CallsAreLegal(s.net, session, p, now); }
    }
  }

  lemma CallsAreLegal(n: NetState, session: SessionId, p: Packet, now: Time)
    requires NetInv(n) && IsConnected(n, session)
    ensures CallOf(session, p, now).Some? ==> LobbyRuns.Legal(CallOf(session, p, now).value)
  {
    hide NetInvBut, GetMoveRequest, GetResignRequest, DecodedReady, DecodedRoomId, DecodedTitle, IsConnected;
    NetInvHasIds(n);
    ConnectedIsOld(n, session);
  }

  ghost predicate AllLegal(ops: seq<Op>) {
    forall i :: 0 <= i < |ops| ==> LobbyRuns.Legal(ops[i])
  }

  /** Some calls of the lobby lead from a to b. */
  ghost predicate Reaches(a: LobbyInvariant.Run, b: LobbyInvariant.Run) {
    exists ops: seq<Op> :: AllLegal(ops) && Played(a, ops) == b
  }

  lemma ReachesSelf(a: LobbyInvariant.Run)
    ensures Reaches(a, a)
  {
    assert AllLegal([]) && Played(a, []) == a;
  }

  lemma OneMoreCall(a: LobbyInvariant.Run, b: LobbyInvariant.Run, op: Op)
    requires Reaches(a, b) && LobbyRuns.Legal(op)
    ensures Reaches(a, LobbyRuns.Do(b, op))
  {
    hide LobbyRuns.Do;
    var ops :| AllLegal(ops) && Played(a, ops) == b;
    assert (ops + [op])[..|ops|] == ops;
    assert AllLegal(ops + [op]) && Played(a, ops + [op]) == LobbyRuns.Do(b, op);
  }

  lemma {:induction false} PoppingAll(a: LobbyInvariant.Run, b: LobbyInvariant.Run)
    requires Reaches(a, b)
    ensures Reaches(a, AllPopped(b))
    decreases |b.lobby.finished|
  {
    hide Reaches;
    if b.lobby.finished == [] {
      assert b.popped + [] == b.popped;
    } else {
      OneMoreCall(a, b, DoPop);
      var c := LobbyRuns.Do(b, DoPop);
      assert History(c) == History(b);
      PoppingAll(a, c);
    }
  }

  lemma DoneReaches(a: LobbyInvariant.Run, b: LobbyInvariant.Run, after: LobbyInvariant.Run, op: Op)
    requires Reaches(a, b) && LobbyRuns.Legal(op) && IsDone(b, after, op)
    ensures Reaches(a, after)
  {
    hide Reaches, LobbyRuns.Do, AllPopped;
    OneMoreCall(a, b, op);
    PoppingAll(a, LobbyRuns.Do(b, op));
  }

  lemma SweepReaches(a: LobbyInvariant.Run, s: Server, order: seq<RoomId>, now: Time)
    requires Reaches(a, s.run)
    ensures Reaches(a, SweepGames(s, order, now).run)
  {
    hide Reaches, FlushFinishedGames, UpdateTimeouts;
    FlushKeepsRooms(WithLobby(s, UpdateTimeouts(s.run.lobby, order, now).0));
    DoneReaches(a, s.run, SweepGames(s, order, now).run, DoSweep(order, now));
  }

  lemma {:induction false} RoundsReach(a: LobbyInvariant.Run, s: Server, readings: seq<Reading>)
    requires ServerInv(s) && Reaches(a, s.run)
    ensures Reaches(a, Rounds(s, readings).run)
    decreases |readings|
  {
    hide ServerInv, Reaches, Round, RoundCall, IsDone;
    if readings != [] {
      var check, now := readings[0].check, readings[0].now;
      RoundIsDone(s, check, now);
      RoundKeeps(s, check, now);
      var op := RoundCall(s, check, now);
      if op.Some? { DoneReaches(a, s.run, Round(s, check, now).run, op.value); }
      RoundsReach(a, Round(s, check, now), readings[1..]);
    }
  }

  lemma {:induction false} ChecksKeepRun(s: Server, order: seq<SessionId>, now: Time)
    ensures CheckLoginTimeouts(s, order, now).run == s.run && CheckLoginTimeouts(s, order, now).loginTimeout == s.loginTimeout
    decreases |order|
  {
    hide Disconnect;
    if order != [] {
      if IsLoginExpired(s, order[0], now) {
        ChecksKeepRun(s.(deadlines := s.deadlines - {order[0]}, net := Disconnect(s.net, order[0])), order[1..], now);
      } else {
        ChecksKeepRun(s, order[1..], now);
      }
    }
  }

  lemma UpdateReaches(a: LobbyInvariant.Run, s: Server, u: UpdateInput)
    requires ServerInv(s) && Reaches(a, s.run)
    ensures Reaches(a, Update(s, u).run)
  {
    hide ServerInv, Reaches, SweepGames, Rounds, CheckLoginTimeouts;
    SweepReaches(a, s, u.firstRooms, u.firstNow);
    SweepGamesKeeps(s, u.firstRooms, u.firstNow);
    var swept := SweepGames(s, u.firstRooms, u.firstNow);
    RoundsReach(a, swept, Readings(u.readings, 0, Measure(swept.net)));
    ChecksKeepRun(AfterLoop(s, u), u.firstLogins, u.firstCheck);
    ChecksKeepRun(AfterFirstCheck(s, u), u.secondLogins, u.secondCheck);
    SweepReaches(a, AfterChecks(s, u), u.lastRooms, u.lastNow);
  }

  /** The refinement: whatever the sockets and the clock do, the server's lobby has gone through
      a sequence of lobby calls, so every theorem on those runs is one on the server. */
  lemma {:induction false} EveryServerRunIsALobbyRun(start: Server, steps: seq<Step>)
    requires IsStart(start)
    ensures exists ops: seq<Op> :: AllLegal(ops) && LobbyRuns.DoAll(start.run.lobby.config, ops) == DoSteps(start, steps).run
  {
    hide Reaches, DoSteps;
    StepsReach(start, steps);
    StartedRun(start, DoSteps(start, steps).run);
  }

  lemma {:induction false} StepsReach(start: Server, steps: seq<Step>)
    requires IsStart(start)
    ensures Reaches(start.run, DoSteps(start, steps).run)
    decreases |steps|
  {
    hide ServerInv, Reaches, Update, NetRules.Run, IsStart, AfterLoop, Users, IsConnected;
    if steps == [] {
      ReachesSelf(start.run);
    } else {
      var front := steps[..|steps| - 1];
      StepsReach(start, front);
      match steps[|steps| - 1]
      case NetPass(readiness) =>
      case LogicPass(input) =>
        EveryServerRun(start, front, input);
        UpdateReaches(start.run, DoSteps(start, front), input);
    }
  }

  lemma StartedRun(start: Server, run: LobbyInvariant.Run)
    requires IsStart(start) && Reaches(start.run, run)
    ensures exists ops: seq<Op> :: AllLegal(ops) && LobbyRuns.DoAll(start.run.lobby.config, ops) == run
  {
    hide Played, LobbyRuns.DoAll;
    var ops :| AllLegal(ops) && Played(start.run, ops) == run;
    PlayedFromTheStart(start.run.lobby.config, ops);
  }

  lemma {:induction false} PlayedFromTheStart(config: RoomConfig, ops: seq<Op>)
    ensures Played(LobbyInvariant.Run(Opened(config), [], map[]), ops) == LobbyRuns.DoAll(config, ops)
    decreases |ops|
  {
    if ops != [] {
      hide LobbyRuns.Do;
      PlayedFromTheStart(config, ops[..|ops| - 1]);
    }
  }

  /** Conservation on the running server: every game ever started is being played in one room or
      has one record, announced or waiting. */
  lemma ServerConservesGames(start: Server, steps: seq<Step>, g: GameId)
    requires IsStart(start) && 1 <= g <= DoSteps(start, steps).run.lobby.lastGameId
    ensures var run := DoSteps(start, steps).run;
            |PlayedIn(run.lobby.rooms, g)| + |RecordedAt(History(run), g)| == 1
  {
    hide DoSteps, LobbyRuns.DoAll, PlayedIn, RecordedAt;
    EveryServerRunIsALobbyRun(start, steps);
    var ops :| AllLegal(ops) && LobbyRuns.DoAll(start.run.lobby.config, ops) == DoSteps(start, steps).run;
    GamesAreConserved(start.run.lobby.config, ops, g);
  }

  // ----- which results are recorded -----

  /** The session is a user in the room id. */
  predicate IsUserIn(s: LobbyState, session: SessionId, id: RoomId) {
    session in s.users.bySession && s.users.bySession[session].roomId == id && id in s.rooms
  }

  lemma LeaverIsInRoom(run: LobbyInvariant.Run, session: SessionId, id: RoomId)
    requires RunInv(run) && IsUserIn(run.lobby, session, id)
    ensures run.lobby.users.bySession[session].state == UserState.InRoom
  {
    hide LobbyInv, RoomInv, Conserved, ClocksInv;
    UserIsInItsRoom(run.lobby, session);
    RoomIdNotZero(run.lobby, id);
  }

  /** A player who disconnects loses the running game as disconnected, unless its turn was over. */
  lemma DisconnectRecords(s: Server, session: SessionId, id: RoomId, now: Time)
    requires RunInv(s.run) && IsUserIn(s.run.lobby, session, id)
    ensures History(HandleDisconnected(s, session, now).run) ==
              History(s.run) + EndOfLeaver(s.run.lobby.rooms[id], session, GameEndReason.Disconnected, now)
  {
    hide RunInv, HandleDisconnected, LeaveRoom, Remove, EndOfLeaver;
    DisconnectedIsDone(s, session, now);
    LeaverIsInRoom(s.run, session, id);
    LeaveRoomKeepsRunInv(s.run, session, GameEndReason.Disconnected, now);
    RecordsBehind(s.run, LobbyRuns.Do(s.run, DoDisconnect(session, now)));
  }

  lemma RecordsBehind(run: LobbyInvariant.Run, after: LobbyInvariant.Run)
    requires after.popped == run.popped
    ensures forall more :: after.lobby.finished == run.lobby.finished + more ==> History(after) == History(run) + more
    ensures History(AllPopped(after)) == History(after)
  {
    forall more | after.lobby.finished == run.lobby.finished + more ensures History(after) == History(run) + more {
      assert run.popped + (run.lobby.finished + more) == History(run) + more;
    }
  }

  /** One who leaves loses it as having left. */
  lemma LeaveRecords(s: Server, session: SessionId, id: RoomId, now: Time)
    requires RunInv(s.run) && IsUserIn(s.run.lobby, session, id)
    ensures History(HandleRoomLeave(s, session, [], now).run) ==
              History(s.run) + EndOfLeaver(s.run.lobby.rooms[id], session, GameEndReason.LeftRoom, now)
  {
    hide RunInv, HandleRoomLeave, LeaveRoom, EndOfLeaver;
    LeaveIsDone(s, session, now);
    LeaverIsInRoom(s.run, session, id);
    LeaveRoomKeepsRunInv(s.run, session, GameEndReason.LeftRoom, now);
    RecordsBehind(s.run, LobbyRuns.Do(s.run, DoLeave(session, now)));
  }

  /** One who resigns the game in its room loses it as resigned; other requests record nothing. */
  lemma ResignRecords(s: Server, session: SessionId, body: Bytes, now: Time)
    requires RunInv(s.run) && Whole(GetResignRequest(body)).Some?
    ensures var (id, game) := Whole(GetResignRequest(body)).value;
            History(HandleGameResign(s, session, body, now).run) == History(s.run) +
              if RefusedGameRequest(s.run.lobby, session, id, game).Some? then []
              else EndOfLeaver(s.run.lobby.rooms[id], session, GameEndReason.Resigned, now)
  {
    hide RunInv, HandleGameResign, LobbyRules.Resign, EndOfLeaver, RefusedGameRequest, GetResignRequest;
    var (id, game) := Whole(GetResignRequest(body)).value;
    ResignIsDone(s, session, body, now);
    ResignKeepsRunInv(s.run, session, id, game, now);
    RecordsBehind(s.run, LobbyRuns.Do(s.run, DoResign(session, id, game, now)));
    assert s.run.lobby.finished + [] == s.run.lobby.finished;
  }

  /** A move records the end it brings, or the timeout it comes too late for, or nothing. */
  lemma MoveRecords(s: Server, session: SessionId, body: Bytes, now: Time)
    requires RunInv(s.run) && Whole(GetMoveRequest(body)).Some?
    ensures var q := Whole(GetMoveRequest(body)).value;
            var (_, o, m) := LobbyRules.PlaceStone(s.run.lobby, session, q.roomId, q.game, q.x, q.y, now);
            History(HandleGameMove(s, session, body, now).run) == History(s.run) +
              if RefusedGameRequest(s.run.lobby, session, q.roomId, q.game).Some? then []
              else if TurnIsOver(s.run.lobby.rooms[q.roomId], now) then [TimeoutRecord(s.run.lobby.rooms[q.roomId])]
              else if m.Some? then EndOfMove(s.run.lobby.rooms[q.roomId], m.value) else []
  {
    hide RunInv, HandleGameMove, LobbyRules.PlaceStone, EndOfMove, RefusedGameRequest, GetMoveRequest, MoveMade, SameSeats, TurnIsOver;
    var q := Whole(GetMoveRequest(body)).value;
    MoveIsDone(s, session, body, now);
    PlaceStoneKeepsRunInv(s.run, session, q.roomId, q.game, q.x, q.y, now);
    if RefusedGameRequest(s.run.lobby, session, q.roomId, q.game).Some? {
      RefusedMovesFail(s.run, session, q.roomId, q.game, q.x, q.y, now);
    }
    RecordsBehind(s.run, LobbyRuns.Do(s.run, DoMove(session, q.roomId, q.game, q.x, q.y, now)));
    assert s.run.lobby.finished + [] == s.run.lobby.finished;
  }

  lemma RefusedMovesFail(run: LobbyInvariant.Run, session: SessionId, id: RoomId, game: GameId, x: int, y: int, now: Time)
    requires RefusedGameRequest(run.lobby, session, id, game).Some? && RunInv(run)
    ensures LobbyRules.PlaceStone(run.lobby, session, id, game, x, y, now).1 != Returned(GameMoveResult.Success)
  {
    hide RunInv, Expire, AcceptMove;
    RunHasLobbyInv(run);
    NotRefused(run.lobby, session, id, game);
  }

  // ----- overdue games end first -----

  lemma {:induction false} PlayedGrows(a: LobbyInvariant.Run, ops: seq<Op>)
    requires RunInv(a) && AllLegal(ops)
    ensures RunInv(Played(a, ops)) && History(a) <= History(Played(a, ops))
    decreases |ops|
  {
    if ops != [] {
      hide RunInv, LobbyRuns.Do, LobbyRuns.Broken;
      PlayedGrows(a, ops[..|ops| - 1]);
      OneCall(Played(a, ops[..|ops| - 1]), ops[|ops| - 1]);
      HistoryGrows(Played(a, ops[..|ops| - 1]), ops[|ops| - 1]);
    }
  }

  lemma ReachedGrows(a: LobbyInvariant.Run, b: LobbyInvariant.Run)
    requires RunInv(a) && Reaches(a, b)
    ensures History(a) <= History(b)
  {
    hide RunInv, Played;
    var ops :| AllLegal(ops) && Played(a, ops) == b;
    PlayedGrows(a, ops);
  }

  /** A game whose turn is over at the first reading of an Update has been lost by the side to
      move before the loop looks at any packet, whatever the packets ask for and whatever the
      clock says then. */
  lemma OverdueGamesTimeOut(s: Server, u: UpdateInput, id: RoomId)
    requires ServerInv(s) && MeetsRooms(s, u.firstRooms)
    requires id in s.run.lobby.rooms && TurnIsOver(s.run.lobby.rooms[id], u.firstNow)
    ensures var r, t := s.run.lobby.rooms[id], AfterLoop(s, u);
            && FinishedGame(r.id, r.gameId, WinFor(Opponent(r.game.nextTurn)), GameEndReason.TurnTimeout, r.game.moveCount, r.members)
                 in History(t.run)
            && forall other: RoomId :: !Plays(t.run.lobby.rooms, other, r.gameId)
  {
    hide NetInvBut, RunInv, Partition, UpdateTimeouts, FlushFinishedGames, Rounds, Reaches;
    var swept := SweepGames(s, u.firstRooms, u.firstNow);
    var timedOut := UpdateTimeouts(s.run.lobby, u.firstRooms, u.firstNow).0;
    SweepRecords(s.run, u.firstRooms, u.firstNow);
    FlushKeepsRooms(WithLobby(s, timedOut));
    SweepGamesKeeps(s, u.firstRooms, u.firstNow);
    ReachesSelf(swept.run);
    RoundsReach(swept.run, swept, Readings(u.readings, 0, Measure(swept.net)));
    ReachedGrows(swept.run, AfterLoop(s, u).run);
    UpdateKeeps(s, u);
    var f := TimeoutRecord(s.run.lobby.rooms[id]);
    assert f in timedOut.finished;
    assert f in History(swept.run);
    RecordedIsNotPlayed(AfterLoop(s, u).run, f);
  }

  lemma RecordedIsNotPlayed(run: LobbyInvariant.Run, f: FinishedGame)
    requires RunInv(run) && f in History(run)
    ensures forall id: RoomId :: !Plays(run.lobby.rooms, id, f.game)
  {
    hide LobbyInv, ClocksInv, SoundRecord, Plays;
    var i :| 0 <= i < |History(run)| && History(run)[i] == f;
    assert Recorded(History(run), f.game);
  }
}
