/** From the server's board to the client's, through all layers: what has been queued for a
    player is exactly the game so far, so the client's board is the server's. */
module ServerReplica {
  import opened Protocol
  import opened Framing
  import opened NetRules
  import opened NetInvariant
  import opened OmokRules
  import opened RoomRules
  import opened UserRules
  import opened LobbyRules
  import opened LobbyInvariant
  import opened LobbyCalls
  import LobbyRuns
  import opened WireFormat
  import opened GamePacketCodec
  import opened Replica
  import opened ServerRules
  import opened ServerInvariant
  import opened ServerPartition
  import opened ServerRuns
  import opened ServerRefinement
  import opened Encodability
  import opened Outbox
  import opened GameSteps
  import ClientNetRules

  // ----- the game that a stream of packets tells -----

  /** The move notifications of one game among the packets, decoded. */
  function MovesIn(ps: seq<Packet>, g: GameId): seq<GameMoveNotification> {
    if ps == [] then []
    else
      var front, last := MovesIn(ps[..|ps| - 1], g), ps[|ps| - 1];
      var d := DecodedGameMove(last.body);
      if last.id == GAME_MOVE_NTF && d.Some? && d.value.game == g then front + [d.value] else front
  }

  /** A view after some notifications, and whether all of them were applied. */
  function Replay(v: View, moves: seq<GameMoveNotification>): (View, bool) {
    if moves == [] then (v, true)
    else
      var (w, ok) := Replay(v, moves[..|moves| - 1]);
      var (u, applied) := ApplyMove(w, moves[|moves| - 1]);
      (u, ok && applied)
  }

  /** What the packets tell about the room's game, from an empty board on. */
  function ToldGame(ps: seq<Packet>, r: RoomState): (View, bool) {
    Replay(BeginView(ToU32(r.id), ToU32(r.gameId)), MovesIn(ps, r.gameId))
  }

  /** The packets tell exactly the game being played in the room. */
  ghost predicate Tells(ps: seq<Packet>, r: RoomState) {
    ToldGame(ps, r).1 && Agrees(ToldGame(ps, r).0, r)
  }

  /** The packets are about games that have been started. */
  ghost predicate OnlyStarted(ps: seq<Packet>, last: GameId) {
    forall i :: 0 <= i < |ps| ==> IsStarted(ps[i], last)
  }

  predicate IsStarted(p: Packet, last: GameId) {
    DecodedGameMove(p.body).Some? ==> DecodedGameMove(p.body).value.game <= last
  }

  lemma OneMoreMove(ps: seq<Packet>, p: Packet, g: GameId)
    ensures var d := DecodedGameMove(p.body);
            MovesIn(ps + [p], g) ==
              if p.id == GAME_MOVE_NTF && d.Some? && d.value.game == g then MovesIn(ps, g) + [d.value] else MovesIn(ps, g)
  {
    assert (ps + [p])[..|ps|] == ps;
  }

  lemma {:induction false} NewGameIsUntold(ps: seq<Packet>, last: GameId, g: GameId)
    requires OnlyStarted(ps, last) && g > last
    ensures MovesIn(ps, g) == []
  {
    hide DecodedGameMove;
    if ps != [] {
      NewGameIsUntold(ps[..|ps| - 1], last, g);
      assert IsStarted(ps[|ps| - 1], last);
    }
  }

  lemma StartedIsTold(ps: seq<Packet>, last: GameId, r: RoomState)
    requires OnlyStarted(ps, last) && r.gameId > last && r.game == Started()
    requires r.id <= UINT32_MAX && r.gameId <= UINT32_MAX
    ensures Tells(ps, r)
  {
    NewGameIsUntold(ps, last, r.gameId);
    Unchanged32(r.id);
    Unchanged32(r.gameId);
  }

  // ----- the invariant -----

  /** The session is open and a member of the room, where a game is being played. */
  ghost predicate Watches(s: Server, id: RoomId, c: SessionId) {
    && id in s.run.lobby.rooms && s.run.lobby.rooms[id].phase == RoomPhase.Playing
    && c in s.run.lobby.rooms[id].members && IsConnected(s.net, c)
  }

  /** What has been queued for a player is exactly the game so far. */
  ghost predicate Mirrored(s: Server) {
    && (forall c: SessionId :: c <= s.net.lastSessionId ==> OnlyStarted(SentTo(s.net, c, GAME_MOVE_NTF), s.run.lobby.lastGameId))
    && (forall id: RoomId, c: SessionId :: Watches(s, id, c) ==> Tells(SentTo(s.net, c, GAME_MOVE_NTF), s.run.lobby.rooms[id]))
  }

  /** A step that queues no move and only stops or starts games keeps the mirror. */
  lemma MirrorStays(s: Server, t: Server)
    requires Mirrored(s) && RunInv(t.run) && Mute(s.net, t.net, GAME_MOVE_NTF) && Passes(s.net, t.net)
    requires StaysOrStarts(s.run.lobby, t.run.lobby)
    requires forall id: RoomId, c: SessionId :: Watches(t, id, c) ==> c <= s.net.lastSessionId
    ensures Mirrored(t)
  {
    hide RunInv, Tells, SentTo, IsConnected, DecodedGameMove;
    forall id: RoomId, c: SessionId | Watches(t, id, c) ensures Tells(SentTo(t.net, c, GAME_MOVE_NTF), t.run.lobby.rooms[id]) {
      IdsFit(t.run, id);
      assert IsConnected(s.net, c);
      if Watches(s, id, c) && t.run.lobby.rooms[id] == s.run.lobby.rooms[id] {
      } else {
        StartedIsTold(SentTo(s.net, c, GAME_MOVE_NTF), s.run.lobby.lastGameId, t.run.lobby.rooms[id]);
      }
    }
  }

  lemma LogicMirrorStays(s: Server, t: Server)
    requires Mirrored(s) && ServerInv(t) && Mute(s.net, t.net, GAME_MOVE_NTF) && Quiet(s.net, t.net)
    requires StaysOrStarts(s.run.lobby, t.run.lobby)
    ensures Mirrored(t)
  {
    hide NetInvBut, RunInv, Mute, Mirrored, StaysOrStarts, Passes, Partition, IsConnected;
    NetInvHasIds(t.net);
    forall id: RoomId, c: SessionId | Watches(t, id, c) ensures c <= s.net.lastSessionId {
      ConnectedIsOld(t.net, c);
    }
    MirrorStays(s, t);
  }

  // ----- a move -----

  lemma OnlyStartedGrows(ps: seq<Packet>, p: Packet, last: GameId)
    requires OnlyStarted(ps, last) && IsStarted(p, last)
    ensures OnlyStarted(ps + [p], last)
  {
  }

  /** The packet of an accepted move, and what it adds to the story. */
  lemma MovePacketTells(run: LobbyInvariant.Run, ps: seq<Packet>, session: SessionId, id: RoomId, gameId: GameId, x: int, y: int, now: Time)
    requires RunInv(run) && id in run.lobby.rooms && Tells(ps, run.lobby.rooms[id])
    requires LobbyRules.PlaceStone(run.lobby, session, id, gameId, x, y, now).1 == Returned(GameMoveResult.Success)
    ensures var (t, _, m) := LobbyRules.PlaceStone(run.lobby, session, id, gameId, x, y, now);
            && m.Some? && m.value.x >= 0 && m.value.y >= 0 && id in t.rooms
            && Tells(ps + [Packet(GAME_MOVE_NTF, GameMoveBytes(NotificationOf(m.value)))], t.rooms[id])
  {
    hide RunInv, LobbyRules.PlaceStone, Agrees, ApplyMove, IsValidGameMove, GameMoveBytes, DecodedGameMove, NotificationOf, MoveArrives;
    var (t, _, m) := LobbyRules.PlaceStone(run.lobby, session, id, gameId, x, y, now);
    var r := run.lobby.rooms[id];
    MoveArrivesWhole(run, session, id, gameId, x, y, now);
    ReplicaStep(run, ToldGame(ps, r).0, session, id, gameId, x, y, now);
    OneMoreMove(ps, Packet(GAME_MOVE_NTF, GameMoveBytes(NotificationOf(m.value))), gameId);
    var moves, p := MovesIn(ps, gameId), NotificationOf(m.value);
    assert (moves + [p])[..|moves|] == moves;
  }

  /** What MoveIsSent says, and that room and game keep their IDs. */
  lemma MoveArrivesWhole(run: LobbyInvariant.Run, session: SessionId, id: RoomId, gameId: GameId, x: int, y: int, now: Time)
    requires RunInv(run)
    requires LobbyRules.PlaceStone(run.lobby, session, id, gameId, x, y, now).1 == Returned(GameMoveResult.Success)
    ensures var (t, _, m) := LobbyRules.PlaceStone(run.lobby, session, id, gameId, x, y, now);
            && m.Some? && m.value.x >= 0 && m.value.y >= 0 && m.value.room == id && id in run.lobby.rooms && id in t.rooms
            && var p := NotificationOf(m.value);
            && IsValidGameMove(p) && DecodedGameMove(GameMoveBytes(p)) == Some(p) && p.game == gameId
            && t.rooms == run.lobby.rooms[id := t.rooms[id]] && SameSeats(run.lobby.rooms[id], t.rooms[id])
            && run.lobby.rooms[id].phase == RoomPhase.Playing && run.lobby.rooms[id].gameId == t.rooms[id].gameId == gameId
            && t.lastGameId == run.lobby.lastGameId
  {
    hide RunInv, LobbyInv, RoomInv, LobbyRules.PlaceStone, IsValidGameMove, GameMoveBytes, DecodedGameMove, RefusedGameRequest,
      HasLine, Full;
    MoveIsSent(run, session, id, gameId, x, y, now);
    PlaceStoneKeepsRunInv(run, session, id, gameId, x, y, now);
    AcceptedIsRequested(run.lobby, session, id, gameId, x, y, now);
    RunHasLobbyInv(run);
    RoomsAreSound(run.lobby, id);
    TurnMeansPlaying(run.lobby.rooms[id]);
  }

  /** t is s after the move has been accepted and announced. */
  ghost predicate IsAnnounced(s: Server, t: Server, session: SessionId, q: GameMoveRequest, now: Time) {
    var (lobby, o, m) := LobbyRules.PlaceStone(s.run.lobby, session, q.roomId, q.game, q.x, q.y, now);
    o == Returned(GameMoveResult.Success) && m.Some? && t == AnnounceMove(WithLobby(s, lobby), session, q.game, m.value)
  }

  /** The packet that announces the move. */
  ghost function MovePacket(s: Server, session: SessionId, q: GameMoveRequest, now: Time): Packet {
    var m := LobbyRules.PlaceStone(s.run.lobby, session, q.roomId, q.game, q.x, q.y, now).2;
    Packet(GAME_MOVE_NTF, if m.Some? && m.value.x >= 0 && m.value.y >= 0 then GameMoveBytes(NotificationOf(m.value)) else [])
  }

  /** An accepted move, also one that ends the game, is queued for every member of its room who
      is still connected afterwards, once and after all before it, and for nobody else. */
  lemma MoveReachesPlayers(s: Server, t: Server, session: SessionId, q: GameMoveRequest, now: Time, c: SessionId)
    requires RunInv(s.run) && NetInv(s.net) && IsAnnounced(s, t, session, q, now) && c <= s.net.lastSessionId
    ensures q.roomId in s.run.lobby.rooms && Adds(s.net, t.net, c, MovePacket(s, session, q, now))
    ensures c !in s.run.lobby.rooms[q.roomId].members ==> SentTo(t.net, c, GAME_MOVE_NTF) == SentTo(s.net, c, GAME_MOVE_NTF)
    ensures c in s.run.lobby.rooms[q.roomId].members && IsConnected(t.net, c) ==>
              SentTo(t.net, c, GAME_MOVE_NTF) == SentTo(s.net, c, GAME_MOVE_NTF) + [MovePacket(s, session, q, now)]
  {
    hide RunInv, NetInvBut, LobbyRules.PlaceStone, SentTo, IsConnected, IsValidGameMove, GameMoveBytes, DecodedGameMove,
      NotificationOf, RespondMove, Broadcast, Passes;
    var lobby := LobbyRules.PlaceStone(s.run.lobby, session, q.roomId, q.game, q.x, q.y, now).0;
    MoveArrivesWhole(s.run, session, q.roomId, q.game, q.x, q.y, now);
    ResponseIsQuietAndMute(s.net, session, q.game);
    TargetsAreDistinct(s.run, q.roomId);
    var responded := RespondMove(s.net, session, GAME_MOVE_RES, GameMoveResult.Success, q.game);
    BroadcastAdds(responded, lobby.rooms[q.roomId].members, GAME_MOVE_NTF, MovePacket(s, session, q, now).body, c);
  }

  lemma AcceptedMoveMirrors(s: Server, t: Server, session: SessionId, q: GameMoveRequest, now: Time)
    requires Mirrored(s) && RunInv(s.run) && NetInv(s.net) && RunInv(t.run) && IsAnnounced(s, t, session, q, now)
    requires t.net.lastSessionId == s.net.lastSessionId
    requires forall c: SessionId :: IsConnected(t.net, c) ==> c <= t.net.lastSessionId && IsConnected(s.net, c)
    ensures Mirrored(t)
  {
    hide RunInv, NetInvBut, LobbyRules.PlaceStone, Tells, SentTo, IsConnected, IsValidGameMove, GameMoveBytes, DecodedGameMove,
      NotificationOf, RespondMove, Broadcast;
    var p := MovePacket(s, session, q, now);
    MoveArrivesWhole(s.run, session, q.roomId, q.game, q.x, q.y, now);
    PlayedIsGiven(s.run, q.roomId);
    forall c: SessionId | c <= t.net.lastSessionId ensures OnlyStarted(SentTo(t.net, c, GAME_MOVE_NTF), t.run.lobby.lastGameId) {
      MoveReachesPlayers(s, t, session, q, now, c);
      OnlyStartedGrows(SentTo(s.net, c, GAME_MOVE_NTF), p, s.run.lobby.lastGameId);
    }
    forall id: RoomId, c: SessionId | Watches(t, id, c) ensures Tells(SentTo(t.net, c, GAME_MOVE_NTF), t.run.lobby.rooms[id]) {
      MoveReachesPlayers(s, t, session, q, now, c);
      assert Watches(s, id, c);
      if id == q.roomId {
        MovePacketTells(s.run, SentTo(s.net, c, GAME_MOVE_NTF), session, id, q.game, q.x, q.y, now);
      } else {
        OneRoomEach(t.run, id, q.roomId, c);
      }
    }
  }

  lemma ResponseIsQuietAndMute(n: NetState, session: SessionId, game: uint32)
    requires NetInv(n)
    ensures var m := RespondMove(n, session, GAME_MOVE_RES, GameMoveResult.Success, game);
            && NetInv(m) && Mute(n, m, GAME_MOVE_NTF) && m.lastSessionId == n.lastSessionId
  {
    hide NetInvBut, Respond, MoveResponseBytes, Mute, Passes;
    var body := MoveResponseBytes(GameMoveResult.Success, game);
    RespondIsQuiet(n, session, GAME_MOVE_RES, body);
    RespondIsMute(n, session, GAME_MOVE_RES, body, GAME_MOVE_NTF);
  }

  lemma TargetsAreDistinct(run: LobbyInvariant.Run, id: RoomId)
    requires RunInv(run) && id in run.lobby.rooms
    ensures Distinct(run.lobby.rooms[id].members)
  {
    hide LobbyInv, GameInv;
    RoomsAreSound(run.lobby, id);
  }

  /** A session is a member of one room at most. */
  lemma OneRoomEach(run: LobbyInvariant.Run, id: RoomId, other: RoomId, c: SessionId)
    requires RunInv(run) && id in run.lobby.rooms && other in run.lobby.rooms && id != other
    requires c in run.lobby.rooms[id].members
    ensures c !in run.lobby.rooms[other].members
  {
    hide UsersInv, RoomsInv, Conserved, ClocksInv;
    var users, rooms := run.lobby.users.bySession, run.lobby.rooms;
    assert Linked(users, rooms);
    assert c in users && users[c].roomId == id;
  }

  lemma MoveMirrors(s: Server, session: SessionId, body: Bytes, now: Time)
    requires ServerInv(s) && Mirrored(s)
    ensures Mirrored(HandleGameMove(s, session, body, now))
  {
    hide NetInvBut, RunInv, Partition, Mirrored, Mute, StaysOrStarts, Passes, IsConnected, LobbyRules.PlaceStone, GetMoveRequest,
      RespondMove, AnnounceMove, Disconnect;
    var t := HandleGameMove(s, session, body, now);
    GameMoveIsCalm(s, session, body, now);
    CalmKeepsServerInv(s, t);
    NothingStays(s.run.lobby);
    DisconnectIsMute(s.net, session, GAME_MOVE_NTF);
    var request := Whole(GetMoveRequest(body));
    if request.Some? {
      var q := request.value;
      var op := LobbyRuns.DoMove(session, q.roomId, q.game, q.x, q.y, now);
      var (lobby, o, m) := LobbyRules.PlaceStone(s.run.lobby, session, q.roomId, q.game, q.x, q.y, now);
      MoveNeverThrows(s.run, op);
      if IsAccepted(s.run.lobby, op) {
        NetInvHasIds(t.net);
        forall c: SessionId | IsConnected(t.net, c) ensures c <= t.net.lastSessionId {
          ConnectedIsOld(t.net, c);
        }
        AcceptedMoveMirrors(s, t, session, q, now);
      } else {
        RefusedMoveStays(s.run, op);
        AnswerIsMute(s.net, session, o.value, q.game);
        LogicMirrorStays(s, t);
      }
    } else {
      LogicMirrorStays(s, t);
    }
  }

  lemma MoveNeverThrows(run: LobbyInvariant.Run, op: LobbyRuns.Op)
    requires RunInv(run) && op.DoMove?
    ensures var (t, o, m) := LobbyRules.PlaceStone(run.lobby, op.session, op.roomId, op.gameId, op.x, op.y, op.now);
            o.Returned? && (o.value == GameMoveResult.Success <==> m.Some?) && LobbyRuns.Do(run, op).lobby == t
  {
    hide RunInv, LobbyRules.PlaceStone, Moved, RefusedGameRequest;
    PlaceStoneKeepsRunInv(run, op.session, op.roomId, op.gameId, op.x, op.y, op.now);
  }

  lemma AnswerIsMute(n: NetState, session: SessionId, result: GameMoveResult, game: uint32)
    ensures Mute(n, RespondMove(n, session, GAME_MOVE_RES, result, game), GAME_MOVE_NTF)
  {
    RespondIsMute(n, session, GAME_MOVE_RES, MoveResponseBytes(result, game), GAME_MOVE_NTF);
  }

  // ----- one round, one Update, any run -----

  lemma PacketMirrors(s: Server, session: SessionId, p: Packet, now: Time)
    requires ServerInv(s) && Mirrored(s) && IsConnected(s.net, session) && !ConnectPending(s.net, session)
    ensures Mirrored(ProcessPacket(s, session, p, now))
  {
    hide NetInvBut, RunInv, Partition, Mirrored, Mute, StaysOrStarts, Quiet, IsConnected, ConnectPending;
    if p.id == GAME_MOVE_REQ {
      MoveMirrors(s, session, p.body, now);
      MoveIsProcessed(s, session, p, now);
    } else {
      hide ProcessPacket;
      PacketKeeps(s, session, p, now);
      OtherPacketStays(s, session, p, now);
      OtherPacketIsMute(s, session, p, now);
      LogicMirrorStays(s, ProcessPacket(s, session, p, now));
    }
  }

  lemma MoveIsProcessed(s: Server, session: SessionId, p: Packet, now: Time)
    requires p.id == GAME_MOVE_REQ
    ensures ProcessPacket(s, session, p, now) == HandleGameMove(s, session, p.body, now)
  {
    hide HandleGameMove;
  }

  lemma PoppedMirrors(s: Server)
    requires Mirrored(s)
    ensures Mirrored(s.(net := TryPopEvent(s.net).0))
  {
    hide Tells, OnlyStarted;
    var t := s.(net := TryPopEvent(s.net).0);
    forall c: SessionId ensures SentTo(t.net, c, GAME_MOVE_NTF) == SentTo(s.net, c, GAME_MOVE_NTF) { }
    assert forall id: RoomId, c: SessionId :: Watches(t, id, c) ==> Watches(s, id, c);
  }

  lemma RoundMirrors(s: Server, check: Time, now: Time)
    requires ServerInv(s) && Mirrored(s)
    ensures Mirrored(Round(s, check, now))
  {
    hide ServerInv, Mirrored, HandleConnected, HandleDisconnected, ProcessPacket, Disconnect, Quiet, StaysOrStarts, Mute;
    if s.net.events != [] {
      var e, t := s.net.events[0], s.(net := TryPopEvent(s.net).0);
      RoundKeeps(s, check, now);
      PoppedMirrors(s);
      match e
      case Connected(session, occurredAt) => ConnectedMirrors(t, session, occurredAt);
      case Arrived(session, packet) => ArrivedMirrors(s, check, now);
      case Disconnected(session) =>
        DisconnectedKeeps(s, session, now);
        DisconnectedIsMute(t, session, now, GAME_MOVE_NTF);
        InvHasRun(s);
        DisconnectedStays(t, session, now);
        LogicMirrorStays(t, HandleDisconnected(t, session, now));
    }
  }

  lemma InvHasRun(s: Server)
    requires ServerInv(s)
    ensures RunInv(s.run) && NetInv(s.net)
  {
  }

  lemma ConnectedMirrors(s: Server, session: SessionId, occurredAt: Time)
    requires Mirrored(s)
    ensures Mirrored(HandleConnected(s, session, occurredAt))
  {
    hide Tells, OnlyStarted;
    var t := HandleConnected(s, session, occurredAt);
    assert t.net == s.net && t.run == s.run;
    assert forall id: RoomId, c: SessionId :: Watches(t, id, c) ==> Watches(s, id, c);
  }

  lemma ArrivedMirrors(s: Server, check: Time, now: Time)
    requires ServerInv(s) && Mirrored(s) && s.net.events != [] && s.net.events[0].Arrived?
    ensures Mirrored(HandleEvent(s.(net := TryPopEvent(s.net).0), s.net.events[0], check, now))
  {
    hide NetInvBut, RunInv, Sound, Partition, Mirrored, Quiet, Disconnect, ProcessPacket, TryPopEvent, StaysOrStarts, Mute;
    var e, t := s.net.events[0], s.(net := TryPopEvent(s.net).0);
    SoundParts(s);
    FirstEvent(s.net);
    TryPopKeepsNetInv(s.net);
    PopKeepsPartition(s.net, Users(s), s.deadlines.Keys);
    PoppedIsSound(s, t.net);
    PoppedMirrors(s);
    if IsConnected(t.net, e.session) {
      if IsLoginExpired(t, e.session, check) {
        ExpireLoginKeeps(t, e.session);
        DisconnectIsMute(t.net, e.session, GAME_MOVE_NTF);
        NothingStays(t.run.lobby);
        LogicMirrorStays(t, t.(deadlines := t.deadlines - {e.session}, net := Disconnect(t.net, e.session)));
      } else {
        PacketMirrors(t, e.session, e.packet, now);
      }
    }
  }

  lemma {:induction false} RoundsMirror(s: Server, readings: seq<Reading>)
    requires ServerInv(s) && Mirrored(s)
    ensures ServerInv(Rounds(s, readings)) && Mirrored(Rounds(s, readings))
    decreases |readings|
  {
    hide ServerInv, Mirrored, Round;
    if readings != [] {
      RoundKeeps(s, readings[0].check, readings[0].now);
      RoundMirrors(s, readings[0].check, readings[0].now);
      RoundsMirror(Round(s, readings[0].check, readings[0].now), readings[1..]);
    }
  }

  lemma SweepMirrors(s: Server, order: seq<RoomId>, now: Time)
    requires ServerInv(s) && Mirrored(s)
    ensures Mirrored(SweepGames(s, order, now))
  {
    hide ServerInv, Mirrored, FlushFinishedGames, UpdateTimeouts, StaysOrStarts, Mute, Quiet;
    InvHasRun(s);
    SweepGamesKeeps(s, order, now);
    var t := WithLobby(s, UpdateTimeouts(s.run.lobby, order, now).0);
    FlushIsMute(t, GAME_MOVE_NTF);
    SweepStays(s, order, now);
    LogicMirrorStays(s, SweepGames(s, order, now));
  }

  lemma CheckMirrors(s: Server, order: seq<SessionId>, now: Time)
    requires ServerInv(s) && Mirrored(s)
    ensures Mirrored(CheckLoginTimeouts(s, order, now))
  {
    hide ServerInv, Mirrored, CheckLoginTimeouts, StaysOrStarts, Mute, Quiet;
    CheckLoginTimeoutsKeeps(s, order, now);
    CheckIsMute(s, order, now, GAME_MOVE_NTF);
    ChecksKeepRun(s, order, now);
    NothingStays(s.run.lobby);
    LogicMirrorStays(s, CheckLoginTimeouts(s, order, now));
  }

  lemma UpdateMirrors(s: Server, u: UpdateInput)
    requires ServerInv(s) && Mirrored(s)
    ensures Mirrored(Update(s, u))
  {
    hide ServerInv, Mirrored, SweepGames, Rounds, CheckLoginTimeouts, Quiet;
    UpdateKeeps(s, u);
    SweepGamesKeeps(s, u.firstRooms, u.firstNow);
    SweepMirrors(s, u.firstRooms, u.firstNow);
    var swept := SweepGames(s, u.firstRooms, u.firstNow);
    RoundsMirror(swept, Readings(u.readings, 0, Measure(swept.net)));
    CheckMirrors(AfterLoop(s, u), u.firstLogins, u.firstCheck);
    CheckMirrors(AfterFirstCheck(s, u), u.secondLogins, u.secondCheck);
    SweepMirrors(AfterChecks(s, u), u.lastRooms, u.lastNow);
  }

  /** Every member of a room is a session the server knows. */
  lemma MembersAreKnown(s: Server, id: RoomId, c: SessionId)
    requires ServerInv(s) && id in s.run.lobby.rooms && c in s.run.lobby.rooms[id].members
    ensures c <= s.net.lastSessionId
  {
    hide NetInvBut, RoomsInv, UsersInv, Conserved, ClocksInv, ConnectPending, DropPending, IsConnected;
    assert c in Users(s);
    assert Known(s.net, c);
  }

  lemma NetPassMirrors(s: Server, r: Readiness)
    requires ServerInv(s) && Mirrored(s)
    ensures Mirrored(s.(net := NetRules.Run(s.net, r)))
  {
    hide NetInvBut, RunInv, Partition, Mirrored, NetRules.Run, Mute, Passes, StaysOrStarts, IsConnected;
    var t := s.(net := NetRules.Run(s.net, r));
    RunPasses(s.net, r);
    RunIsMute(s.net, r, GAME_MOVE_NTF);
    NothingStays(s.run.lobby);
    forall id: RoomId, c: SessionId | Watches(t, id, c) ensures c <= s.net.lastSessionId {
      MembersAreKnown(s, id, c);
    }
    MirrorStays(s, t);
  }

  lemma StartMirrors(s: Server)
    requires IsStart(s)
    ensures Mirrored(s)
  {
  }

  /** In every reachable server, what has been queued for a connected player is exactly the
      game so far: replayed from an empty board, every notification is applied, and the view
      agrees with the server's game in board, turn, state and count. */
  lemma {:induction false} EveryRunMirrors(start: Server, steps: seq<Step>)
    requires IsStart(start)
    ensures ServerInv(DoSteps(start, steps)) && Mirrored(DoSteps(start, steps))
    decreases |steps|
  {
    hide ServerInv, Mirrored, Update, IsStart, NetRules.Run;
    if steps == [] {
      StartInv(start);
      StartMirrors(start);
    } else {
      var before := DoSteps(start, steps[..|steps| - 1]);
      EveryRunMirrors(start, steps[..|steps| - 1]);
      match steps[|steps| - 1]
      case NetPass(readiness) => NetPassKeeps(before, readiness); NetPassMirrors(before, readiness);
      case LogicPass(input) => UpdateKeeps(before, input); UpdateMirrors(before, input);
    }
  }

  // ----- at the client -----

  lemma {:induction false} MovesAreOfTheirKind(ps: seq<Packet>, g: GameId)
    ensures MovesIn(OfKind(ps, GAME_MOVE_NTF), g) == MovesIn(ps, g)
  {
    hide DecodedGameMove;
    if ps != [] {
      var front, last := ps[..|ps| - 1], ps[|ps| - 1];
      MovesAreOfTheirKind(front, g);
      OneMoreMove(OfKind(front, GAME_MOVE_NTF), last, g);
    }
  }

  lemma {:induction false} EarlierMoves(ps: seq<Packet>, more: seq<Packet>, g: GameId)
    requires ps <= more
    ensures MovesIn(ps, g) <= MovesIn(more, g)
    decreases |more|
  {
    hide DecodedGameMove;
    if ps == more {
    } else {
      var front, last := more[..|more| - 1], more[|more| - 1];
      EarlierMoves(ps, front, g);
      OneMoreMove(front, last, g);
      assert more == front + [last];
    }
  }

  /** v shows the first stones of w. */
  ghost predicate IsEarlier(v: View, w: View) {
    forall p :: p in v.cells ==> p in w.cells && w.cells[p] == v.cells[p]
  }

  ghost predicate AllValid(moves: seq<GameMoveNotification>) {
    forall i :: 0 <= i < |moves| ==> IsValidGameMove(moves[i])
  }

  lemma {:induction false} DecodedMovesAreValid(ps: seq<Packet>, g: GameId)
    ensures AllValid(MovesIn(ps, g))
  {
    hide DecodedGameMove, IsValidGameMove;
    if ps != [] {
      DecodedMovesAreValid(ps[..|ps| - 1], g);
      var body := ps[|ps| - 1].body;
      if DecodedGameMove(body).Some? { GameMoveExact(body, DecodedGameMove(body).value); }
    }
  }

  lemma OneStoneMore(v: View, p: GameMoveNotification)
    requires ApplyMove(v, p).1 && IsValidGameMove(p) && WellPlaced(v.cells)
    ensures var w := ApplyMove(v, p).0; |w.cells| == |v.cells| + 1 && IsEarlier(v, w) && WellPlaced(w.cells)
  {
    PlacingAddsOne(v.cells, p.placed, Pos(p.x, p.y));
  }

  lemma {:induction false} ReplayCounts(v: View, moves: seq<GameMoveNotification>)
    requires Replay(v, moves).1 && AllValid(moves) && WellPlaced(v.cells)
    ensures var w := Replay(v, moves).0; |w.cells| == |v.cells| + |moves| && WellPlaced(w.cells)
  {
    hide IsValidGameMove, ApplyMove, WellPlaced;
    if moves != [] {
      var front := moves[..|moves| - 1];
      ReplayCounts(v, front);
      OneStoneMore(Replay(v, front).0, moves[|moves| - 1]);
    }
  }

  /** If all notifications are applied, so are the first ones, and they yield an earlier
      position. */
  lemma {:induction false} ReplayOfPart(v: View, part: seq<GameMoveNotification>, all: seq<GameMoveNotification>)
    requires part <= all && Replay(v, all).1 && AllValid(all) && WellPlaced(v.cells)
    ensures Replay(v, part).1 && IsEarlier(Replay(v, part).0, Replay(v, all).0)
    decreases |all|
  {
    hide IsValidGameMove, ApplyMove, WellPlaced;
    if part != all {
      var front, last := all[..|all| - 1], all[|all| - 1];
      ReplayOfPart(v, part, front);
      ReplayCounts(v, front);
      OneStoneMore(Replay(v, front).0, last);
    }
  }

  /** The replica theorem across all layers. Whatever the server and its sockets have done, and
      whatever the client has done: from the bytes of its session that have reached it, a
      player's client has taken move notifications of the game in its room that all apply, one
      after the other, and its board shows that many first stones of the server's board; and
      once every byte has drained, board, turn, state and count are the server's. */
  lemma ClientSeesTheGame(start: Server, steps: seq<Step>, clientOps: seq<ClientNetRules.ClientOp>, id: RoomId, c: SessionId)
    requires IsStart(start) && ClientNetRules.AllLegal(clientOps) && Watches(DoSteps(start, steps), id, c)
    ensures var s, client := DoSteps(start, steps), ClientNetRules.DoAll(clientOps);
            var r := s.run.lobby.rooms[id];
            c in s.net.wire &&
            (client.net.received <= s.net.wire[c] ==>
               var (view, applied) := ToldGame(client.net.taken, r);
               && applied && |view.cells| == |MovesIn(client.net.taken, r.gameId)| <= r.game.moveCount
               && (forall p :: p in view.cells ==> p in r.game.board && r.game.board[p] == view.cells[p])
               && (ClientNetRules.Flushed(s.net, c) && client.open && client.net.received == s.net.wire[c] ==> Agrees(view, r)))
  {
    hide ServerInv, Mirrored, DoSteps, ClientNetRules.DoAll, Replay, MovesIn, Agrees, SentTo;
    EveryRunMirrors(start, steps);
    var s, client := DoSteps(start, steps), ClientNetRules.DoAll(clientOps);
    var r := s.run.lobby.rooms[id];
    InvHasRun(s);
    WatcherIsGiven(s, id, c);
    ClientNetRules.TakenIsQueued(s.net, c, clientOps);
    QueueTellsGame(s, id, c);
    if client.net.received <= s.net.wire[c] {
      TakenTellsPart(client.net.taken, s.net.queued[c], r, s.run);
    }
  }

  /** The first packets of a queue that tells the game show the first stones of its board. */
  lemma TakenTellsPart(taken: seq<Packet>, queued: seq<Packet>, r: RoomState, run: LobbyInvariant.Run)
    requires taken <= queued && Tells(queued, r)
    requires RunInv(run) && r.id in run.lobby.rooms && run.lobby.rooms[r.id] == r
    ensures var (view, applied) := ToldGame(taken, r);
            && applied && |view.cells| == |MovesIn(taken, r.gameId)| <= r.game.moveCount
            && (forall p :: p in view.cells ==> p in r.game.board && r.game.board[p] == view.cells[p])
  {
    hide RunInv, Replay, MovesIn, Agrees, ApplyMove;
    var v, all := BeginView(ToU32(r.id), ToU32(r.gameId)), MovesIn(queued, r.gameId);
    EarlierMoves(taken, queued, r.gameId);
    DecodedMovesAreValid(queued, r.gameId);
    ReplayOfPart(v, MovesIn(taken, r.gameId), all);
    ReplayCounts(v, MovesIn(taken, r.gameId));
    ReplayCounts(v, all);
    AgreedBoard(ToldGame(queued, r).0, r, run);
  }

  lemma WatcherIsGiven(s: Server, id: RoomId, c: SessionId)
    requires NetInv(s.net) && Watches(s, id, c)
    ensures IsGiven(s.net, c)
  {
    hide NetInvBut;
    NetInvHasIds(s.net);
    ConnectedIsOld(s.net, c);
  }

  lemma QueueTellsGame(s: Server, id: RoomId, c: SessionId)
    requires Mirrored(s) && Watches(s, id, c) && c in s.net.queued
    ensures Tells(s.net.queued[c], s.run.lobby.rooms[id])
  {
    hide Agrees, Replay, MovesIn, OnlyStarted;
    MovesAreOfTheirKind(s.net.queued[c], s.run.lobby.rooms[id].gameId);
  }

  lemma AgreedBoard(v: View, r: RoomState, run: LobbyInvariant.Run)
    requires RunInv(run) && r.id in run.lobby.rooms && run.lobby.rooms[r.id] == r && Agrees(v, r)
    ensures v.cells == r.game.board && |v.cells| == r.game.moveCount
  {
    hide LobbyInv;
    RoomsAreSound(run.lobby, r.id);
  }
}
