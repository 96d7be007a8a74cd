/** What the server's handlers do to the games being played: all but the one for moves leave
    them as they are, stop them, or start new ones, and queue no move. */
module GameSteps {
  import opened Protocol
  import opened Framing
  import opened NetRules
  import opened OmokRules
  import opened RoomRules
  import opened UserRules
  import opened LobbyRules
  import opened LobbyInvariant
  import opened LobbyCalls
  import LobbyRuns
  import opened RoomPacketCodec
  import opened GamePacketCodec
  import opened Replica
  import opened ServerRules
  import opened ServerRuns
  import opened ServerRefinement
  import opened Outbox

  /** Games being played are as they were, or have just been started under a new ID. */
  ghost predicate StaysOrStarts(s: LobbyState, t: LobbyState) {
    && s.lastGameId <= t.lastGameId
    && forall id: RoomId :: id in t.rooms && t.rooms[id].phase == RoomPhase.Playing ==>
         (id in s.rooms && t.rooms[id] == s.rooms[id]) || (t.rooms[id].gameId > s.lastGameId && t.rooms[id].game == Started())
  }

  // ----- the lobby under everything but moves -----

  lemma GameIdsStay(run: LobbyInvariant.Run, op: LobbyRuns.Op)
    requires RunInv(run) && !op.DoStart?
    ensures LobbyRuns.Do(run, op).lobby.lastGameId == run.lobby.lastGameId
  {
    hide RunInv, LobbyInv, Linked, LeaveRoom, LobbyRules.PlaceStone, LobbyRules.Resign, UpdateTimeouts, EndOfLeaver, Moved;
    match op
    case DoDisconnect(session, now) => LeaveRoomKeepsRunInv(run, session, GameEndReason.Disconnected, now);
    case DoLeave(session, now) => LeaveRoomKeepsRunInv(run, session, GameEndReason.LeftRoom, now);
    case DoMove(session, roomId, gameId, x, y, now) => PlaceStoneKeepsRunInv(run, session, roomId, gameId, x, y, now);
    case DoResign(session, roomId, gameId, now) => ResignKeepsRunInv(run, session, roomId, gameId, now);
    case DoSweep(order, now) => UpdateTimeoutsKeepsRunInv(run, order, now);
    case _ =>
  }

  lemma PlayedIsGiven(run: LobbyInvariant.Run, id: RoomId)
    requires RunInv(run) && id in run.lobby.rooms && run.lobby.rooms[id].phase == RoomPhase.Playing
    ensures run.lobby.rooms[id].gameId <= run.lobby.lastGameId
  {
    hide LobbyInv, ClocksInv, SoundRecord;
    assert Plays(run.lobby.rooms, id, run.lobby.rooms[id].gameId);
  }

  lemma OpStaysOrStarts(run: LobbyInvariant.Run, op: LobbyRuns.Op)
    requires RunInv(run) && LobbyRuns.Legal(op) && !op.DoMove?
    ensures StaysOrStarts(run.lobby, LobbyRuns.Do(run, op).lobby)
  {
    hide RunInv, LobbyRuns.Do, LobbyRuns.Broken, LobbyRuns.Legal;
    var after := LobbyRuns.Do(run, op);
    LobbyRuns.OneCall(run, op);
    OnlyMovesMove(run, op);
    if op.DoStart? {
      StartStaysOrStarts(run, op);
    } else {
      GameIdsStay(run, op);
      forall id | id in after.lobby.rooms && after.lobby.rooms[id].phase == RoomPhase.Playing
        ensures id in run.lobby.rooms && after.lobby.rooms[id] == run.lobby.rooms[id]
      {
        PlayedIsGiven(after, id);
      }
    }
  }

  lemma StartStaysOrStarts(run: LobbyInvariant.Run, op: LobbyRuns.Op)
    requires RunInv(run) && op.DoStart?
    ensures StaysOrStarts(run.lobby, LobbyRuns.Do(run, op).lobby)
  {
    hide RunInv, LobbyRules.StartGame, Noted, Seated;
    StartGameKeepsRunInv(run, op.session, op.now);
  }

  lemma RefusedMoveStays(run: LobbyInvariant.Run, op: LobbyRuns.Op)
    requires RunInv(run) && op.DoMove? && !IsAccepted(run.lobby, op)
    ensures StaysOrStarts(run.lobby, LobbyRuns.Do(run, op).lobby)
  {
    hide RunInv, IsAccepted, LobbyRuns.Do;
    GameIdsStay(run, op);
    var after := LobbyRuns.Do(run, op).lobby;
    forall id | id in after.rooms && after.rooms[id].phase == RoomPhase.Playing
      ensures id in run.lobby.rooms && after.rooms[id] == run.lobby.rooms[id]
    {
      MovesStayInTheirRoom(run, op, id, after.rooms[id].gameId);
    }
  }

  // ----- the handlers but the one for moves -----

  lemma NothingStays(s: LobbyState)
    ensures StaysOrStarts(s, s)
  {
  }

  lemma DoneStays(s: Server, t: Server, op: LobbyRuns.Op)
    requires RunInv(s.run) && LobbyRuns.Legal(op) && !op.DoMove? && IsDone(s.run, t.run, op)
    ensures StaysOrStarts(s.run.lobby, t.run.lobby)
  {
    hide RunInv, LobbyRuns.Do, LobbyRuns.Legal;
    OpStaysOrStarts(s.run, op);
  }

  lemma OtherPacketStays(s: Server, session: SessionId, p: Packet, now: Time)
    requires RunInv(s.run) && p.id != GAME_MOVE_REQ
    ensures StaysOrStarts(s.run.lobby, ProcessPacket(s, session, p, now).run.lobby)
  {
    hide RunInv, StaysOrStarts, ProcessPacket, IsDone, GetMoveRequest, GetResignRequest, DecodedReady, DecodedRoomId, DecodedTitle;
    NothingStays(s.run.lobby);
    PacketIsDone(s, session, p, now);
    var op := CallOf(session, p, now);
    if op.Some? {
      if op.value.DoLogin? { LoginStays(s, op.value); } else { DoneStays(s, ProcessPacket(s, session, p, now), op.value); }
    }
  }

  lemma DisconnectedStays(s: Server, session: SessionId, now: Time)
    requires RunInv(s.run)
    ensures StaysOrStarts(s.run.lobby, HandleDisconnected(s, session, now).run.lobby)
  {
    hide RunInv, StaysOrStarts, HandleDisconnected, IsDone;
    DisconnectedIsDone(s, session, now);
    DoneStays(s, HandleDisconnected(s, session, now), LobbyRuns.DoDisconnect(session, now));
  }

  lemma LoginStays(s: Server, op: LobbyRuns.Op)
    requires op.DoLogin?
    ensures forall t: Server :: IsDone(s.run, t.run, op) ==> StaysOrStarts(s.run.lobby, t.run.lobby)
  {
    hide Login;
  }

  lemma OtherPacketIsMute(s: Server, session: SessionId, p: Packet, now: Time)
    requires p.id != GAME_MOVE_REQ
    ensures Mute(s.net, ProcessPacket(s, session, p, now).net, GAME_MOVE_NTF)
  {
    hide Mute, HandleLogin, HandleChat, HandleRoomCreate, HandleRoomList, HandleRoomEnter, HandleRoomLeave,
      HandleRoomReady, HandleRoomStart, HandleGameMove, HandleGameResign, Disconnect, Respond;
    DisconnectIsMute(s.net, session, GAME_MOVE_NTF);
    LoginIsMute(s, session, p.body, GAME_MOVE_NTF);
    RespondIsMute(s.net, session, ECHO_RES, p.body, GAME_MOVE_NTF);
    ChatIsMute(s, session, p.body, GAME_MOVE_NTF);
    ListIsMute(s, session, p.body, GAME_MOVE_NTF);
    CreateIsMute(s, session, p.body, GAME_MOVE_NTF);
    EnterIsMute(s, session, p.body, GAME_MOVE_NTF);
    LeaveIsMute(s, session, p.body, now, GAME_MOVE_NTF);
    ReadyIsMute(s, session, p.body, GAME_MOVE_NTF);
    StartIsMute(s, session, p.body, now, GAME_MOVE_NTF);
    ResignIsMute(s, session, p.body, now, GAME_MOVE_NTF);
  }

  lemma SweepStays(s: Server, order: seq<RoomId>, now: Time)
    requires RunInv(s.run)
    ensures StaysOrStarts(s.run.lobby, SweepGames(s, order, now).run.lobby)
  {
    hide RunInv, FlushFinishedGames, UpdateTimeouts, StaysOrStarts;
    FlushKeepsRooms(WithLobby(s, UpdateTimeouts(s.run.lobby, order, now).0));
    DoneStays(s, SweepGames(s, order, now), LobbyRuns.DoSweep(order, now));
  }
}
