/** A room notification can overtake the result of the game it reports as over: exactly when
    it is caused by a ready request, or by an earlier result, of a room whose result waits. */
module Overtaking {
  import opened Protocol
  import opened Framing
  import opened NetRules
  import opened NetInvariant
  import opened OmokRules
  import opened RoomRules
  import opened UserRules
  import opened LobbyRules
  import opened LobbyInvariant
  import opened LobbyCalls
  import LobbyRuns
  import opened LobbyVerdicts
  import opened WireFormat
  import opened RoomPacketCodec
  import opened GamePacketCodec
  import opened ServerRules
  import opened ServerInvariant
  import opened ServerPartition
  import opened ServerRuns
  import opened ServerRefinement
  import opened Encodability
  import opened Outbox
  import opened Replica

  /** A result of the room has not been announced. */
  ghost predicate Pending(s: LobbyState, id: RoomId) {
    exists i :: 0 <= i < |s.finished| && s.finished[i].room == id
  }

  /** The room waits, and so does a result of it. */
  ghost predicate WaitsPending(s: LobbyState, id: RoomId) {
    id in s.rooms && s.rooms[id].phase == RoomPhase.Waiting && Pending(s, id)
  }

  /** The packet is a notification about the room in that phase. */
  predicate IsNotice(p: Packet, id: RoomId, phase: RoomPhase) {
    var told := DecodedRoomState(p.body);
    p.id == ROOM_STATE_NTF && told.Some? && told.value.roomId == id && told.value.phase == phase
  }

  /** Among the room notifications queued for c between s and t, the i-th of all tells that the
      room waits whose result has not been announced in t. */
  ghost predicate Overtakes(s: Server, t: Server, c: SessionId, i: nat, id: RoomId) {
    && |SentTo(s.net, c, ROOM_STATE_NTF)| <= i < |SentTo(t.net, c, ROOM_STATE_NTF)|
    && IsNotice(SentTo(t.net, c, ROOM_STATE_NTF)[i], id, RoomPhase.Waiting) && Pending(t.run.lobby, id)
  }

  /** No notification for c between s and t overtakes a result. */
  ghost predicate InTime(s: Server, t: Server, c: SessionId) {
    forall i, id: RoomId :: !Overtakes(s, t, c, i, id)
  }

  // ----- players stay until their result is announced -----

  /** The members of the room are still the players the result is for. */
  predicate IsForMembers(rooms: map<RoomId, RoomState>, f: FinishedGame) {
    f.room in rooms && rooms[f.room].members == f.targets
  }

  ghost predicate PlayersStay(s: LobbyState) {
    forall i :: 0 <= i < |s.finished| ==> IsForMembers(s.rooms, s.finished[i])
  }

  /** The room had two members all along, or nothing waits for it. */
  lemma PendingRoomIsFull(run: Run, id: RoomId)
    requires RunInv(run) && PlayersStay(run.lobby) && Pending(run.lobby, id)
    ensures id in run.lobby.rooms && |run.lobby.rooms[id].members| == ROOM_PLAYER_COUNT
  {
    hide LobbyInv, ClocksInv;
    var i :| 0 <= i < |run.lobby.finished| && run.lobby.finished[i].room == id;
    assert History(run)[|run.popped| + i] == run.lobby.finished[i];
    assert SoundRecord(run.lobby.finished[i]);
  }

  /** The room's members do not change, and a record that is added is for them. */
  lemma SameMembersKeepPlayers(s: LobbyState, t: LobbyState, id: RoomId, more: seq<FinishedGame>)
    requires PlayersStay(s) && id in s.rooms && id in t.rooms && t.rooms == s.rooms[id := t.rooms[id]]
    requires t.rooms[id].members == s.rooms[id].members && t.finished == s.finished + more
    requires forall i :: 0 <= i < |more| ==> more[i].room == id && more[i].targets == s.rooms[id].members
    ensures PlayersStay(t)
  {
    forall i | 0 <= i < |t.finished| ensures IsForMembers(t.rooms, t.finished[i]) {
      if i < |s.finished| { assert IsForMembers(s.rooms, s.finished[i]); } else { assert t.finished[i] == more[i - |s.finished|]; }
    }
  }

  lemma StartKeepsMembers(s: LobbyState, session: SessionId, now: Time)
    ensures var (t, result) := LobbyRules.StartGame(s, session, now);
            && t.finished == s.finished
            && (if result != RoomResult.Success then t == s
                else
                  && session in s.users.bySession
                  && var id := s.users.bySession[session].roomId;
                  id in s.rooms && id in t.rooms && t.rooms == s.rooms[id := t.rooms[id]] && t.rooms[id].members == s.rooms[id].members)
  {
  }

  lemma StartKeepsPlayers(s: LobbyState, session: SessionId, now: Time)
    requires PlayersStay(s)
    ensures PlayersStay(LobbyRules.StartGame(s, session, now).0)
  {
    hide PlayersStay, LobbyRules.StartGame;
    StartKeepsMembers(s, session, now);
    var (t, result) := LobbyRules.StartGame(s, session, now);
    assert s.finished + [] == s.finished;
    if result == RoomResult.Success { SameMembersKeepPlayers(s, t, s.users.bySession[session].roomId, []); }
  }

  lemma ReadyKeepsPlayers(run: Run, session: SessionId, ready: bool)
    requires RunInv(run) && PlayersStay(run.lobby)
    ensures PlayersStay(LobbyRules.SetReady(run.lobby, session, ready).0)
  {
    hide RunInv, PlayersStay, LobbyRules.SetReady;
    SetReadyKeepsRunInv(run, session, ready);
    var (t, result) := LobbyRules.SetReady(run.lobby, session, ready);
    assert t.finished == run.lobby.finished + [];
    if result == RoomResult.Success { SameMembersKeepPlayers(run.lobby, t, run.lobby.users.bySession[session].roomId, []); }
  }

  /** A room that is entered has a free seat, so no result waits for it. */
  lemma EnteredRoomIsNotPending(run: Run, session: SessionId, id: RoomId)
    requires RunInv(run) && PlayersStay(run.lobby) && EnterRoom(run.lobby, session, id).1 == RoomResult.Success
    ensures !Pending(run.lobby, id)
  {
    hide RunInv, EnterRoom, PlayersStay, Pending;
    EnterVerdict(run, session, id);
    if Pending(run.lobby, id) { PendingRoomIsFull(run, id); }
  }

  lemma EnterKeepsResults(s: LobbyState, session: SessionId, id: RoomId)
    ensures EnterRoom(s, session, id).0.finished == s.finished
  {
  }

  lemma EnterKeepsPlayers(run: Run, session: SessionId, id: RoomId)
    requires RunInv(run) && PlayersStay(run.lobby)
    ensures PlayersStay(EnterRoom(run.lobby, session, id).0)
  {
    hide RunInv, EnterRoom;
    EnterRoomKeepsRunInv(run, session, id);
    EnterKeepsResults(run.lobby, session, id);
    var (t, result) := EnterRoom(run.lobby, session, id);
    if result == RoomResult.Success {
      EnteredRoomIsNotPending(run, session, id);
      forall i | 0 <= i < |t.finished| ensures IsForMembers(t.rooms, t.finished[i]) {
        assert IsForMembers(run.lobby.rooms, run.lobby.finished[i]);
      }
    }
  }

  lemma CreateKeepsPlayers(run: Run, session: SessionId, title: Bytes)
    requires RunInv(run) && PlayersStay(run.lobby)
    ensures PlayersStay(CreateRoom(run.lobby, session, title).0)
  {
    hide RunInv, CreateRoom;
    CreateRoomKeepsRunInv(run, session, title);
    LobbyRuns.CreateRoomKeepsResults(run.lobby, session, title);
    var t := CreateRoom(run.lobby, session, title).0;
    forall i | 0 <= i < |t.finished| ensures IsForMembers(t.rooms, t.finished[i]) {
      assert IsForMembers(run.lobby.rooms, run.lobby.finished[i]);
    }
  }

  lemma MoveKeepsPlayers(run: Run, session: SessionId, id: RoomId, gameId: GameId, x: int, y: int, now: Time)
    requires RunInv(run) && PlayersStay(run.lobby)
    ensures PlayersStay(LobbyRules.PlaceStone(run.lobby, session, id, gameId, x, y, now).0)
  {
    hide RunInv, LobbyInv, PlayersStay, LobbyRules.PlaceStone, Moved, RefusedGameRequest, EndOfMove, TurnIsOver;
    PlaceStoneKeepsRunInv(run, session, id, gameId, x, y, now);
    RunHasLobbyInv(run);
    NotRefused(run.lobby, session, id, gameId);
    var (t, o, m) := LobbyRules.PlaceStone(run.lobby, session, id, gameId, x, y, now);
    if o.value == GameMoveResult.Success {
      MovedKeepsMembers(run.lobby, t, session, id, x, y, now, m.value);
      NamedById(run, id);
      SameMembersKeepPlayers(run.lobby, t, id, EndOfMove(run.lobby.rooms[id], m.value));
    } else if RefusedGameRequest(run.lobby, session, id, gameId) == None && TurnIsOver(run.lobby.rooms[id], now) {
      NamedById(run, id);
      SameMembersKeepPlayers(run.lobby, t, id, [TimeoutRecord(run.lobby.rooms[id])]);
    }
  }

  lemma MovedKeepsMembers(s: LobbyState, t: LobbyState, session: SessionId, id: RoomId, x: int, y: int, now: Time, m: AcceptedMove)
    requires Moved(s, t, session, id, x, y, now, m)
    ensures id in s.rooms && id in t.rooms && t.rooms == s.rooms[id := t.rooms[id]]
    ensures SameSeats(s.rooms[id], t.rooms[id]) && t.finished == s.finished + EndOfMove(s.rooms[id], m)
    ensures forall f :: f in EndOfMove(s.rooms[id], m) ==> f.room == s.rooms[id].id && f.targets == s.rooms[id].members
  {
    hide HasLine, Full;
  }

  lemma NamedById(run: Run, id: RoomId)
    requires RunInv(run) && id in run.lobby.rooms
    ensures run.lobby.rooms[id].id == id
  {
    hide LobbyInv, RoomInv;
    RoomsAreSound(run.lobby, id);
  }

  lemma ResignKeepsPlayers(run: Run, session: SessionId, id: RoomId, gameId: GameId, now: Time)
    requires RunInv(run) && PlayersStay(run.lobby)
    ensures PlayersStay(LobbyRules.Resign(run.lobby, session, id, gameId, now).0)
  {
    hide RunInv, PlayersStay, LobbyRules.Resign;
    ResignKeepsRunInv(run, session, id, gameId, now);
    RunHasLobbyInv(run);
    NotRefused(run.lobby, session, id, gameId);
    if RefusedGameRequest(run.lobby, session, id, gameId) == None {
      NamedById(run, id);
      SameMembersKeepPlayers(run.lobby, LobbyRules.Resign(run.lobby, session, id, gameId, now).0, id,
                             EndOfLeaver(run.lobby.rooms[id], session, GameEndReason.Resigned, now));
    }
  }

  // ----- what one room notification adds -----

  /** The packet with which the members of a room are told about it. */
  function NoticeOf(s: LobbyState, id: RoomId): Packet {
    Packet(ROOM_STATE_NTF,
           if id in s.rooms && SnapshotOf(s, s.rooms[id]).Some? then RoomStateBytes(SnapshotOf(s, s.rooms[id]).value) else [])
  }

  lemma NoticeIsSent(run: Run, id: RoomId)
    requires RunInv(run) && id in run.lobby.rooms
    ensures IsNotice(NoticeOf(run.lobby, id), id, run.lobby.rooms[id].phase)
  {
    hide RunInv, RoomStateBytes, DecodedRoomState, ValidRoomState, PlayersOf;
    SnapshotIsSent(run, id);
  }

  lemma StateNoticeAdds(s: Server, id: RoomId, c: SessionId)
    requires Sound(s) && id in s.run.lobby.rooms
    ensures var t, p := NotifyRoomState(s, id), NoticeOf(s.run.lobby, id);
            && t.run == s.run && t.net.lastSessionId == s.net.lastSessionId && Adds(s.net, t.net, c, p)
            && (c !in s.run.lobby.rooms[id].members ==> SentTo(t.net, c, ROOM_STATE_NTF) == SentTo(s.net, c, ROOM_STATE_NTF))
            && (c in s.run.lobby.rooms[id].members && IsConnected(t.net, c) ==>
                  SentTo(t.net, c, ROOM_STATE_NTF) == SentTo(s.net, c, ROOM_STATE_NTF) + [p])
  {
    hide NetInvBut, RunInv, Broadcast, RoomStateBytes, SnapshotOf, SentTo, IsConnected, ValidRoomState, DecodedRoomState;
    RoomStateGoesOut(s, id);
    MembersAreDistinct(s.run, id);
    BroadcastAdds(s.net, s.run.lobby.rooms[id].members, ROOM_STATE_NTF, NoticeOf(s.run.lobby, id).body, c);
  }

  lemma MembersAreDistinct(run: Run, id: RoomId)
    requires RunInv(run) && id in run.lobby.rooms
    ensures Distinct(run.lobby.rooms[id].members)
  {
    hide LobbyInv, GameInv;
    RoomsAreSound(run.lobby, id);
  }

  /** c is a member of the room and connected. */
  ghost predicate IsTold(t: Server, id: RoomId, c: SessionId) {
    id in t.run.lobby.rooms && c in t.run.lobby.rooms[id].members && IsConnected(t.net, c)
  }

  /** A room notification overtakes exactly when its room waits and its result does, too;
      then it does so for every member who is still connected. */
  lemma NoticeVerdict(s: Server, id: RoomId, c: SessionId)
    requires Sound(s) && id in s.run.lobby.rooms
    ensures var t := NotifyRoomState(s, id);
            && (forall i, other: RoomId :: Overtakes(s, t, c, i, other) ==> other == id && WaitsPending(s.run.lobby, id))
            && (IsTold(t, id, c) && WaitsPending(s.run.lobby, id) ==> exists i :: Overtakes(s, t, c, i, id))
  {
    hide NetInvBut, RunInv, NotifyRoomState, NoticeOf, DecodedRoomState, SentTo, IsConnected, Pending;
    StateNoticeAdds(s, id, c);
    NoticeIsSent(s.run, id);
    var t := NotifyRoomState(s, id);
    if IsTold(t, id, c) && WaitsPending(s.run.lobby, id) {
      assert Overtakes(s, t, c, |SentTo(s.net, c, ROOM_STATE_NTF)|, id);
    }
  }

  /** What went before queued no room notification for c. */
  lemma AfterMute(s: Server, u: Server, t: Server, c: SessionId)
    requires Mute(s.net, u.net, ROOM_STATE_NTF) && c <= s.net.lastSessionId
    ensures forall i, id: RoomId :: Overtakes(s, t, c, i, id) <==> Overtakes(u, t, c, i, id)
  {
    hide SentTo, IsNotice, Pending;
  }

  lemma MuteIsInTime(s: Server, t: Server, c: SessionId)
    requires Mute(s.net, t.net, ROOM_STATE_NTF) && c <= s.net.lastSessionId
    ensures InTime(s, t, c)
  {
    hide SentTo, IsNotice, Pending;
  }

  lemma FlushedIsInTime(s: Server, t: Server, c: SessionId)
    requires t.run.lobby.finished == []
    ensures InTime(s, t, c)
  {
    hide SentTo, IsNotice;
  }

  // ----- inside a flush -----

  /** Announcing a result overtakes exactly when a later result of the same waiting room is
      still in the queue behind it. */
  lemma FlushVerdict(s: Server, c: SessionId)
    requires Sound(s) && s.run.lobby.finished != [] && c <= s.net.lastSessionId
    ensures var f := s.run.lobby.finished[0];
            var u, t := Popped(s), Announce(Popped(s), f);
            && (forall i, id: RoomId :: Overtakes(u, t, c, i, id) ==> id == f.room && WaitsPending(u.run.lobby, f.room))
            && (IsTold(t, f.room, c) && WaitsPending(u.run.lobby, f.room) ==> exists i :: Overtakes(u, t, c, i, f.room))
  {
    hide NetInvBut, RunInv, NotifyRoomState, Broadcast, GameEndBytes, EndNotificationOf, SentTo, IsNotice, Pending, IsConnected,
      Mute, Overtakes, Announce, Quiet;
    var f, u := s.run.lobby.finished[0], Popped(s);
    PopKeepsRunInv(s.run);
    EndGoesOut(s);
    var body := GameEndBytes(EndNotificationOf(f));
    var v := u.(net := Broadcast(u.net, f.targets, GAME_END_NTF, body));
    BroadcastIsMute(u.net, f.targets, GAME_END_NTF, body, ROOM_STATE_NTF);
    BroadcastIsQuiet(u.net, f.targets, GAME_END_NTF, body);
    var t := Announce(u, f);
    AfterMute(u, v, t, c);
    AnnounceKeepsLobby(u, f);
    if f.room in u.run.lobby.rooms {
      NoticeVerdict(v, f.room, c);
    } else {
      NoRoomNoNotice(v, f.room);
      MuteIsInTime(u, v, c);
    }
  }

  lemma NoRoomNoNotice(s: Server, id: RoomId)
    requires id !in s.run.lobby.rooms
    ensures NotifyRoomState(s, id) == s
  {
  }

  // ----- the handlers -----

  /** The state in which a handler notifies: the lobby has changed and the answer is queued. */
  function Acted(s: Server, run: Run, session: SessionId, id: nat, result: RoomResult, roomId: RoomId): Server
    requires id <= UINT16_MAX
  {
    s.(run := run, net := RespondRoomAction(s.net, session, id, result, roomId))
  }

  lemma ActedIsSound(s: Server, run: Run, session: SessionId, id: nat, result: RoomResult, roomId: RoomId)
    requires Sound(s) && RunInv(run) && id <= UINT16_MAX && id != ROOM_STATE_NTF
    ensures Sound(Acted(s, run, session, id, result, roomId))
    ensures Mute(s.net, Acted(s, run, session, id, result, roomId).net, ROOM_STATE_NTF)
  {
    hide NetInvBut, RunInv, Respond, RoomActionBytes, Mute, Quiet;
    RespondIsQuiet(s.net, session, id, RoomActionBytes(ActionResponse(result, roomId)));
    ActionIsMute(s.net, session, id, result, roomId, ROOM_STATE_NTF);
  }

  lemma NotifiedInTime(s: Server, u: Server, id: RoomId, change: RoomMemberChange, nickname: Bytes, c: SessionId)
    requires Mute(s.net, u.net, ROOM_STATE_NTF) && c <= s.net.lastSessionId && Sound(u) && !WaitsPending(u.run.lobby, id)
    ensures InTime(s, NotifyRoomState(NotifyRoomMember(u, id, change, nickname), id), c)
  {
    hide Sound, Mute, Overtakes, NotifyRoomState, NotifyRoomMember, WaitsPending, Quiet;
    NotifyRoomMemberIsCalm(u, id, change, nickname);
    NotifyMemberIsMute(u, id, change, nickname, ROOM_STATE_NTF);
    var v := NotifyRoomMember(u, id, change, nickname);
    CalmIsSound(u, v);
    MuteTwice(s.net, u.net, v.net, ROOM_STATE_NTF);
    StateInTime(s, v, id, c);
  }

  lemma StateInTime(s: Server, u: Server, id: RoomId, c: SessionId)
    requires Mute(s.net, u.net, ROOM_STATE_NTF) && c <= s.net.lastSessionId && Sound(u) && !WaitsPending(u.run.lobby, id)
    ensures InTime(s, NotifyRoomState(u, id), c)
  {
    hide Sound, Mute, Overtakes, NotifyRoomState, WaitsPending;
    var t := NotifyRoomState(u, id);
    AfterMute(s, u, t, c);
    if id in u.run.lobby.rooms {
      NoticeVerdict(u, id, c);
    } else {
      NoRoomNoNotice(u, id);
      MuteIsInTime(s, t, c);
    }
  }

  lemma NewRoomIsNotPending(run: Run, session: SessionId, title: Bytes)
    requires RunInv(run) && PlayersStay(run.lobby)
    ensures var (t, o, id) := CreateRoom(run.lobby, session, title);
            o == Returned(RoomResult.Success) ==> !Pending(t, id)
  {
    hide RunInv, CreateRoom;
    CreateRoomKeepsRunInv(run, session, title);
    LobbyRuns.CreateRoomKeepsResults(run.lobby, session, title);
    var (t, o, id) := CreateRoom(run.lobby, session, title);
    if o == Returned(RoomResult.Success) {
      forall i | 0 <= i < |t.finished| ensures t.finished[i].room != id {
        assert IsForMembers(run.lobby.rooms, run.lobby.finished[i]);
      }
    }
  }

  lemma CreateIsInTime(s: Server, session: SessionId, body: Bytes, c: SessionId)
    requires Sound(s) && PlayersStay(s.run.lobby) && c <= s.net.lastSessionId
    ensures InTime(s, HandleRoomCreate(s, session, body), c) && PlayersStay(HandleRoomCreate(s, session, body).run.lobby)
  {
    hide NetInvBut, RunInv, CreateRoom, RespondRoomAction, Disconnect, NotifyRoomState, NotifyRoomMember, DecodedTitle,
      PlayersStay, Mute, Pending, Sound, InTime, Created;
    DisconnectIsMute(s.net, session, ROOM_STATE_NTF);
    var t := HandleRoomCreate(s, session, body);
    var title := DecodedTitle(body);
    SoundParts(s);
    if title == None {
      MuteIsInTime(s, t, c);
    } else {
      var (lobby, o, id) := CreateRoom(s.run.lobby, session, title.value);
      CreateRoomKeepsRunInv(s.run, session, title.value);
      CreateKeepsPlayers(s.run, session, title.value);
      NewRoomIsNotPending(s.run, session, title.value);
      var u := Acted(s, s.run.(lobby := lobby), session, ROOM_CREATE_RES, o.value, id);
      ActedIsSound(s, s.run.(lobby := lobby), session, ROOM_CREATE_RES, o.value, id);
      if o.value == RoomResult.Success && session in lobby.users.bySession {
        var nickname := lobby.users.bySession[session].nickname;
        NotifiedInTime(s, u, id, RoomMemberChange.Joined, nickname, c);
        NoticesKeepRun(u, id, RoomMemberChange.Joined, nickname);
      } else {
        MuteIsInTime(s, u, c);
      }
    }
  }

  lemma EnterIsInTime(s: Server, session: SessionId, body: Bytes, c: SessionId)
    requires Sound(s) && PlayersStay(s.run.lobby) && c <= s.net.lastSessionId
    ensures InTime(s, HandleRoomEnter(s, session, body), c) && PlayersStay(HandleRoomEnter(s, session, body).run.lobby)
  {
    hide NetInvBut, RunInv, EnterRoom, RespondRoomAction, Disconnect, NotifyRoomState, NotifyRoomMember, DecodedRoomId,
      PlayersStay, Mute, Sound, InTime, Entered;
    DisconnectIsMute(s.net, session, ROOM_STATE_NTF);
    var t := HandleRoomEnter(s, session, body);
    var roomId := DecodedRoomId(body);
    SoundParts(s);
    if roomId == None {
      MuteIsInTime(s, t, c);
    } else {
      var (lobby, result) := EnterRoom(s.run.lobby, session, roomId.value);
      EnterRoomKeepsRunInv(s.run, session, roomId.value);
      EnterKeepsPlayers(s.run, session, roomId.value);
      EnterKeepsResults(s.run.lobby, session, roomId.value);
      var u := Acted(s, s.run.(lobby := lobby), session, ROOM_ENTER_RES, result, roomId.value);
      ActedIsSound(s, s.run.(lobby := lobby), session, ROOM_ENTER_RES, result, roomId.value);
      if result == RoomResult.Success && session in lobby.users.bySession {
        EnteredRoomIsNotPending(s.run, session, roomId.value);
        var nickname := lobby.users.bySession[session].nickname;
        NotifiedInTime(s, u, roomId.value, RoomMemberChange.Joined, nickname, c);
        NoticesKeepRun(u, roomId.value, RoomMemberChange.Joined, nickname);
      } else {
        MuteIsInTime(s, u, c);
      }
    }
  }

  lemma StartIsInTime(s: Server, session: SessionId, body: Bytes, now: Time, c: SessionId)
    requires Sound(s) && PlayersStay(s.run.lobby) && c <= s.net.lastSessionId
    ensures InTime(s, HandleRoomStart(s, session, body, now), c) && PlayersStay(HandleRoomStart(s, session, body, now).run.lobby)
  {
    hide NetInvBut, RunInv, LobbyRules.StartGame, RespondRoomAction, Disconnect, NotifyRoomState, PlayersStay, Mute, Sound,
      InTime, Noted, Seated, Pending;
    DisconnectIsMute(s.net, session, ROOM_STATE_NTF);
    var t := HandleRoomStart(s, session, body, now);
    SoundParts(s);
    if body != [] {
      MuteIsInTime(s, t, c);
    } else {
      var (lobby, result) := LobbyRules.StartGame(s.run.lobby, session, now);
      StartGameKeepsRunInv(s.run, session, now);
      StartKeepsPlayers(s.run.lobby, session, now);
      var roomId := if result == RoomResult.Success then RoomOf(lobby, session) else INVALID_ROOM_ID;
      var run := s.run.(lobby := lobby, starts := Noted(s.run, session, now));
      var u := Acted(s, run, session, ROOM_START_RES, result, roomId);
      ActedIsSound(s, run, session, ROOM_START_RES, result, roomId);
      if result == RoomResult.Success {
        StateInTime(s, u, roomId, c);
        NoticesKeepRun(u, roomId, RoomMemberChange.Joined, []);
      } else {
        MuteIsInTime(s, u, c);
      }
    }
  }

  lemma LeaveIsInTime(s: Server, session: SessionId, body: Bytes, now: Time, c: SessionId)
    requires Sound(s) && PlayersStay(s.run.lobby) && c <= s.net.lastSessionId
    ensures InTime(s, HandleRoomLeave(s, session, body, now), c) && PlayersStay(HandleRoomLeave(s, session, body, now).run.lobby)
  {
    hide NetInvBut, RunInv, LeaveRoom, RespondRoomAction, Disconnect, FlushFinishedGames, NotifyRoomState, NotifyRoomMember,
      Mute, Sound, InTime, EndOfLeaver;
    DisconnectIsMute(s.net, session, ROOM_STATE_NTF);
    ActionIsMute(s.net, session, ROOM_LEAVE_RES, RoomResult.UserNotFound, INVALID_ROOM_ID, ROOM_STATE_NTF);
    var t := HandleRoomLeave(s, session, body, now);
    SoundParts(s);
    if body == [] && session in s.run.lobby.users.bySession {
      var user := s.run.lobby.users.bySession[session];
      LeaveRoomKeepsRunInv(s.run, session, GameEndReason.LeftRoom, now);
      var (left, o) := LeaveRoom(s.run.lobby, session, GameEndReason.LeftRoom, now);
      FlushKeepsRooms(WithLobby(s, left));
      var s1 := FlushFinishedGames(WithLobby(s, left));
      var s2 := s1.(net := RespondRoomAction(s1.net, session, ROOM_LEAVE_RES, o.value, user.roomId));
      NoticesKeepRun(s2, user.roomId, RoomMemberChange.Left, user.nickname);
      FlushedIsInTime(s, t, c);
    } else {
      MuteIsInTime(s, t, c);
    }
  }

  lemma DisconnectedIsInTime(s: Server, session: SessionId, now: Time, c: SessionId)
    requires RunInv(s.run) && PlayersStay(s.run.lobby) && c <= s.net.lastSessionId
    ensures InTime(s, HandleDisconnected(s, session, now), c) && PlayersStay(HandleDisconnected(s, session, now).run.lobby)
  {
    hide RunInv, LeaveRoom, FlushFinishedGames, NotifyRoomState, NotifyRoomMember, Remove, InTime, EndOfLeaver;
    var t := HandleDisconnected(s, session, now);
    if session in s.run.lobby.users.bySession {
      var user := s.run.lobby.users.bySession[session];
      LeaveRoomKeepsRunInv(s.run, session, GameEndReason.Disconnected, now);
      var left := LeaveRoom(s.run.lobby, session, GameEndReason.Disconnected, now).0;
      var s0 := WithLobby(s.(deadlines := s.deadlines - {session}), left.(users := Remove(left.users, session)));
      FlushKeepsRooms(s0);
      NoticesKeepRun(FlushFinishedGames(s0), user.roomId, RoomMemberChange.Disconnected, user.nickname);
      FlushedIsInTime(s, t, c);
    } else {
      MuteIsInTime(s, t, c);
    }
  }

  /** The ready request that overtakes: it succeeds, and a result of its room waits. */
  ghost predicate IsEarlyReady(s: Server, session: SessionId, body: Bytes, id: RoomId) {
    && DecodedReady(body).Some?
    && var (lobby, result) := LobbyRules.SetReady(s.run.lobby, session, DecodedReady(body).value);
    result == RoomResult.Success && RoomOf(lobby, session) == id && Pending(s.run.lobby, id)
  }

  /** A ready request overtakes exactly when it succeeds in a room whose result waits; then it
      does so for every member who is still connected. */
  lemma ReadyOvertakes(s: Server, session: SessionId, body: Bytes, c: SessionId)
    requires Sound(s) && PlayersStay(s.run.lobby) && c <= s.net.lastSessionId
    ensures var t := HandleRoomReady(s, session, body);
            && PlayersStay(t.run.lobby)
            && (forall i, id: RoomId :: Overtakes(s, t, c, i, id) ==> IsEarlyReady(s, session, body, id))
            && (forall id: RoomId :: IsEarlyReady(s, session, body, id) && IsTold(t, id, c) ==> exists i :: Overtakes(s, t, c, i, id))
  {
    hide NetInvBut, RunInv, LobbyRules.SetReady, RespondRoomAction, Disconnect, NotifyRoomState, PlayersStay, Mute, Sound,
      Pending, DecodedReady, Overtakes;
    DisconnectIsMute(s.net, session, ROOM_STATE_NTF);
    var t := HandleRoomReady(s, session, body);
    var ready := DecodedReady(body);
    SoundParts(s);
    if ready == None {
      MuteIsInTime(s, t, c);
    } else {
      var (lobby, result) := LobbyRules.SetReady(s.run.lobby, session, ready.value);
      SetReadyKeepsRunInv(s.run, session, ready.value);
      ReadyKeepsPlayers(s.run, session, ready.value);
      var roomId := if result == RoomResult.Success then RoomOf(lobby, session) else INVALID_ROOM_ID;
      var u := Acted(s, s.run.(lobby := lobby), session, ROOM_READY_RES, result, roomId);
      ActedIsSound(s, s.run.(lobby := lobby), session, ROOM_READY_RES, result, roomId);
      if result == RoomResult.Success {
        SamePending(s.run.lobby, lobby, roomId);
        AfterMute(s, u, t, c);
        NoticeVerdict(u, roomId, c);
        NoticesKeepRun(u, roomId, RoomMemberChange.Joined, []);
      } else {
        MuteIsInTime(s, u, c);
      }
    }
  }

  lemma SamePending(s: LobbyState, t: LobbyState, id: RoomId)
    requires s.finished == t.finished
    ensures Pending(s, id) <==> Pending(t, id)
  {
  }

  /** Requests that send no room notification. */
  predicate IsSilent(id: nat) {
    && id != ROOM_CREATE_REQ && id != ROOM_ENTER_REQ && id != ROOM_LEAVE_REQ && id != ROOM_READY_REQ && id != ROOM_START_REQ
  }

  lemma SilentIsMute(s: Server, session: SessionId, p: Packet, now: Time)
    requires IsSilent(p.id)
    ensures Mute(s.net, ProcessPacket(s, session, p, now).net, ROOM_STATE_NTF)
  {
    hide Mute, HandleLogin, HandleChat, HandleRoomCreate, HandleRoomList, HandleRoomEnter, HandleRoomLeave,
      HandleRoomReady, HandleRoomStart, HandleGameMove, HandleGameResign, Disconnect, Respond;
    DisconnectIsMute(s.net, session, ROOM_STATE_NTF);
    LoginIsMute(s, session, p.body, ROOM_STATE_NTF);
    RespondIsMute(s.net, session, ECHO_RES, p.body, ROOM_STATE_NTF);
    ChatIsMute(s, session, p.body, ROOM_STATE_NTF);
    ListIsMute(s, session, p.body, ROOM_STATE_NTF);
    MoveIsMute(s, session, p.body, now, ROOM_STATE_NTF);
    ResignIsMute(s, session, p.body, now, ROOM_STATE_NTF);
  }

  lemma LoginKeepsPlayers(s: Server, session: SessionId, body: Bytes)
    requires PlayersStay(s.run.lobby)
    ensures PlayersStay(HandleLogin(s, session, body).run.lobby)
  {
    hide Respond, Disconnect;
  }

  lemma MoveHandlerKeepsPlayers(s: Server, session: SessionId, body: Bytes, now: Time)
    requires RunInv(s.run) && PlayersStay(s.run.lobby)
    ensures PlayersStay(HandleGameMove(s, session, body, now).run.lobby)
    ensures PlayersStay(HandleGameResign(s, session, body, now).run.lobby)
  {
    hide RunInv, PlayersStay, LobbyRules.PlaceStone, LobbyRules.Resign, GetMoveRequest, GetResignRequest, Respond, Disconnect,
      Broadcast, DisconnectAll, NotificationOf, IsValidGameMove, GameMoveBytes;
    var q, r := Whole(GetMoveRequest(body)), Whole(GetResignRequest(body));
    if q.Some? { MoveKeepsPlayers(s.run, session, q.value.roomId, q.value.game, q.value.x, q.value.y, now); }
    if r.Some? { ResignKeepsPlayers(s.run, session, r.value.0, r.value.1, now); }
  }

  lemma SilentKeepsPlayers(s: Server, session: SessionId, p: Packet, now: Time)
    requires RunInv(s.run) && PlayersStay(s.run.lobby) && IsSilent(p.id)
    ensures PlayersStay(ProcessPacket(s, session, p, now).run.lobby)
  {
    hide RunInv, PlayersStay, HandleLogin, HandleEcho, HandleChat, HandleRoomCreate, HandleRoomList, HandleRoomEnter, HandleRoomLeave,
      HandleRoomReady, HandleRoomStart, HandleGameMove, HandleGameResign, Disconnect;
    LoginKeepsPlayers(s, session, p.body);
    SilentHandlersKeepRun(s, session, p.body);
    MoveHandlerKeepsPlayers(s, session, p.body, now);
  }

  lemma PacketOvertakes(s: Server, session: SessionId, p: Packet, now: Time, c: SessionId)
    requires Sound(s) && PlayersStay(s.run.lobby) && c <= s.net.lastSessionId
    ensures PlayersStay(ProcessPacket(s, session, p, now).run.lobby)
    ensures forall i, id: RoomId :: Overtakes(s, ProcessPacket(s, session, p, now), c, i, id) ==>
              p.id == ROOM_READY_REQ && IsEarlyReady(s, session, p.body, id)
  {
    hide Sound, PlayersStay, Mute, Overtakes, IsEarlyReady, HandleLogin, HandleEcho, HandleChat, HandleRoomCreate, HandleRoomList,
      HandleRoomEnter, HandleRoomLeave, HandleRoomReady, HandleRoomStart, HandleGameMove, HandleGameResign, Disconnect;
    if IsSilent(p.id) {
      hide ProcessPacket;
      SoundParts(s);
      SilentIsMute(s, session, p, now);
      SilentKeepsPlayers(s, session, p, now);
      MuteIsInTime(s, ProcessPacket(s, session, p, now), c);
    } else {
      CreateIsInTime(s, session, p.body, c);
      EnterIsInTime(s, session, p.body, c);
      LeaveIsInTime(s, session, p.body, now, c);
      ReadyOvertakes(s, session, p.body, c);
      StartIsInTime(s, session, p.body, now, c);
    }
  }

  // ----- one round of the loop, and every loop -----

  lemma PoppedOvertakes(s: Server, t: Server, c: SessionId)
    ensures var u := s.(net := TryPopEvent(s.net).0);
            forall i, id: RoomId :: Overtakes(u, t, c, i, id) <==> Overtakes(s, t, c, i, id)
  {
    hide IsNotice, Pending;
  }

  /** In one round of the loop a room notification overtakes a result only for a successful
      ready request, in the room whose result waits. */
  lemma RoundOvertakes(s: Server, check: Time, now: Time, c: SessionId)
    requires ServerInv(s) && PlayersStay(s.run.lobby) && c <= s.net.lastSessionId
    ensures PlayersStay(Round(s, check, now).run.lobby)
    ensures forall i, id: RoomId :: Overtakes(s, Round(s, check, now), c, i, id) ==>
              && s.net.events != [] && s.net.events[0].Arrived? && s.net.events[0].packet.id == ROOM_READY_REQ
              && IsEarlyReady(s, s.net.events[0].session, s.net.events[0].packet.body, id)
  {
    hide NetInvBut, RunInv, Partition, PlayersStay, Overtakes, IsEarlyReady, HandleDisconnected, ProcessPacket, Disconnect, Mute;
    var t := Round(s, check, now);
    if s.net.events == [] {
      SameIsInTime(s, c);
    } else {
      var e, u := s.net.events[0], s.(net := TryPopEvent(s.net).0);
      TryPopKeepsNetInv(s.net);
      PoppedOvertakes(s, t, c);
      SameIsInTime(u, c);
      match e
      case Connected(session, occurredAt) => SameIsInTime(t, c); SameNetInTime(u, t, c);
      case Disconnected(session) => DisconnectedIsInTime(u, session, now, c);
      case Arrived(session, packet) =>
        SameEarlyReady(s, u, session, packet.body);
        PacketOvertakes(u, session, packet, now, c);
        DisconnectIsMute(u.net, session, ROOM_STATE_NTF);
        MuteIsInTime(u, u.(deadlines := u.deadlines - {session}, net := Disconnect(u.net, session)), c);
    }
  }

  lemma SameIsInTime(s: Server, c: SessionId)
    ensures InTime(s, s, c)
  {
  }

  lemma SameNetInTime(s: Server, t: Server, c: SessionId)
    requires t.net == s.net
    ensures InTime(s, t, c)
  {
  }

  lemma SameEarlyReady(s: Server, u: Server, session: SessionId, body: Bytes)
    requires u.run == s.run
    ensures forall id: RoomId :: IsEarlyReady(s, session, body, id) <==> IsEarlyReady(u, session, body, id)
  {
  }

  /** Where Update's loop can be: after its first sweep and any rounds. */
  ghost function AtLoopHead(s: Server, order: seq<RoomId>, now: Time, readings: seq<Reading>): Server {
    Rounds(SweepGames(s, order, now), readings)
  }

  lemma {:induction false} RoundsKeepPlayers(s: Server, readings: seq<Reading>)
    requires ServerInv(s) && PlayersStay(s.run.lobby)
    ensures ServerInv(Rounds(s, readings)) && PlayersStay(Rounds(s, readings).run.lobby)
    decreases |readings|
  {
    hide ServerInv, PlayersStay, Round, Overtakes, IsEarlyReady;
    if readings != [] {
      var t := Round(s, readings[0].check, readings[0].now);
      RoundKeeps(s, readings[0].check, readings[0].now);
      RoundOvertakes(s, readings[0].check, readings[0].now, 0);
      RoundsKeepPlayers(t, readings[1..]);
    }
  }

  lemma SweepClearsResults(s: Server, order: seq<RoomId>, now: Time)
    ensures SweepGames(s, order, now).run.lobby.finished == []
  {
    hide UpdateTimeouts, FlushFinishedGames;
    FlushKeepsRooms(WithLobby(s, UpdateTimeouts(s.run.lobby, order, now).0));
  }

  /** In every round of every Update of every run: the only step after which a room notification
      has overtaken a result that still waits is a successful ready request in that room. */
  lemma OnlyReadyOvertakes(start: Server, steps: seq<Step>, order: seq<RoomId>, first: Time, readings: seq<Reading>,
                           check: Time, now: Time, c: SessionId, i: nat, id: RoomId)
    requires IsStart(start)
    requires var s := AtLoopHead(DoSteps(start, steps), order, first, readings);
             c <= s.net.lastSessionId && Overtakes(s, Round(s, check, now), c, i, id)
    ensures var s := AtLoopHead(DoSteps(start, steps), order, first, readings);
            && s.net.events != [] && s.net.events[0].Arrived? && s.net.events[0].packet.id == ROOM_READY_REQ
            && IsEarlyReady(s, s.net.events[0].session, s.net.events[0].packet.body, id)
  {
    hide ServerInv, Overtakes, IsEarlyReady, DoSteps, Round, Rounds, SweepGames, IsStart, AfterLoop, Users, IsConnected;
    EveryServerRun(start, steps, UpdateInput(order, first, k => Reading(0, 0), [], 0, [], 0, [], 0));
    var s0 := DoSteps(start, steps);
    SweepGamesKeeps(s0, order, first);
    SweepClearsResults(s0, order, first);
    RoundsKeepPlayers(SweepGames(s0, order, first), readings);
    RoundOvertakes(AtLoopHead(s0, order, first, readings), check, now, c);
  }

  // ----- it does happen -----

  /** The next event is a packet of an open session that is logged in: it is processed. */
  lemma UserPacketIsProcessed(s: Server, session: SessionId, p: Packet, check: Time, now: Time)
    requires ServerInv(s) && s.net.events != [] && s.net.events[0] == Arrived(session, p)
    requires session in Users(s) && IsConnected(s.net, session)
    ensures Round(s, check, now) == ProcessPacket(s.(net := TryPopEvent(s.net).0), session, p, now)
  {
    hide NetInvBut, RunInv, ConnectPending, DropPending, ProcessPacket, IsConnected;
    FirstEvent(s.net);
    PopPending(s.net, session);
  }

  /** The resignation of a guest: the game ends with a result that waits, all seats are kept. */
  lemma ResignedLobby(run: Run, guest: SessionId, id: RoomId, game: GameId, now: Time)
    requires RunInv(run) && MayAct(run.lobby, guest, id, game, now)
    ensures var (t, o) := LobbyRules.Resign(run.lobby, guest, id, game, now);
            && o.Returned? && t.users == run.lobby.users && IsIn(t, guest, id) && Pending(t, id)
            && t.rooms[id].phase == RoomPhase.Waiting && t.rooms[id].host == run.lobby.rooms[id].host
  {
    hide RunInv, LobbyInv, RoomInv, LobbyRules.Resign, RefusedGameRequest, TimeoutRecord, PlayerStone;
    RunHasLobbyInv(run);
    NamedById(run, id);
    ResignVerdict(run, guest, id, game, now);
    ResignKeepsRunInv(run, guest, id, game, now);
    MayActIsNotRefused(run, guest, id, game, now);
    var t := LobbyRules.Resign(run.lobby, guest, id, game, now).0;
    assert t.finished[|run.lobby.finished|].room == id;
  }

  lemma MayActIsNotRefused(run: Run, guest: SessionId, id: RoomId, game: GameId, now: Time)
    requires RunInv(run) && MayAct(run.lobby, guest, id, game, now)
    ensures RefusedGameRequest(run.lobby, guest, id, game) == None
  {
    hide RunInv, LobbyInv, RoomInv, RefusedGameRequest, PlayerStone;
    RunHasLobbyInv(run);
    NotRefused(run.lobby, guest, id, game);
    UserIsInItsRoom(run.lobby, guest);
    RoomIdNotZero(run.lobby, id);
    RoomsAreSound(run.lobby, id);
    TurnOf(run.lobby.rooms[id], guest);
  }

  lemma ResignedRoom(s: Server, guest: SessionId, id: uint32, game: uint32, body: Bytes, now: Time)
    requires RunInv(s.run) && Whole(GetResignRequest(body)) == Some((id, game)) && MayAct(s.run.lobby, guest, id, game, now)
    ensures var t := HandleGameResign(s, guest, body, now).run.lobby;
            && t.users == s.run.lobby.users && IsIn(t, guest, id) && Pending(t, id)
            && t.rooms[id].phase == RoomPhase.Waiting && t.rooms[id].host == s.run.lobby.rooms[id].host
  {
    hide RunInv, LobbyRules.Resign, Respond, Disconnect, GetResignRequest, Pending;
    ResignedLobby(s.run, guest, id, game, now);
  }

  lemma GuestIsEarly(s: Server, guest: SessionId, id: RoomId, body: Bytes)
    requires RunInv(s.run) && IsIn(s.run.lobby, guest, id) && Pending(s.run.lobby, id) && DecodedReady(body).Some?
    requires s.run.lobby.rooms[id].phase == RoomPhase.Waiting && s.run.lobby.rooms[id].host != guest
    ensures IsEarlyReady(s, guest, body, id)
  {
    hide RunInv, LobbyRules.SetReady, DecodedReady, Pending;
    ReadyVerdict(s.run, guest, DecodedReady(body).value);
    SetReadyKeepsRunInv(s.run, guest, DecodedReady(body).value);
  }

  lemma PoppedIsMute(n: NetState, kind: nat)
    ensures Mute(n, TryPopEvent(n).0, kind)
  {
  }

  /** In any running game: when a guest resigns and at once asks to be ready, and both requests
      are handled in one Update, every member who is still connected is told that the room
      waits while the result of its game has been queued for nobody. */
  lemma ResignThenReady(s: Server, guest: SessionId, id: uint32, game: uint32, resign: Packet, ready: Packet,
                        check: Time, now: Time, nextCheck: Time, nextNow: Time, c: SessionId)
    requires ServerInv(s) && PlayersStay(s.run.lobby) && c <= s.net.lastSessionId
    requires |s.net.events| >= 2 && s.net.events[0] == Arrived(guest, resign) && s.net.events[1] == Arrived(guest, ready)
    requires resign.id == GAME_RESIGN_REQ && Whole(GetResignRequest(resign.body)) == Some((id, game))
    requires ready.id == ROOM_READY_REQ && DecodedReady(ready.body).Some?
    requires MayAct(s.run.lobby, guest, id, game, now) && s.run.lobby.rooms[id].host != guest
    requires IsConnected(s.net, guest) && IsConnected(Round(s, check, now).net, guest)
    ensures var s1 := Round(s, check, now);
            var s2 := Round(s1, nextCheck, nextNow);
            && (IsTold(s2, id, c) ==> exists i :: Overtakes(s1, s2, c, i, id))
            && Mute(s.net, s2.net, GAME_END_NTF)
  {
    hide NetInvBut, RunInv, Partition, PlayersStay, Overtakes, IsEarlyReady, HandleGameResign, HandleRoomReady, Mute, IsConnected,
      GetResignRequest, DecodedReady, Pending, Passes, TryPopEvent;
    var u, s1 := s.(net := TryPopEvent(s.net).0), Round(s, check, now);
    UserPacketIsProcessed(s, guest, resign, check, now);
    RoundKeeps(s, check, now);
    RoundOvertakes(s, check, now, c);
    ResignedRoom(u, guest, id, game, resign.body, now);
    ResignIsMute(u, guest, resign.body, now, GAME_END_NTF);
    PoppedIsMute(s.net, GAME_END_NTF);
    NextIsReady(s, check, now);
    var u1, s2 := s1.(net := TryPopEvent(s1.net).0), Round(s1, nextCheck, nextNow);
    UserPacketIsProcessed(s1, guest, ready, nextCheck, nextNow);
    GuestIsEarly(u1, guest, id, ready.body);
    TryPopKeepsNetInv(s1.net);
    PoppedOvertakes(s1, s2, c);
    LastIdStays(s, check, now);
    ReadyOvertakes(u1, guest, ready.body, c);
    ReadyIsMute(u1, guest, ready.body, GAME_END_NTF);
    PoppedIsMute(s1.net, GAME_END_NTF);
    MuteTwice(s.net, u.net, s1.net, GAME_END_NTF);
    MuteTwice(s.net, s1.net, u1.net, GAME_END_NTF);
    MuteTwice(s.net, u1.net, s2.net, GAME_END_NTF);
  }

  lemma NextIsReady(s: Server, check: Time, now: Time)
    requires ServerInv(s) && |s.net.events| >= 2 && s.net.events[0].Arrived?
    ensures Round(s, check, now).net.events != [] && Round(s, check, now).net.events[0] == s.net.events[1]
  {
    hide Sound, Partition, HandleEvent, ConnectPending, DropPending, IsConnected;
    ArrivedKeeps(s, check, now);
    var u := TryPopEvent(s.net).0;
    assert u.events[0] == s.net.events[1];
  }

  lemma LastIdStays(s: Server, check: Time, now: Time)
    requires ServerInv(s) && s.net.events != [] && s.net.events[0].Arrived?
    ensures Round(s, check, now).net.lastSessionId == s.net.lastSessionId
    ensures TryPopEvent(Round(s, check, now).net).0.lastSessionId == s.net.lastSessionId
  {
    hide Sound, Partition, HandleEvent, Passes;
    ArrivedKeeps(s, check, now);
  }
}
