/** What the members of a room are told: the last room notification queued for each is the room
    as it is, and every result is told to its players, once and in order. */
module Notices {
  import opened Protocol
  import opened Framing
  import opened NetRules
  import opened NetInvariant
  import opened RoomRules
  import opened UserRules
  import opened LobbyRules
  import opened LobbyInvariant
  import opened LobbyCalls
  import opened LobbyRuns
  import opened WireFormat
  import opened RoomPacketCodec
  import opened GamePacketCodec
  import opened ServerRules
  import opened ServerInvariant
  import opened ServerPartition
  import opened ServerRuns
  import opened ServerRefinement
  import opened Encodability
  import opened Outbox
  import ServerReplica
  import opened Overtaking
  import opened RoomChanges
  import opened Transcripts

  // ----- the server -----

  /** The last room notification queued for c is the room as it is. */
  ghost predicate IsInformed(s: Server, id: RoomId, c: SessionId) {
    var told := SentTo(s.net, c, ROOM_STATE_NTF);
    told != [] && told[|told| - 1] == NoticeOf(s.run.lobby, id)
  }

  /** The connected members of every room without a result that waits, those in xs aside, know it. */
  ghost predicate InformedBut(s: Server, xs: set<RoomId>) {
    forall id: RoomId, c: SessionId :: id !in xs && !Pending(s.run.lobby, id) && IsTold(s, id, c) ==> IsInformed(s, id, c)
  }

  /** The packet that announces a result. */
  function EndPacket(f: FinishedGame): Packet {
    Packet(GAME_END_NTF, GameEndBytes(EndNotificationOf(f)))
  }

  /** The announcements of the records that are for c, in order. */
  function EndsFor(records: seq<FinishedGame>, c: SessionId): seq<Packet> {
    if records == [] then []
    else
      var front, last := EndsFor(records[..|records| - 1], c), records[|records| - 1];
      if c in last.targets then front + [EndPacket(last)] else front
  }

  predicate AreOld(targets: seq<SessionId>, last: SessionId) {
    forall i :: 0 <= i < |targets| ==> targets[i] <= last
  }

  /** Every connected session has been told exactly the results that are for it, once each and in
      order; and results are for sessions that have been given out. */
  ghost predicate ResultsTold(s: Server) {
    && (forall c: SessionId :: IsConnected(s.net, c) ==> SentTo(s.net, c, GAME_END_NTF) == EndsFor(s.run.popped, c))
    && (forall i :: 0 <= i < |History(s.run)| ==> AreOld(History(s.run)[i].targets, s.net.lastSessionId))
  }

  ghost predicate NoticedBut(s: Server, xs: set<RoomId>) {
    Sound(s) && InformedBut(s, xs) && ResultsTold(s)
  }

  lemma OneMoreEnd(records: seq<FinishedGame>, f: FinishedGame, c: SessionId)
    ensures EndsFor(records + [f], c) == if c in f.targets then EndsFor(records, c) + [EndPacket(f)] else EndsFor(records, c)
  {
    assert (records + [f])[..|records|] == records;
  }

  // ----- steps of the network -----

  /** Nothing is queued of either kind, and nobody is connected who was not. */
  lemma QuietStepNotices(s: Server, m: NetState, xs: set<RoomId>)
    requires NoticedBut(s, xs) && NetInv(m) && Quiet(s.net, m)
    requires Mute(s.net, m, ROOM_STATE_NTF) && Mute(s.net, m, GAME_END_NTF)
    ensures NoticedBut(s.(net := m), xs)
  {
    hide NetInvBut, RunInv, SentTo, Pending, NoticeOf, IsConnected, ConnectPending, DropPending;
    var t := s.(net := m);
    NetInvHasIds(m);
    forall c: SessionId | IsConnected(m, c) ensures IsConnected(s.net, c) && c <= s.net.lastSessionId {
      ConnectedIsOld(m, c);
    }
    forall id: RoomId, c: SessionId | id !in xs && !Pending(t.run.lobby, id) && IsTold(t, id, c) ensures IsInformed(t, id, c) {
      assert IsTold(s, id, c);
      assert IsInformed(s, id, c);
    }
  }

  lemma MoreBut(s: Server, xs: set<RoomId>, ys: set<RoomId>)
    requires NoticedBut(s, xs) && xs <= ys
    ensures NoticedBut(s, ys)
  {
    hide Sound, ResultsTold, Pending, IsTold, IsInformed;
  }

  lemma RespondNotices(s: Server, session: SessionId, id: nat, body: Bytes, xs: set<RoomId>)
    requires NoticedBut(s, xs) && id <= UINT16_MAX && id != ROOM_STATE_NTF && id != GAME_END_NTF
    ensures NoticedBut(s.(net := Respond(s.net, session, id, body)), xs)
  {
    hide NetInvBut, RunInv, InformedBut, ResultsTold, Respond, Mute, Quiet;
    RespondIsQuiet(s.net, session, id, body);
    RespondIsMute(s.net, session, id, body, ROOM_STATE_NTF);
    RespondIsMute(s.net, session, id, body, GAME_END_NTF);
    QuietStepNotices(s, Respond(s.net, session, id, body), xs);
  }

  lemma DisconnectNotices(s: Server, session: SessionId, xs: set<RoomId>)
    requires NoticedBut(s, xs)
    ensures NoticedBut(s.(net := Disconnect(s.net, session)), xs)
  {
    hide NetInvBut, RunInv, InformedBut, ResultsTold, Disconnect, Mute, Quiet;
    DisconnectIsQuiet(s.net, session);
    DisconnectIsMute(s.net, session, ROOM_STATE_NTF);
    DisconnectIsMute(s.net, session, GAME_END_NTF);
    QuietStepNotices(s, Disconnect(s.net, session), xs);
  }

  lemma BroadcastNotices(s: Server, targets: seq<SessionId>, id: nat, body: Bytes, xs: set<RoomId>)
    requires NoticedBut(s, xs) && id <= UINT16_MAX && id != ROOM_STATE_NTF && id != GAME_END_NTF
    ensures NoticedBut(s.(net := Broadcast(s.net, targets, id, body)), xs)
  {
    hide NetInvBut, RunInv, InformedBut, ResultsTold, Broadcast, Mute, Quiet;
    BroadcastIsQuiet(s.net, targets, id, body);
    BroadcastIsMute(s.net, targets, id, body, ROOM_STATE_NTF);
    BroadcastIsMute(s.net, targets, id, body, GAME_END_NTF);
    QuietStepNotices(s, Broadcast(s.net, targets, id, body), xs);
  }

  lemma MemberNotices(s: Server, id: RoomId, change: RoomMemberChange, nickname: Bytes, xs: set<RoomId>)
    requires NoticedBut(s, xs)
    ensures NoticedBut(NotifyRoomMember(s, id, change, nickname), xs)
  {
    hide NetInvBut, RunInv, InformedBut, ResultsTold, Broadcast, RoomMemberBytes, ValidRoomMember;
    if id in s.run.lobby.rooms {
      BroadcastNotices(s, s.run.lobby.rooms[id].members, ROOM_MEMBER_NTF,
                       RoomMemberBytes(RoomMemberNotification(ToU32(id), change, nickname)), xs);
    }
  }

  /** A room notification informs the members of its room and leaves the others as informed as
      they were. */
  lemma StateNotices(s: Server, id: RoomId, xs: set<RoomId>)
    requires NoticedBut(s, xs)
    ensures NoticedBut(NotifyRoomState(s, id), xs - {id})
  {
    hide NetInvBut, RunInv, SentTo, Pending, NoticeOf, IsConnected, ConnectPending, DropPending, NotifyRoomState, Mute, IsTold, IsInformed,
      ResultsTold;
    var t := NotifyRoomState(s, id);
    NotifyRoomStateIsCalm(s, id);
    if id in s.run.lobby.rooms {
      NotifyStateIsMute(s, id, GAME_END_NTF);
      MuteKeepsResults(s, t.net);
      forall x: RoomId, c: SessionId | x !in xs - {id} && !Pending(t.run.lobby, x) && IsTold(t, x, c) ensures IsInformed(t, x, c) {
        StillTold(s, t, x, c);
        StateNoticeAdds(s, id, c);
        NoticeInforms(s, t, id, x, c);
      }
    } else {
      NoRoomNoNotice(s, id);
      UntoldRoom(s, id, xs);
    }
  }

  lemma UntoldRoom(s: Server, id: RoomId, xs: set<RoomId>)
    requires InformedBut(s, xs) && id !in s.run.lobby.rooms
    ensures InformedBut(s, xs - {id})
  {
    hide Pending, IsInformed;
  }

  lemma StillTold(s: Server, t: Server, x: RoomId, c: SessionId)
    requires t.run == s.run && Quiet(s.net, t.net) && IsTold(t, x, c)
    ensures IsTold(s, x, c)
  {
    hide IsConnected, ConnectPending, DropPending;
  }

  lemma NoticeInforms(s: Server, t: Server, id: RoomId, x: RoomId, c: SessionId)
    requires RunInv(s.run) && t.run == s.run && IsTold(t, x, c) && (x != id ==> IsInformed(s, x, c)) && id in s.run.lobby.rooms
    requires c !in s.run.lobby.rooms[id].members ==> SentTo(t.net, c, ROOM_STATE_NTF) == SentTo(s.net, c, ROOM_STATE_NTF)
    requires c in s.run.lobby.rooms[id].members && IsConnected(t.net, c) ==>
               SentTo(t.net, c, ROOM_STATE_NTF) == SentTo(s.net, c, ROOM_STATE_NTF) + [NoticeOf(s.run.lobby, id)]
    ensures IsInformed(t, x, c)
  {
    hide RunInv, SentTo, NoticeOf, IsConnected;
    if x != id { ServerReplica.OneRoomEach(s.run, x, id, c); }
  }

  lemma MuteKeepsResults(s: Server, m: NetState)
    requires ResultsTold(s) && NetInv(m) && Quiet(s.net, m) && Mute(s.net, m, GAME_END_NTF)
    ensures ResultsTold(s.(net := m))
  {
    hide NetInvBut, SentTo, IsConnected, ConnectPending, DropPending;
    NetInvHasIds(m);
    forall c: SessionId | IsConnected(m, c) ensures IsConnected(s.net, c) && c <= s.net.lastSessionId {
      ConnectedIsOld(m, c);
    }
  }

  // ----- announcing results -----

  /** Taking a result out and announcing it to its players tells them one more. */
  lemma ResultIsTold(s: Server, xs: set<RoomId>)
    requires NoticedBut(s, xs) && s.run.lobby.finished != []
    ensures var f, u := s.run.lobby.finished[0], Popped(s);
            NoticedBut(u.(net := Broadcast(u.net, f.targets, GAME_END_NTF, GameEndBytes(EndNotificationOf(f)))), xs + {f.room})
  {
    hide NetInvBut, RunInv, SentTo, NoticeOf, IsConnected, ConnectPending, DropPending, Broadcast, Mute, GameEndBytes, EndNotificationOf,
      IsInformed, EndsFor, Passes;
    var f, u := s.run.lobby.finished[0], Popped(s);
    var body := GameEndBytes(EndNotificationOf(f));
    var t := u.(net := Broadcast(u.net, f.targets, GAME_END_NTF, body));
    PopKeepsRunInv(s.run);
    assert s.run.lobby.finished == [f] + u.run.lobby.finished;
    BroadcastIsQuiet(s.net, f.targets, GAME_END_NTF, body);
    BroadcastIsMute(s.net, f.targets, GAME_END_NTF, body, ROOM_STATE_NTF);
    TargetsOf(s.run, f);
    NetInvHasIds(t.net);
    forall c: SessionId | IsConnected(t.net, c) ensures SentTo(t.net, c, GAME_END_NTF) == EndsFor(t.run.popped, c) {
      BroadcastAdds(s.net, f.targets, GAME_END_NTF, body, c);
      OneMoreEnd(s.run.popped, f, c);
    }
    assert History(t.run) == History(s.run);
    LessPending(s.run.lobby, u.run.lobby, f);
    forall id: RoomId, c: SessionId | id !in xs + {f.room} && !Pending(t.run.lobby, id) && IsTold(t, id, c) ensures IsInformed(t, id, c) {
      ConnectedIsOld(t.net, c);
      StaysInformed(s, t, id, c);
    }
  }

  lemma LessPending(s: LobbyState, t: LobbyState, f: FinishedGame)
    requires s.finished == [f] + t.finished
    ensures forall id :: id != f.room && Pending(s, id) ==> Pending(t, id)
  {
    forall id | id != f.room && Pending(s, id) ensures Pending(t, id) {
      var i :| 0 <= i < |s.finished| && s.finished[i].room == id;
      assert t.finished[i - 1] == s.finished[i];
    }
  }

  /** Only what a notification shows counts, and what has been queued. */
  lemma StaysInformed(s: Server, t: Server, id: RoomId, c: SessionId)
    requires t.run.lobby == s.run.lobby.(finished := t.run.lobby.finished) && Quiet(s.net, t.net)
    requires Mute(s.net, t.net, ROOM_STATE_NTF) && IsTold(t, id, c) && c <= s.net.lastSessionId
    ensures IsTold(s, id, c) && (IsInformed(s, id, c) ==> IsInformed(t, id, c))
  {
    hide SentTo, IsConnected, ConnectPending, DropPending, RoomStateBytes, PlayersOf;
    SameSnapshot(s.run.lobby, t.run.lobby, id);
  }

  lemma AnnounceNotices(s: Server, xs: set<RoomId>)
    requires NoticedBut(s, xs) && s.run.lobby.finished != []
    ensures NoticedBut(Announce(Popped(s), s.run.lobby.finished[0]), xs)
  {
    hide NetInvBut, RunInv, InformedBut, ResultsTold, Broadcast, NotifyRoomState, GameEndBytes, EndNotificationOf, Announce, Popped;
    var f := s.run.lobby.finished[0];
    EndGoesOut(s);
    ResultIsTold(s, xs);
    PoppedNet(s);
    var t := Popped(s).(net := Broadcast(s.net, f.targets, GAME_END_NTF, GameEndBytes(EndNotificationOf(f))));
    StateNotices(t, f.room, xs + {f.room});
    assert xs + {f.room} - {f.room} <= xs;
    MoreBut(NotifyRoomState(t, f.room), xs + {f.room} - {f.room}, xs);
  }

  lemma {:induction false} FlushNotices(s: Server, xs: set<RoomId>)
    requires NoticedBut(s, xs)
    ensures NoticedBut(FlushFinishedGames(s), xs)
    decreases |s.run.lobby.finished|
  {
    hide NoticedBut, Announce, Popped;
    if s.run.lobby.finished != [] {
      var f := s.run.lobby.finished[0];
      AnnounceNotices(s, xs);
      PoppedNet(s);
      AnnounceKeepsLobby(Popped(s), f);
      FlushNotices(Announce(Popped(s), f), xs);
    }
  }

  // ----- the handlers -----

  /** Every member of a room is a session that has been given out. */
  ghost predicate MembersKnown(s: Server) {
    forall id :: id in s.run.lobby.rooms ==> AreOld(s.run.lobby.rooms[id].members, s.net.lastSessionId)
  }

  lemma AllMembersKnown(s: Server)
    requires ServerInv(s)
    ensures MembersKnown(s)
  {
    hide ServerInv;
    forall id | id in s.run.lobby.rooms ensures AreOld(s.run.lobby.rooms[id].members, s.net.lastSessionId) {
      forall i | 0 <= i < |s.run.lobby.rooms[id].members| ensures s.run.lobby.rooms[id].members[i] <= s.net.lastSessionId {
        ServerReplica.MembersAreKnown(s, id, s.run.lobby.rooms[id].members[i]);
      }
    }
  }

  lemma RecordsStayOld(s: Server, after: Run)
    requires MembersKnown(s) && after.popped == s.run.popped && s.run.lobby.finished <= after.lobby.finished
    requires AreForRooms(s.run.lobby.rooms, after.lobby.finished[|s.run.lobby.finished|..])
    requires forall i :: 0 <= i < |History(s.run)| ==> AreOld(History(s.run)[i].targets, s.net.lastSessionId)
    ensures forall i :: 0 <= i < |History(after)| ==> AreOld(History(after)[i].targets, s.net.lastSessionId)
  {
    forall i | 0 <= i < |History(after)| ensures AreOld(History(after)[i].targets, s.net.lastSessionId) {
      if i < |History(s.run)| {
        assert History(after)[i] == History(s.run)[i];
      } else {
        var k := i - |History(s.run)|;
        assert after.lobby.finished[|s.run.lobby.finished|..][k] == History(after)[i];
        assert IsForRoom(s.run.lobby.rooms, History(after)[i]);
      }
    }
  }

  /** After a call of the lobby only the members of the room it touches have to be told. */
  lemma CallNotices(s: Server, op: Op)
    requires NoticedBut(s, {}) && MembersKnown(s) && LobbyRuns.Legal(op) && !op.DoPop?
    ensures NoticedBut(s.(run := LobbyRuns.Do(s.run, op)), Touched(s.run, op))
  {
    hide NetInvBut, RunInv, LobbyRuns.Do, LobbyRuns.Broken, SentTo, Pending, NoticeOf, IsConnected, EndsFor, MembersKnown, AreForRooms,
      AreOld, Touched, LobbyRuns.Legal;
    var t := s.(run := LobbyRuns.Do(s.run, op));
    OneCall(s.run, op);
    CallTouches(s.run, op);
    NewRecords(s.run, op);
    RecordsStayOld(s, t.run);
    forall id: RoomId, c: SessionId | id !in Touched(s.run, op) && !Pending(t.run.lobby, id) && IsTold(t, id, c)
      ensures IsInformed(t, id, c)
    {
      assert IsTold(s, id, c);
      assert IsInformed(s, id, c);
    }
  }

  lemma SameNotes(s: Server, t: Server, xs: set<RoomId>)
    requires NoticedBut(s, xs) && t.net == s.net && t.run == s.run
    ensures NoticedBut(t, xs)
  {
    hide NetInvBut, RunInv, SentTo, Pending, NoticeOf, IsConnected, EndsFor, AreOld;
    forall id: RoomId, c: SessionId | IsTold(t, id, c) ensures IsTold(s, id, c) && (IsInformed(s, id, c) ==> IsInformed(t, id, c)) {
    }
  }

  /** Members are told that somebody came, left or is gone, and then how the room is now. */
  lemma BothNoticesInform(s: Server, id: RoomId, change: RoomMemberChange, nickname: Bytes)
    requires NoticedBut(s, {id})
    ensures NoticedBut(NotifyRoomState(NotifyRoomMember(s, id, change, nickname), id), {})
  {
    hide NoticedBut, NotifyRoomState, NotifyRoomMember;
    MemberNotices(s, id, change, nickname, {id});
    var u := NotifyRoomMember(s, id, change, nickname);
    StateNotices(u, id, {id});
    assert {id} - {id} == {};
  }

  lemma ChangedRoomNotices(s: Server, id: RoomId)
    requires NoticedBut(s, {id})
    ensures NoticedBut(NotifyRoomState(s, id), {})
  {
    hide NoticedBut, NotifyRoomState;
    StateNotices(s, id, {id});
    assert {id} - {id} == {};
  }

  lemma ActionNotices(s: Server, session: SessionId, id: nat, result: RoomResult, roomId: RoomId, xs: set<RoomId>)
    requires NoticedBut(s, xs) && id <= UINT16_MAX && id != ROOM_STATE_NTF && id != GAME_END_NTF
    ensures NoticedBut(s.(net := RespondRoomAction(s.net, session, id, result, roomId)), xs)
  {
    hide NoticedBut, Respond, RoomActionBytes;
    RespondNotices(s, session, id, RoomActionBytes(ActionResponse(result, roomId)), xs);
  }

  lemma CreateNotices(s: Server, session: SessionId, body: Bytes)
    requires NoticedBut(s, {}) && MembersKnown(s)
    ensures NoticedBut(HandleRoomCreate(s, session, body), {})
  {
    hide NoticedBut, MembersKnown, CreateRoom, RespondRoomAction, Disconnect, NotifyRoomState, NotifyRoomMember, DecodedTitle, RunInv,
      Created, SameEntry;
    var title := DecodedTitle(body);
    DisconnectNotices(s, session, {});
    if title.Some? {
      var (lobby, o, id) := CreateRoom(s.run.lobby, session, title.value);
      assert RunInv(s.run) by { NoticedIsSound(s); }
      CreateRoomKeepsRunInv(s.run, session, title.value);
      SeatingEntries(s.run.lobby, session, title.value, 0);
      CallNotices(s, DoCreate(session, title.value));
      if o.value == RoomResult.Success {
        ActionNotices(WithLobby(s, lobby), session, ROOM_CREATE_RES, o.value, id, {id});
        var u := WithLobby(s, lobby).(net := RespondRoomAction(s.net, session, ROOM_CREATE_RES, o.value, id));
        BothNoticesInform(u, id, RoomMemberChange.Joined, lobby.users.bySession[session].nickname);
      } else {
        ActionNotices(s, session, ROOM_CREATE_RES, o.value, id, {});
      }
    }
  }

  lemma NoticedIsSound(s: Server)
    requires NoticedBut(s, {})
    ensures NetInv(s.net) && RunInv(s.run) && Sound(s)
  {
    hide NetInvBut, RunInv, InformedBut, ResultsTold;
  }

  lemma EnterNotices(s: Server, session: SessionId, body: Bytes)
    requires NoticedBut(s, {}) && MembersKnown(s)
    ensures NoticedBut(HandleRoomEnter(s, session, body), {})
  {
    hide NoticedBut, MembersKnown, EnterRoom, RespondRoomAction, Disconnect, NotifyRoomState, NotifyRoomMember, DecodedRoomId, RunInv,
      Entered, SameEntry;
    var roomId := DecodedRoomId(body);
    DisconnectNotices(s, session, {});
    if roomId.Some? {
      var id := roomId.value;
      var (lobby, result) := EnterRoom(s.run.lobby, session, id);
      NoticedIsSound(s);
      EnterRoomKeepsRunInv(s.run, session, id);
      SeatingEntries(s.run.lobby, session, [], id);
      CallNotices(s, DoEnter(session, id));
      if result == RoomResult.Success {
        ActionNotices(WithLobby(s, lobby), session, ROOM_ENTER_RES, result, id, {id});
        var u := WithLobby(s, lobby).(net := RespondRoomAction(s.net, session, ROOM_ENTER_RES, result, id));
        BothNoticesInform(u, id, RoomMemberChange.Joined, lobby.users.bySession[session].nickname);
      } else {
        ActionNotices(s, session, ROOM_ENTER_RES, result, id, {});
      }
    }
  }

  lemma LeaveNotices(s: Server, session: SessionId, body: Bytes, now: Time)
    requires NoticedBut(s, {}) && MembersKnown(s)
    ensures NoticedBut(HandleRoomLeave(s, session, body, now), {})
  {
    hide NoticedBut, MembersKnown, LeaveRoom, RespondRoomAction, Disconnect, NotifyRoomState, NotifyRoomMember, FlushFinishedGames, RunInv,
      EndOfLeaver;
    DisconnectNotices(s, session, {});
    ActionNotices(s, session, ROOM_LEAVE_RES, RoomResult.UserNotFound, INVALID_ROOM_ID, {});
    if body == [] && session in s.run.lobby.users.bySession {
      var user := s.run.lobby.users.bySession[session];
      var (left, o) := LeaveRoom(s.run.lobby, session, GameEndReason.LeftRoom, now);
      NoticedIsSound(s);
      LeaveRoomKeepsRunInv(s.run, session, GameEndReason.LeftRoom, now);
      CallNotices(s, DoLeave(session, now));
      var xs := if o.value == RoomResult.Success then {user.roomId} else {};
      FlushNotices(WithLobby(s, left), xs);
      var s1 := FlushFinishedGames(WithLobby(s, left));
      ActionNotices(s1, session, ROOM_LEAVE_RES, o.value, user.roomId, xs);
      var s2 := s1.(net := RespondRoomAction(s1.net, session, ROOM_LEAVE_RES, o.value, user.roomId));
      if o.value == RoomResult.Success { BothNoticesInform(s2, user.roomId, RoomMemberChange.Left, user.nickname); }
    }
  }

  lemma DisconnectedNotices(s: Server, session: SessionId, now: Time)
    requires NoticedBut(s, {}) && MembersKnown(s)
    ensures NoticedBut(HandleDisconnected(s, session, now), {})
  {
    hide NoticedBut, MembersKnown, LeaveRoom, Remove, NotifyRoomState, NotifyRoomMember, FlushFinishedGames, RunInv, EndOfLeaver;
    var s0 := s.(deadlines := s.deadlines - {session});
    SameNotes(s, s0, {});
    if session in s.run.lobby.users.bySession {
      var user := s.run.lobby.users.bySession[session];
      var (left, o) := LeaveRoom(s.run.lobby, session, GameEndReason.Disconnected, now);
      NoticedIsSound(s);
      LeaveRoomKeepsRunInv(s.run, session, GameEndReason.Disconnected, now);
      CallNotices(s, DoDisconnect(session, now));
      var s1 := s.(run := LobbyRuns.Do(s.run, DoDisconnect(session, now)));
      var t1 := WithLobby(s0, left.(users := Remove(left.users, session)));
      SameNotes(s1, t1, {user.roomId});
      FlushNotices(t1, {user.roomId});
      var t2 := FlushFinishedGames(t1);
      if o.value == RoomResult.Success {
        BothNoticesInform(t2, user.roomId, RoomMemberChange.Disconnected, user.nickname);
      } else {
        LobbyIsNoRoom(s.run, session);
        NothingButRooms(t2, user.roomId);
      }
    }
  }

  lemma LobbyIsNoRoom(run: Run, session: SessionId)
    requires RunInv(run) && session in run.lobby.users.bySession
    ensures run.lobby.users.bySession[session].state != UserState.InRoom ==>
              run.lobby.users.bySession[session].roomId == INVALID_ROOM_ID
  {
    hide LobbyInv, Conserved, ClocksInv;
    UserIsInItsRoom(run.lobby, session);
  }

  lemma NothingButRooms(s: Server, x: RoomId)
    requires NoticedBut(s, {x}) && x == INVALID_ROOM_ID
    ensures NoticedBut(s, {})
  {
    hide NetInvBut, RunInv, ResultsTold, InformedBut;
    NoRoomZero(s.run);
    UntoldRoom(s, x, {x});
    assert {x} - {x} == {};
  }

  lemma ReadyNotices(s: Server, session: SessionId, body: Bytes)
    requires NoticedBut(s, {}) && MembersKnown(s)
    ensures NoticedBut(HandleRoomReady(s, session, body), {})
  {
    hide NoticedBut, MembersKnown, LobbyRules.SetReady, RespondRoomAction, Disconnect, NotifyRoomState, DecodedReady, RunInv, RoomOf,
      ReadySet;
    var ready := DecodedReady(body);
    DisconnectNotices(s, session, {});
    if ready.Some? {
      var (lobby, result) := LobbyRules.SetReady(s.run.lobby, session, ready.value);
      NoticedIsSound(s);
      SetReadyKeepsRunInv(s.run, session, ready.value);
      CallNotices(s, DoReady(session, ready.value));
      SameRoomOf(s.run.lobby, lobby, session);
      var id := RoomOf(s.run.lobby, session);
      if result == RoomResult.Success {
        ActionNotices(WithLobby(s, lobby), session, ROOM_READY_RES, result, id, {id});
        ChangedRoomNotices(WithLobby(s, lobby).(net := RespondRoomAction(s.net, session, ROOM_READY_RES, result, id)), id);
      } else {
        ActionNotices(s, session, ROOM_READY_RES, result, INVALID_ROOM_ID, {});
      }
    }
  }

  lemma SameRoomOf(s: LobbyState, t: LobbyState, session: SessionId)
    ensures s.users == t.users ==> RoomOf(t, session) == RoomOf(s, session)
  {
  }

  lemma StartNotices(s: Server, session: SessionId, body: Bytes, now: Time)
    requires NoticedBut(s, {}) && MembersKnown(s)
    ensures NoticedBut(HandleRoomStart(s, session, body, now), {})
  {
    hide NoticedBut, MembersKnown, LobbyRules.StartGame, RespondRoomAction, Disconnect, NotifyRoomState, RunInv, RoomOf, Seated, Noted;
    DisconnectNotices(s, session, {});
    if body == [] {
      var (lobby, result) := LobbyRules.StartGame(s.run.lobby, session, now);
      NoticedIsSound(s);
      StartGameKeepsRunInv(s.run, session, now);
      CallNotices(s, DoStart(session, now));
      SameRoomOf(s.run.lobby, lobby, session);
      var id := RoomOf(s.run.lobby, session);
      var u := s.(run := s.run.(lobby := lobby, starts := Noted(s.run, session, now)));
      if result == RoomResult.Success {
        ActionNotices(u, session, ROOM_START_RES, result, id, {id});
        ChangedRoomNotices(u.(net := RespondRoomAction(s.net, session, ROOM_START_RES, result, id)), id);
      } else {
        RefusedStarts(s.run, session, now);
        ActionNotices(s, session, ROOM_START_RES, result, INVALID_ROOM_ID, {});
      }
    }
  }

  lemma RefusedStarts(run: Run, session: SessionId, now: Time)
    requires LobbyRules.StartGame(run.lobby, session, now).1 != RoomResult.Success
    ensures Noted(run, session, now) == run.starts
  {
  }

  /** Requests that tell the members of a room nothing about the room or a result. */
  lemma SilentNotices(s: Server, session: SessionId, p: Packet, now: Time)
    requires NoticedBut(s, {}) && ServerInv(s) && IsConnected(s.net, session) && !ConnectPending(s.net, session) && IsSilent(p.id)
    ensures NoticedBut(ProcessPacket(s, session, p, now), {})
  {
    hide NetInvBut, RunInv, Partition, NoticedBut, MembersKnown, ProcessPacket, LobbyRuns.Do, LobbyRuns.Legal, CallOf, IsConnected,
      ConnectPending, Mute, Passes;
    var t := ProcessPacket(s, session, p, now);
    AllMembersKnown(s);
    PacketKeeps(s, session, p, now);
    SilentIsMute(s, session, p, now);
    SilentEndsNothing(s, session, p, now);
    PacketIsDone(s, session, p, now);
    CallsAreLegal(s.net, session, p, now);
    SilentCalls(s.run, session, p, now);
    var op := CallOf(session, p, now);
    var u := if op == None then s else s.(run := LobbyRuns.Do(s.run, op.value));
    if op.Some? { CallNotices(s, op.value); }
    QuietStepNotices(u, t.net, {});
    SameNotes(u.(net := t.net), t, {});
  }

  lemma SilentCalls(run: Run, session: SessionId, p: Packet, now: Time)
    requires IsSilent(p.id)
    ensures CallOf(session, p, now).Some? ==>
              var op := CallOf(session, p, now).value; !FlushesAfter(op) && !op.DoPop? && Touched(run, op) == {}
  {
    hide GetMoveRequest, GetResignRequest;
  }

  lemma SilentEndsNothing(s: Server, session: SessionId, p: Packet, now: Time)
    requires IsSilent(p.id)
    ensures Mute(s.net, ProcessPacket(s, session, p, now).net, GAME_END_NTF)
  {
    hide Mute, HandleLogin, HandleChat, HandleRoomCreate, HandleRoomList, HandleRoomEnter, HandleRoomLeave,
      HandleRoomReady, HandleRoomStart, HandleGameMove, HandleGameResign, Disconnect, Respond;
    DisconnectIsMute(s.net, session, GAME_END_NTF);
    LoginIsMute(s, session, p.body, GAME_END_NTF);
    RespondIsMute(s.net, session, ECHO_RES, p.body, GAME_END_NTF);
    ChatIsMute(s, session, p.body, GAME_END_NTF);
    ListIsMute(s, session, p.body, GAME_END_NTF);
    MoveIsMute(s, session, p.body, now, GAME_END_NTF);
    ResignIsMute(s, session, p.body, now, GAME_END_NTF);
  }

  lemma PacketNotices(s: Server, session: SessionId, p: Packet, now: Time)
    requires NoticedBut(s, {}) && ServerInv(s) && IsConnected(s.net, session) && !ConnectPending(s.net, session)
    ensures NoticedBut(ProcessPacket(s, session, p, now), {})
  {
    hide ServerInv, NoticedBut, MembersKnown, HandleLogin, HandleEcho, HandleChat, HandleRoomCreate, HandleRoomList, HandleRoomEnter,
      HandleRoomLeave, HandleRoomReady, HandleRoomStart, HandleGameMove, HandleGameResign, Disconnect, IsConnected, ConnectPending;
    if IsSilent(p.id) {
      hide ProcessPacket;
      SilentNotices(s, session, p, now);
    } else {
      AllMembersKnown(s);
      CreateNotices(s, session, p.body);
      EnterNotices(s, session, p.body);
      LeaveNotices(s, session, p.body, now);
      ReadyNotices(s, session, p.body);
      StartNotices(s, session, p.body, now);
    }
  }

  // ----- one round, one Update, any run -----

  lemma PoppedNotices(s: Server)
    requires NoticedBut(s, {}) && s.net.events != []
    ensures var t := s.(net := TryPopEvent(s.net).0); NoticedBut(t, {}) && (MembersKnown(s) ==> MembersKnown(t))
  {
    hide NetInvBut, RunInv, Pending, NoticeOf, EndsFor, AreOld;
    var t := s.(net := TryPopEvent(s.net).0);
    TryPopKeepsNetInv(s.net);
    forall c: SessionId, kind: nat ensures SentTo(t.net, c, kind) == SentTo(s.net, c, kind) { }
    forall c: SessionId ensures IsConnected(t.net, c) <==> IsConnected(s.net, c) { PoppedIsConnected(s.net, c); }
    forall id: RoomId, c: SessionId | IsTold(t, id, c) ensures IsTold(s, id, c) && (IsInformed(s, id, c) ==> IsInformed(t, id, c)) {
    }
  }

  lemma RoundNotices(s: Server, check: Time, now: Time)
    requires ServerInv(s) && NoticedBut(s, {})
    ensures NoticedBut(Round(s, check, now), {})
  {
    hide ServerInv, NoticedBut, MembersKnown, HandleDisconnected, ProcessPacket, Disconnect, TryPopEvent, IsConnected;
    RoundIsOneEvent(s, check, now);
    if s.net.events != [] {
      var t := s.(net := TryPopEvent(s.net).0);
      AllMembersKnown(s);
      PoppedNotices(s);
      match s.net.events[0]
      case Connected(session, occurredAt) => SameNotes(t, HandleConnected(t, session, occurredAt), {});
      case Disconnected(session) => DisconnectedNotices(t, session, now);
      case Arrived(session, packet) => ArrivedNotices(s, check, now);
    }
  }

  lemma RoundIsOneEvent(s: Server, check: Time, now: Time)
    ensures Round(s, check, now) ==
              if s.net.events == [] then s else HandleEvent(s.(net := TryPopEvent(s.net).0), s.net.events[0], check, now)
  {
    hide HandleEvent;
  }

  lemma ArrivedNotices(s: Server, check: Time, now: Time)
    requires ServerInv(s) && NoticedBut(s, {}) && s.net.events != [] && s.net.events[0].Arrived?
    ensures NoticedBut(HandleEvent(s.(net := TryPopEvent(s.net).0), s.net.events[0], check, now), {})
  {
    hide NetInvBut, RunInv, Partition, NoticedBut, Disconnect, ProcessPacket, TryPopEvent, IsConnected, ConnectPending;
    var e, t := s.net.events[0], s.(net := TryPopEvent(s.net).0);
    FirstEvent(s.net);
    TryPopKeepsNetInv(s.net);
    PopKeepsPartition(s.net, Users(s), s.deadlines.Keys);
    PoppedNotices(s);
    DisconnectNotices(t, e.session, {});
    var cut := t.(net := Disconnect(t.net, e.session));
    SameNotes(cut, cut.(deadlines := t.deadlines - {e.session}), {});
    if IsConnected(t.net, e.session) { PacketNotices(t, e.session, e.packet, now); }
  }

  lemma {:induction false} RoundsNotices(s: Server, readings: seq<Reading>)
    requires ServerInv(s) && NoticedBut(s, {})
    ensures NoticedBut(Rounds(s, readings), {})
    decreases |readings|
  {
    hide ServerInv, NoticedBut, Round;
    if readings != [] {
      RoundKeeps(s, readings[0].check, readings[0].now);
      RoundNotices(s, readings[0].check, readings[0].now);
      RoundsNotices(Round(s, readings[0].check, readings[0].now), readings[1..]);
    }
  }

  lemma SweepNotices(s: Server, order: seq<RoomId>, now: Time)
    requires ServerInv(s) && NoticedBut(s, {})
    ensures NoticedBut(SweepGames(s, order, now), {})
  {
    hide ServerInv, NoticedBut, MembersKnown, FlushFinishedGames, UpdateTimeouts;
    AllMembersKnown(s);
    CallNotices(s, DoSweep(order, now));
    var t := WithLobby(s, UpdateTimeouts(s.run.lobby, order, now).0);
    assert t == s.(run := LobbyRuns.Do(s.run, DoSweep(order, now)));
    FlushNotices(t, {});
  }

  lemma {:induction false} CheckNotices(s: Server, order: seq<SessionId>, now: Time)
    requires NoticedBut(s, {})
    ensures NoticedBut(CheckLoginTimeouts(s, order, now), {})
    decreases |order|
  {
    hide NoticedBut, Disconnect;
    if order != [] {
      if IsLoginExpired(s, order[0], now) {
        DisconnectNotices(s, order[0], {});
        var cut := s.(net := Disconnect(s.net, order[0]));
        SameNotes(cut, cut.(deadlines := s.deadlines - {order[0]}), {});
        CheckNotices(cut.(deadlines := s.deadlines - {order[0]}), order[1..], now);
      } else {
        CheckNotices(s, order[1..], now);
      }
    }
  }

  lemma UpdateNotices(s: Server, u: UpdateInput)
    requires ServerInv(s) && NoticedBut(s, {})
    ensures NoticedBut(Update(s, u), {}) && Update(s, u).run.lobby.finished == []
  {
    hide ServerInv, NoticedBut, SweepGames, Rounds, CheckLoginTimeouts, Passes;
    UpdateKeeps(s, u);
    SweepGamesKeeps(s, u.firstRooms, u.firstNow);
    SweepNotices(s, u.firstRooms, u.firstNow);
    var swept := SweepGames(s, u.firstRooms, u.firstNow);
    RoundsNotices(swept, Readings(u.readings, 0, Measure(swept.net)));
    CheckNotices(AfterLoop(s, u), u.firstLogins, u.firstCheck);
    CheckNotices(AfterFirstCheck(s, u), u.secondLogins, u.secondCheck);
    SweepNotices(AfterChecks(s, u), u.lastRooms, u.lastNow);
    SweepClearsResults(AfterChecks(s, u), u.lastRooms, u.lastNow);
  }

  lemma NewSessionsKnowNothing(records: seq<FinishedGame>, c: SessionId, last: SessionId)
    requires c > last && forall i :: 0 <= i < |records| ==> AreOld(records[i].targets, last)
    ensures EndsFor(records, c) == []
  {
    if records != [] {
      assert AreOld(records[|records| - 1].targets, last);
      NewSessionsKnowNothing(records[..|records| - 1], c, last);
    }
  }

  lemma PassNotices(s: Server, r: Readiness)
    requires ServerInv(s) && NoticedBut(s, {})
    ensures NoticedBut(s.(net := NetRules.Run(s.net, r)), {})
  {
    hide NetInvBut, RunInv, Partition, NetRules.Run, SentTo, Pending, NoticeOf, IsConnected, ConnectPending, DropPending, EndsFor,
      MembersKnown;
    var m := NetRules.Run(s.net, r);
    var t := s.(net := m);
    RunPasses(s.net, r);
    RunKeepsSound(s, r);
    RunIsMute(s.net, r, ROOM_STATE_NTF);
    RunIsMute(s.net, r, GAME_END_NTF);
    NetInvHasIds(m);
    forall c: SessionId | IsConnected(m, c) ensures SentTo(m, c, GAME_END_NTF) == EndsFor(s.run.popped, c) {
      ConnectedIsOld(m, c);
      if c > s.net.lastSessionId {
        PoppedAreOld(s);
        NewSessionsKnowNothing(s.run.popped, c, s.net.lastSessionId);
      }
    }
    forall id: RoomId, c: SessionId | !Pending(t.run.lobby, id) && IsTold(t, id, c) ensures IsInformed(t, id, c) {
      ServerReplica.MembersAreKnown(s, id, c);
      assert IsTold(s, id, c);
      assert IsInformed(s, id, c);
    }
    StillOld(s, t);
  }

  lemma PoppedAreOld(s: Server)
    requires ResultsTold(s)
    ensures forall i :: 0 <= i < |s.run.popped| ==> AreOld(s.run.popped[i].targets, s.net.lastSessionId)
  {
    hide SentTo, EndsFor, AreOld, IsConnected;
    forall i | 0 <= i < |s.run.popped| ensures AreOld(s.run.popped[i].targets, s.net.lastSessionId) {
      assert History(s.run)[i] == s.run.popped[i];
    }
  }

  lemma StillOld(s: Server, t: Server)
    requires ResultsTold(s) && t.run == s.run && s.net.lastSessionId <= t.net.lastSessionId
    ensures forall i :: 0 <= i < |History(t.run)| ==> AreOld(History(t.run)[i].targets, t.net.lastSessionId)
  {
    hide SentTo, EndsFor, IsConnected;
  }

  lemma RunKeepsSound(s: Server, r: Readiness)
    requires ServerInv(s)
    ensures Sound(s.(net := NetRules.Run(s.net, r))) && NetInv(NetRules.Run(s.net, r))
  {
    hide NetInvBut, RunInv, Partition, NetRules.Run;
    NetPassKeeps(s, r);
  }

  lemma StartNoticed(s: Server)
    requires IsStart(s)
    ensures NoticedBut(s, {})
  {
    hide NetInvBut, RunInv;
    StartInv(s);
    assert History(s.run) == [];
  }

  lemma {:induction false} EveryRunNotices(start: Server, steps: seq<Step>)
    requires IsStart(start)
    ensures ServerInv(DoSteps(start, steps)) && NoticedBut(DoSteps(start, steps), {})
    ensures DoSteps(start, steps).run.lobby.finished == []
    decreases |steps|
  {
    hide ServerInv, NoticedBut, Update, NetRules.Run, IsStart;
    if steps == [] {
      StartInv(start);
      StartNoticed(start);
      assert start.run.lobby.finished == [] by { NothingFinished(start); }
    } else {
      var before := DoSteps(start, steps[..|steps| - 1]);
      EveryRunNotices(start, steps[..|steps| - 1]);
      match steps[|steps| - 1]
      case NetPass(r) => NetPassKeeps(before, r); PassNotices(before, r);
      case LogicPass(u) => UpdateKeeps(before, u); UpdateNotices(before, u);
    }
  }

  lemma NothingFinished(s: Server)
    requires IsStart(s)
    ensures s.run.lobby.finished == []
  {
  }

  /** Every member who is connected knows its room, after any run of the whole server: the last
      room notification queued for it is decoded to the room's phase, game, host and players as
      they are. */
  lemma MembersKnowTheirRoom(start: Server, steps: seq<Step>, id: RoomId, c: SessionId)
    requires IsStart(start) && IsTold(DoSteps(start, steps), id, c)
    ensures var s := DoSteps(start, steps);
            var told := SentTo(s.net, c, ROOM_STATE_NTF);
            && told != []
            && var p := DecodedRoomState(told[|told| - 1].body);
            && p.Some? && Depicts(s.run.lobby, s.run.lobby.rooms[id], p.value)
  {
    hide NetInvBut, RunInv, Partition, DoSteps, SentTo, DecodedRoomState, RoomStateBytes, ValidRoomState, ResultsTold, IsConnected, IsStart;
    EveryRunNotices(start, steps);
    var s := DoSteps(start, steps);
    assert IsInformed(s, id, c);
    SnapshotIsSent(s.run, id);
  }

  /** And every result is known to its players: those still connected have been told all the
      games recorded for them, each once, in the order in which they ended. */
  lemma PlayersKnowTheirResults(start: Server, steps: seq<Step>, c: SessionId)
    requires IsStart(start) && IsConnected(DoSteps(start, steps).net, c)
    ensures var s := DoSteps(start, steps);
            SentTo(s.net, c, GAME_END_NTF) == EndsFor(History(s.run), c)
  {
    hide ServerInv, DoSteps, SentTo, EndsFor, IsConnected, InformedBut, Sound, IsStart;
    EveryRunNotices(start, steps);
    var s := DoSteps(start, steps);
    assert s.run.popped + [] == s.run.popped;
  }
}
