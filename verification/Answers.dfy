/** Every request is answered with the verdict of the lobby, and all it makes the server send is
    given: to whom, what, and in which order. */
module Answers {
  import opened Protocol
  import opened Framing
  import opened NetRules
  import opened NetInvariant
  import opened OmokRules
  import opened RoomRules
  import opened UserRules
  import opened LobbyRules
  import opened LobbyInvariant
  import opened LobbyCalls
  import opened LobbyVerdicts
  import opened WireFormat
  import opened RoomPacketCodec
  import opened GamePacketCodec
  import opened ServerRules
  import opened ServerInvariant
  import opened ServerPartition
  import opened Encodability
  import opened Transcripts
  import Replica
  import Overtaking
  import ServerRuns

  // ----- what is sent -----

  function Answer(session: SessionId, id: nat, body: Bytes): seq<Sending> {
    [Sending([session], Packet(id, body))]
  }

  function ActionAnswer(session: SessionId, id: nat, result: RoomResult, roomId: RoomId): seq<Sending> {
    Answer(session, id, RoomActionBytes(ActionResponse(result, roomId)))
  }

  /** The name under which a session is logged in. */
  function NameOf(s: LobbyState, session: SessionId): Bytes {
    if session in s.users.bySession then s.users.bySession[session].nickname else []
  }

  ghost function CreateOutput(s: LobbyState, session: SessionId, title: Bytes): seq<Sending> {
    var (t, o, id) := CreateRoom(s, session, title);
    if o.Threw? then []
    else
      ActionAnswer(session, ROOM_CREATE_RES, o.value, id)
      + if o.value == RoomResult.Success then BothNotices(t, id, RoomMemberChange.Joined, NameOf(s, session)) else []
  }

  ghost function EnterOutput(s: LobbyState, session: SessionId, id: RoomId): seq<Sending> {
    var (t, result) := EnterRoom(s, session, id);
    ActionAnswer(session, ROOM_ENTER_RES, result, id)
    + if result == RoomResult.Success then BothNotices(t, id, RoomMemberChange.Joined, NameOf(s, session)) else []
  }

  /** The results come first, then the answer, then what the members left behind are told. */
  ghost function LeaveOutput(s: LobbyState, session: SessionId, now: Time): seq<Sending> {
    var (t, o) := LeaveRoom(s, session, GameEndReason.LeftRoom, now);
    if o.Threw? then []
    else
      (if session in s.users.bySession then Announcements(t, t.finished) else [])
      + ActionAnswer(session, ROOM_LEAVE_RES, o.value, RoomOf(s, session))
      + if o.value == RoomResult.Success then BothNotices(t, RoomOf(s, session), RoomMemberChange.Left, NameOf(s, session)) else []
  }

  ghost function ReadyOutput(s: LobbyState, session: SessionId, ready: bool): seq<Sending> {
    var (t, result) := LobbyRules.SetReady(s, session, ready);
    ActionAnswer(session, ROOM_READY_RES, result, RoomOf(s, session))
    + if result == RoomResult.Success then StateNotice(t, RoomOf(s, session)) else []
  }

  ghost function StartOutput(s: LobbyState, session: SessionId, now: Time): seq<Sending> {
    var (t, result) := LobbyRules.StartGame(s, session, now);
    ActionAnswer(session, ROOM_START_RES, result, RoomOf(s, session))
    + if result == RoomResult.Success then StateNotice(t, RoomOf(s, session)) else []
  }

  /** An accepted move is answered first and then told to all members, the mover included. */
  ghost function MoveOutput(s: LobbyState, session: SessionId, q: GameMoveRequest, now: Time): seq<Sending> {
    var (t, o, m) := LobbyRules.PlaceStone(s, session, q.roomId, q.game, q.x, q.y, now);
    if o.Threw? then []
    else
      Answer(session, GAME_MOVE_RES, MoveResponseBytes(o.value, q.game))
      + if m.Some? && m.value.x >= 0 && m.value.y >= 0 && q.roomId in t.rooms then
          [Sending(t.rooms[q.roomId].members, Packet(GAME_MOVE_NTF, GameMoveBytes(Replica.NotificationOf(m.value))))]
        else []
  }

  ghost function ResignOutput(s: LobbyState, session: SessionId, id: uint32, game: uint32, now: Time): seq<Sending> {
    var o := LobbyRules.Resign(s, session, id, game, now).1;
    if o.Threw? then [] else Answer(session, GAME_RESIGN_RES, MoveResponseBytes(o.value, game))
  }

  /** What a chat message is answered with. */
  ghost function ChatVerdict(s: LobbyState, session: SessionId, message: Bytes): ChatResult {
    if !IsUser(s, session) then ChatResult.NotLoggedIn
    else if IsInLobby(s, session) then ChatResult.NotInRoom
    else if !IsValidChatMessage(s.config, message) then ChatResult.InvalidMessage
    else ChatResult.Success
  }

  /** A message that is passed on is answered twice, as in the source, before it goes out. */
  ghost function ChatOutput(s: LobbyState, session: SessionId, message: Bytes): seq<Sending> {
    var answer := Answer(session, CHAT_RES, [ChatResultCode(ChatVerdict(s, session, message))]);
    if ChatVerdict(s, session, message) != ChatResult.Success || RoomOf(s, session) !in s.rooms then answer
    else
      answer + answer
      + [Sending(s.rooms[RoomOf(s, session)].members, Packet(CHAT_NTF, ChatBytes(NameOf(s, session), message)))]
  }

  /** All that a well-formed packet makes the server send. */
  ghost function Output(s: LobbyState, session: SessionId, p: Packet, now: Time): seq<Sending>
    requires !IsMalformed(p)
  {
    if p.id == LOGIN_REQ then Answer(session, LOGIN_RES, [LoginResultCode(Login(s.users, session, p.body).1)])
    else if p.id == ECHO_REQ then Answer(session, ECHO_RES, p.body)
    else if p.id == CHAT_REQ then ChatOutput(s, session, p.body)
    else if p.id == ROOM_CREATE_REQ then CreateOutput(s, session, DecodedTitle(p.body).value)
    else if p.id == ROOM_LIST_REQ then
      Answer(session, ROOM_LIST_RES, RoomListBytes(RoomListFor(s, session, DecodedRoomId(p.body).value)))
    else if p.id == ROOM_ENTER_REQ then EnterOutput(s, session, DecodedRoomId(p.body).value)
    else if p.id == ROOM_LEAVE_REQ then LeaveOutput(s, session, now)
    else if p.id == ROOM_READY_REQ then ReadyOutput(s, session, DecodedReady(p.body).value)
    else if p.id == ROOM_START_REQ then StartOutput(s, session, now)
    else if p.id == GAME_MOVE_REQ then MoveOutput(s, session, Whole(GetMoveRequest(p.body)).value, now)
    else
      var q := Whole(GetResignRequest(p.body)).value;
      ResignOutput(s, session, q.0, q.1, now)
  }

  /** A body that is no request of its kind, or a packet of no kind a client may send. */
  predicate IsMalformed(p: Packet) {
    if p.id == LOGIN_REQ || p.id == CHAT_REQ then |p.body| > MAX_BODY_SIZE
    else if p.id == ROOM_CREATE_REQ then DecodedTitle(p.body) == None
    else if p.id == ROOM_LIST_REQ || p.id == ROOM_ENTER_REQ then DecodedRoomId(p.body) == None
    else if p.id == ROOM_LEAVE_REQ || p.id == ROOM_START_REQ then p.body != []
    else if p.id == ROOM_READY_REQ then DecodedReady(p.body) == None
    else if p.id == GAME_MOVE_REQ then Whole(GetMoveRequest(p.body)) == None
    else if p.id == GAME_RESIGN_REQ then Whole(GetResignRequest(p.body)) == None
    else p.id != ECHO_REQ
  }

  // ----- the requests about rooms -----

  lemma ActionSends(s: Server, run: Run, session: SessionId, id: nat, result: RoomResult, roomId: RoomId)
    requires Sound(s) && RunInv(run) && id <= UINT16_MAX
    ensures var u := s.(run := run, net := RespondRoomAction(s.net, session, id, result, roomId));
            Sound(u) && Sends(s.net, u.net, ActionAnswer(session, id, result, roomId))
  {
    hide NetInvBut, RunInv, Respond, RoomActionBytes, Quiet, PacketsFor, IsConnected;
    RespondIsQuiet(s.net, session, id, RoomActionBytes(ActionResponse(result, roomId)));
    RespondSends(s.net, session, id, RoomActionBytes(ActionResponse(result, roomId)));
  }

  lemma NamesAreOk(run: Run, session: SessionId)
    requires RunInv(run) && session in run.lobby.users.bySession
    ensures NameOk(NameOf(run.lobby, session))
  {
    hide Linked, RoomsInv, Conserved, ClocksInv, UsersInv, NameOk;
    NicknamesAreOk(run.lobby.users, session);
  }

  lemma SeatedNames(s: LobbyState, session: SessionId, title: Bytes, id: RoomId)
    ensures var (t, o, _) := CreateRoom(s, session, title);
            o == Returned(RoomResult.Success) ==>
              session in s.users.bySession && session in t.users.bySession && NameOf(t, session) == NameOf(s, session)
    ensures var (t, result) := EnterRoom(s, session, id);
            result == RoomResult.Success ==>
              session in s.users.bySession && session in t.users.bySession && NameOf(t, session) == NameOf(s, session)
  {
    hide IsValidTitle, AddMember;
  }

  lemma CreateSends(s: Server, session: SessionId, body: Bytes)
    requires Sound(s) && DecodedTitle(body).Some?
    ensures Sends(s.net, HandleRoomCreate(s, session, body).net, CreateOutput(s.run.lobby, session, DecodedTitle(body).value))
  {
    hide NetInvBut, RunInv, CreateRoom, RespondRoomAction, NotifyRoomState, NotifyRoomMember, DecodedTitle, Sends, ActionAnswer,
      Created, BothNotices, NameOk, NameOf;
    var title := DecodedTitle(body).value;
    var (lobby, o, id) := CreateRoom(s.run.lobby, session, title);
    CreateRoomKeepsRunInv(s.run, session, title);
    SeatedNames(s.run.lobby, session, title, 0);
    ActionSends(s, s.run.(lobby := lobby), session, ROOM_CREATE_RES, o.value, id);
    var u := WithLobby(s, lobby).(net := RespondRoomAction(s.net, session, ROOM_CREATE_RES, o.value, id));
    var answer := ActionAnswer(session, ROOM_CREATE_RES, o.value, id);
    if o.value == RoomResult.Success {
      var nickname := lobby.users.bySession[session].nickname;
      NameIsOf(lobby, session);
      NamesAreOk(u.run, session);
      BothNoticesSend(u, id, RoomMemberChange.Joined, nickname);
      SendsTwice(s.net, u.net, HandleRoomCreate(s, session, body).net, answer,
                 BothNotices(lobby, id, RoomMemberChange.Joined, nickname));
    } else {
      assert answer + [] == answer;
    }
  }

  lemma NameIsOf(s: LobbyState, session: SessionId)
    requires session in s.users.bySession
    ensures NameOf(s, session) == s.users.bySession[session].nickname
  {
  }

  lemma EnterSends(s: Server, session: SessionId, body: Bytes)
    requires Sound(s) && DecodedRoomId(body).Some?
    ensures Sends(s.net, HandleRoomEnter(s, session, body).net, EnterOutput(s.run.lobby, session, DecodedRoomId(body).value))
  {
    hide NetInvBut, RunInv, EnterRoom, RespondRoomAction, NotifyRoomState, NotifyRoomMember, DecodedRoomId, Sends, ActionAnswer,
      Entered, BothNotices, NameOk, NameOf;
    var id := DecodedRoomId(body).value;
    var (lobby, result) := EnterRoom(s.run.lobby, session, id);
    EnterRoomKeepsRunInv(s.run, session, id);
    SeatedNames(s.run.lobby, session, [], id);
    ActionSends(s, s.run.(lobby := lobby), session, ROOM_ENTER_RES, result, id);
    var u := WithLobby(s, lobby).(net := RespondRoomAction(s.net, session, ROOM_ENTER_RES, result, id));
    var answer := ActionAnswer(session, ROOM_ENTER_RES, result, id);
    if result == RoomResult.Success {
      var nickname := lobby.users.bySession[session].nickname;
      NameIsOf(lobby, session);
      NamesAreOk(u.run, session);
      BothNoticesSend(u, id, RoomMemberChange.Joined, nickname);
      SendsTwice(s.net, u.net, HandleRoomEnter(s, session, body).net, answer,
                 BothNotices(lobby, id, RoomMemberChange.Joined, nickname));
    } else {
      assert answer + [] == answer;
    }
  }

  lemma ReadySends(s: Server, session: SessionId, body: Bytes)
    requires Sound(s) && DecodedReady(body).Some?
    ensures Sends(s.net, HandleRoomReady(s, session, body).net, ReadyOutput(s.run.lobby, session, DecodedReady(body).value))
  {
    hide NetInvBut, RunInv, LobbyRules.SetReady, RespondRoomAction, NotifyRoomState, DecodedReady, Sends, StateNotice, RoomOf, ReadySet,
      RoomActionBytes;
    var (lobby, result) := LobbyRules.SetReady(s.run.lobby, session, DecodedReady(body).value);
    SetReadyKeepsRunInv(s.run, session, DecodedReady(body).value);
    SameUsersSameRoom(s.run.lobby, lobby, session);
    var id := if result == RoomResult.Success then RoomOf(lobby, session) else INVALID_ROOM_ID;
    RefusalsNameNoRoom(session, ROOM_READY_RES, result, id, RoomOf(s.run.lobby, session));
    ActionSends(s, s.run.(lobby := lobby), session, ROOM_READY_RES, result, id);
    var u := WithLobby(s, lobby).(net := RespondRoomAction(s.net, session, ROOM_READY_RES, result, id));
    var answer := ActionAnswer(session, ROOM_READY_RES, result, id);
    if result == RoomResult.Success {
      StateNoticeSends(u, id);
      SendsTwice(s.net, u.net, HandleRoomReady(s, session, body).net, answer, StateNotice(lobby, id));
    } else {
      assert answer + [] == answer;
    }
  }

  lemma SameUsersSameRoom(s: LobbyState, t: LobbyState, session: SessionId)
    ensures s.users == t.users ==> RoomOf(t, session) == RoomOf(s, session)
  {
  }

  lemma RefusalsNameNoRoom(session: SessionId, kind: nat, result: RoomResult, id: RoomId, other: RoomId)
    ensures result != RoomResult.Success ==> ActionAnswer(session, kind, result, id) == ActionAnswer(session, kind, result, other)
  {
    hide RoomActionBytes;
  }

  lemma StartSends(s: Server, session: SessionId, now: Time)
    requires Sound(s)
    ensures Sends(s.net, HandleRoomStart(s, session, [], now).net, StartOutput(s.run.lobby, session, now))
  {
    hide NetInvBut, RunInv, LobbyRules.StartGame, RespondRoomAction, NotifyRoomState, Sends, StateNotice, RoomOf, Noted, Seated,
      RoomActionBytes;
    var (lobby, result) := LobbyRules.StartGame(s.run.lobby, session, now);
    StartGameKeepsRunInv(s.run, session, now);
    SameUsersSameRoom(s.run.lobby, lobby, session);
    var id := if result == RoomResult.Success then RoomOf(lobby, session) else INVALID_ROOM_ID;
    RefusalsNameNoRoom(session, ROOM_START_RES, result, id, RoomOf(s.run.lobby, session));
    var run := s.run.(lobby := lobby, starts := Noted(s.run, session, now));
    ActionSends(s, run, session, ROOM_START_RES, result, id);
    var u := s.(run := run, net := RespondRoomAction(s.net, session, ROOM_START_RES, result, id));
    var answer := ActionAnswer(session, ROOM_START_RES, result, id);
    if result == RoomResult.Success {
      StateNoticeSends(u, id);
      SendsTwice(s.net, u.net, HandleRoomStart(s, session, [], now).net, answer, StateNotice(lobby, id));
    } else {
      assert answer + [] == answer;
    }
  }

  /** What follows when somebody has left a room: the results, perhaps an answer, the notices. */
  lemma LeaveSends(s: Server, session: SessionId, now: Time)
    requires Sound(s)
    ensures Sends(s.net, HandleRoomLeave(s, session, [], now).net, LeaveOutput(s.run.lobby, session, now))
  {
    hide NetInvBut, RunInv, LeaveRoom, RespondRoomAction, NotifyRoomState, NotifyRoomMember, FlushFinishedGames, Sends, ActionAnswer,
      EndOfLeaver, BothNotices, Announcements, NameOk, BackToLobby;
    var lobby := s.run.lobby;
    var (left, o) := LeaveRoom(lobby, session, GameEndReason.LeftRoom, now);
    LeaveRoomKeepsRunInv(s.run, session, GameEndReason.LeftRoom, now);
    if session in lobby.users.bySession {
      var user := lobby.users.bySession[session];
      var s0 := WithLobby(s, left);
      var s1 := FlushFinishedGames(s0);
      SoundLobby(s, left);
      FlushSends(s0);
      FlushIsCalm(s0);
      CalmIsSound(s0, s1);
      FlushedLobby(s0);
      ActionSends(s1, s1.run, session, ROOM_LEAVE_RES, o.value, user.roomId);
      var u := s1.(net := RespondRoomAction(s1.net, session, ROOM_LEAVE_RES, o.value, user.roomId));
      var results, answer := Announcements(left, left.finished), ActionAnswer(session, ROOM_LEAVE_RES, o.value, user.roomId);
      SendsTwice(s.net, s1.net, u.net, results, answer);
      if o.value == RoomResult.Success {
        NamesAreOk(s.run, session);
        BothNoticesSend(u, user.roomId, RoomMemberChange.Left, user.nickname);
        BothNoticesDepend(left, s1.run.lobby, user.roomId, RoomMemberChange.Left, user.nickname);
        SendsTwice(s.net, u.net, HandleRoomLeave(s, session, [], now).net, results + answer,
                   BothNotices(left, user.roomId, RoomMemberChange.Left, user.nickname));
      } else {
        assert results + answer + [] == results + answer;
      }
    } else {
      StrangersMayNotLeave(lobby, session, GameEndReason.LeftRoom, now);
      ActionSends(s, s.run, session, ROOM_LEAVE_RES, RoomResult.UserNotFound, INVALID_ROOM_ID);
      assert [] + ActionAnswer(session, ROOM_LEAVE_RES, RoomResult.UserNotFound, INVALID_ROOM_ID) + []
             == ActionAnswer(session, ROOM_LEAVE_RES, RoomResult.UserNotFound, INVALID_ROOM_ID);
    }
  }

  lemma SoundLobby(s: Server, lobby: LobbyState)
    requires Sound(s) && RunInv(s.run.(lobby := lobby))
    ensures Sound(WithLobby(s, lobby))
  {
    hide NetInvBut, RunInv;
  }

  lemma FlushedLobby(s: Server)
    ensures FlushFinishedGames(s).run.lobby == s.run.lobby.(finished := [])
  {
    hide FlushFinishedGames;
    ServerRuns.FlushKeepsRooms(s);
  }

  lemma BothNoticesDepend(s: LobbyState, t: LobbyState, id: RoomId, change: RoomMemberChange, nickname: Bytes)
    requires t.rooms == s.rooms && t.users == s.users
    ensures BothNotices(t, id, change, nickname) == BothNotices(s, id, change, nickname)
  {
    hide Overtaking.NoticeOf, RoomMemberBytes;
    SameSnapshot(s, t, id);
  }

  lemma StrangersMayNotLeave(s: LobbyState, session: SessionId, reason: GameEndReason, now: Time)
    requires session !in s.users.bySession && (reason == GameEndReason.LeftRoom || reason == GameEndReason.Disconnected)
    ensures LeaveRoom(s, session, reason, now) == (s, Returned(RoomResult.UserNotFound))
  {
  }

  /** What a closed connection makes the server send: the results, and to those left behind that
      the user has disconnected and how the room is now. */
  ghost function DisconnectOutput(s: LobbyState, session: SessionId, now: Time): seq<Sending> {
    var (left, o) := LeaveRoom(s, session, GameEndReason.Disconnected, now);
    if o.Threw? || session !in s.users.bySession then []
    else
      var t := left.(users := Remove(left.users, session));
      Announcements(t, left.finished)
      + if o.value == RoomResult.Success then BothNotices(t, RoomOf(s, session), RoomMemberChange.Disconnected, NameOf(s, session)) else []
  }

  lemma DisconnectSends(s: Server, session: SessionId, now: Time)
    requires Sound(s)
    ensures Sends(s.net, HandleDisconnected(s, session, now).net, DisconnectOutput(s.run.lobby, session, now))
  {
    hide NetInvBut, RunInv, LeaveRoom, NotifyRoomState, NotifyRoomMember, FlushFinishedGames, Sends, EndOfLeaver, BothNotices,
      Announcements, NameOk, Remove, BackToLobby;
    var lobby := s.run.lobby;
    StaysSilent(s.net);
    if session in lobby.users.bySession {
      var user := lobby.users.bySession[session];
      var (left, o) := LeaveRoom(lobby, session, GameEndReason.Disconnected, now);
      DisconnectRun(s, session, now);
      var t := left.(users := Remove(left.users, session));
      var s0 := WithLobby(s.(deadlines := s.deadlines - {session}), t);
      var s1 := FlushFinishedGames(s0);
      FlushSends(s0);
      FlushIsCalm(s0);
      CalmIsSound(s0, s1);
      FlushedLobby(s0);
      var results := Announcements(t, left.finished);
      if o.value == RoomResult.Success {
        NamesAreOk(s.run, session);
        BothNoticesSend(s1, user.roomId, RoomMemberChange.Disconnected, user.nickname);
        BothNoticesDepend(t, s1.run.lobby, user.roomId, RoomMemberChange.Disconnected, user.nickname);
        SendsTwice(s.net, s1.net, HandleDisconnected(s, session, now).net, results,
                   BothNotices(t, user.roomId, RoomMemberChange.Disconnected, user.nickname));
      } else {
        assert results + [] == results;
      }
    }
  }

  // ----- the other requests -----

  lemma ResignSends(s: Server, session: SessionId, body: Bytes, now: Time)
    requires Sound(s) && Whole(GetResignRequest(body)).Some?
    ensures var q := Whole(GetResignRequest(body)).value;
            Sends(s.net, HandleGameResign(s, session, body, now).net, ResignOutput(s.run.lobby, session, q.0, q.1, now))
  {
    hide NetInvBut, RunInv, LobbyRules.Resign, Respond, Sends, GetResignRequest, MoveResponseBytes, EndOfLeaver, RefusedGameRequest;
    var q := Whole(GetResignRequest(body)).value;
    ResignKeepsRunInv(s.run, session, q.0, q.1, now);
    var o := LobbyRules.Resign(s.run.lobby, session, q.0, q.1, now).1;
    RespondSends(s.net, session, GAME_RESIGN_RES, MoveResponseBytes(o.value, q.1));
  }

  lemma ArrivingMovesGoOut(m: AcceptedMove, id: RoomId, gameId: GameId, x: int, y: int)
    requires MoveArrives(m, id, gameId, x, y)
    ensures m.x >= 0 && m.y >= 0 && m.room == id && IsValidGameMove(Replica.NotificationOf(m))
  {
    hide IsValidGameMove, GameMoveBytes, DecodedGameMove;
  }

  lemma MoveSends(s: Server, session: SessionId, body: Bytes, now: Time)
    requires Sound(s) && Whole(GetMoveRequest(body)).Some?
    ensures Sends(s.net, HandleGameMove(s, session, body, now).net,
                  MoveOutput(s.run.lobby, session, Whole(GetMoveRequest(body)).value, now))
  {
    hide NetInvBut, RunInv, LobbyRules.PlaceStone, Respond, Broadcast, Sends, GetMoveRequest, MoveResponseBytes, Quiet,
      Moved, RefusedGameRequest, MoveArrives, IsValidGameMove, GameMoveBytes, Replica.NotificationOf;
    var q := Whole(GetMoveRequest(body)).value;
    PlaceStoneKeepsRunInv(s.run, session, q.roomId, q.game, q.x, q.y, now);
    var (lobby, o, m) := LobbyRules.PlaceStone(s.run.lobby, session, q.roomId, q.game, q.x, q.y, now);
    var response := MoveResponseBytes(o.value, q.game);
    RespondSends(s.net, session, GAME_MOVE_RES, response);
    if o.value == GameMoveResult.Success {
      MoveIsSent(s.run, session, q.roomId, q.game, q.x, q.y, now);
      ArrivingMovesGoOut(m.value, q.roomId, q.game, q.x, q.y);
      RespondIsQuiet(s.net, session, GAME_MOVE_RES, response);
      var u := Respond(s.net, session, GAME_MOVE_RES, response);
      var targets, notice := lobby.rooms[q.roomId].members, GameMoveBytes(Replica.NotificationOf(m.value));
      Overtaking.MembersAreDistinct(s.run.(lobby := lobby), q.roomId);
      BroadcastSends(u, targets, GAME_MOVE_NTF, notice);
      SendsTwice(s.net, u, HandleGameMove(s, session, body, now).net, Answer(session, GAME_MOVE_RES, response),
                 [Sending(targets, Packet(GAME_MOVE_NTF, notice))]);
    } else {
      assert Answer(session, GAME_MOVE_RES, response) + [] == Answer(session, GAME_MOVE_RES, response);
    }
  }

  lemma ListSends(s: Server, session: SessionId, body: Bytes)
    requires Sound(s) && DecodedRoomId(body).Some?
    ensures Sends(s.net, HandleRoomList(s, session, body).net,
                  Answer(session, ROOM_LIST_RES, RoomListBytes(RoomListFor(s.run.lobby, session, DecodedRoomId(body).value))))
  {
    hide NetInvBut, RunInv, Respond, Sends, DecodedRoomId, RoomListFor, ValidRoomList, RoomListBytes, DecodedRoomList;
    var after := DecodedRoomId(body).value;
    RoomListIsSent(s.run, session, after);
    RespondSends(s.net, session, ROOM_LIST_RES, RoomListBytes(RoomListFor(s.run.lobby, session, after)));
  }

  // ----- chat -----

  lemma ChattersAreAtHome(run: Run, session: SessionId)
    requires RunInv(run) && IsUser(run.lobby, session) && !IsInLobby(run.lobby, session)
    ensures var u := run.lobby.users.bySession[session];
            && u.roomId in run.lobby.rooms && session in run.lobby.rooms[u.roomId].members
            && 0 < |u.nickname| <= MAX_NICKNAME_BYTES && Distinct(run.lobby.rooms[u.roomId].members)
  {
    hide LobbyInv, Conserved, ClocksInv, GameInv;
    RunHasLobbyInv(run);
    UserIsInItsRoom(run.lobby, session);
    MembersAreAtHome(run.lobby, run.lobby.users.bySession[session].roomId);
    NicknamesAreOk(run.lobby.users, session);
  }

  lemma ChatResultSends(n: NetState, session: SessionId, result: ChatResult)
    requires NetInv(n)
    ensures var (m, ok) := SendChatResult(n, session, result);
            Sends(n, m, Answer(session, CHAT_RES, [ChatResultCode(result)])) && (!ok ==> !IsConnected(m, session))
  {
    hide NetInvBut, Sends, SendPacket, Disconnect, IsConnected, Passes;
    RespondSends(n, session, CHAT_RES, [ChatResultCode(result)]);
    SendPacketIsQuiet(n, session, CHAT_RES, [ChatResultCode(result)]);
    DisconnectIsQuiet(SendPacket(n, session, CHAT_RES, [ChatResultCode(result)]).0, session);
  }

  lemma ValidMessagesAreShort(config: RoomConfig, message: Bytes)
    requires IsValidChatMessage(config, message)
    ensures 0 < |message| <= MAX_CHAT_MESSAGE_BYTES
  {
  }

  /** If the only one who was sent something is cut off, nobody was sent anything. */
  lemma CutOffAlone(n: NetState, m: NetState, session: SessionId, id: nat, body: Bytes)
    requires Sends(n, m, Answer(session, id, body)) && !IsConnected(m, session)
    ensures Sends(n, m, [])
  {
    hide NetInvBut, Quiet, IsConnected;
    forall c: SessionId | IsConnected(m, c) ensures PacketsFor(Answer(session, id, body), c) == PacketsFor([], c) {
      OnePacketFor([session], Packet(id, body), c);
    }
  }

  /** A message is answered and reaches its room; or its sender is cut off because it cannot be
      answered, and nobody is sent anything. */
  lemma ChatSends(s: Server, session: SessionId, body: Bytes)
    requires Sound(s) && |body| <= MAX_BODY_SIZE
    ensures var t := HandleChat(s, session, body).net;
            || Sends(s.net, t, ChatOutput(s.run.lobby, session, body))
            || (!IsConnected(t, session) && Sends(s.net, t, []))
  {
    hide NetInvBut, RunInv, SendChatResult, Broadcast, Disconnect, IsValidChatMessage, ChatBytes, IsConnected, Sends, Quiet;
    var verdict := ChatVerdict(s.run.lobby, session, body);
    if IsUser(s.run.lobby, session) && !IsInLobby(s.run.lobby, session) { ChattersAreAtHome(s.run, session); }
    ChatResultSends(s.net, session, verdict);
    if verdict == ChatResult.Success {
      ValidMessagesAreShort(s.run.lobby.config, body);
      var u, code := s.run.lobby.users.bySession[session], [ChatResultCode(ChatResult.Success)];
      var (n1, first) := SendChatResult(s.net, session, ChatResult.Success);
      var (n2, second) := SendChatResult(n1, session, ChatResult.Success);
      var answer, members := Answer(session, CHAT_RES, code), s.run.lobby.rooms[u.roomId].members;
      SendsKeeps(s.net, n1, answer);
      ChatResultSends(n1, session, ChatResult.Success);
      if !first {
        CutOffAlone(s.net, n1, session, CHAT_RES, code);
      } else if !second {
        TwoAnswersAlone(s.net, n1, n2, session, CHAT_RES, code);
      } else {
        SendsTwice(s.net, n1, n2, answer, answer);
        SendsKeeps(n1, n2, answer);
        BroadcastSends(n2, members, CHAT_NTF, ChatBytes(u.nickname, body));
        SendsTwice(s.net, n2, Broadcast(n2, members, CHAT_NTF, ChatBytes(u.nickname, body)), answer + answer,
                   [Sending(members, Packet(CHAT_NTF, ChatBytes(u.nickname, body)))]);
      }
    }
  }

  lemma TwoAnswersAlone(a: NetState, b: NetState, c: NetState, session: SessionId, id: nat, body: Bytes)
    requires Sends(a, b, Answer(session, id, body)) && Sends(b, c, Answer(session, id, body)) && !IsConnected(c, session)
    ensures Sends(a, c, [])
  {
    hide NetInvBut, Quiet, IsConnected;
    var answer := Answer(session, id, body);
    SendsTwice(a, b, c, answer, answer);
    forall s: SessionId | IsConnected(c, s) ensures PacketsFor(answer + answer, s) == PacketsFor([], s) {
      PacketsForMore(answer, answer, s);
      OnePacketFor([session], Packet(id, body), s);
    }
  }

  lemma SendsKeeps(n: NetState, m: NetState, out: seq<Sending>)
    requires Sends(n, m, out)
    ensures NetInv(m)
  {
    hide NetInvBut, Quiet, IsConnected;
  }

  // ----- every request -----

  lemma MalformedIsCut(s: Server, session: SessionId, p: Packet, now: Time)
    requires IsMalformed(p) && p.id != CHAT_REQ
    ensures ProcessPacket(s, session, p, now) == s.(net := Disconnect(s.net, session))
  {
    hide DecodedTitle, DecodedRoomId, DecodedReady, GetMoveRequest, GetResignRequest, Disconnect;
  }

  lemma WellFormedSends(s: Server, session: SessionId, p: Packet, now: Time)
    requires Sound(s) && !IsMalformed(p)
    ensures var t := ProcessPacket(s, session, p, now).net;
            || Sends(s.net, t, Output(s.run.lobby, session, p, now))
            || (p.id == CHAT_REQ && !IsConnected(t, session) && Sends(s.net, t, []))
  {
    hide NetInvBut, RunInv, IsConnected, Sends, HandleLogin, HandleChat, HandleRoomCreate, HandleRoomList, HandleRoomEnter,
      HandleRoomLeave, HandleRoomReady, HandleRoomStart, HandleGameMove, HandleGameResign, Disconnect, Respond, DecodedTitle,
      DecodedRoomId, DecodedReady, GetMoveRequest, GetResignRequest, CreateOutput, EnterOutput, LeaveOutput, ReadyOutput, StartOutput,
      MoveOutput, ResignOutput, ChatOutput, RoomListFor, RoomListBytes;
    if p.id == LOGIN_REQ {
      LoginSends(s, session, p.body);
    } else if p.id == ECHO_REQ {
      RespondSends(s.net, session, ECHO_RES, p.body);
    } else if p.id == CHAT_REQ {
      ChatSends(s, session, p.body);
    } else if p.id == ROOM_CREATE_REQ {
      CreateSends(s, session, p.body);
    } else if p.id == ROOM_LIST_REQ {
      ListSends(s, session, p.body);
    } else if p.id == ROOM_ENTER_REQ {
      EnterSends(s, session, p.body);
    } else if p.id == ROOM_LEAVE_REQ {
      LeaveSends(s, session, now);
    } else if p.id == ROOM_READY_REQ {
      ReadySends(s, session, p.body);
    } else if p.id == ROOM_START_REQ {
      StartSends(s, session, now);
    } else if p.id == GAME_MOVE_REQ {
      MoveSends(s, session, p.body, now);
    } else {
      ResignSends(s, session, p.body, now);
    }
  }

  lemma LoginSends(s: Server, session: SessionId, body: Bytes)
    requires Sound(s) && |body| <= MAX_BODY_SIZE
    ensures Sends(s.net, HandleLogin(s, session, body).net,
                  Answer(session, LOGIN_RES, [LoginResultCode(Login(s.run.lobby.users, session, body).1)]))
  {
    hide NetInvBut, RunInv, Login, Respond, Sends;
    RespondSends(s.net, session, LOGIN_RES, [LoginResultCode(Login(s.run.lobby.users, session, body).1)]);
  }

  /** Every packet of an open session: if it is well-formed, its output is sent; if it is not, its
      sender is cut off and nothing else happens. A chat message that is too long for a packet
      is the one malformed packet that may be answered, with a refusal; and one whose sender
      cannot be answered is not passed on: its sender is cut off. */
  lemma EveryRequestIsAnswered(s: Server, session: SessionId, p: Packet, now: Time)
    requires Sound(s) && IsConnected(s.net, session)
    ensures var t := ProcessPacket(s, session, p, now);
            && (IsMalformed(p) && p.id != CHAT_REQ ==> t == s.(net := Disconnect(s.net, session)))
            && (!IsMalformed(p) ==>
                  || IsSent(s.net, t.net, Output(s.run.lobby, session, p, now))
                  || (p.id == CHAT_REQ && !IsConnected(t.net, session) && IsSent(s.net, t.net, [])))
  {
    hide NetInvBut, RunInv, IsConnected, ProcessPacket, Disconnect, Output, IsMalformed, Quiet, PacketsFor;
    if IsMalformed(p) {
      if p.id != CHAT_REQ { MalformedIsCut(s, session, p, now); }
    } else {
      WellFormedSends(s, session, p, now);
    }
  }
}
