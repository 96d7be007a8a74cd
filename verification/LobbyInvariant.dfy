/** What every call of the room manager keeps: users and rooms point at each
    other, games are conserved, and turn clocks are bounded. */
module LobbyInvariant {
  import opened Protocol
  import opened RoomRules
  import opened UserRules
  import opened LobbyRules

  /** A lobby together with what has been taken out of its result queue and when
      each game was started. */
  datatype Run = Run(lobby: LobbyState, popped: seq<FinishedGame>, starts: map<GameId, Time>)

  /** Every record ever pushed, oldest first. */
  function History(run: Run): seq<FinishedGame> {
    run.popped + run.lobby.finished
  }

  /** A user is in a room exactly when that room lists the user. */
  ghost predicate Linked(users: map<SessionId, User>, rooms: map<RoomId, RoomState>) {
    && (forall s :: s in users && users[s].roomId != INVALID_ROOM_ID ==>
          users[s].roomId in rooms && s in rooms[users[s].roomId].members)
    && (forall id, m :: id in rooms && m in rooms[id].members ==> m in users && users[m].roomId == id)
  }

  ghost predicate RoomsInv(s: LobbyState) {
    forall id :: id in s.rooms ==>
      s.rooms[id].id == id && id <= s.lastRoomId && s.rooms[id].turnTime == s.config.turnTime && RoomInv(s.rooms[id])
  }

  ghost predicate Plays(rooms: map<RoomId, RoomState>, id: RoomId, g: GameId) {
    id in rooms && rooms[id].phase == RoomPhase.Playing && rooms[id].gameId == g
  }

  ghost predicate Recorded(history: seq<FinishedGame>, g: GameId) {
    exists i :: 0 <= i < |history| && history[i].game == g
  }

  /** The IDs 1..last split into those being played, each in one room, and those
      recorded as finished, each once. */
  ghost predicate Conserved(rooms: map<RoomId, RoomState>, last: GameId, history: seq<FinishedGame>) {
    && (forall id: RoomId, g: GameId :: Plays(rooms, id, g) ==> 1 <= g <= last && !Recorded(history, g))
    && (forall id: RoomId, other: RoomId, g: GameId :: Plays(rooms, id, g) && Plays(rooms, other, g) ==> id == other)
    && (forall i :: 0 <= i < |history| ==> SoundRecord(history[i]) && history[i].game <= last)
    && (forall i, j :: 0 <= i < j < |history| ==> history[i].game != history[j].game)
    && (forall g: nat :: 1 <= g <= last ==> Recorded(history, g) || exists id: nat :: Plays(rooms, id, g))
  }

  /** The latest start time a room's deadline allows, given its moves so far. */
  ghost function StartBound(r: RoomState): Time {
    r.deadline - (r.game.moveCount as int + 1) * r.turnTime
  }

  /** A game started at s with k moves has a deadline of at most s + (k + 1) * turnTime. */
  ghost predicate ClocksInv(rooms: map<RoomId, RoomState>, starts: map<GameId, Time>) {
    forall id: RoomId, g: GameId :: Plays(rooms, id, g) ==> g in starts && StartBound(rooms[id]) <= starts[g]
  }

  ghost predicate LobbyInv(s: LobbyState) {
    && IsAcceptedConfig(s.config) && s.lastRoomId <= UINT32_MAX && s.lastGameId <= UINT32_MAX
    && |s.rooms| <= s.config.maxRooms
    && UsersInv(s.users) && Linked(s.users.bySession, s.rooms) && RoomsInv(s)
  }

  ghost predicate RunInv(run: Run) {
    && LobbyInv(run.lobby)
    && Conserved(run.lobby.rooms, run.lobby.lastGameId, History(run))
    && ClocksInv(run.lobby.rooms, run.starts)
  }

  lemma RunHasLobbyInv(run: Run)
    requires RunInv(run)
    ensures LobbyInv(run.lobby)
  {
  }

  lemma OpenedInv(config: RoomConfig)
    requires IsAcceptedConfig(config)
    ensures RunInv(Run(Opened(config), [], map[]))
  {
  }

  // ----- one room changes, its members stay -----

  /** The room keeps its name, its members, its host and its turn time. */
  predicate SameSeats(r: RoomState, after: RoomState) {
    after.id == r.id && after.members == r.members && after.host == r.host && after.turnTime == r.turnTime
  }

  /** The same game goes on, or there is none before and after. */
  ghost predicate GoesOn(r: RoomState, after: RoomState) {
    && after.phase == r.phase && after.gameId == r.gameId
    && (r.phase == RoomPhase.Playing ==> StartBound(after) <= StartBound(r))
  }

  /** The running game ends with the record f. */
  ghost predicate Ends(r: RoomState, after: RoomState, f: FinishedGame) {
    && r.phase == RoomPhase.Playing && after.phase == RoomPhase.Waiting
    && SoundRecord(f) && f.game == r.gameId && f.room == r.id && f.targets == r.members
  }

  lemma SeatsKeepLobbyInv(s: LobbyState, id: RoomId, after: RoomState)
    requires LobbyInv(s) && id in s.rooms && SameSeats(s.rooms[id], after) && RoomInv(after)
    ensures LobbyInv(SetRoom(s, after, id))
  {
    hide RoomInv, UsersInv;
    var rooms := s.rooms[id := after];
    assert rooms.Keys == s.rooms.Keys;
    assert |rooms| == |rooms.Keys| && |s.rooms| == |s.rooms.Keys|;
    assert Linked(s.users.bySession, rooms);
  }

  lemma GoingOnIsConserved(rooms: map<RoomId, RoomState>, last: GameId, history: seq<FinishedGame>, id: RoomId, after: RoomState)
    requires Conserved(rooms, last, history) && id in rooms && GoesOn(rooms[id], after)
    ensures Conserved(rooms[id := after], last, history)
  {
    var updated := rooms[id := after];
    assert forall i: RoomId, g: GameId :: Plays(updated, i, g) <==> Plays(rooms, i, g);
  }

  lemma EndingIsConserved(rooms: map<RoomId, RoomState>, last: GameId, history: seq<FinishedGame>, id: RoomId,
                          after: RoomState, f: FinishedGame)
    requires Conserved(rooms, last, history) && id in rooms && Ends(rooms[id], after, f)
    ensures Conserved(rooms[id := after], last, history + [f])
  {
    var updated, more := rooms[id := after], history + [f];
    assert Plays(rooms, id, f.game);
    assert forall i: RoomId, g: GameId :: Plays(updated, i, g) <==> Plays(rooms, i, g) && i != id;
    RecordedOneMore(history, f);
    forall i | 0 <= i < |history| ensures history[i].game != f.game {
      assert !Recorded(history, f.game);
    }
  }

  lemma RecordedOneMore(history: seq<FinishedGame>, f: FinishedGame)
    ensures forall g :: Recorded(history + [f], g) <==> Recorded(history, g) || g == f.game
  {
    var more := history + [f];
    forall g ensures Recorded(more, g) <==> Recorded(history, g) || g == f.game {
      if Recorded(history, g) {
        var i :| 0 <= i < |history| && history[i].game == g;
        assert more[i].game == g;
      }
      if g == f.game { assert more[|history|].game == g; }
    }
  }

  lemma GoesOnKeepsRunInv(run: Run, id: RoomId, after: RoomState)
    requires RunInv(run) && id in run.lobby.rooms && RoomInv(after)
    requires SameSeats(run.lobby.rooms[id], after) && GoesOn(run.lobby.rooms[id], after)
    ensures RunInv(run.(lobby := SetRoom(run.lobby, after, id)))
  {
    hide RoomInv, LobbyInv, Conserved;
    SeatsKeepLobbyInv(run.lobby, id, after);
    GoingOnIsConserved(run.lobby.rooms, run.lobby.lastGameId, History(run), id, after);
    assert forall i: RoomId, g: GameId :: Plays(run.lobby.rooms[id := after], i, g) ==> Plays(run.lobby.rooms, i, g);
  }

  lemma EndsKeepsRunInv(run: Run, id: RoomId, after: RoomState, f: FinishedGame)
    requires RunInv(run) && id in run.lobby.rooms && RoomInv(after)
    requires SameSeats(run.lobby.rooms[id], after) && Ends(run.lobby.rooms[id], after, f)
    ensures RunInv(run.(lobby := SetRoom(run.lobby, after, id).(finished := run.lobby.finished + [f])))
  {
    hide RoomInv, UsersInv, Conserved, SoundRecord;
    SeatsKeepLobbyInv(run.lobby, id, after);
    EndingIsConserved(run.lobby.rooms, run.lobby.lastGameId, History(run), id, after, f);
    var t := SetRoom(run.lobby, after, id).(finished := run.lobby.finished + [f]);
    assert History(run.(lobby := t)) == History(run) + [f];
    assert forall i: RoomId, g: GameId :: Plays(t.rooms, i, g) ==> Plays(run.lobby.rooms, i, g) && i != id;
  }

  // ----- the calls -----

  /** What a user's own entry says about the room tables: no StateMismatch is possible. */
  lemma UserIsInItsRoom(s: LobbyState, session: SessionId)
    requires LobbyInv(s) && session in s.users.bySession
    ensures var u := s.users.bySession[session];
            && session != 0
            && (if u.state == UserState.Lobby then
                  u.roomId == INVALID_ROOM_ID && forall id :: id in s.rooms ==> session !in s.rooms[id].members
                else
                  && u.roomId in s.rooms && session in s.rooms[u.roomId].members
                  && RoomInv(s.rooms[u.roomId]) && s.rooms[u.roomId].id == u.roomId)
  {
    hide RoomInv;
    var u := s.users.bySession[session];
    assert UserInv(session, u);
    if u.state == UserState.Lobby {
      forall id | id in s.rooms ensures session !in s.rooms[id].members {
        assert s.rooms[id].id == id;
        assert id != INVALID_ROOM_ID by { RoomIdNotZero(s, id); }
      }
    }
  }

  lemma RoomIdNotZero(s: LobbyState, id: RoomId)
    requires LobbyInv(s) && id in s.rooms
    ensures id != INVALID_ROOM_ID
  {
    assert RoomInv(s.rooms[id]);
  }

  /** The record of a turn that ran out: the side to move has lost. */
  function TimeoutRecord(r: RoomState): FinishedGame {
    FinishedGame(r.id, r.gameId, WinFor(Opponent(r.game.nextTurn)), GameEndReason.TurnTimeout, r.game.moveCount, r.members)
  }

  predicate TurnIsOver(r: RoomState, now: Time) {
    r.phase == RoomPhase.Playing && now >= r.deadline
  }

  lemma ExpireKeepsRunInv(run: Run, id: RoomId, now: Time)
    requires RunInv(run) && id in run.lobby.rooms
    ensures var s, r := run.lobby, run.lobby.rooms[id];
            var (t, o) := Expire(s, id, now);
            && o == Returned(TurnIsOver(r, now))
            && RunInv(run.(lobby := t))
            && t == s.(rooms := t.rooms, finished := t.finished)
            && t.rooms == s.rooms[id := t.rooms[id]] && SameSeats(r, t.rooms[id])
            && t.rooms[id].game.board == r.game.board && t.rooms[id].gameId == r.gameId
            && (if TurnIsOver(r, now) then
                  t.finished == s.finished + [TimeoutRecord(r)] && t.rooms[id].phase == RoomPhase.Waiting
                else t == s)
  {
    hide RoomInv, LobbyInv, Conserved, SoundRecord;
    var r := run.lobby.rooms[id];
    assert RoomInv(r) by { RoomsAreSound(run.lobby, id); }
    ExpireRoomSpec(r, now);
    assert IsTurnExpired(r, now) == TurnIsOver(r, now) by { PlayingRoomsPlay(r); }
    var after := ExpireRoom(r, now).0;
    assert SameSeats(r, after);
    if TurnIsOver(r, now) {
      EndsKeepsRunInv(run, id, after, TimeoutRecord(r));
    } else {
      GoesOnKeepsRunInv(run, id, after);
      assert run.lobby.rooms[id := after] == run.lobby.rooms;
      assert run.lobby.finished + [] == run.lobby.finished;
    }
  }

  lemma PlayingRoomsPlay(r: RoomState)
    requires RoomInv(r)
    ensures r.phase == RoomPhase.Playing <==> r.game.status == GameState.Playing
    ensures r.phase == RoomPhase.Playing ==> Seated(r) && r.game.nextTurn != GameStone.Empty
  {
  }

  lemma RoomsAreSound(s: LobbyState, id: RoomId)
    requires LobbyInv(s) && id in s.rooms
    ensures RoomInv(s.rooms[id]) && s.rooms[id].id == id && s.rooms[id].turnTime == s.config.turnTime
  {
    hide RoomInv;
  }

  /** A running game that a member gives up, by leaving or resigning, ends with one record. */
  lemma ForfeitKeepsRunInv(run: Run, id: RoomId, session: SessionId, reason: GameEndReason)
    requires RunInv(run) && id in run.lobby.rooms && session in run.lobby.rooms[id].members
    requires run.lobby.rooms[id].phase == RoomPhase.Playing && reason != GameEndReason.BoardFull
    ensures var s, r := run.lobby, run.lobby.rooms[id];
            var stone := PlayerStone(r, session);
            var (lost, ok) := RoomRules.Forfeit(r, stone);
            var (t, o) := Finish(SetRoom(s, lost, id), id, reason);
            && ok && o.Returned? && RunInv(run.(lobby := t))
            && t == s.(rooms := t.rooms, finished := t.finished)
            && t.rooms == s.rooms[id := t.rooms[id]] && SameSeats(r, t.rooms[id])
            && t.rooms[id].phase == RoomPhase.Waiting
            && t.finished == s.finished + [FinishedGame(id, r.gameId, WinFor(Opponent(stone)), reason, r.game.moveCount, r.members)]
  {
    hide RoomInv, LobbyInv, Conserved, SoundRecord;
    var r := run.lobby.rooms[id];
    RoomsAreSound(run.lobby, id);
    var stone := PlayerStone(r, session);
    assert stone != GameStone.Empty by { MembersHaveStones(r, session); }
    EndByForfeit(r, stone, reason);
    var lost := RoomRules.Forfeit(r, stone).0;
    var after := FinishRoom(lost, reason).0;
    EndsKeepsRunInv(run, id, after, FinishRoom(lost, reason).1.value[0]);
    assert SetRoom(run.lobby, lost, id).rooms[id := after] == run.lobby.rooms[id := after];
  }

  lemma MembersHaveStones(r: RoomState, session: SessionId)
    requires RoomInv(r) && r.phase == RoomPhase.Playing && session in r.members
    ensures PlayerStone(r, session) != GameStone.Empty
  {
    var i :| 0 <= i < |r.members| && r.members[i] == session;
    assert session == r.members[0] || session == r.members[1];
  }
}
