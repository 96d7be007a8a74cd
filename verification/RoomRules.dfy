/** One room as a value: what each call of Room.cpp does to it, how a game in it
    ends, and the invariant of a room. */
module RoomRules {
  import opened Protocol
  import opened OmokRules

  datatype RoomState = RoomState(
    id: RoomId, title: Bytes, capacity: nat, members: seq<SessionId>, host: SessionId,
    phase: RoomPhase, ready: set<SessionId>, game: Game, black: SessionId, white: SessionId,
    turnTime: Time, deadline: Time, gameId: GameId)

  datatype FinishedGame = FinishedGame(
    room: RoomId, game: GameId, status: GameState, reason: GameEndReason, moveCount: nat,
    targets: seq<SessionId>)

  // ----- what each call does -----

  predicate CanBuild(id: RoomId, capacity: nat, creator: SessionId, turnTime: Time) {
    id != INVALID_ROOM_ID && capacity != 0 && creator != 0 && turnTime > 0
  }

  function NewRoom(id: RoomId, title: Bytes, capacity: nat, creator: SessionId, turnTime: Time): RoomState {
    RoomState(id, title, capacity, [creator], creator, RoomPhase.Waiting, {}, NEW_GAME, 0, 0, turnTime, 0, 0)
  }

  function PlayerStone(r: RoomState, session: SessionId): GameStone {
    if session == 0 then GameStone.Empty
    else if session == r.black then GameStone.Black
    else if session == r.white then GameStone.White
    else GameStone.Empty
  }

  predicate IsTurnExpired(r: RoomState, now: Time) {
    r.phase == RoomPhase.Playing && r.game.status == GameState.Playing && now >= r.deadline
  }

  /** The list without its first occurrence of x. */
  function Erase(s: seq<SessionId>, x: SessionId): seq<SessionId> {
    if s == [] then [] else if s[0] == x then s[1..] else [s[0]] + Erase(s[1..], x)
  }

  function RemoveMember(r: RoomState, session: SessionId): (RoomState, bool) {
    if session !in r.members then (r, false)
    else
      var rest := Erase(r.members, session);
      (r.(members := rest, phase := RoomPhase.Waiting, ready := {}, game := NEW_GAME,
          black := 0, white := 0, deadline := 0,
          host := if rest == [] then 0 else if r.host == session then rest[0] else r.host), true)
  }

  function AddMember(r: RoomState, session: SessionId): (RoomState, bool) {
    if r.phase != RoomPhase.Waiting || session == 0 || session in r.members || |r.members| >= r.capacity then (r, false)
    else (r.(members := r.members + [session], ready := {}), true)
  }

  function SetReady(r: RoomState, session: SessionId, ready: bool): RoomState {
    r.(ready := if ready then r.ready + {session} else r.ready - {session})
  }

  function Forfeit(r: RoomState, loser: GameStone): (RoomState, bool) {
    var (game, ok) := OmokRules.Forfeit(r.game, loser);
    (r.(game := game), ok)
  }

  function FinishGame(r: RoomState): RoomState {
    r.(phase := RoomPhase.Waiting, ready := {}, deadline := 0)
  }

  /** The first member other than the host, 0 when there is none. */
  function FirstGuest(members: seq<SessionId>, host: SessionId): SessionId {
    if members == [] then 0 else if members[0] != host then members[0] else FirstGuest(members[1..], host)
  }

  function StartGame(r: RoomState, gameId: GameId, now: Time): RoomState {
    r.(gameId := gameId, black := r.host, white := FirstGuest(r.members, r.host), game := Started(),
       phase := RoomPhase.Playing, ready := {}, deadline := now + r.turnTime)
  }

  ghost function PlaceStone(r: RoomState, session: SessionId, x: int, y: int, now: Time): (RoomState, MoveResult) {
    var stone := PlayerStone(r, session);
    if r.phase != RoomPhase.Playing then (r, MoveResult.GameNotRunning)
    else if stone == GameStone.Empty then (r, MoveResult.InvalidStone)
    else
      var (game, result) := TryPlaceStone(r.game, stone, x, y);
      (r.(game := game,
          deadline := if result == MoveResult.Success && game.status == GameState.Playing
                      then now + r.turnTime else r.deadline), result)
  }

  // ----- how a game ends (RoomManager::FinishRoom and ExpireRoom) -----

  predicate IsFinal(status: GameState) {
    status == GameState.BlackWon || status == GameState.WhiteWon || status == GameState.Draw
  }

  function Record(r: RoomState, reason: GameEndReason): FinishedGame {
    FinishedGame(r.id, r.gameId, r.game.status, reason, r.game.moveCount, r.members)
  }

  /** The room afterwards and the records pushed; throws when there is no final result. */
  function FinishRoom(r: RoomState, reason: GameEndReason): (RoomState, Outcome<seq<FinishedGame>>) {
    if r.phase != RoomPhase.Playing then (r, Returned([]))
    else if !IsFinal(r.game.status) then (r, Threw(LogicError))
    else (FinishGame(r), Returned([Record(r, reason)]))
  }

  /** The room afterwards and the records pushed; the source's true is a non-empty list. */
  function ExpireRoom(r: RoomState, now: Time): (RoomState, Outcome<seq<FinishedGame>>) {
    if !IsTurnExpired(r, now) then (r, Returned([]))
    else
      var (lost, ok) := Forfeit(r, r.game.nextTurn);
      if !ok then (lost, Threw(LogicError)) else FinishRoom(lost, GameEndReason.TurnTimeout)
  }

  // ----- the invariant of a room -----

  ghost predicate Distinct(s: seq<SessionId>) {
    forall i, j :: 0 <= i < j < |s| ==> s[i] != s[j]
  }

  ghost predicate RoomInv(r: RoomState) {
    && r.id != INVALID_ROOM_ID && r.id <= UINT32_MAX && r.capacity == ROOM_PLAYER_COUNT && r.turnTime > 0
    && 1 <= |r.members| <= r.capacity && Distinct(r.members) && 0 !in r.members
    && 0 < |r.title| <= MAX_ROOM_TITLE_BYTES
    && r.host in r.members && r.host !in r.ready
    && (forall m :: m in r.ready ==> m in r.members)
    && GameInv(r.game)
    && (r.phase == RoomPhase.Playing <==> r.game.status == GameState.Playing)
    && (r.phase == RoomPhase.Playing ==> Seated(r))
  }

  /** While a game runs the host plays black, the other member white. */
  ghost predicate Seated(r: RoomState) {
    && |r.members| == ROOM_PLAYER_COUNT && r.ready == {} && r.gameId != 0
    && r.black == r.host && r.white in r.members && r.white != r.host
  }

  /** What a record of a finished game always satisfies. */
  ghost predicate SoundRecord(f: FinishedGame) {
    && f.room != INVALID_ROOM_ID && f.room <= UINT32_MAX && f.game != 0 && f.moveCount <= CELL_COUNT
    && |f.targets| == ROOM_PLAYER_COUNT && Distinct(f.targets)
    && (f.reason == GameEndReason.BoardFull ==> f.status == GameState.Draw && f.moveCount == CELL_COUNT)
    && (f.reason != GameEndReason.BoardFull ==> f.status == GameState.BlackWon || f.status == GameState.WhiteWon)
  }

  lemma EraseSpec(s: seq<SessionId>, x: SessionId)
    requires Distinct(s) && x in s
    ensures |Erase(s, x)| == |s| - 1 && Distinct(Erase(s, x))
    ensures forall y :: y in Erase(s, x) <==> y in s && y != x
  {
    assert s == [s[0]] + s[1..];
    assert s[0] !in s[1..];
    if s[0] != x {
      EraseSpec(s[1..], x);
    }
  }

  lemma NewRoomInv(id: RoomId, title: Bytes, creator: SessionId, turnTime: Time)
    requires CanBuild(id, ROOM_PLAYER_COUNT, creator, turnTime) && 0 < |title| <= MAX_ROOM_TITLE_BYTES
    requires id <= UINT32_MAX
    ensures RoomInv(NewRoom(id, title, ROOM_PLAYER_COUNT, creator, turnTime))
  {
    StartedInv();
  }

  /** Forfeiting and finishing a running game: nothing throws, exactly one record
      is pushed, the loser's opponent wins, and the board is untouched. */
  lemma EndByForfeit(r: RoomState, loser: GameStone, reason: GameEndReason)
    requires RoomInv(r) && r.phase == RoomPhase.Playing && loser != GameStone.Empty
    requires reason != GameEndReason.BoardFull
    ensures var (lost, ok) := Forfeit(r, loser);
            var (after, pushed) := FinishRoom(lost, reason);
            && ok
            && after == FinishGame(lost) && RoomInv(after) && after.phase == RoomPhase.Waiting
            && pushed == Returned([FinishedGame(r.id, r.gameId, WinFor(Opponent(loser)), reason, r.game.moveCount, r.members)])
            && SoundRecord(pushed.value[0])
            && after.game.board == r.game.board && after.members == r.members
  {
  }

  /** A turn that is over is lost by the side to move, whoever acts; otherwise
      nothing changes. Neither way can throw. */
  lemma ExpireRoomSpec(r: RoomState, now: Time)
    requires RoomInv(r)
    ensures var (after, pushed) := ExpireRoom(r, now);
            && RoomInv(after) && pushed.Returned?
            && after.members == r.members && after.id == r.id && after.gameId == r.gameId
            && after.game.board == r.game.board
            && (if r.phase == RoomPhase.Playing && now >= r.deadline then
                  && after.phase == RoomPhase.Waiting
                  && pushed.value == [FinishedGame(r.id, r.gameId, WinFor(Opponent(r.game.nextTurn)),
                                                   GameEndReason.TurnTimeout, r.game.moveCount, r.members)]
                  && SoundRecord(pushed.value[0])
                else after == r && pushed.value == [])
  {
    if IsTurnExpired(r, now) {
      EndByForfeit(r, r.game.nextTurn, GameEndReason.TurnTimeout);
    }
  }

  lemma RemoveMemberInv(r: RoomState, session: SessionId)
    requires RoomInv(r) && session in r.members
    ensures var (after, ok) := RemoveMember(r, session);
            && ok && after.phase == RoomPhase.Waiting && after.id == r.id
            && (forall m :: m in after.members <==> m in r.members && m != session)
            && (after.members == [] || RoomInv(after))
            && after.game == NEW_GAME && after.ready == {} && PlayerStone(after, session) == GameStone.Empty
            && (after.members != [] ==> after.host == if r.host == session then after.members[0] else r.host)
  {
    EraseSpec(r.members, session);
    StartedInv();
  }

  lemma AddMemberInv(r: RoomState, session: SessionId)
    requires RoomInv(r) && r.phase == RoomPhase.Waiting && session != 0
    requires session !in r.members && |r.members| < r.capacity
    ensures var (after, ok) := AddMember(r, session);
            && ok && RoomInv(after) && after.members == r.members + [session] && after.host == r.host && after.ready == {}
  {
  }

  lemma StartGameInv(r: RoomState, gameId: GameId, now: Time)
    requires RoomInv(r) && r.phase == RoomPhase.Waiting && gameId != 0
    requires |r.members| == ROOM_PLAYER_COUNT
    ensures RoomInv(StartGame(r, gameId, now))
  {
    StartedInv();
    assert r.members[1..][0] == r.members[1];
    assert r.members[0] != r.members[1];
    assert FirstGuest(r.members[1..], r.host) == if r.members[1] != r.host then r.members[1] else FirstGuest(r.members[1..][1..], r.host);
  }

  /** A move by a member of a running room: never the wrong kind of stone, the
      running game goes on or has a final result, and the rest is as it was. */
  lemma PlaceStoneSpec(r: RoomState, session: SessionId, x: int, y: int, now: Time)
    requires RoomInv(r) && session in r.members
    ensures var (after, result) := PlaceStone(r, session, x, y, now);
            && result != MoveResult.InvalidStone
            && (result != MoveResult.Success ==> after == r)
            && (result == MoveResult.Success ==>
                  && r.phase == RoomPhase.Playing && PlayerStone(r, session) == r.game.nextTurn
                  && GameInv(after.game) && Inside(Pos(x, y))
                  && after == r.(game := after.game, deadline := after.deadline)
                  && after.game.moveCount == r.game.moveCount + 1
                  && (after.game.status == GameState.Playing ==> RoomInv(after) && after.deadline == now + r.turnTime)
                  && (after.game.status != GameState.Playing ==> IsFinal(after.game.status)))
  {
    if r.phase == RoomPhase.Playing {
      var i :| 0 <= i < |r.members| && r.members[i] == session;
      assert session == r.members[0] || session == r.members[1];
      PlaceStoneVerdict(r.game, PlayerStone(r, session), x, y);
    }
  }

  /** A final result reached by a move is recorded once and leaves a waiting room. */
  lemma FinishAfterMove(r: RoomState, after: RoomState, reason: GameEndReason)
    requires RoomInv(r) && r.phase == RoomPhase.Playing && GameInv(after.game) && IsFinal(after.game.status)
    requires after == r.(game := after.game, deadline := after.deadline)
    requires reason == if after.game.status == GameState.Draw then GameEndReason.BoardFull else GameEndReason.FiveInRow
    ensures var (done, pushed) := FinishRoom(after, reason);
            && done == FinishGame(after) && RoomInv(done)
            && pushed == Returned([Record(after, reason)]) && SoundRecord(Record(after, reason))
  {
    FullIsCellCount(after.game.board);
  }
}
