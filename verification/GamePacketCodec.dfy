/** The game packets on the wire (Common/GamePacketCodec.h). */
module GamePacketCodec {
  import opened Protocol
  import opened WireFormat

  datatype GameMoveNotification = GameMoveNotification(
    roomId: uint32, game: uint32, x: byte, y: byte, placed: GameStone, nextTurn: GameStone,
    state: GameState, moveCount: uint32)

  datatype GameEndNotification = GameEndNotification(
    roomId: uint32, game: uint32, state: GameState, reason: GameEndReason, moveCount: uint32)

  datatype GameMoveRequest = GameMoveRequest(roomId: uint32, game: uint32, x: byte, y: byte)

  // ----- codes of the enumerations -----

  function StoneCode(s: GameStone): byte {
    match s case Empty => 0 case Black => 1 case White => 2
  }

  function StateCode(s: GameState): byte {
    match s case NotStarted => 0 case Playing => 1 case BlackWon => 2 case WhiteWon => 3 case Draw => 4
  }

  function ReasonCode(r: GameEndReason): byte {
    match r
    case FiveInRow => 1 case BoardFull => 2 case Resigned => 3 case TurnTimeout => 4 case LeftRoom => 5 case Disconnected => 6
  }

  function MoveResultCode(r: GameMoveResult): byte {
    match r
    case Success => 0 case NotLoggedIn => 1 case NotInRoom => 2 case WrongRoom => 3 case GameNotRunning => 4
    case OutOfBounds => 5 case NotYourTurn => 6 case Occupied => 7 case StateMismatch => 8 case StaleGame => 9
  }

  function StoneNamed(code: byte): Option<GameStone> {
    if code == 0 then Some(GameStone.Empty) else if code == 1 then Some(GameStone.Black)
    else if code == 2 then Some(GameStone.White) else None
  }

  function StateNamed(code: byte): Option<GameState> {
    if code == 0 then Some(GameState.NotStarted) else if code == 1 then Some(GameState.Playing)
    else if code == 2 then Some(GameState.BlackWon) else if code == 3 then Some(GameState.WhiteWon)
    else if code == 4 then Some(GameState.Draw) else None
  }

  function ReasonNamed(code: byte): Option<GameEndReason> {
    if code == 1 then Some(GameEndReason.FiveInRow) else if code == 2 then Some(GameEndReason.BoardFull)
    else if code == 3 then Some(GameEndReason.Resigned) else if code == 4 then Some(GameEndReason.TurnTimeout)
    else if code == 5 then Some(GameEndReason.LeftRoom) else if code == 6 then Some(GameEndReason.Disconnected) else None
  }

  lemma CodesAreExact(code: byte)
    ensures forall s :: StoneNamed(code) == Some(s) <==> StoneCode(s) == code
    ensures forall s :: StateNamed(code) == Some(s) <==> StateCode(s) == code
    ensures forall r :: ReasonNamed(code) == Some(r) <==> ReasonCode(r) == code
  {
  }

  // ----- which notifications may be sent -----

  predicate IsValidGameMove(p: GameMoveNotification) {
    && p.roomId != 0 && p.game != 0 && p.x < GAME_BOARD_SIZE && p.y < GAME_BOARD_SIZE
    && 1 <= p.moveCount <= GAME_BOARD_SIZE * GAME_BOARD_SIZE
    && p.placed != GameStone.Empty
    && match p.state
       case Playing => p.moveCount < GAME_BOARD_SIZE * GAME_BOARD_SIZE && p.nextTurn == Opponent(p.placed)
       case BlackWon => p.placed == GameStone.Black && p.nextTurn == GameStone.Empty
       case WhiteWon => p.placed == GameStone.White && p.nextTurn == GameStone.Empty
       case Draw => p.nextTurn == GameStone.Empty && p.moveCount == GAME_BOARD_SIZE * GAME_BOARD_SIZE
       case NotStarted => false
  }

  predicate IsValidGameEnd(p: GameEndNotification) {
    && p.roomId != 0 && p.game != 0 && p.moveCount <= GAME_BOARD_SIZE * GAME_BOARD_SIZE
    && var hasWinner := p.state == GameState.BlackWon || p.state == GameState.WhiteWon;
    if p.reason == GameEndReason.BoardFull then p.state == GameState.Draw && p.moveCount == GAME_BOARD_SIZE * GAME_BOARD_SIZE else hasWinner
  }

  // ----- bytes -----

  function GameMoveBytes(p: GameMoveNotification): Bytes {
    U32Bytes(p.roomId) + (U32Bytes(p.game) + ([p.x, p.y, StoneCode(p.placed), StoneCode(p.nextTurn), StateCode(p.state)]
      + U32Bytes(p.moveCount)))
  }

  function GameEndBytes(p: GameEndNotification): Bytes {
    U32Bytes(p.roomId) + (U32Bytes(p.game) + ([StateCode(p.state), ReasonCode(p.reason)] + U32Bytes(p.moveCount)))
  }

  /** A move as it stands in the body, its enumerations not yet checked. */
  datatype MoveFields = MoveFields(
    roomId: uint32, game: uint32, x: byte, y: byte, placed: byte, nextTurn: byte, state: byte, moveCount: uint32)

  function GetMoveFields(b: Bytes): Read<MoveFields> {
    var (roomId, b1) :- GetU32(b);
    var (game, b2) :- GetU32(b1);
    var (x, b3) :- GetU8(b2);
    var (y, b4) :- GetU8(b3);
    var (placed, b5) :- GetU8(b4);
    var (next, b6) :- GetU8(b5);
    var (state, b7) :- GetU8(b6);
    var (moveCount, b8) :- GetU32(b7);
    Got(MoveFields(roomId, game, x, y, placed, next, state, moveCount), b8)
  }

  /** The move the fields stand for, when every code is known and the move is valid. */
  function NamedMove(f: MoveFields): Option<GameMoveNotification> {
    var placed, next, state := StoneNamed(f.placed), StoneNamed(f.nextTurn), StateNamed(f.state);
    if placed == None || next == None || state == None then None
    else
      var p := GameMoveNotification(f.roomId, f.game, f.x, f.y, placed.value, next.value, state.value, f.moveCount);
      if IsValidGameMove(p) then Some(p) else None
  }

  function GetGameMove(b: Bytes): Read<GameMoveNotification> {
    var (fields, rest) :- GetMoveFields(b);
    if NamedMove(fields) == None then Fail else Got(NamedMove(fields).value, rest)
  }

  function DecodedGameMove(body: Bytes): Option<GameMoveNotification> {
    Whole(GetGameMove(body))
  }

  function GetGameEnd(b: Bytes): Read<GameEndNotification> {
    var (roomId, b1) :- GetU32(b);
    var (game, b2) :- GetU32(b1);
    var (state, b3) :- GetU8(b2);
    var (reason, b4) :- GetU8(b3);
    var (moveCount, b5) :- GetU32(b4);
    if StateNamed(state) == None || ReasonNamed(reason) == None then Fail
    else
      var p := GameEndNotification(roomId, game, StateNamed(state).value, ReasonNamed(reason).value, moveCount);
      if IsValidGameEnd(p) then Got(p, b5) else Fail
  }

  function DecodedGameEnd(body: Bytes): Option<GameEndNotification> {
    Whole(GetGameEnd(body))
  }

  /** The move codec is exact: a body decodes to p iff p is valid and encodes to it. */
  lemma GameMoveExact(body: Bytes, p: GameMoveNotification)
    ensures DecodedGameMove(body) == Some(p) <==> IsValidGameMove(p) && body == GameMoveBytes(p)
  {
    hide GetU32, GetU8, U32Bytes, IsValidGameMove;
    if DecodedGameMove(body) == Some(p) {
      var b1 := GetU32(body).rest;
      var b2 := GetU32(b1).rest;
      var b3 := GetU8(b2).rest;
      var b4 := GetU8(b3).rest;
      var b5 := GetU8(b4).rest;
      var b6 := GetU8(b5).rest;
      var b7 := GetU8(b6).rest;
      CodesAreExact(GetU8(b4).value);
      CodesAreExact(GetU8(b5).value);
      CodesAreExact(GetU8(b6).value);
      U32Exact(body, p.roomId, b1);
      U32Exact(b1, p.game, b2);
      U8Exact(b2, p.x, b3);
      U8Exact(b3, p.y, b4);
      U8Exact(b4, StoneCode(p.placed), b5);
      U8Exact(b5, StoneCode(p.nextTurn), b6);
      U8Exact(b6, StateCode(p.state), b7);
      U32Exact(b7, p.moveCount, []);
      assert body == GameMoveBytes(p);
    }
    if IsValidGameMove(p) && body == GameMoveBytes(p) {
      var c7 := U32Bytes(p.moveCount) + [];
      var c6 := [StateCode(p.state)] + c7;
      var c5 := [StoneCode(p.nextTurn)] + c6;
      var c4 := [StoneCode(p.placed)] + c5;
      var c3 := [p.y] + c4;
      var c2 := [p.x] + c3;
      var c1 := U32Bytes(p.game) + c2;
      assert body == U32Bytes(p.roomId) + c1;
      U32Exact(body, p.roomId, c1);
      U32Exact(c1, p.game, c2);
      U8Exact(c2, p.x, c3);
      U8Exact(c3, p.y, c4);
      U8Exact(c4, StoneCode(p.placed), c5);
      U8Exact(c5, StoneCode(p.nextTurn), c6);
      U8Exact(c6, StateCode(p.state), c7);
      U32Exact(c7, p.moveCount, []);
      CodesAreExact(StoneCode(p.placed));
      CodesAreExact(StoneCode(p.nextTurn));
      CodesAreExact(StateCode(p.state));
    }
  }

  lemma GameEndExact(body: Bytes, p: GameEndNotification)
    ensures DecodedGameEnd(body) == Some(p) <==> IsValidGameEnd(p) && body == GameEndBytes(p)
  {
    hide GetU32, GetU8, U32Bytes, IsValidGameEnd;
    if DecodedGameEnd(body) == Some(p) {
      var b1 := GetU32(body).rest;
      var b2 := GetU32(b1).rest;
      var b3 := GetU8(b2).rest;
      var b4 := GetU8(b3).rest;
      CodesAreExact(GetU8(b2).value);
      CodesAreExact(GetU8(b3).value);
      U32Exact(body, p.roomId, b1);
      U32Exact(b1, p.game, b2);
      U8Exact(b2, StateCode(p.state), b3);
      U8Exact(b3, ReasonCode(p.reason), b4);
      U32Exact(b4, p.moveCount, []);
      assert body == GameEndBytes(p);
    }
    if IsValidGameEnd(p) && body == GameEndBytes(p) {
      var c4 := U32Bytes(p.moveCount) + [];
      var c3 := [ReasonCode(p.reason)] + c4;
      var c2 := [StateCode(p.state)] + c3;
      var c1 := U32Bytes(p.game) + c2;
      assert body == U32Bytes(p.roomId) + c1;
      U32Exact(body, p.roomId, c1);
      U32Exact(c1, p.game, c2);
      U8Exact(c2, StateCode(p.state), c3);
      U8Exact(c3, ReasonCode(p.reason), c4);
      U32Exact(c4, p.moveCount, []);
      CodesAreExact(StateCode(p.state));
      CodesAreExact(ReasonCode(p.reason));
    }
  }

  // ----- the encoders and decoders -----

  method EncodeGameMove(p: GameMoveNotification) returns (out: Option<Bytes>)
    ensures out == if IsValidGameMove(p) then Some(GameMoveBytes(p)) else None
  {
    hide U32Bytes;
    if !IsValidGameMove(p) {
      return None;
    }
    var writer := new Writer();
    writer.U32(p.roomId);
    writer.U32(p.game);
    writer.U8(p.x);
    writer.U8(p.y);
    writer.U8(StoneCode(p.placed));
    writer.U8(StoneCode(p.nextTurn));
    writer.U8(StateCode(p.state));
    writer.U32(p.moveCount);
    assert writer.body == GameMoveBytes(p);
    U32IsFourBytes(p.roomId);
    U32IsFourBytes(p.game);
    U32IsFourBytes(p.moveCount);
    out := writer.Finish();
  }

  method ReadMoveFields(reader: Reader) returns (out: Option<MoveFields>)
    requires reader.Valid()
    modifies reader
    ensures reader.Valid()
    ensures match GetMoveFields(old(reader.Rest()))
            case Fail => out == None
            case Got(fields, rest) => out == Some(fields) && reader.Rest() == rest
  {
    hide GetU32, GetU8;
    var roomId := reader.U32();
    if roomId == None { return None; }
    var game := reader.U32();
    if game == None { return None; }
    var x := reader.U8();
    if x == None { return None; }
    var y := reader.U8();
    if y == None { return None; }
    var placed := reader.U8();
    if placed == None { return None; }
    var next := reader.U8();
    if next == None { return None; }
    var state := reader.U8();
    if state == None { return None; }
    var moveCount := reader.U32();
    if moveCount == None { return None; }
    out := Some(MoveFields(roomId.value, game.value, x.value, y.value, placed.value, next.value, state.value, moveCount.value));
  }

  method DecodeGameMove(body: Bytes) returns (out: Option<GameMoveNotification>)
    ensures out == DecodedGameMove(body)
  {
    hide GetMoveFields, NamedMove;
    var reader := new Reader(body);
    var fields := ReadMoveFields(reader);
    if fields == None {
      return None;
    }
    var done := reader.Done();
    out := if done then NamedMove(fields.value) else None;
  }

  method EncodeGameEnd(p: GameEndNotification) returns (out: Option<Bytes>)
    ensures out == if IsValidGameEnd(p) then Some(GameEndBytes(p)) else None
  {
    hide U32Bytes;
    if !IsValidGameEnd(p) {
      return None;
    }
    var writer := new Writer();
    writer.U32(p.roomId);
    writer.U32(p.game);
    writer.U8(StateCode(p.state));
    writer.U8(ReasonCode(p.reason));
    writer.U32(p.moveCount);
    assert writer.body == GameEndBytes(p);
    U32IsFourBytes(p.roomId);
    U32IsFourBytes(p.game);
    U32IsFourBytes(p.moveCount);
    out := writer.Finish();
  }

  method DecodeGameEnd(body: Bytes) returns (out: Option<GameEndNotification>)
    ensures out == DecodedGameEnd(body)
  {
    hide GetU32, GetU8, IsValidGameEnd, StateNamed, ReasonNamed, Reader.Rest, Reader.Valid;
    var reader := new Reader(body);
    var roomId := reader.U32();
    if roomId == None { return None; }
    var game := reader.U32();
    if game == None { return None; }
    var state := reader.U8();
    if state == None { return None; }
    var reason := reader.U8();
    if reason == None { return None; }
    var moveCount := reader.U32();
    if moveCount == None { return None; }
    var done := reader.Done();
    var named, cause := StateNamed(state.value), ReasonNamed(reason.value);
    if !done || named == None || cause == None {
      return None;
    }
    var p := GameEndNotification(roomId.value, game.value, named.value, cause.value, moveCount.value);
    out := if IsValidGameEnd(p) then Some(p) else None;
  }

  // ----- requests and one-result responses -----

  function MoveResponseBytes(result: GameMoveResult, game: uint32): Bytes {
    [MoveResultCode(result)] + U32Bytes(game)
  }

  function GetMoveRequest(b: Bytes): Read<GameMoveRequest> {
    var (roomId, b1) :- GetU32(b);
    var (game, b2) :- GetU32(b1);
    var (x, b3) :- GetU8(b2);
    var (y, b4) :- GetU8(b3);
    Got(GameMoveRequest(roomId, game, x, y), b4)
  }

  /** A room and a game. */
  function GetResignRequest(b: Bytes): Read<(uint32, uint32)> {
    var (roomId, b1) :- GetU32(b);
    var (game, b2) :- GetU32(b1);
    Got((roomId, game), b2)
  }
}
