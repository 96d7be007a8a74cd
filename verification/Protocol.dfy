/** The vocabulary shared by server and client: protocol constants, enumerations
    and packet records (Common/PacketProtocol.h, GamePackets.h, RoomPackets.h). */
module Protocol {
  const HEADER_SIZE: nat := 4
  const MAX_PACKET_SIZE: nat := 4096
  const MAX_BODY_SIZE: nat := MAX_PACKET_SIZE - HEADER_SIZE
  const MAX_NICKNAME_BYTES: nat := 16
  const MAX_CHAT_MESSAGE_BYTES: nat := 256
  const MAX_ROOM_TITLE_BYTES: nat := 48
  const ROOM_LIST_PAGE_SIZE: nat := 20
  const ROOM_PLAYER_COUNT: nat := 2
  const GAME_BOARD_SIZE: nat := 15
  const UINT16_MAX: nat := 0xFFFF
  const UINT32_MAX: nat := 0xFFFF_FFFF
  const UINT64_MAX: nat := 0xFFFF_FFFF_FFFF_FFFF

  const INVALID_ROOM_ID: nat := 0

  const LOGIN_REQ: nat := 1
  const LOGIN_RES: nat := 2
  const ECHO_REQ: nat := 3
  const ECHO_RES: nat := 4
  const CHAT_REQ: nat := 5
  const CHAT_RES: nat := 6
  const CHAT_NTF: nat := 7
  const ROOM_CREATE_REQ: nat := 20
  const ROOM_CREATE_RES: nat := 21
  const ROOM_LIST_REQ: nat := 22
  const ROOM_LIST_RES: nat := 23
  const ROOM_ENTER_REQ: nat := 24
  const ROOM_ENTER_RES: nat := 25
  const ROOM_LEAVE_REQ: nat := 26
  const ROOM_LEAVE_RES: nat := 27
  const ROOM_MEMBER_NTF: nat := 28
  const ROOM_READY_REQ: nat := 29
  const ROOM_READY_RES: nat := 30
  const ROOM_START_REQ: nat := 31
  const ROOM_START_RES: nat := 32
  const ROOM_STATE_NTF: nat := 33
  const GAME_MOVE_REQ: nat := 40
  const GAME_MOVE_RES: nat := 41
  const GAME_MOVE_NTF: nat := 42
  const GAME_RESIGN_REQ: nat := 43
  const GAME_RESIGN_RES: nat := 44
  const GAME_END_NTF: nat := 45

  type byte = x: int | 0 <= x < 256
  type Bytes = seq<byte>
  type SessionId = nat
  type RoomId = nat
  type GameId = nat
  type Time = int

  datatype Option<+T> = None | Some(value: T)

  datatype Exception = InvalidArgument | LogicError

  /** What a call that may throw does: it returns a value or throws. */
  datatype Outcome<+T> = Returned(value: T) | Threw(what: Exception)

  datatype GameStone = Empty | Black | White

  datatype GameState = NotStarted | Playing | BlackWon | WhiteWon | Draw

  datatype GameEndReason = FiveInRow | BoardFull | Resigned | TurnTimeout | LeftRoom | Disconnected

  datatype RoomPhase = Waiting | Playing

  datatype LoginResult = Success | InvalidNickname | NicknameInUse | AlreadyLoggedIn

  datatype ChatResult = Success | NotLoggedIn | InvalidMessage | NotInRoom | StateMismatch

  datatype RoomResult =
    | Success | UserNotFound | AlreadyInRoom | NotInRoom | InvalidTitle | RoomLimitReached
    | RoomIdExhausted | StateMismatch | RoomNotFound | RoomFull | InvalidRequest | NotHost
    | HostCannotReady | NotEnoughPlayers | NotAllReady | GameAlreadyStarted | GameInProgress
    | GameIdExhausted

  datatype GameMoveResult =
    | Success | NotLoggedIn | NotInRoom | WrongRoom | GameNotRunning | OutOfBounds | NotYourTurn
    | Occupied | StateMismatch | StaleGame

  datatype RoomMemberChange = Joined | Left | Disconnected

  function Opponent(s: GameStone): GameStone {
    if s == GameStone.Black then GameStone.White else GameStone.Black
  }

  function WinFor(s: GameStone): GameState {
    if s == GameStone.Black then GameState.BlackWon else GameState.WhiteWon
  }

  lemma AppendTwice(a: Bytes, b: Bytes, c: Bytes)
    ensures (a + b) + c == a + (b + c)
  {
  }
}
