/** The client's view object of ChatClient/ClientGameView.h: a fixed board overwritten in
    place, specified by the replica rules. */
module ClientGameViews {
  import opened Protocol
  import opened OmokRules
  import opened WireFormat
  import opened GamePacketCodec
  import opened Replica

  class ClientGameView {
    var roomId: uint32
    var roomPlaying: bool
    var state: GameState
    var nextTurn: GameStone
    var moveCount: uint32
    const cells: array2<GameStone>
    var game: uint32

    /** The occupied cells, kept in step with the array. */
    ghost var board: Board

    ghost predicate Valid()
      reads this, cells
    {
      && cells.Length0 == GAME_BOARD_SIZE && cells.Length1 == GAME_BOARD_SIZE
      && forall y, x :: 0 <= y < GAME_BOARD_SIZE && 0 <= x < GAME_BOARD_SIZE ==> cells[y, x] == CellAt(board, Pos(x, y))
    }

    ghost function Model(): View
      reads this
    {
      View(roomId, roomPlaying, state, nextTurn, moveCount, board, game)
    }

    constructor ()
      ensures Valid() && fresh(cells) && Model() == ResetView(0)
    {
      cells := new GameStone[GAME_BOARD_SIZE, GAME_BOARD_SIZE]((y, x) => GameStone.Empty);
      roomId, roomPlaying, state, nextTurn, moveCount, game := 0, false, GameState.NotStarted, GameStone.Empty, 0, 0;
      board := map[];
    }

    method Reset(room: uint32)
      requires Valid()
      modifies this, cells
      ensures Valid() && Model() == ResetView(room)
    {
      roomId, roomPlaying, state, nextTurn, moveCount, game := room, false, GameState.NotStarted, GameStone.Empty, 0, 0;
      for y := 0 to GAME_BOARD_SIZE
        invariant Model() == ResetView(room).(cells := old(board))
        invariant forall i, x :: 0 <= i < y && 0 <= x < GAME_BOARD_SIZE ==> cells[i, x] == GameStone.Empty
      {
        for x := 0 to GAME_BOARD_SIZE
          invariant Model() == ResetView(room).(cells := old(board))
          invariant forall i, j :: 0 <= i < y && 0 <= j < GAME_BOARD_SIZE ==> cells[i, j] == GameStone.Empty
          invariant forall j :: 0 <= j < x ==> cells[y, j] == GameStone.Empty
        {
          cells[y, x] := GameStone.Empty;
        }
      }
      board := map[];
    }

    method Begin(room: uint32, gameId: uint32)
      requires Valid()
      modifies this, cells
      ensures Valid() && Model() == BeginView(room, gameId)
    {
      Reset(room);
      game, roomPlaying, state, nextTurn := gameId, true, GameState.Playing, GameStone.Black;
    }

    method Apply(packet: GameMoveNotification) returns (applied: bool)
      requires Valid()
      modifies this, cells
      ensures Valid()
      ensures (Model(), applied) == ApplyMove(old(Model()), packet)
    {
      if !roomPlaying || state != GameState.Playing || packet.roomId != roomId
         || packet.x >= GAME_BOARD_SIZE || packet.y >= GAME_BOARD_SIZE
         || packet.moveCount != NextCount(moveCount) || packet.placed != nextTurn
         || cells[packet.y, packet.x] != GameStone.Empty || packet.game != game {
        return false;
      }
      cells[packet.y, packet.x] := packet.placed;
      board := board[Pos(packet.x, packet.y) := packet.placed];
      state, nextTurn, moveCount := packet.state, packet.nextTurn, packet.moveCount;
      return true;
    }
  }
}
