/** The game object of ChatServerFolder/LogicLib/OmokGame.cpp: a fixed board
    updated in place, specified by the rules. */
module OmokGames {
  import opened Protocol
  import opened OmokRules

  class OmokGame {
    const board: array2<GameStone>
    var status: GameState
    var nextTurn: GameStone
    var moveCount: nat

    /** The occupied cells, kept in step with the array. */
    ghost var cells: Board

    ghost predicate Valid()
      reads this, board
    {
      && board.Length0 == BOARD_SIZE && board.Length1 == BOARD_SIZE
      && WellPlaced(cells)
      && forall y, x :: 0 <= y < BOARD_SIZE && 0 <= x < BOARD_SIZE ==> board[y, x] == CellAt(cells, Pos(x, y))
    }

    ghost function Model(): Game
      reads this
    {
      Game(cells, status, nextTurn, moveCount)
    }

    constructor ()
      ensures Valid() && fresh(board) && Model() == NEW_GAME
    {
      board := new GameStone[BOARD_SIZE, BOARD_SIZE]((y, x) => GameStone.Empty);
      status, nextTurn, moveCount := GameState.NotStarted, GameStone.Empty, 0;
      cells := map[];
    }

    method Reset()
      requires Valid()
      modifies this, board
      ensures Valid() && Model() == NEW_GAME
    {
      for y := 0 to BOARD_SIZE
        invariant forall i, x :: 0 <= i < y && 0 <= x < BOARD_SIZE ==> board[i, x] == GameStone.Empty
      {
        for x := 0 to BOARD_SIZE
          invariant forall i, j :: 0 <= i < y && 0 <= j < BOARD_SIZE ==> board[i, j] == GameStone.Empty
          invariant forall j :: 0 <= j < x ==> board[y, j] == GameStone.Empty
        {
          board[y, x] := GameStone.Empty;
        }
      }
      status, nextTurn, moveCount := GameState.NotStarted, GameStone.Empty, 0;
      cells := map[];
    }

    method Start()
      requires Valid()
      modifies this, board
      ensures Valid() && Model() == Started()
    {
      Reset();
      status, nextTurn := GameState.Playing, GameStone.Black;
    }

    /** Walks away from (x, y) while the stones match; the cell itself is not counted. */
    method CountDirection(stone: GameStone, x: int, y: int, dx: int, dy: int, ghost a: Axis, ghost forwards: bool)
      returns (count: nat)
      requires Valid() && stone != GameStone.Empty
      requires Walk(Pos(x, y), a, forwards, 1) == Pos(x + dx, y + dy)
      ensures count == RunLength(cells, stone, Walk(Pos(x, y), a, forwards, 1), a, forwards)
    {
      count := 0;
      var nextX, nextY := x + dx, y + dy;
      ghost var next := Walk(Pos(x, y), a, forwards, 1);
      ghost var all := RunLength(cells, stone, next, a, forwards);
      while Inside(Pos(nextX, nextY))
        invariant next == Pos(nextX, nextY)
        invariant count + RunLength(cells, stone, next, a, forwards) == all
        decreases StepsInside(next, a, forwards)
      {
        RunLengthStep(cells, stone, next, a, forwards);
        assert Holds(cells, stone, next) <==> board[nextY, nextX] == stone;
        if board[nextY, nextX] != stone {
          break;
        }
        count := count + 1;
        nextX, nextY := nextX + dx, nextY + dy;
        next := Walk(next, a, forwards, 1);
      }
    }

    method HasWinningLine(stone: GameStone, x: int, y: int) returns (wins: bool)
      requires Valid() && stone != GameStone.Empty
      ensures wins <==> WinsThrough(cells, stone, Pos(x, y))
    {
      var directions := [(1, 0), (0, 1), (1, 1), (1, -1)];
      ghost var axes := [East, South, SouthEast, NorthEast];
      for i := 0 to |directions|
        invariant forall j :: 0 <= j < i ==> !WinsAlong(cells, stone, Pos(x, y), axes[j])
      {
        var (dx, dy) := directions[i];
        var ahead := CountDirection(stone, x, y, dx, dy, axes[i], true);
        var behind := CountDirection(stone, x, y, -dx, -dy, axes[i], false);
        if 1 + ahead + behind >= WIN_LENGTH {
          assert WinsAlong(cells, stone, Pos(x, y), axes[i]);
          return true;
        }
      }
      forall a: Axis ensures !WinsAlong(cells, stone, Pos(x, y), a) {
        assert a == axes[0] || a == axes[1] || a == axes[2] || a == axes[3];
      }
      return false;
    }

    method TryPlaceStone(stone: GameStone, x: int, y: int) returns (r: MoveResult)
      requires Valid()
      modifies this, board
      ensures Valid()
      ensures (Model(), r) == OmokRules.TryPlaceStone(old(Model()), stone, x, y)
    {
      if status != GameState.Playing {
        return MoveResult.GameNotRunning;
      }
      if stone != GameStone.Black && stone != GameStone.White {
        return MoveResult.InvalidStone;
      }
      if !Inside(Pos(x, y)) {
        return MoveResult.OutOfBounds;
      }
      if stone != nextTurn {
        return MoveResult.NotYourTurn;
      }
      if board[y, x] != GameStone.Empty {
        return MoveResult.Occupied;
      }
      board[y, x] := stone;
      cells := cells[Pos(x, y) := stone];
      moveCount := moveCount + 1;
      var wins := HasWinningLine(stone, x, y);
      if wins {
        status := if stone == GameStone.Black then GameState.BlackWon else GameState.WhiteWon;
        nextTurn := GameStone.Empty;
        return MoveResult.Success;
      }
      if moveCount == BOARD_SIZE * BOARD_SIZE {
        status := GameState.Draw;
        nextTurn := GameStone.Empty;
        return MoveResult.Success;
      }
      nextTurn := if stone == GameStone.Black then GameStone.White else GameStone.Black;
      return MoveResult.Success;
    }

    method Forfeit(loser: GameStone) returns (ok: bool)
      requires Valid()
      modifies this
      ensures Valid()
      ensures (Model(), ok) == OmokRules.Forfeit(old(Model()), loser)
    {
      if status != GameState.Playing {
        return false;
      }
      if loser != GameStone.Black && loser != GameStone.White {
        return false;
      }
      status := if loser == GameStone.Black then GameState.WhiteWon else GameState.BlackWon;
      nextTurn := GameStone.Empty;
      return true;
    }
  }
}
