/** The rules of the omok game as values: what one call does to a game, the
    whole-board meaning of winning, and the invariant every run keeps. */
module OmokRules {
  import opened Protocol

  const BOARD_SIZE: nat := GAME_BOARD_SIZE
  const WIN_LENGTH: nat := 5
  const CELL_COUNT: nat := BOARD_SIZE * BOARD_SIZE

  datatype MoveResult = Success | GameNotRunning | InvalidStone | OutOfBounds | NotYourTurn | Occupied

  datatype Pos = Pos(x: int, y: int)

  /** The four lines through a cell; y grows downwards. */
  datatype Axis = East | South | SouthEast | NorthEast

  /** The occupied cells only; a cell outside the domain is empty. */
  type Board = map<Pos, GameStone>

  datatype Game = Game(board: Board, status: GameState, nextTurn: GameStone, moveCount: nat)

  predicate Inside(p: Pos) {
    0 <= p.x < BOARD_SIZE && 0 <= p.y < BOARD_SIZE
  }

  /** The cell k steps from p along the axis; backwards when k is negative. */
  function Step(p: Pos, a: Axis, k: int): Pos {
    match a
    case East => Pos(p.x + k, p.y)
    case South => Pos(p.x, p.y + k)
    case SouthEast => Pos(p.x + k, p.y + k)
    case NorthEast => Pos(p.x + k, p.y - k)
  }

  predicate Holds(b: Board, s: GameStone, p: Pos) {
    p in b && b[p] == s
  }

  function CellAt(b: Board, p: Pos): GameStone {
    if p in b then b[p] else GameStone.Empty
  }

  /** k steps taken one of the two ways along an axis. */
  function Walk(p: Pos, a: Axis, forwards: bool, k: int): Pos {
    Step(p, a, if forwards then k else -k)
  }

  /** Steps left before a walk from p has left the board. */
  function StepsInside(p: Pos, a: Axis, forwards: bool): nat {
    if !Inside(p) then 0
    else
      var position := if a == South then p.y else p.x;
      if forwards then BOARD_SIZE - position else position + 1
  }

  /** How many stones s stand in an unbroken row from p on, p included. */
  function RunLength(b: Board, s: GameStone, p: Pos, a: Axis, forwards: bool): nat
    decreases StepsInside(p, a, forwards)
  {
    if Inside(p) && Holds(b, s, p) then 1 + RunLength(b, s, Walk(p, a, forwards, 1), a, forwards) else 0
  }

  lemma RunLengthStep(b: Board, s: GameStone, p: Pos, a: Axis, forwards: bool)
    requires Inside(p)
    ensures StepsInside(Walk(p, a, forwards, 1), a, forwards) < StepsInside(p, a, forwards)
    ensures RunLength(b, s, p, a, forwards) == if Holds(b, s, p) then 1 + RunLength(b, s, Walk(p, a, forwards, 1), a, forwards) else 0
  {
  }

  /** The incremental test: a row through the stone just placed at p. */
  ghost predicate WinsThrough(b: Board, s: GameStone, p: Pos) {
    exists a :: WinsAlong(b, s, p, a)
  }

  predicate WinsAlong(b: Board, s: GameStone, p: Pos, a: Axis) {
    1 + RunLength(b, s, Step(p, a, 1), a, true) + RunLength(b, s, Step(p, a, -1), a, false) >= WIN_LENGTH
  }

  /** WIN_LENGTH stones s in a row, starting at p. */
  ghost predicate Line(b: Board, s: GameStone, p: Pos, a: Axis) {
    forall k :: 0 <= k < WIN_LENGTH ==> Holds(b, s, Step(p, a, k))
  }

  /** The whole-board meaning of a win: somewhere there is a line. */
  ghost predicate HasLine(b: Board, s: GameStone) {
    exists p, a :: Line(b, s, p, a)
  }

  ghost predicate WellPlaced(b: Board) {
    forall p :: p in b ==> Inside(p) && b[p] != GameStone.Empty
  }

  ghost predicate Full(b: Board) {
    forall p :: Inside(p) ==> p in b
  }

  function Cells(b: Board, s: GameStone): set<Pos> {
    set p | p in b && b[p] == s
  }

  // ----- what each call does -----

  const NEW_GAME: Game := Game(map[], GameState.NotStarted, GameStone.Empty, 0)

  function Started(): Game {
    NEW_GAME.(status := GameState.Playing, nextTurn := GameStone.Black)
  }

  ghost function TryPlaceStone(g: Game, stone: GameStone, x: int, y: int): (Game, MoveResult) {
    var p := Pos(x, y);
    if g.status != GameState.Playing then (g, MoveResult.GameNotRunning)
    else if stone == GameStone.Empty then (g, MoveResult.InvalidStone)
    else if !Inside(p) then (g, MoveResult.OutOfBounds)
    else if stone != g.nextTurn then (g, MoveResult.NotYourTurn)
    else if p in g.board then (g, MoveResult.Occupied)
    else
      var b := g.board[p := stone];
      var count := g.moveCount + 1;
      if WinsThrough(b, stone, p) then (Game(b, WinFor(stone), GameStone.Empty, count), MoveResult.Success)
      else if count == CELL_COUNT then (Game(b, GameState.Draw, GameStone.Empty, count), MoveResult.Success)
      else (Game(b, GameState.Playing, Opponent(stone), count), MoveResult.Success)
  }

  function Forfeit(g: Game, loser: GameStone): (Game, bool) {
    if g.status != GameState.Playing || loser == GameStone.Empty then (g, false)
    else (g.(status := WinFor(Opponent(loser)), nextTurn := GameStone.Empty), true)
  }

  // ----- the incremental test agrees with the whole board -----

  /** The n cells after p, p itself left out, all hold s. */
  ghost predicate Ahead(b: Board, s: GameStone, p: Pos, a: Axis, forwards: bool, n: int) {
    forall k :: 1 <= k <= n ==> Holds(b, s, Walk(p, a, forwards, k))
  }

  lemma AheadOneFurther(b: Board, s: GameStone, p: Pos, a: Axis, forwards: bool, n: nat)
    requires n > 0
    ensures var q := Walk(p, a, forwards, 1);
            Ahead(b, s, p, a, forwards, n) <==> Holds(b, s, q) && Ahead(b, s, q, a, forwards, n - 1)
  {
    var q := Walk(p, a, forwards, 1);
    assert forall k :: Walk(q, a, forwards, k) == Walk(p, a, forwards, k + 1);
    if Ahead(b, s, p, a, forwards, n) {
      forall k | 1 <= k <= n - 1 ensures Holds(b, s, Walk(q, a, forwards, k)) {
        assert Holds(b, s, Walk(p, a, forwards, k + 1));
      }
    }
    if Holds(b, s, q) && Ahead(b, s, q, a, forwards, n - 1) {
      forall k | 1 <= k <= n ensures Holds(b, s, Walk(p, a, forwards, k)) {
        if k > 1 { assert Holds(b, s, Walk(q, a, forwards, k - 1)); }
      }
    }
  }

  /** RunLength counts exactly the unbroken row: at least n iff the n cells after p hold s. */
  lemma {:induction false} RunLengthIsTheRow(b: Board, s: GameStone, p: Pos, a: Axis, forwards: bool, n: nat)
    requires WellPlaced(b)
    ensures RunLength(b, s, Walk(p, a, forwards, 1), a, forwards) >= n <==> Ahead(b, s, p, a, forwards, n)
    decreases n
  {
    if n > 0 {
      var q := Walk(p, a, forwards, 1);
      AheadOneFurther(b, s, p, a, forwards, n);
      if Holds(b, s, q) {
        RunLengthIsTheRow(b, s, q, a, forwards, n - 1);
      }
    }
  }

  /** A line through p leaves j cells behind p and the rest ahead of it. */
  lemma LineThroughWins(b: Board, s: GameStone, p: Pos, q: Pos, a: Axis, j: nat)
    requires WellPlaced(b) && Line(b, s, q, a)
    requires j < WIN_LENGTH && p == Step(q, a, j)
    ensures WinsAlong(b, s, p, a)
  {
    forall k | 1 <= k <= WIN_LENGTH - 1 - j ensures Holds(b, s, Walk(p, a, true, k)) {
      assert Holds(b, s, Step(q, a, j + k));
    }
    forall k | 1 <= k <= j ensures Holds(b, s, Walk(p, a, false, k)) {
      assert Holds(b, s, Step(q, a, j - k));
    }
    RunLengthIsTheRow(b, s, p, a, true, WIN_LENGTH - 1 - j);
    RunLengthIsTheRow(b, s, p, a, false, j);
  }

  lemma LineFromBothSides(b: Board, s: GameStone, p: Pos, a: Axis)
    requires WellPlaced(b) && Holds(b, s, p) && WinsAlong(b, s, p, a)
    ensures HasLine(b, s)
  {
    var ahead := RunLength(b, s, Step(p, a, 1), a, true);
    var behind := RunLength(b, s, Step(p, a, -1), a, false);
    RunLengthIsTheRow(b, s, p, a, true, ahead);
    RunLengthIsTheRow(b, s, p, a, false, behind);
    var back := if behind < WIN_LENGTH then behind else WIN_LENGTH - 1;
    LineFromRows(b, s, p, a, WIN_LENGTH - 1 - back, back);
  }

  lemma LineFromRows(b: Board, s: GameStone, p: Pos, a: Axis, ahead: int, behind: int)
    requires Holds(b, s, p) && 0 <= ahead && 0 <= behind && 1 + ahead + behind == WIN_LENGTH
    requires Ahead(b, s, p, a, true, ahead) && Ahead(b, s, p, a, false, behind)
    ensures Line(b, s, Step(p, a, -behind), a)
  {
    var q := Step(p, a, -behind);
    forall k | 0 <= k < WIN_LENGTH ensures Holds(b, s, Step(q, a, k)) {
      if k > behind {
        assert Holds(b, s, Walk(p, a, true, k - behind));
      } else if k < behind {
        assert Holds(b, s, Walk(p, a, false, behind - k));
      }
    }
  }

  /** A line that does not use the new stone was there before. */
  lemma OlderLine(b: Board, s: GameStone, p: Pos, o: GameStone, q: Pos, a: Axis)
    requires Line(b[p := s], o, q, a)
    requires o != s || forall k :: 0 <= k < WIN_LENGTH ==> Step(q, a, k) != p
    ensures Line(b, o, q, a)
  {
    forall k | 0 <= k < WIN_LENGTH ensures Holds(b, o, Step(q, a, k)) {
      assert Holds(b[p := s], o, Step(q, a, k));
    }
  }

  /** The other colour never gains a line. */
  lemma OtherColourGainsNothing(b: Board, s: GameStone, p: Pos, o: GameStone)
    requires o != s && HasLine(b[p := s], o)
    ensures HasLine(b, o)
  {
    var q, a :| Line(b[p := s], o, q, a);
    OlderLine(b, s, p, o, q, a);
  }

  lemma NewLineIsLocalWin(b: Board, s: GameStone, p: Pos, c: Board)
    requires c == b[p := s] && WellPlaced(c) && HasLine(c, s) && !HasLine(b, s)
    ensures WinsThrough(c, s, p)
  {
    var q, a :| Line(c, s, q, a);
    if j :| 0 <= j < WIN_LENGTH && Step(q, a, j) == p {
      LineThroughWins(c, s, p, q, a, j);
    } else {
      OlderLine(b, s, p, s, q, a);
    }
  }

  /** On a board without a line of s, placing s at p makes one somewhere exactly
      when the four rows through p say so. */
  lemma LocalTestIsGlobal(b: Board, s: GameStone, p: Pos)
    requires WellPlaced(b) && Inside(p) && p !in b && s != GameStone.Empty
    requires !HasLine(b, s)
    ensures WinsThrough(b[p := s], s, p) <==> HasLine(b[p := s], s)
  {
    var c := b[p := s];
    if WinsThrough(c, s, p) {
      var a :| WinsAlong(c, s, p, a);
      LineFromBothSides(c, s, p, a);
    } else if HasLine(c, s) {
      NewLineIsLocalWin(b, s, p, c);
    }
  }

  // ----- a full board has CELL_COUNT stones -----

  ghost function FirstRows(n: nat): set<Pos> {
    set x, y | 0 <= x < BOARD_SIZE && 0 <= y < n :: Pos(x, y)
  }

  ghost function RowPart(y: int, n: nat): set<Pos> {
    set x | 0 <= x < n :: Pos(x, y)
  }

  lemma {:induction false} RowPartSize(y: int, n: nat)
    ensures |RowPart(y, n)| == n
  {
    if n > 0 {
      RowPartSize(y, n - 1);
      assert RowPart(y, n) == RowPart(y, n - 1) + {Pos(n - 1, y)};
    }
  }

  lemma {:induction false} FirstRowsSize(n: nat)
    ensures |FirstRows(n)| == n * BOARD_SIZE
  {
    if n > 0 {
      FirstRowsSize(n - 1);
      RowPartSize(n - 1, BOARD_SIZE);
      assert FirstRows(n) == FirstRows(n - 1) + RowPart(n - 1, BOARD_SIZE);
      assert FirstRows(n - 1) !! RowPart(n - 1, BOARD_SIZE);
    }
  }

  lemma SubsetSize<T>(a: set<T>, b: set<T>)
    requires a <= b
    ensures |a| <= |b|
    ensures |a| == |b| ==> a == b
  {
    assert b == a + (b - a);
    if |a| == |b| { assert |b - a| == 0; }
  }

  /** The move counter reaching CELL_COUNT is the same as every cell being taken. */
  lemma FullIsCellCount(b: Board)
    requires WellPlaced(b)
    ensures |b| <= CELL_COUNT
    ensures |b| == CELL_COUNT <==> Full(b)
  {
    FirstRowsSize(BOARD_SIZE);
    var all := FirstRows(BOARD_SIZE);
    assert forall p :: p in all <==> Inside(p);
    assert |b| == |b.Keys|;
    SubsetSize(b.Keys, all);
    if Full(b) { assert b.Keys == all; }
  }

  // ----- the invariant of every run -----

  /** Black stones on the board less white ones. */
  function Lead(b: Board): int {
    |Cells(b, GameStone.Black)| - |Cells(b, GameStone.White)|
  }

  ghost predicate NoLines(b: Board) {
    !HasLine(b, GameStone.Black) && !HasLine(b, GameStone.White)
  }

  ghost predicate GameInv(g: Game) {
    && WellPlaced(g.board)
    && g.moveCount == |g.board| <= CELL_COUNT
    && 0 <= Lead(g.board) <= 1
    && (g.status == GameState.NotStarted ==> g.board == map[])
    && (g.status == GameState.Playing ==>
          && g.nextTurn == (if Lead(g.board) == 0 then GameStone.Black else GameStone.White)
          && NoLines(g.board)
          && !Full(g.board))
    && (g.status != GameState.Playing ==> g.nextTurn == GameStone.Empty)
    && (g.status == GameState.Draw ==> Full(g.board) && NoLines(g.board))
  }

  lemma PlacingAddsOne(b: Board, s: GameStone, p: Pos)
    requires p !in b
    ensures |b[p := s]| == |b| + 1
  {
    assert b[p := s].Keys == b.Keys + {p};
    assert |b[p := s]| == |b[p := s].Keys| && |b| == |b.Keys|;
  }

  lemma PlacingCells(b: Board, s: GameStone, p: Pos, o: GameStone)
    requires p !in b
    ensures Cells(b[p := s], o) == if o == s then Cells(b, o) + {p} else Cells(b, o)
  {
    forall q ensures q in Cells(b[p := s], o) <==> q in Cells(b, o) || (o == s && q == p) { }
  }

  lemma PlacingCounts(b: Board, s: GameStone, p: Pos)
    requires p !in b && s != GameStone.Empty
    ensures |b[p := s]| == |b| + 1
    ensures Lead(b[p := s]) == Lead(b) + (if s == GameStone.Black then 1 else -1)
  {
    PlacingAddsOne(b, s, p);
    PlacingCells(b, s, p, GameStone.Black);
    PlacingCells(b, s, p, GameStone.White);
  }

  /** Every accepted stone: the invariant is kept, exactly one cell changes, and
      the status is the whole-board verdict. A rejected one changes nothing. */
  lemma PlaceStoneVerdict(g: Game, stone: GameStone, x: int, y: int)
    requires GameInv(g)
    ensures var (h, r) := TryPlaceStone(g, stone, x, y);
            && GameInv(h)
            && (r != MoveResult.Success ==> h == g)
            && (r == MoveResult.Success <==>
                  g.status == GameState.Playing && stone == g.nextTurn && Inside(Pos(x, y)) && Pos(x, y) !in g.board)
            && (r == MoveResult.Success ==>
                  && h.board == g.board[Pos(x, y) := stone]
                  && h.moveCount == g.moveCount + 1
                  && (HasLine(h.board, stone) <==> h.status == WinFor(stone))
                  && (Full(h.board) && !HasLine(h.board, stone) <==> h.status == GameState.Draw)
                  && (!Full(h.board) && !HasLine(h.board, stone) <==> h.status == GameState.Playing)
                  && (h.status == GameState.Playing ==> h.nextTurn == Opponent(stone))
                  && !HasLine(h.board, Opponent(stone)))
  {
    var (h, r) := TryPlaceStone(g, stone, x, y);
    if r == MoveResult.Success {
      var p := Pos(x, y);
      LocalTestIsGlobal(g.board, stone, p);
      PlacingCounts(g.board, stone, p);
      FullIsCellCount(h.board);
      if HasLine(h.board, Opponent(stone)) { OtherColourGainsNothing(g.board, stone, p, Opponent(stone)); }
    }
  }

  lemma StartedInv()
    ensures GameInv(NEW_GAME) && GameInv(Started())
  {
    var p: Pos := Pos(0, 0);
    assert Inside(p) && p !in Started().board;
    forall s, q, a ensures !Line(map[], s, q, a) {
      assert !Holds(map[], s, Step(q, a, 0));
    }
  }

  // ----- any sequence of calls -----

  datatype Call = Reset | Start | Place(stone: GameStone, x: int, y: int) | GiveUp(loser: GameStone)

  ghost function After(g: Game, c: Call): Game {
    match c
    case Reset => NEW_GAME
    case Start => Started()
    case Place(stone, x, y) => TryPlaceStone(g, stone, x, y).0
    case GiveUp(loser) => Forfeit(g, loser).0
  }

  ghost function AfterAll(calls: seq<Call>): Game {
    if calls == [] then NEW_GAME else After(AfterAll(calls[..|calls| - 1]), calls[|calls| - 1])
  }

  /** Board accounting and the absence of an undetected win, in every reachable game. */
  lemma {:induction false} EveryRunKeepsGameInv(calls: seq<Call>)
    ensures GameInv(AfterAll(calls))
  {
    StartedInv();
    if calls != [] {
      var before := calls[..|calls| - 1];
      EveryRunKeepsGameInv(before);
      match calls[|calls| - 1] {
        case Place(stone, x, y) => PlaceStoneVerdict(AfterAll(before), stone, x, y);
        case _ =>
      }
    }
  }
}
