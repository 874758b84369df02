/**
 * The board engine of app/utils/gameHelpers.ts: collision checking, merging a
 * piece into the board, clearing full rows, the landing (ghost) position,
 * wall kicks, and the score, level and speed curves.
 *
 * The source's loops become methods, each proved equal to a function; the
 * functions are what the game-state model and the lemmas use.
 */
module GameHelpers {
  import opened Wrappers
  import opened Types
  import opened Tetrominos

  // ---------------------------------------------------------------------------
  // createEmptyBoard
  // ---------------------------------------------------------------------------

  function EmptyRow(): (row: seq<Cell>)
    ensures |row| == BOARD_WIDTH && forall x :: 0 <= x < |row| ==> row[x] == EMPTY_CELL
  {
    seq(BOARD_WIDTH, _ => EMPTY_CELL)
  }

  /** createEmptyBoard: BOARD_HEIGHT rows of BOARD_WIDTH empty, transparent cells. */
  function EmptyBoard(): (b: Board)
    ensures WellFormedBoard(b)
    ensures forall y, x :: 0 <= y < |b| && 0 <= x < |b[y]| ==> !b[y][x].filled && b[y][x].color == "transparent"
  {
    seq(BOARD_HEIGHT, _ => EmptyRow())
  }

  // ---------------------------------------------------------------------------
  // Counting filled cells
  // ---------------------------------------------------------------------------

  function RowFilled(row: seq<Cell>): nat {
    if row == [] then 0 else (if row[0].filled then 1 else 0) + RowFilled(row[1..])
  }

  /** Number of filled cells on a board. */
  function BoardFilled(b: Board): nat {
    if b == [] then 0 else RowFilled(b[0]) + BoardFilled(b[1..])
  }

  lemma {:induction false} RowFilledAllEmpty(row: seq<Cell>)
    requires forall x :: 0 <= x < |row| ==> !row[x].filled
    ensures RowFilled(row) == 0
  {
    if row != [] {
      RowFilledAllEmpty(row[1..]);
    }
  }

  lemma {:induction false} RowFilledAllFull(row: seq<Cell>)
    requires forall x :: 0 <= x < |row| ==> row[x].filled
    ensures RowFilled(row) == |row|
  {
    if row != [] {
      RowFilledAllFull(row[1..]);
    }
  }

  lemma {:induction false} BoardFilledAppend(a: Board, b: Board)
    ensures BoardFilled(a + b) == BoardFilled(a) + BoardFilled(b)
  {
    if a != [] {
      assert (a + b)[1..] == a[1..] + b;
      BoardFilledAppend(a[1..], b);
    } else {
      assert a + b == b;
    }
  }

  lemma {:induction false} BoardFilledEmptyRows(n: nat)
    ensures BoardFilled(EmptyRows(n)) == 0
  {
    if n > 0 {
      assert EmptyRows(n)[1..] == EmptyRows(n - 1);
      BoardFilledEmptyRows(n - 1);
      RowFilledAllEmpty(EmptyRow());
    }
  }

  /** The empty board has no filled cell. */
  lemma EmptyBoardHasNoFilledCells()
    ensures BoardFilled(EmptyBoard()) == 0
  {
    assert EmptyBoard() == EmptyRows(BOARD_HEIGHT);
    BoardFilledEmptyRows(BOARD_HEIGHT);
  }

  // ---------------------------------------------------------------------------
  // isValidPosition
  // ---------------------------------------------------------------------------

  /** A block may sit at board cell (x, y): between the walls, above the floor, and on an empty cell if on the board. */
  predicate CellOpen(board: Board, x: int, y: int)
    requires WellFormedBoard(board)
  {
    0 <= x < BOARD_WIDTH && y < BOARD_HEIGHT && (y >= 0 ==> !board[y][x].filled)
  }

  /** Every block of `shape`, placed with its top-left corner at `pos`, lands on an open cell. */
  predicate Fits(board: Board, shape: Shape, pos: Position)
    requires WellFormedBoard(board)
  {
    forall y, x :: 0 <= y < |shape| && 0 <= x < |shape[y]| && shape[y][x] != 0 ==>
      CellOpen(board, pos.x + x, pos.y + y)
  }

  /** isValidPosition: scans the shape row by row and stops at the first blocked cell. */
  method IsValidPosition(board: Board, shape: Shape, position: Position) returns (valid: bool)
    requires WellFormedBoard(board)
    ensures valid <==> Fits(board, shape, position)
  {
    var y := 0;
    while y < |shape|
      invariant 0 <= y <= |shape|
      invariant forall yy, x :: 0 <= yy < y && 0 <= x < |shape[yy]| && shape[yy][x] != 0 ==>
        CellOpen(board, position.x + x, position.y + yy)
    {
      var x := 0;
      while x < |shape[y]|
        invariant 0 <= x <= |shape[y]|
        invariant forall yy, xx :: 0 <= yy < y && 0 <= xx < |shape[yy]| && shape[yy][xx] != 0 ==>
          CellOpen(board, position.x + xx, position.y + yy)
        invariant forall xx :: 0 <= xx < x && shape[y][xx] != 0 ==> CellOpen(board, position.x + xx, position.y + y)
      {
        if shape[y][x] != 0 {
          var newX := position.x + x;
          var newY := position.y + y;
          if newX < 0 || newX >= BOARD_WIDTH || newY >= BOARD_HEIGHT {
            return false;
          }
          if newY >= 0 && board[newY][newX].filled {
            return false;
          }
        }
        x := x + 1;
      }
      y := y + 1;
    }
    return true;
  }

  /** A shape with a block that fits somewhere lies above the floor there. */
  lemma FitsAboveFloor(board: Board, shape: Shape, pos: Position)
    requires WellFormedBoard(board) && HasBlock(shape) && Fits(board, shape, pos)
    ensures pos.y < BOARD_HEIGHT
  {
    var y, x :| 0 <= y < |shape| && 0 <= x < |shape[y]| && shape[y][x] != 0;
    assert CellOpen(board, pos.x + x, pos.y + y);
  }

  // ---------------------------------------------------------------------------
  // mergePieceToBoard
  // ---------------------------------------------------------------------------

  /** The piece puts one of its blocks on board cell (x, y). */
  predicate Covers(piece: Piece, x: int, y: int) {
    var sy, sx := y - piece.position.y, x - piece.position.x;
    0 <= sy < |piece.shape| && 0 <= sx < |piece.shape[sy]| && piece.shape[sy][sx] != 0
  }

  /** The board with every on-board cell covered by the piece filled in the piece's colour. */
  function Merged(board: Board, piece: Piece): (b: Board)
    requires WellFormedBoard(board)
    ensures WellFormedBoard(b)
  {
    seq(BOARD_HEIGHT, y requires 0 <= y < BOARD_HEIGHT =>
      seq(BOARD_WIDTH, x requires 0 <= x < BOARD_WIDTH =>
        if Covers(piece, x, y) then Cell(true, piece.color) else board[y][x]))
  }

  /** The cell (x, y) is covered by a block in shape row sy < y0, or in row y0 at column sx < x0. */
  predicate CoveredBefore(piece: Piece, x: int, y: int, y0: int, x0: int) {
    var sy, sx := y - piece.position.y, x - piece.position.x;
    Covers(piece, x, y) && (sy < y0 || (sy == y0 && sx < x0))
  }

  /** mergePieceToBoard: copies the board and writes the piece's on-board blocks into the copy. */
  method MergePieceToBoard(board: Board, piece: Piece) returns (newBoard: Board)
    requires WellFormedBoard(board)
    ensures newBoard == Merged(board, piece)
  {
    newBoard := board;
    var color := piece.color;
    var y := 0;
    while y < |piece.shape|
      invariant 0 <= y <= |piece.shape|
      invariant WellFormedBoard(newBoard)
      invariant forall cy, cx :: 0 <= cy < BOARD_HEIGHT && 0 <= cx < BOARD_WIDTH ==>
        newBoard[cy][cx] == if CoveredBefore(piece, cx, cy, y, 0) then Cell(true, color) else board[cy][cx]
    {
      var x := 0;
      while x < |piece.shape[y]|
        invariant 0 <= x <= |piece.shape[y]|
        invariant WellFormedBoard(newBoard)
        invariant forall cy, cx :: 0 <= cy < BOARD_HEIGHT && 0 <= cx < BOARD_WIDTH ==>
          newBoard[cy][cx] == if CoveredBefore(piece, cx, cy, y, x) then Cell(true, color) else board[cy][cx]
      {
        if piece.shape[y][x] != 0 {
          var boardY := piece.position.y + y;
          var boardX := piece.position.x + x;
          if boardY >= 0 && boardY < BOARD_HEIGHT && boardX >= 0 && boardX < BOARD_WIDTH {
            newBoard := newBoard[boardY := newBoard[boardY][boardX := Cell(true, color)]];
          }
        }
        x := x + 1;
      }
      y := y + 1;
    }
    forall cy | 0 <= cy < BOARD_HEIGHT
      ensures newBoard[cy] == Merged(board, piece)[cy]
    {
      assert forall cx :: 0 <= cx < BOARD_WIDTH ==> newBoard[cy][cx] == Merged(board, piece)[cy][cx];
    }
  }

  /** Merging fills exactly the covered on-board cells and leaves every other cell as it was. */
  lemma MergedCells(board: Board, piece: Piece, x: int, y: int)
    requires WellFormedBoard(board) && 0 <= y < BOARD_HEIGHT && 0 <= x < BOARD_WIDTH
    ensures Covers(piece, x, y) ==> Merged(board, piece)[y][x] == Cell(true, piece.color)
    ensures !Covers(piece, x, y) ==> Merged(board, piece)[y][x] == board[y][x]
  {
  }

  // ---------------------------------------------------------------------------
  // clearLines
  // ---------------------------------------------------------------------------

  /** Every cell of the row is filled. */
  predicate RowFull(row: seq<Cell>) {
    forall x :: 0 <= x < |row| ==> row[x].filled
  }

  /** The rows that are not full, in their original order. */
  function KeptRows(b: Board): (k: Board)
    ensures |k| <= |b|
    ensures forall i :: 0 <= i < |k| ==> !RowFull(k[i]) && k[i] in b
  {
    if b == [] then []
    else if RowFull(b[0]) then KeptRows(b[1..])
    else [b[0]] + KeptRows(b[1..])
  }

  /** Number of full rows. */
  function FullRowCount(b: Board): nat {
    if b == [] then 0 else (if RowFull(b[0]) then 1 else 0) + FullRowCount(b[1..])
  }

  function EmptyRows(n: nat): (rows: Board)
    ensures |rows| == n && forall i :: 0 <= i < n ==> rows[i] == EmptyRow()
  {
    seq(n, _ => EmptyRow())
  }

  lemma {:induction false} KeptRowsCount(b: Board)
    ensures |KeptRows(b)| + FullRowCount(b) == |b|
  {
    if b != [] {
      KeptRowsCount(b[1..]);
    }
  }

  datatype ClearResult = ClearResult(newBoard: Board, linesCleared: int)

  /**
   * clearLines: the full rows are removed, as many empty rows are added on
   * top, and the number removed is reported.
   */
  function Cleared(board: Board): (r: ClearResult)
    requires WellFormedBoard(board)
    ensures WellFormedBoard(r.newBoard)
    ensures r.linesCleared == FullRowCount(board) <= BOARD_HEIGHT
    ensures forall i :: 0 <= i < r.linesCleared ==> r.newBoard[i] == EmptyRow()
    ensures r.newBoard[r.linesCleared..] == KeptRows(board)
  {
    var kept := KeptRows(board);
    KeptRowsCount(board);
    var r := ClearResult(EmptyRows(BOARD_HEIGHT - |kept|) + kept, BOARD_HEIGHT - |kept|);
    assert r.newBoard[r.linesCleared..] == kept;
    r
  }

  /** clearLines: filters out the full rows, then adds empty rows on top until the board is full height again. */
  method ClearLines(board: Board) returns (r: ClearResult)
    requires WellFormedBoard(board)
    ensures r == Cleared(board)
  {
    var kept := KeptRows(board);
    var newBoard := kept;
    var linesCleared := BOARD_HEIGHT - |newBoard|;
    while |newBoard| < BOARD_HEIGHT
      invariant |kept| <= |newBoard| <= BOARD_HEIGHT
      invariant newBoard == EmptyRows(|newBoard| - |kept|) + kept
    {
      assert [EmptyRow()] + EmptyRows(|newBoard| - |kept|) == EmptyRows(|newBoard| - |kept| + 1);
      newBoard := [EmptyRow()] + newBoard;
    }
    r := ClearResult(newBoard, linesCleared);
  }

  /** Filtering distributes over concatenation: kept rows keep their relative order. */
  lemma {:induction false} KeptRowsAppend(a: Board, b: Board)
    ensures KeptRows(a + b) == KeptRows(a) + KeptRows(b)
  {
    if a == [] {
      assert a + b == b;
    } else {
      assert (a + b)[0] == a[0];
      assert (a + b)[1..] == a[1..] + b;
      KeptRowsAppend(a[1..], b);
    }
  }

  /** A board without full rows keeps all its rows. */
  lemma {:induction false} KeptRowsNoneFull(b: Board)
    requires forall i :: 0 <= i < |b| ==> !RowFull(b[i])
    ensures KeptRows(b) == b && FullRowCount(b) == 0
  {
    if b != [] {
      assert !RowFull(b[0]);
      KeptRowsNoneFull(b[1..]);
    }
  }

  lemma {:induction false} KeptRowsFilled(b: Board)
    requires forall i :: 0 <= i < |b| ==> |b[i]| == BOARD_WIDTH
    ensures BoardFilled(KeptRows(b)) + BOARD_WIDTH * FullRowCount(b) == BoardFilled(b)
  {
    if b != [] {
      KeptRowsFilled(b[1..]);
      if RowFull(b[0]) {
        RowFilledAllFull(b[0]);
      } else {
        assert ([b[0]] + KeptRows(b[1..]))[1..] == KeptRows(b[1..]);
      }
    }
  }

  /** Clearing removes exactly BOARD_WIDTH filled cells per cleared row and adds none. */
  lemma ClearedFilled(board: Board)
    requires WellFormedBoard(board)
    ensures BoardFilled(Cleared(board).newBoard) == BoardFilled(board) - BOARD_WIDTH * Cleared(board).linesCleared
  {
    var r := Cleared(board);
    var kept := KeptRows(board);
    assert r.newBoard == EmptyRows(r.linesCleared) + kept;
    BoardFilledAppend(EmptyRows(r.linesCleared), kept);
    BoardFilledEmptyRows(r.linesCleared);
    KeptRowsFilled(board);
  }

  /** After clearing no row is full. */
  lemma ClearedNoFullRows(board: Board)
    requires WellFormedBoard(board)
    ensures forall i :: 0 <= i < |Cleared(board).newBoard| ==> !RowFull(Cleared(board).newBoard[i])
  {
    var nb := Cleared(board).newBoard;
    forall i | 0 <= i < |nb|
      ensures !RowFull(nb[i])
    {
      if i < Cleared(board).linesCleared {
        assert !nb[i][0].filled;
      } else {
        assert nb[i] == nb[Cleared(board).linesCleared..][i - Cleared(board).linesCleared];
      }
    }
  }

  /** A board with no full row is left as it is by clearing, with no line cleared. */
  lemma ClearedUnchanged(board: Board)
    requires WellFormedBoard(board)
    requires forall y :: 0 <= y < BOARD_HEIGHT ==> !RowFull(board[y])
    ensures Cleared(board) == ClearResult(board, 0)
  {
    KeptRowsNoneFull(board);
    assert EmptyRows(0) + board == board;
  }

  /** Clearing again removes nothing and changes nothing. */
  lemma ClearedIdempotent(board: Board)
    requires WellFormedBoard(board)
    ensures Cleared(Cleared(board).newBoard) == ClearResult(Cleared(board).newBoard, 0)
  {
    var nb := Cleared(board).newBoard;
    ClearedNoFullRows(board);
    KeptRowsNoneFull(nb);
    assert EmptyRows(0) + nb == nb;
  }

  // ---------------------------------------------------------------------------
  // getGhostPosition
  // ---------------------------------------------------------------------------

  /**
   * The row where a shape dropped straight down from row `y` comes to rest:
   * every step down to it is valid and the next one is not.
   */
  function DropFrom(board: Board, shape: Shape, x: int, y: int): (r: int)
    requires WellFormedBoard(board) && HasBlock(shape)
    ensures r >= y
    ensures forall k :: y < k <= r ==> Fits(board, shape, Position(x, k))
    ensures !Fits(board, shape, Position(x, r + 1))
    decreases BOARD_HEIGHT - y
  {
    if Fits(board, shape, Position(x, y + 1)) then
      FitsAboveFloor(board, shape, Position(x, y + 1));
      DropFrom(board, shape, x, y + 1)
    else
      y
  }

  /** A resting shape stays where it is. */
  lemma DropFromResting(board: Board, shape: Shape, x: int, y: int)
    requires WellFormedBoard(board) && HasBlock(shape) && !Fits(board, shape, Position(x, y + 1))
    ensures DropFrom(board, shape, x, y) == y
  {
  }

  /** getGhostPosition: steps down while the next row is valid; x never changes. */
  method GetGhostPosition(board: Board, piece: Piece) returns (ghost_: Position)
    requires WellFormedBoard(board) && HasBlock(piece.shape)
    ensures ghost_ == Position(piece.position.x, DropFrom(board, piece.shape, piece.position.x, piece.position.y))
  {
    var ghostY := piece.position.y;
    while true
      invariant DropFrom(board, piece.shape, piece.position.x, ghostY) == DropFrom(board, piece.shape, piece.position.x, piece.position.y)
      decreases BOARD_HEIGHT - ghostY
    {
      var below := IsValidPosition(board, piece.shape, Position(piece.position.x, ghostY + 1));
      if !below {
        break;
      }
      FitsAboveFloor(board, piece.shape, Position(piece.position.x, ghostY + 1));
      ghostY := ghostY + 1;
    }
    return Position(piece.position.x, ghostY);
  }

  // ---------------------------------------------------------------------------
  // Score, level and speed
  // ---------------------------------------------------------------------------

  /** Points for the lines of one lock: 100, 300, 500, 800 for 1..4 lines, times the level; nothing otherwise. */
  function CalculateScore(linesCleared: int, level: int): int {
    var base := if linesCleared == 1 then 100
                else if linesCleared == 2 then 300
                else if linesCleared == 3 then 500
                else if linesCleared == 4 then 800
                else 0;
    base * level
  }

  /** Score of a clear is never negative at a positive level, and more lines give more points. */
  lemma ScoreRewardsMoreLines(n: int, m: int, level: int)
    requires 1 <= n < m <= 4 && level >= 1
    ensures 0 < CalculateScore(n, level) < CalculateScore(m, level)
    ensures CalculateScore(m, level) >= m * CalculateScore(1, level)
  {
    var bn := CalculateScore(n, 1);
    var bm := CalculateScore(m, 1);
    assert CalculateScore(n, level) == bn * level;
    assert CalculateScore(m, level) == bm * level;
    assert CalculateScore(1, level) == 100 * level;
    assert bm >= 100 * m;
    assert bn < bm;
  }

  /** Any count outside 1..4 scores nothing, and no count scores negatively at a non-negative level. */
  lemma ScoreOutsideTable(n: int, level: int)
    ensures (n < 1 || n > 4) ==> CalculateScore(n, level) == 0
    ensures level >= 0 ==> CalculateScore(n, level) >= 0
  {
  }

  /** calculateLevel: one level per ten lines, starting at level 1. */
  function CalculateLevel(lines: int): int {
    lines / 10 + 1
  }

  /** The level is non-decreasing in the number of lines, and ten lines more is one level more. */
  lemma LevelMonotone(a: int, b: int)
    requires a <= b
    ensures CalculateLevel(a) <= CalculateLevel(b)
    ensures CalculateLevel(a + 10) == CalculateLevel(a) + 1
  {
  }

  /** calculateSpeed: 1000 ms at level 1, 50 ms faster per level, never below 100 ms. */
  function CalculateSpeed(level: int): int {
    var speed := 1000 - (level - 1) * 50;
    if speed > 100 then speed else 100
  }

  lemma SpeedBounds(a: int, b: int)
    requires a <= b
    ensures CalculateSpeed(b) <= CalculateSpeed(a)
    ensures CalculateSpeed(a) >= 100
    ensures CalculateSpeed(1) == 1000 && (a >= 19 ==> CalculateSpeed(a) == 100)
  {
  }

  // ---------------------------------------------------------------------------
  // getStartPosition and isGameOver
  // ---------------------------------------------------------------------------

  /**
   * getStartPosition: centred horizontally (floor of (BOARD_WIDTH - width) / 2;
   * Dafny's division by a positive constant is the floor) and one row above the board.
   */
  function StartPosition(shape: Shape): Position
    requires |shape| > 0
  {
    Position((BOARD_WIDTH - |shape[0]|) / 2, -1)
  }

  /** The start column centres the shape, any odd column going to the right-hand margin. */
  lemma StartPositionCentred(shape: Shape)
    requires |shape| > 0 && |shape[0]| <= BOARD_WIDTH
    ensures StartPosition(shape).y == -1
    ensures var left := StartPosition(shape).x;
            var right := BOARD_WIDTH - |shape[0]| - left;
            0 <= left <= right <= left + 1
  {
  }

  /** isGameOver: the shape does not fit at its start position. */
  predicate IsGameOver(board: Board, shape: Shape)
    requires WellFormedBoard(board) && |shape| > 0
  {
    !Fits(board, shape, StartPosition(shape))
  }

  /** On the empty board any shape at most the board's width and one row taller than it fits at the start position. */
  lemma StartFitsEmptyBoard(shape: Shape)
    requires Rectangular(shape) && |shape[0]| <= BOARD_WIDTH && |shape| <= BOARD_HEIGHT + 1
    ensures !IsGameOver(EmptyBoard(), shape)
  {
    var p := StartPosition(shape);
    assert 0 <= p.x && p.x + |shape[0]| <= BOARD_WIDTH;
  }

  /** No tetromino ends the game on the empty board. */
  lemma EmptyBoardNeverOver(t: TetrominoType)
    ensures !IsGameOver(EmptyBoard(), TetrominoOf(t).shape)
  {
    CatalogWellShaped(t);
    StartFitsEmptyBoard(TetrominoOf(t).shape);
  }

  // ---------------------------------------------------------------------------
  // Wall kicks and tryRotate
  // ---------------------------------------------------------------------------

  /** WALL_KICK_OFFSETS, tried in this order. */
  const WALL_KICK_OFFSETS: seq<Position> := [
    Position(0, 0), Position(-1, 0), Position(1, 0), Position(0, -1),
    Position(-1, -1), Position(1, -1), Position(-2, 0), Position(2, 0)]

  function Shift(p: Position, offset: Position): Position {
    Position(p.x + offset.x, p.y + offset.y)
  }

  /** The first offset from index k on at which the shape fits, or None if there is none. */
  function FirstKick(board: Board, shape: Shape, pos: Position, k: nat): Option<Position>
    requires WellFormedBoard(board) && k <= |WALL_KICK_OFFSETS|
    decreases |WALL_KICK_OFFSETS| - k
  {
    if k == |WALL_KICK_OFFSETS| then None
    else if Fits(board, shape, Shift(pos, WALL_KICK_OFFSETS[k])) then Some(Shift(pos, WALL_KICK_OFFSETS[k]))
    else FirstKick(board, shape, pos, k + 1)
  }

  /** FirstKick finds nothing exactly when no offset from k on fits. */
  lemma {:induction false} FirstKickNone(board: Board, shape: Shape, pos: Position, k: nat)
    requires WellFormedBoard(board) && k <= |WALL_KICK_OFFSETS|
    ensures FirstKick(board, shape, pos, k).None? <==>
      forall j :: k <= j < |WALL_KICK_OFFSETS| ==> !Fits(board, shape, Shift(pos, WALL_KICK_OFFSETS[j]))
    decreases |WALL_KICK_OFFSETS| - k
  {
    if k < |WALL_KICK_OFFSETS| && !Fits(board, shape, Shift(pos, WALL_KICK_OFFSETS[k])) {
      FirstKickNone(board, shape, pos, k + 1);
    }
  }

  /** What FirstKick finds is a fitting offset from k on, with no fitting offset before it. */
  lemma {:induction false} FirstKickFirst(board: Board, shape: Shape, pos: Position, k: nat)
    requires WellFormedBoard(board) && k <= |WALL_KICK_OFFSETS|
    ensures FirstKick(board, shape, pos, k).Some? ==>
      exists j :: k <= j < |WALL_KICK_OFFSETS| && FirstKick(board, shape, pos, k).value == Shift(pos, WALL_KICK_OFFSETS[j]) &&
                  Fits(board, shape, Shift(pos, WALL_KICK_OFFSETS[j])) &&
                  (forall i :: k <= i < j ==> !Fits(board, shape, Shift(pos, WALL_KICK_OFFSETS[i])))
    decreases |WALL_KICK_OFFSETS| - k
  {
    if k < |WALL_KICK_OFFSETS| && !Fits(board, shape, Shift(pos, WALL_KICK_OFFSETS[k])) {
      FirstKickFirst(board, shape, pos, k + 1);
    }
  }

  /** What FirstKick finds fits. */
  lemma {:induction false} FirstKickFits(board: Board, shape: Shape, pos: Position, k: nat)
    requires WellFormedBoard(board) && k <= |WALL_KICK_OFFSETS|
    ensures FirstKick(board, shape, pos, k).Some? ==> Fits(board, shape, FirstKick(board, shape, pos, k).value)
    decreases |WALL_KICK_OFFSETS| - k
  {
    if k < |WALL_KICK_OFFSETS| && !Fits(board, shape, Shift(pos, WALL_KICK_OFFSETS[k])) {
      FirstKickFits(board, shape, pos, k + 1);
    }
  }

  /** tryRotate: tries each offset in order and returns the first valid position, or null. */
  method TryRotate(board: Board, piece: Piece, rotatedShape: Shape) returns (r: Option<Position>)
    requires WellFormedBoard(board)
    ensures r == FirstKick(board, rotatedShape, piece.position, 0)
  {
    var k := 0;
    while k < |WALL_KICK_OFFSETS|
      invariant 0 <= k <= |WALL_KICK_OFFSETS|
      invariant FirstKick(board, rotatedShape, piece.position, k) == FirstKick(board, rotatedShape, piece.position, 0)
    {
      var offset := WALL_KICK_OFFSETS[k];
      var newPosition := Position(piece.position.x + offset.x, piece.position.y + offset.y);
      var valid := IsValidPosition(board, rotatedShape, newPosition);
      if valid {
        return Some(newPosition);
      }
      k := k + 1;
    }
    return None;
  }

  /** Eight offsets, the first being no offset: a shape that fits in place is not kicked. */
  lemma KickInPlaceFirst(board: Board, shape: Shape, pos: Position)
    requires WellFormedBoard(board) && Fits(board, shape, pos)
    ensures |WALL_KICK_OFFSETS| == 8 && WALL_KICK_OFFSETS[0] == Position(0, 0)
    ensures FirstKick(board, shape, pos, 0) == Some(pos)
  {
    assert Shift(pos, WALL_KICK_OFFSETS[0]) == pos;
  }
}
