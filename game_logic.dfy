/**
 * The single-player game of app/hooks/useGameLogic.ts: each state updater
 * passed to setGameState, as a function from the previous state to the next.
 *
 * The piece drawn by getRandomTetromino is a parameter. The updaters' inner
 * loops (the spawn and lock scans, the hard-drop descent) are methods proved
 * equal to the functions.
 */
module GameLogic {
  import opened Wrappers
  import opened Types
  import opened Tetrominos
  import opened GameHelpers

  // ---------------------------------------------------------------------------
  // Initial state and pieces
  // ---------------------------------------------------------------------------

  /** createInitialState. */
  function InitialState(): GameState {
    GameState(EmptyBoard(), None, T, 0, 0, 1, false, false, false, 0)
  }

  /** createPiece: a fresh piece of the given type, in spawn orientation at its start position. */
  function CreatePiece(t: TetrominoType): (p: Piece)
    ensures p.kind == t && p.rotation == 0 && p.shape == Rotations(t)[0] && p.color == TetrominoOf(t).color
    ensures WellShaped(p.shape) && HasBlock(p.shape)
  {
    OrientationHasBlock(t, 0);
    CatalogWellShaped(t);
    Piece(t, TetrominoOf(t).shape, TetrominoOf(t).color, StartPosition(TetrominoOf(t).shape), 0)
  }

  function Max(a: int, b: int): int { if a >= b then a else b }

  /** The state the three game-over branches return: stopped, no piece, best score kept. */
  function EndGame(prev: GameState): GameState {
    prev.(gameOver := true, isPlaying := false, currentPiece := None, highScore := Max(prev.score, prev.highScore))
  }

  // ---------------------------------------------------------------------------
  // The invariant of a reachable state
  // ---------------------------------------------------------------------------

  /**
   * The piece is one of its type's four orientations (a rectangular shape
   * with a block), in the type's colour, at a position where it fits.
   */
  predicate PieceOk(board: Board, p: Piece)
    requires WellFormedBoard(board)
  {
    0 <= p.rotation < 4 && p.shape == Rotations(p.kind)[p.rotation] &&
    WellShaped(p.shape) && HasBlock(p.shape) &&
    p.color == TetrominoOf(p.kind).color && Fits(board, p.shape, p.position)
  }

  /** Every orientation of every piece is rectangular and has a block, so dropping it terminates. */
  lemma OrientationHasBlock(t: TetrominoType, k: int)
    requires 0 <= k < 4
    ensures HasBlock(Rotations(t)[k]) && WellShaped(Rotations(t)[k])
  {
    RotationsShapes(t, k);
    BlocksGiveBlock(Rotations(t)[k]);
  }

  /**
   * What every state the program as written reaches satisfies: a well-formed
   * board with no full row, a score record that is never negative, the level
   * of the lines, an ended game stopped, and a current piece that fits.
   */
  predicate Consistent(s: GameState) {
    WellFormedBoard(s.board) &&
    (forall y :: 0 <= y < BOARD_HEIGHT ==> !RowFull(s.board[y])) &&
    s.score >= 0 && s.lines >= 0 && s.highScore >= 0 &&
    s.level == CalculateLevel(s.lines) &&
    (s.gameOver ==> !s.isPlaying) &&
    (s.currentPiece.Some? ==> PieceOk(s.board, s.currentPiece.value))
  }

  /** What every state the corrected updaters reach satisfies: moreover, an ended game has no piece. */
  predicate Inv(s: GameState) {
    Consistent(s) && (s.gameOver ==> s.currentPiece.None?)
  }

  /** The initial state is a valid, empty, idle game at level 1. */
  lemma InitialStateValid()
    ensures Inv(InitialState())
    ensures BoardFilled(InitialState().board) == 0 && InitialState().currentPiece.None?
    ensures InitialState().score == 0 && InitialState().lines == 0 && InitialState().level == CalculateLevel(0) == 1
    ensures !InitialState().isPlaying && !InitialState().isPaused && !InitialState().gameOver
  {
    EmptyBoardHasNoFilledCells();
    EmptyColumnNoFullRow(EmptyBoard());
  }

  /** A created piece is in spawn orientation and fits on the empty board. */
  lemma CreatePieceOk(t: TetrominoType)
    ensures CreatePiece(t).position == Position((BOARD_WIDTH - |TetrominoOf(t).shape[0]|) / 2, -1)
    ensures PieceOk(EmptyBoard(), CreatePiece(t))
  {
    EmptyBoardNeverOver(t);
  }

  // ---------------------------------------------------------------------------
  // spawnPiece
  // ---------------------------------------------------------------------------

  /** Block (y, x) of the piece lies on the visible board on a filled cell. */
  predicate BlockHits(board: Board, p: Piece, y: int, x: int)
    requires WellFormedBoard(board)
  {
    0 <= y < |p.shape| && 0 <= x < |p.shape[y]| && p.shape[y][x] != 0 &&
    0 <= p.position.y + y < BOARD_HEIGHT && 0 <= p.position.x + x < BOARD_WIDTH &&
    board[p.position.y + y][p.position.x + x].filled
  }

  /** Some block of the piece lies on the visible board on a filled cell (the second spawn check). */
  predicate OnBoardCollision(board: Board, p: Piece)
    requires WellFormedBoard(board)
  {
    exists y, x :: 0 <= y < |p.shape| && 0 <= x < |p.shape[y]| && BlockHits(board, p, y, x)
  }

  /** spawnPiece: the next piece enters, or the game ends if it does not fit. */
  function Spawned(prev: GameState, next: TetrominoType): GameState
    requires WellFormedBoard(prev.board)
  {
    var p := CreatePiece(prev.nextPiece);
    if !Fits(prev.board, p.shape, p.position) then EndGame(prev)
    else if OnBoardCollision(prev.board, p) then EndGame(prev)
    else prev.(currentPiece := Some(p), nextPiece := next)
  }

  /** The second spawn check never fires once the first has passed. */
  lemma CollisionImpliesMisfit(board: Board, p: Piece)
    requires WellFormedBoard(board) && OnBoardCollision(board, p)
    ensures !Fits(board, p.shape, p.position)
  {
    var y, x :| 0 <= y < |p.shape| && 0 <= x < |p.shape[y]| && BlockHits(board, p, y, x);
    assert !CellOpen(board, p.position.x + x, p.position.y + y);
  }

  /**
   * Spawning ends the game exactly when the next piece is over at its start
   * position; otherwise the piece enters and the drawn type becomes next.
   */
  lemma SpawnedOutcome(prev: GameState, next: TetrominoType)
    requires WellFormedBoard(prev.board)
    ensures IsGameOver(prev.board, TetrominoOf(prev.nextPiece).shape) ==> Spawned(prev, next) == EndGame(prev)
    ensures !IsGameOver(prev.board, TetrominoOf(prev.nextPiece).shape) ==>
      Spawned(prev, next) == prev.(currentPiece := Some(CreatePiece(prev.nextPiece)), nextPiece := next)
  {
    var p := CreatePiece(prev.nextPiece);
    if OnBoardCollision(prev.board, p) {
      CollisionImpliesMisfit(prev.board, p);
    }
  }

  /**
   * The state of the counterexample below: a T piece resting with its top
   * row above the board on a stack in row 1, with an I piece next.
   */
  function StuckT(): GameState {
    var row1 := seq(BOARD_WIDTH, x => if 3 <= x <= 5 then Cell(true, "#a855f7") else EMPTY_CELL);
    GameState(EmptyBoard()[1 := row1], Some(CreatePiece(T)), I, 0, 0, 1, false, false, true, 0)
  }

  /** The stuck T state is valid, and locking it ends the game without merging the piece. */
  lemma StuckTLocksOut()
    ensures Inv(StuckT())
    ensures Locked(StuckT()) == EndGame(StuckT())
  {
    var s := StuckT();
    var t := CreatePiece(T);
    EmptyColumnNoFullRow(s.board);
    assert t.shape == [[0, 1, 0], [1, 1, 1], [0, 0, 0]];
    assert t.position == Position(3, -1);
    assert Fits(s.board, t.shape, t.position) by {
      forall y, x | 0 <= y < |t.shape| && 0 <= x < |t.shape[y]| && t.shape[y][x] != 0
        ensures CellOpen(s.board, t.position.x + x, t.position.y + y)
      {
        assert y <= 1;
      }
    }
    assert AboveBoard(t) by {
      assert t.shape[0][1] != 0;
    }
  }

  /** The I piece fits at its start position on the stuck T board. */
  lemma StartFitsStuckBoard()
    ensures Fits(StuckT().board, CreatePiece(I).shape, CreatePiece(I).position)
  {
    var b := StuckT().board;
    var i := CreatePiece(I);
    assert i.shape == [[0, 0, 0, 0], [1, 1, 1, 1], [0, 0, 0, 0], [0, 0, 0, 0]];
    assert i.position == Position(3, -1);
    forall y, x | 0 <= y < |i.shape| && 0 <= x < |i.shape[y]| && i.shape[y][x] != 0
      ensures CellOpen(b, i.position.x + x, i.position.y + y)
    {
      assert y == 1;
    }
  }

  /**
   * lockPiece ends the game for the stuck T without merging it, and the
   * spawnPiece it schedules regardless then puts the I piece into the ended
   * game, although the state before was valid.
   */
  lemma SpawnAfterGameOver(next: TetrominoType)
    ensures Inv(StuckT())
    ensures Locked(StuckT()).gameOver
    ensures Spawned(Locked(StuckT()), next).gameOver && Spawned(Locked(StuckT()), next).currentPiece.Some?
  {
    StuckTLocksOut();
    var e := EndGame(StuckT());
    assert e.board == StuckT().board && e.nextPiece == I;
    StartFitsStuckBoard();
    SpawnedOutcome(e, next);
  }

  /** spawnPiece, corrected: a game that is over gets no new piece. */
  function SpawnIfRunning(prev: GameState, next: TetrominoType): GameState
    requires WellFormedBoard(prev.board)
  {
    if prev.gameOver then prev else Spawned(prev, next)
  }

  /** The corrected spawn leaves an ended game alone and otherwise agrees with spawnPiece. */
  lemma SpawnIfRunningEffect(prev: GameState, next: TetrominoType)
    requires Inv(prev)
    ensures prev.gameOver ==> SpawnIfRunning(prev, next) == prev && prev.currentPiece.None?
    ensures !prev.gameOver ==> SpawnIfRunning(prev, next) == Spawned(prev, next)
    ensures SpawnIfRunning(prev, next).gameOver ==> SpawnIfRunning(prev, next).currentPiece.None?
  {
  }

  /** The nested scan of spawnPiece: is some block of the piece on a filled visible cell? */
  method ScanCollision(board: Board, p: Piece) returns (hit: bool)
    requires WellFormedBoard(board)
    ensures hit == OnBoardCollision(board, p)
  {
    var y := 0;
    while y < |p.shape|
      invariant 0 <= y <= |p.shape|
      invariant forall yy, x :: yy < y ==> !BlockHits(board, p, yy, x)
    {
      var x := 0;
      while x < |p.shape[y]|
        invariant 0 <= x <= |p.shape[y]|
        invariant forall yy, xx :: yy < y ==> !BlockHits(board, p, yy, xx)
        invariant forall xx :: xx < x ==> !BlockHits(board, p, y, xx)
      {
        if p.shape[y][x] != 0 {
          var boardY := p.position.y + y;
          var boardX := p.position.x + x;
          if boardY >= 0 && boardX >= 0 && boardX < BOARD_WIDTH {
            if boardY < BOARD_HEIGHT && board[boardY][boardX].filled {
              assert BlockHits(board, p, y, x);
              return true;
            }
          }
        }
        x := x + 1;
      }
      assert forall xx :: !BlockHits(board, p, y, xx);
      y := y + 1;
    }
    return false;
  }

  /** spawnPiece: the start-position check, then the scan of on-board cells. */
  method SpawnPiece(prev: GameState, next: TetrominoType) returns (s: GameState)
    requires WellFormedBoard(prev.board)
    ensures s == Spawned(prev, next)
  {
    var newPiece := CreatePiece(prev.nextPiece);
    var valid := IsValidPosition(prev.board, newPiece.shape, newPiece.position);
    if !valid {
      return EndGame(prev);
    }
    var hit := ScanCollision(prev.board, newPiece);
    if hit {
      return EndGame(prev);
    }
    return prev.(currentPiece := Some(newPiece), nextPiece := next);
  }

  // ---------------------------------------------------------------------------
  // lockPiece
  // ---------------------------------------------------------------------------

  /** Some block of the piece is above the visible board. */
  predicate AboveBoard(p: Piece) {
    exists y, x :: 0 <= y < |p.shape| && 0 <= x < |p.shape[y]| && p.shape[y][x] != 0 && p.position.y + y < 0
  }

  /**
   * lockPiece: with no piece, nothing; a piece reaching above the board ends
   * the game; otherwise it is merged, full rows are cleared, and lines, level
   * and score are updated (the score at the level before the lock).
   */
  function Locked(prev: GameState): GameState
    requires WellFormedBoard(prev.board)
  {
    if prev.currentPiece.None? then prev
    else
      var p := prev.currentPiece.value;
      if AboveBoard(p) then EndGame(prev)
      else
        var c := Cleared(Merged(prev.board, p));
        var newLines := prev.lines + c.linesCleared;
        prev.(board := c.newBoard, currentPiece := None,
              score := prev.score + CalculateScore(c.linesCleared, prev.level),
              lines := newLines, level := CalculateLevel(newLines))
  }

  /** lockPiece: the scan for blocks above the board, then merge and clear. */
  method LockPiece(prev: GameState) returns (s: GameState)
    requires WellFormedBoard(prev.board)
    ensures s == Locked(prev)
  {
    if prev.currentPiece.None? {
      return prev;
    }
    var p := prev.currentPiece.value;
    var y := 0;
    while y < |p.shape|
      invariant 0 <= y <= |p.shape|
      invariant forall yy, x :: 0 <= yy < y && 0 <= x < |p.shape[yy]| && p.shape[yy][x] != 0 ==> p.position.y + yy >= 0
    {
      var x := 0;
      while x < |p.shape[y]|
        invariant 0 <= x <= |p.shape[y]|
        invariant forall yy, xx :: 0 <= yy < y && 0 <= xx < |p.shape[yy]| && p.shape[yy][xx] != 0 ==> p.position.y + yy >= 0
        invariant forall xx :: 0 <= xx < x && p.shape[y][xx] != 0 ==> p.position.y + y >= 0
      {
        if p.shape[y][x] != 0 {
          var boardY := p.position.y + y;
          if boardY < 0 {
            return EndGame(prev);
          }
        }
        x := x + 1;
      }
      y := y + 1;
    }
    var newBoard := MergePieceToBoard(prev.board, p);
    var cleared := ClearLines(newBoard);
    var newLines := prev.lines + cleared.linesCleared;
    var newLevel := CalculateLevel(newLines);
    var scoreGain := CalculateScore(cleared.linesCleared, prev.level);
    return prev.(board := cleared.newBoard, currentPiece := None, score := prev.score + scoreGain,
                 lines := newLines, level := newLevel);
  }

  /**
   * Locking a piece that is on the board adds the number of full rows of the
   * merged board to the lines, the matching points to the score, and leaves
   * no full row and no current piece; a piece above the board ends the game.
   */
  lemma LockedOutcome(prev: GameState)
    requires WellFormedBoard(prev.board) && prev.currentPiece.Some?
    ensures AboveBoard(prev.currentPiece.value) ==> Locked(prev) == EndGame(prev)
    ensures !AboveBoard(prev.currentPiece.value) ==>
      var m := Merged(prev.board, prev.currentPiece.value);
      var n := FullRowCount(m);
      Locked(prev).lines == prev.lines + n &&
      Locked(prev).score == prev.score + CalculateScore(n, prev.level) &&
      Locked(prev).level == CalculateLevel(prev.lines + n) &&
      Locked(prev).currentPiece.None? &&
      BoardFilled(Locked(prev).board) == BoardFilled(m) - BOARD_WIDTH * n &&
      forall y :: 0 <= y < BOARD_HEIGHT ==> !RowFull(Locked(prev).board[y])
  {
    var p := prev.currentPiece.value;
    if !AboveBoard(p) {
      var m := Merged(prev.board, p);
      LockedOnBoard(prev);
      ClearedFilled(m);
      ClearedNoFullRows(m);
    }
  }

  /** The state lockPiece returns for a piece on the board, field by field. */
  lemma LockedOnBoard(prev: GameState)
    requires WellFormedBoard(prev.board) && prev.currentPiece.Some? && !AboveBoard(prev.currentPiece.value)
    ensures var m := Merged(prev.board, prev.currentPiece.value);
      var n := FullRowCount(m);
      Locked(prev) == prev.(board := Cleared(m).newBoard, currentPiece := None,
                            score := prev.score + CalculateScore(n, prev.level),
                            lines := prev.lines + n, level := CalculateLevel(prev.lines + n))
  {
  }

  // ---------------------------------------------------------------------------
  // moveDown, moveLeft, moveRight
  // ---------------------------------------------------------------------------

  /** The guard shared by the move, rotate and hard-drop updaters. */
  predicate CanAct(s: GameState) {
    s.currentPiece.Some? && !s.isPaused && s.isPlaying
  }

  /** A move by (dx, dy): only if the guard passes and the piece fits at the target. */
  function Shifted(prev: GameState, dx: int, dy: int): GameState
    requires WellFormedBoard(prev.board)
  {
    if !CanAct(prev) then prev
    else
      var p := prev.currentPiece.value;
      var target := Position(p.position.x + dx, p.position.y + dy);
      if Fits(prev.board, p.shape, target) then prev.(currentPiece := Some(p.(position := target)))
      else prev
  }

  /** moveDown. */
  function MoveDown(prev: GameState): GameState
    requires WellFormedBoard(prev.board)
  {
    Shifted(prev, 0, 1)
  }

  /** moveLeft. */
  function MoveLeft(prev: GameState): GameState
    requires WellFormedBoard(prev.board)
  {
    Shifted(prev, -1, 0)
  }

  /** moveRight. */
  function MoveRight(prev: GameState): GameState
    requires WellFormedBoard(prev.board)
  {
    Shifted(prev, 1, 0)
  }

  /**
   * A move changes the state exactly when the guard passes and the target
   * fits, and then it changes only the piece's position, by exactly the step.
   */
  lemma ShiftedEffect(prev: GameState, dx: int, dy: int)
    requires WellFormedBoard(prev.board)
    ensures Shifted(prev, dx, dy) != prev <==>
      CanAct(prev) && (dx, dy) != (0, 0) &&
      Fits(prev.board, prev.currentPiece.value.shape,
           Position(prev.currentPiece.value.position.x + dx, prev.currentPiece.value.position.y + dy))
    ensures Shifted(prev, dx, dy) != prev ==>
      var p := prev.currentPiece.value;
      Shifted(prev, dx, dy) == prev.(currentPiece := Some(p.(position := Position(p.position.x + dx, p.position.y + dy))))
  {
    if CanAct(prev) && (dx, dy) != (0, 0) {
      var p := prev.currentPiece.value;
      var target := Position(p.position.x + dx, p.position.y + dy);
      if Fits(prev.board, p.shape, target) {
        assert Shifted(prev, dx, dy).currentPiece.value.position != p.position;
      }
    }
  }

  /** The three moves are the unit steps down, left and right. */
  lemma MovesAreUnitSteps(prev: GameState)
    requires WellFormedBoard(prev.board)
    ensures MoveDown(prev) != prev ==>
      MoveDown(prev).currentPiece.value.position == Position(prev.currentPiece.value.position.x, prev.currentPiece.value.position.y + 1)
    ensures MoveLeft(prev) != prev ==>
      MoveLeft(prev).currentPiece.value.position == Position(prev.currentPiece.value.position.x - 1, prev.currentPiece.value.position.y)
    ensures MoveRight(prev) != prev ==>
      MoveRight(prev).currentPiece.value.position == Position(prev.currentPiece.value.position.x + 1, prev.currentPiece.value.position.y)
  {
    ShiftedEffect(prev, 0, 1);
    ShiftedEffect(prev, -1, 0);
    ShiftedEffect(prev, 1, 0);
  }

  // ---------------------------------------------------------------------------
  // rotate
  // ---------------------------------------------------------------------------

  /** The rotated piece, when some kick position fits it. */
  function RotatedPiece(board: Board, p: Piece): Option<Piece>
    requires WellFormedBoard(board) && Rectangular(p.shape)
  {
    var kick := FirstKick(board, Rotated(p.shape), p.position, 0);
    if kick.Some? then Some(p.(shape := Rotated(p.shape), position := kick.value, rotation := (p.rotation + 1) % 4))
    else None
  }

  /** rotate: the clockwise rotation at the first wall-kick position that fits, if there is one. */
  function Rotate(prev: GameState): GameState
    requires WellFormedBoard(prev.board)
    requires prev.currentPiece.Some? ==> Rectangular(prev.currentPiece.value.shape)
  {
    if !CanAct(prev) then prev
    else
      var r := RotatedPiece(prev.board, prev.currentPiece.value);
      if r.Some? then prev.(currentPiece := r) else prev
  }

  /** A rotated valid piece is the next orientation of its type, in its colour, where it fits. */
  lemma RotatedPieceOk(board: Board, p: Piece)
    requires WellFormedBoard(board) && PieceOk(board, p)
    ensures RotatedPiece(board, p).Some? ==>
      PieceOk(board, RotatedPiece(board, p).value) && RotatedPiece(board, p).value.rotation == (p.rotation + 1) % 4
  {
    var r := RotatedPiece(board, p);
    if r.Some? {
      var q := r.value;
      RotationsCycle(p.kind, p.rotation);
      OrientationHasBlock(p.kind, (p.rotation + 1) % 4);
      FirstKickFits(board, Rotated(p.shape), p.position, 0);
      assert q.shape == Rotations(p.kind)[q.rotation];
      assert Fits(board, q.shape, q.position);
    }
  }

  /**
   * A rotation of a valid piece gives the next orientation of its type at a
   * kick position where it fits; when no kick position fits nothing changes.
   */
  lemma RotateEffect(prev: GameState)
    requires Inv(prev) && CanAct(prev)
    ensures RotatedPiece(prev.board, prev.currentPiece.value).None? ==> Rotate(prev) == prev
    ensures RotatedPiece(prev.board, prev.currentPiece.value).Some? ==>
      Rotate(prev) == prev.(currentPiece := RotatedPiece(prev.board, prev.currentPiece.value)) &&
      PieceOk(prev.board, RotatedPiece(prev.board, prev.currentPiece.value).value) &&
      RotatedPiece(prev.board, prev.currentPiece.value).value.rotation == (prev.currentPiece.value.rotation + 1) % 4
  {
    RotatedPieceOk(prev.board, prev.currentPiece.value);
  }

  // ---------------------------------------------------------------------------
  // hardDrop
  // ---------------------------------------------------------------------------

  /** hardDrop's updater: the piece falls to its resting row; two points per row fallen. */
  function HardDropped(prev: GameState): GameState
    requires WellFormedBoard(prev.board)
    requires prev.currentPiece.Some? ==> HasBlock(prev.currentPiece.value.shape)
  {
    if !CanAct(prev) then prev
    else
      var p := prev.currentPiece.value;
      var dropY := DropFrom(prev.board, p.shape, p.position.x, p.position.y);
      prev.(currentPiece := Some(p.(position := Position(p.position.x, dropY))),
            score := prev.score + (dropY - p.position.y) * 2)
  }

  /** hardDrop's updater: steps dropY down while the row below is valid. */
  method HardDrop(prev: GameState) returns (s: GameState)
    requires WellFormedBoard(prev.board)
    requires prev.currentPiece.Some? ==> HasBlock(prev.currentPiece.value.shape)
    ensures s == HardDropped(prev)
  {
    if prev.currentPiece.None? || prev.isPaused || !prev.isPlaying {
      return prev;
    }
    var p := prev.currentPiece.value;
    var dropY := p.position.y;
    while true
      invariant DropFrom(prev.board, p.shape, p.position.x, dropY) == DropFrom(prev.board, p.shape, p.position.x, p.position.y)
      decreases BOARD_HEIGHT - dropY
    {
      var below := IsValidPosition(prev.board, p.shape, Position(p.position.x, dropY + 1));
      if !below {
        break;
      }
      FitsAboveFloor(prev.board, p.shape, Position(p.position.x, dropY + 1));
      dropY := dropY + 1;
    }
    var dropDistance := dropY - p.position.y;
    var dropScore := dropDistance * 2;
    return prev.(currentPiece := Some(p.(position := Position(p.position.x, dropY))), score := prev.score + dropScore);
  }

  /**
   * A hard drop keeps x, lands where the piece fits and the next row down
   * does not, never moves up, and scores two points per row fallen.
   */
  lemma HardDroppedLands(prev: GameState)
    requires Inv(prev) && CanAct(prev)
    ensures var p := prev.currentPiece.value;
      var q := HardDropped(prev).currentPiece.value;
      q.position.x == p.position.x && q.position.y >= p.position.y &&
      Fits(prev.board, p.shape, q.position) && !Fits(prev.board, p.shape, Position(q.position.x, q.position.y + 1)) &&
      HardDropped(prev).score == prev.score + 2 * (q.position.y - p.position.y) &&
      HardDropped(prev).board == prev.board
  {
  }

  /**
   * Without a current piece, while paused or when not playing, the move,
   * rotate and hard-drop updaters return the state they were given; without
   * a current piece lockPiece does too.
   */
  lemma GuardedUpdatersKeepState(prev: GameState)
    requires WellFormedBoard(prev.board) && !CanAct(prev)
    requires prev.currentPiece.Some? ==> Rectangular(prev.currentPiece.value.shape) && HasBlock(prev.currentPiece.value.shape)
    ensures MoveDown(prev) == prev && MoveLeft(prev) == prev && MoveRight(prev) == prev
    ensures Rotate(prev) == prev && HardDropped(prev) == prev
    ensures prev.currentPiece.None? ==> Locked(prev) == prev
  {
  }

  // ---------------------------------------------------------------------------
  // softDrop, togglePause, startGame, resetGame
  // ---------------------------------------------------------------------------

  /** softDrop as written: a move down, then one point whether or not anything moved. */
  function SoftDropAsWritten(prev: GameState): GameState
    requires WellFormedBoard(prev.board)
  {
    var moved := MoveDown(prev);
    moved.(score := moved.score + 1)
  }

  /** The keyboard reaches softDrop while paused, and it then scores a point with the piece frozen. */
  lemma SoftDropScoresWhilePaused(prev: GameState)
    requires WellFormedBoard(prev.board) && prev.isPaused
    ensures SoftDropAsWritten(prev) == prev.(score := prev.score + 1)
  {
  }

  /**
   * softDrop, corrected: the key is ignored unless the game runs unpaused, as
   * the on-screen down button is; a running game scores its point as written.
   */
  function SoftDrop(prev: GameState): GameState
    requires WellFormedBoard(prev.board)
  {
    if !prev.isPlaying || prev.isPaused then prev else SoftDropAsWritten(prev)
  }

  /**
   * A corrected soft drop changes nothing exactly when the game is stopped or
   * paused; otherwise it scores one point and moves the piece as moveDown
   * does, one row down when that row fits and not at all when it does not.
   */
  lemma SoftDropEffect(prev: GameState)
    requires WellFormedBoard(prev.board)
    ensures SoftDrop(prev) == prev <==> !prev.isPlaying || prev.isPaused
    ensures prev.isPlaying && !prev.isPaused ==>
      SoftDrop(prev).score == prev.score + 1 && SoftDrop(prev).(score := prev.score) == MoveDown(prev)
    ensures CanAct(prev) ==>
      var p := prev.currentPiece.value;
      var below := Position(p.position.x, p.position.y + 1);
      SoftDrop(prev).currentPiece.value.position == (if Fits(prev.board, p.shape, below) then below else p.position)
  {
    ShiftedEffect(prev, 0, 1);
  }

  /** togglePause: flips the pause flag while a game is running. */
  function TogglePause(prev: GameState): GameState {
    if !prev.isPlaying || prev.gameOver then prev else prev.(isPaused := !prev.isPaused)
  }

  /** Pausing changes only the flag, only while playing and not over, and twice is no change. */
  lemma TogglePauseEffect(prev: GameState)
    ensures TogglePause(prev) != prev <==> prev.isPlaying && !prev.gameOver
    ensures TogglePause(prev) == prev.(isPaused := TogglePause(prev).isPaused)
    ensures TogglePause(TogglePause(prev)) == prev
  {
  }

  /** startGame's updater: a fresh initial state that keeps the best score, playing, with a new next piece. */
  function StartGame(prev: GameState, next: TetrominoType): GameState {
    InitialState().(highScore := prev.highScore, isPlaying := true, nextPiece := next)
  }

  /** resetGame's updater: a fresh initial state that keeps the best score. */
  function ResetGame(prev: GameState): GameState {
    InitialState().(highScore := prev.highScore)
  }

  /** Start and reset keep only the best score; start also sets the game running. */
  lemma StartResetKeepOnlyHighScore(a: GameState, b: GameState, next: TetrominoType)
    requires a.highScore == b.highScore
    ensures StartGame(a, next) == StartGame(b, next) && ResetGame(a) == ResetGame(b)
    ensures ResetGame(a).highScore == a.highScore && StartGame(a, next).highScore == a.highScore
    ensures StartGame(a, next).isPlaying && !ResetGame(a).isPlaying
    ensures StartGame(a, next) == ResetGame(a).(isPlaying := true, nextPiece := next)
  {
  }

  // ---------------------------------------------------------------------------
  // hardDrop followed by lockPiece and spawnPiece
  // ---------------------------------------------------------------------------

  /** The hard-drop key as written: the updater, then lockPiece and spawnPiece, which have no guard. */
  function HardDropKeyAsWritten(prev: GameState, next: TetrominoType): GameState
    requires WellFormedBoard(prev.board)
    requires prev.currentPiece.Some? ==> HasBlock(prev.currentPiece.value.shape)
  {
    Spawned(Locked(HardDropped(prev)), next)
  }

  /** The paused game of the counterexample: a fresh I piece at its start position on the empty board. */
  function PausedWithI(): GameState {
    GameState(EmptyBoard(), Some(CreatePiece(I)), O, 0, 0, 1, false, true, true, 0)
  }

  /**
   * Space while paused: hardDrop's updater does nothing, but lockPiece still
   * locks the I piece where it hangs, writing its blocks into row 0.
   */
  lemma HardDropLocksWhilePaused(next: TetrominoType)
    ensures CreatePiece(I).position == Position(3, -1)
    ensures !PausedWithI().board[0][3].filled
    ensures HardDropKeyAsWritten(PausedWithI(), next).board[0][3].filled
  {
    var s := PausedWithI();
    var p := CreatePiece(I);
    IPieceOnRowZero();
    assert HardDropped(s) == s;
    var m := Merged(s.board, p);
    MergedIOnEmptyBoard();
    EmptyColumnNoFullRow(m);
    ClearedUnchanged(m);
    assert Locked(s).board == m;
  }

  /** A board whose first column is empty has no full row. */
  lemma EmptyColumnNoFullRow(b: Board)
    requires WellFormedBoard(b) && forall y :: 0 <= y < BOARD_HEIGHT ==> !b[y][0].filled
    ensures forall y :: 0 <= y < BOARD_HEIGHT ==> !RowFull(b[y])
  {
  }

  /** The fresh I piece hangs at (3, -1) with its blocks in board row 0. */
  lemma IPieceOnRowZero()
    ensures CreatePiece(I).position == Position(3, -1)
    ensures !AboveBoard(CreatePiece(I))
    ensures Covers(CreatePiece(I), 3, 0)
    ensures forall y :: !Covers(CreatePiece(I), 0, y)
  {
    var p := CreatePiece(I);
    assert p.shape == [[0, 0, 0, 0], [1, 1, 1, 1], [0, 0, 0, 0], [0, 0, 0, 0]];
    assert !AboveBoard(p) by {
      forall y, x | 0 <= y < |p.shape| && 0 <= x < |p.shape[y]| && p.shape[y][x] != 0
        ensures p.position.y + y >= 0
      {
        assert y == 1;
      }
    }
    assert p.shape[1][0] == 1;
  }

  /** Merging that piece into the empty board fills cell (3, 0) and leaves column 0 empty. */
  lemma MergedIOnEmptyBoard()
    ensures Merged(EmptyBoard(), CreatePiece(I))[0][3].filled
    ensures forall y :: 0 <= y < BOARD_HEIGHT ==> !Merged(EmptyBoard(), CreatePiece(I))[y][0].filled
  {
    IPieceOnRowZero();
  }

  /**
   * The hard-drop key, corrected: a stopped or paused game ignores it; a
   * running game drops, locks and spawns as written, but spawns no piece
   * into a game the lock has ended.
   */
  function HardDropKey(prev: GameState, next: TetrominoType): GameState
    requires WellFormedBoard(prev.board)
    requires prev.currentPiece.Some? ==> HasBlock(prev.currentPiece.value.shape)
  {
    if !prev.isPlaying || prev.isPaused then prev else SpawnIfRunning(Locked(HardDropped(prev)), next)
  }

  /**
   * The corrected hard-drop key leaves a paused or stopped game alone. In a
   * running game it locks the piece at its landing row, then spawns; with no
   * piece yet (the start delay) it only spawns, as the program does.
   */
  lemma HardDropKeyEffect(prev: GameState, next: TetrominoType)
    requires Inv(prev)
    ensures !prev.isPlaying || prev.isPaused ==> HardDropKey(prev, next) == prev
    ensures CanAct(prev) ==>
      var p := prev.currentPiece.value;
      var landed := HardDropped(prev).currentPiece.value;
      !Fits(prev.board, p.shape, Position(landed.position.x, landed.position.y + 1)) &&
      HardDropKey(prev, next) == SpawnIfRunning(Locked(HardDropped(prev)), next)
    ensures prev.isPlaying && !prev.isPaused && prev.currentPiece.None? ==>
      HardDropKey(prev, next) == Spawned(prev, next) == HardDropKeyAsWritten(prev, next)
  {
    if CanAct(prev) {
      HardDroppedLands(prev);
    }
  }

  // ---------------------------------------------------------------------------
  // Actions and the invariant
  // ---------------------------------------------------------------------------

  /** What reaches the updaters: keys, the game-loop tick, the lock delay and the spawn timer. */
  datatype Action =
    | KeyLeft
    | KeyRight
    | KeyUp
    | KeyDown
    | KeySpace(drawn: TetrominoType)
    | Gravity
    | LockDelay(drawn: TetrominoType)
    | SpawnTimer(drawn: TetrominoType)
    | KeyPause
    | KeyStart(drawn: TetrominoType)
    | KeyReset

  /**
   * One action on a valid state, with the corrected updaters: the lock delay
   * runs lockPiece and then the spawnPiece it schedules, and spawning and the
   * two drop keys are guarded.
   */
  function Step(s: GameState, a: Action): GameState
    requires Inv(s)
  {
    match a
    case KeyLeft => MoveLeft(s)
    case KeyRight => MoveRight(s)
    case KeyUp => Rotate(s)
    case KeyDown => SoftDrop(s)
    case KeySpace(next) => HardDropKey(s, next)
    case Gravity => MoveDown(s)
    case LockDelay(next) => SpawnIfRunning(Locked(s), next)
    case SpawnTimer(next) => SpawnIfRunning(s, next)
    case KeyPause => TogglePause(s)
    case KeyStart(next) => StartGame(s, next)
    case KeyReset => ResetGame(s)
  }

  /**
   * One action as the program runs it: the soft drop scores whatever the
   * state, Space locks and spawns whatever the guard said, and spawnPiece has
   * no game-over guard.
   */
  function StepAsWritten(s: GameState, a: Action): GameState
    requires Consistent(s)
  {
    match a
    case KeyLeft => MoveLeft(s)
    case KeyRight => MoveRight(s)
    case KeyUp => Rotate(s)
    case KeyDown => SoftDropAsWritten(s)
    case KeySpace(next) => HardDropKeyAsWritten(s, next)
    case Gravity => MoveDown(s)
    case LockDelay(next) => Spawned(Locked(s), next)
    case SpawnTimer(next) => Spawned(s, next)
    case KeyPause => TogglePause(s)
    case KeyStart(next) => StartGame(s, next)
    case KeyReset => ResetGame(s)
  }

  lemma EndGameValid(s: GameState)
    requires Consistent(s)
    ensures Inv(EndGame(s)) && EndGame(s).highScore == Max(s.score, s.highScore) >= s.highScore
  {
  }

  /** spawnPiece as written keeps the program's invariant, even in an ended game. */
  lemma SpawnedValid(s: GameState, next: TetrominoType)
    requires Consistent(s)
    ensures Consistent(Spawned(s, next))
    ensures Inv(s) && !s.gameOver ==> Inv(Spawned(s, next))
  {
    var p := CreatePiece(s.nextPiece);
    if Fits(s.board, p.shape, p.position) && !OnBoardCollision(s.board, p) {
      assert PieceOk(s.board, p);
    }
  }

  lemma SpawnIfRunningValid(s: GameState, next: TetrominoType)
    requires Inv(s)
    ensures Inv(SpawnIfRunning(s, next))
  {
    if !s.gameOver {
      SpawnedValid(s, next);
    }
  }

  /** lockPiece leaves no piece behind, so from the program's invariant it restores the stronger one. */
  lemma LockedValid(s: GameState)
    requires Consistent(s)
    ensures Inv(Locked(s))
    ensures Locked(s).score >= s.score && Locked(s).lines >= s.lines && Locked(s).highScore >= s.highScore
  {
    if s.currentPiece.Some? && !AboveBoard(s.currentPiece.value) {
      var m := Merged(s.board, s.currentPiece.value);
      ScoreOutsideTable(Cleared(m).linesCleared, s.level);
      ClearedNoFullRows(m);
    }
  }

  lemma ShiftedValid(s: GameState, dx: int, dy: int)
    requires Consistent(s)
    ensures Consistent(Shifted(s, dx, dy))
    ensures Inv(s) ==> Inv(Shifted(s, dx, dy))
  {
  }

  lemma RotateValid(s: GameState)
    requires Consistent(s)
    ensures Consistent(Rotate(s))
    ensures Inv(s) ==> Inv(Rotate(s))
  {
    if CanAct(s) {
      RotateEffect(s);
    }
  }

  lemma SoftDropValid(s: GameState)
    requires Consistent(s)
    ensures Consistent(SoftDropAsWritten(s))
    ensures Inv(s) ==> Inv(SoftDrop(s))
  {
    ShiftedValid(s, 0, 1);
  }

  lemma HardDropKeyValid(s: GameState, next: TetrominoType)
    requires Inv(s)
    ensures Inv(HardDropKey(s, next))
    ensures HardDropKey(s, next).score >= s.score && HardDropKey(s, next).lines >= s.lines
  {
    if s.isPlaying && !s.isPaused {
      var d := HardDropped(s);
      if CanAct(s) {
        HardDroppedLands(s);
        assert Consistent(d);
      }
      LockedValid(d);
      SpawnIfRunningValid(Locked(d), next);
    }
    HardDropKeyLosesNothing(s, next);
  }

  /** The Space key as written keeps the program's invariant. */
  lemma HardDropKeyAsWrittenValid(s: GameState, next: TetrominoType)
    requires Consistent(s)
    ensures Consistent(HardDropKeyAsWritten(s, next))
  {
    var d := HardDropped(s);
    if CanAct(s) {
      HardDroppedLands(s);
      assert Consistent(d);
    }
    LockedValid(d);
    SpawnedValid(Locked(d), next);
  }

  /** Every corrected action keeps the invariant. */
  lemma StepKeepsInv(s: GameState, a: Action)
    requires Inv(s)
    ensures Inv(Step(s, a))
  {
    match a
    case KeyLeft => ShiftedValid(s, -1, 0);
    case KeyRight => ShiftedValid(s, 1, 0);
    case KeyUp => RotateValid(s);
    case KeyDown => SoftDropValid(s);
    case KeySpace(next) => HardDropKeyValid(s, next);
    case Gravity => ShiftedValid(s, 0, 1);
    case LockDelay(next) => LockedValid(s); SpawnIfRunningValid(Locked(s), next);
    case SpawnTimer(next) => SpawnIfRunningValid(s, next);
    case KeyPause =>
    case KeyStart(next) => InitialStateValid();
    case KeyReset => InitialStateValid();
  }

  /** Every action as the program runs it keeps the program's invariant. */
  lemma StepAsWrittenKeepsConsistent(s: GameState, a: Action)
    requires Consistent(s)
    ensures Consistent(StepAsWritten(s, a))
  {
    match a
    case KeyLeft => ShiftedValid(s, -1, 0);
    case KeyRight => ShiftedValid(s, 1, 0);
    case KeyUp => RotateValid(s);
    case KeyDown => SoftDropValid(s);
    case KeySpace(next) => HardDropKeyAsWrittenValid(s, next);
    case Gravity => ShiftedValid(s, 0, 1);
    case LockDelay(next) => LockedValid(s); SpawnedValid(Locked(s), next);
    case SpawnTimer(next) => SpawnedValid(s, next);
    case KeyPause =>
    case KeyStart(next) => InitialStateValid();
    case KeyReset => InitialStateValid();
  }

  /** Nothing of the score record is lost from s to t, and an ended game stays ended. */
  predicate LosesNothing(s: GameState, t: GameState) {
    t.highScore >= s.highScore && t.score >= s.score && t.lines >= s.lines && (s.gameOver ==> t.gameOver)
  }

  lemma ShiftedLosesNothing(s: GameState, dx: int, dy: int)
    requires WellFormedBoard(s.board)
    ensures LosesNothing(s, Shifted(s, dx, dy))
  {
  }

  lemma RotateLosesNothing(s: GameState)
    requires WellFormedBoard(s.board) && (s.currentPiece.Some? ==> Rectangular(s.currentPiece.value.shape))
    ensures LosesNothing(s, Rotate(s))
  {
  }

  lemma SoftDropLosesNothing(s: GameState)
    requires WellFormedBoard(s.board)
    ensures LosesNothing(s, SoftDrop(s)) && LosesNothing(s, SoftDropAsWritten(s))
  {
  }

  lemma SpawnedLosesNothing(s: GameState, next: TetrominoType)
    requires WellFormedBoard(s.board)
    ensures LosesNothing(s, Spawned(s, next)) && LosesNothing(s, SpawnIfRunning(s, next))
  {
  }

  lemma LockedLosesNothing(s: GameState)
    requires WellFormedBoard(s.board) && s.level >= 0
    ensures LosesNothing(s, Locked(s))
  {
    if s.currentPiece.Some? && !AboveBoard(s.currentPiece.value) {
      var c := Cleared(Merged(s.board, s.currentPiece.value));
      ScoreOutsideTable(c.linesCleared, s.level);
    }
  }

  /** Dropping, locking and spawning keep or raise the score record, with or without the guards. */
  lemma DropLockSpawnLosesNothing(s: GameState, next: TetrominoType)
    requires Consistent(s)
    ensures var t := Locked(HardDropped(s));
      LosesNothing(s, Spawned(t, next)) && LosesNothing(s, SpawnIfRunning(t, next))
  {
    var d := HardDropped(s);
    if CanAct(s) {
      HardDroppedLands(s);
    }
    LockedLosesNothing(d);
    SpawnedLosesNothing(Locked(d), next);
  }

  lemma HardDropKeyLosesNothing(s: GameState, next: TetrominoType)
    requires Consistent(s)
    ensures LosesNothing(s, HardDropKey(s, next)) && LosesNothing(s, HardDropKeyAsWritten(s, next))
  {
    DropLockSpawnLosesNothing(s, next);
  }

  /**
   * Only start and reset lower the score or the lines; no corrected action
   * lowers the best score, and a game that ended stays ended until start or
   * reset.
   */
  lemma StepMonotone(s: GameState, a: Action)
    requires Inv(s)
    ensures Step(s, a).highScore >= s.highScore
    ensures !a.KeyStart? && !a.KeyReset? ==> Step(s, a).score >= s.score && Step(s, a).lines >= s.lines
    ensures !a.KeyStart? && !a.KeyReset? && s.gameOver ==> Step(s, a).gameOver
  {
    match a
    case KeyLeft => ShiftedLosesNothing(s, -1, 0);
    case KeyRight => ShiftedLosesNothing(s, 1, 0);
    case KeyUp => RotateLosesNothing(s);
    case KeyDown => SoftDropLosesNothing(s);
    case KeySpace(next) => HardDropKeyLosesNothing(s, next);
    case Gravity => ShiftedLosesNothing(s, 0, 1);
    case LockDelay(next) => LockedLosesNothing(s); SpawnedLosesNothing(Locked(s), next);
    case SpawnTimer(next) => SpawnedLosesNothing(s, next);
    case KeyPause =>
    case KeyStart(next) =>
    case KeyReset =>
  }

  /** The same holds for the program as written: its soft drop, Space key and spawn lose nothing either. */
  lemma StepAsWrittenMonotone(s: GameState, a: Action)
    requires Consistent(s)
    ensures StepAsWritten(s, a).highScore >= s.highScore
    ensures !a.KeyStart? && !a.KeyReset? ==> StepAsWritten(s, a).score >= s.score && StepAsWritten(s, a).lines >= s.lines
    ensures !a.KeyStart? && !a.KeyReset? && s.gameOver ==> StepAsWritten(s, a).gameOver
  {
    match a
    case KeyLeft => ShiftedLosesNothing(s, -1, 0);
    case KeyRight => ShiftedLosesNothing(s, 1, 0);
    case KeyUp => RotateLosesNothing(s);
    case KeyDown => SoftDropLosesNothing(s);
    case KeySpace(next) => HardDropKeyLosesNothing(s, next);
    case Gravity => ShiftedLosesNothing(s, 0, 1);
    case LockDelay(next) => LockedLosesNothing(s); SpawnedLosesNothing(Locked(s), next);
    case SpawnTimer(next) => SpawnedLosesNothing(s, next);
    case KeyPause =>
    case KeyStart(next) =>
    case KeyReset =>
  }
}
