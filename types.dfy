/**
 * Entities of app/types/game.types.ts: cells, boards, positions, shapes,
 * pieces and the single-player game state, with the board dimensions.
 */
module Types {
  import opened Wrappers

  const BOARD_WIDTH: int := 10
  const BOARD_HEIGHT: int := 20

  /** One board cell; an empty cell has colour "transparent". */
  datatype Cell = Cell(filled: bool, color: string)

  const EMPTY_CELL: Cell := Cell(false, "transparent")

  /** A board is a list of rows, top row first; `board[y][x]`. */
  type Board = seq<seq<Cell>>

  datatype Position = Position(x: int, y: int)

  /** A piece shape: rows of numbers, where any non-zero entry is a block. */
  type Shape = seq<seq<int>>

  datatype TetrominoType = I | O | T | S | Z | J | L

  /** The falling piece. */
  datatype Piece = Piece(kind: TetrominoType, shape: Shape, color: string, position: Position, rotation: int)

  datatype GameState = GameState(
    board: Board,
    currentPiece: Option<Piece>,
    nextPiece: TetrominoType,
    score: int,
    lines: int,
    level: int,
    gameOver: bool,
    isPaused: bool,
    isPlaying: bool,
    highScore: int)

  /** The board has BOARD_HEIGHT rows of BOARD_WIDTH cells each. */
  predicate WellFormedBoard(b: Board) {
    |b| == BOARD_HEIGHT && forall y :: 0 <= y < |b| ==> |b[y]| == BOARD_WIDTH
  }

  /** Every row of `s` has exactly `width` entries. */
  predicate RowsOfWidth(s: Shape, width: int) {
    forall y :: 0 <= y < |s| ==> |s[y]| == width
  }

  /** A non-empty shape whose rows all have the length of the first. */
  predicate Rectangular(s: Shape) {
    |s| > 0 && RowsOfWidth(s, |s[0]|)
  }

  /** Some entry of the shape is a block. */
  predicate HasBlock(s: Shape) {
    exists y, x :: 0 <= y < |s| && 0 <= x < |s[y]| && s[y][x] != 0
  }
}
