/** The data shapes of the game: symbols, cells, the nine-cell board, the
    status derived from a board, and chat messages (types.ts). */
module Types {

  datatype Option<T> = None | Some(value: T)

  /** A symbol on the board. The human always plays X, the AI always O. */
  datatype Player = X | O

  /** A cell of the board; None stands for an empty (null) cell. */
  type Cell = Option<Player>

  /** A position on the board; cell i sits at row i / 3, column i % 3. */
  type Index = i: int | 0 <= i < 9

  /** The board: nine cells in row-major order. It is never resized. */
  type Board = b: seq<Cell> | |b| == 9
    witness [None, None, None, None, None, None, None, None, None]

  /** Three positions that win when they hold the same symbol. */
  datatype Line = Line(a: Index, b: Index, c: Index)

  /** The outcome derived from a board: the winning symbol (if any), whether
      the game is drawn, and the completed line (if any). */
  datatype GameStatus = GameStatus(winner: Cell, isDraw: bool, winningLine: Option<Line>)

  datatype Role = User | Ai

  datatype ChatMessage = ChatMessage(role: Role, text: string)

  /** The board every game starts from: nine empty cells. */
  const INITIAL_BOARD: Board := [None, None, None, None, None, None, None, None, None]

  /** The status of a game that is still running: no winner, no draw. */
  const NEUTRAL: GameStatus := GameStatus(None, false, None)

  /** A status after which no further ply is accepted. */
  predicate Terminal(s: GameStatus) {
    s.winner.Some? || s.isDraw
  }
}
