/** The rule evaluator: which of the eight lines is complete, and whether the
    board is drawn (checkWinner in App.tsx). */
module Rules {
  import opened Types

  /** The eight lines in the order they are scanned: rows, columns, diagonals. */
  const LINES: seq<Line> := [
    Line(0, 1, 2), Line(3, 4, 5), Line(6, 7, 8),
    Line(0, 3, 6), Line(1, 4, 7), Line(2, 5, 8),
    Line(0, 4, 8), Line(2, 4, 6)
  ]

  /** The three cells of line l hold the same symbol. */
  predicate Completes(b: Board, l: Line) {
    b[l.a].Some? && b[l.a] == b[l.b] && b[l.a] == b[l.c]
  }

  /** Every cell holds a symbol. */
  predicate Full(b: Board) {
    forall i | 0 <= i < 9 :: b[i].Some?
  }

  /** Some line of the table is complete on b. */
  ghost predicate HasCompletedLine(b: Board) {
    exists k | 0 <= k < |LINES| :: Completes(b, LINES[k])
  }

  /** The position in LINES, at or after `from`, of the first complete line. */
  function FirstCompleted(b: Board, from: nat): (r: Option<nat>)
    requires from <= |LINES|
    ensures r.Some? ==> from <= r.value < |LINES| && Completes(b, LINES[r.value])
    ensures r.Some? ==> forall j | from <= j < r.value :: !Completes(b, LINES[j])
    ensures r.None? ==> forall j | from <= j < |LINES| :: !Completes(b, LINES[j])
    decreases |LINES| - from
  {
    if from == |LINES| then None
    else if Completes(b, LINES[from]) then Some(from)
    else FirstCompleted(b, from + 1)
  }

  /** The status of a board: the first complete line wins; otherwise a full
      board is a draw and any other board is still running. The fields of
      every status agree with each other and with the board: never both a
      winner and a draw, a line exactly when a winner, and that line is one
      of the table's, complete, and holds the winner's symbol. */
  function Evaluate(b: Board): (r: GameStatus)
    ensures !(r.winner.Some? && r.isDraw)
    ensures r.winningLine.Some? <==> r.winner.Some?
    ensures r.winningLine.Some? ==>
      r.winningLine.value in LINES && Completes(b, r.winningLine.value)
      && r.winner == b[r.winningLine.value.a]
    ensures r.isDraw ==> Full(b)
  {
    match FirstCompleted(b, 0)
    case Some(k) => GameStatus(b[LINES[k].a], false, Some(LINES[k]))
    case None => if Full(b) then GameStatus(None, true, None) else NEUTRAL
  }

  /** The scan of checkWinner: lines in table order with an early return on
      the first complete one, then the fullness test. */
  method CheckWinner(b: Board) returns (s: GameStatus)
    ensures s == Evaluate(b)
  {
    var i := 0;
    while i < |LINES|
      invariant 0 <= i <= |LINES|
      invariant FirstCompleted(b, 0) == FirstCompleted(b, i)
    {
      var line := LINES[i];
      if b[line.a].Some? && b[line.a] == b[line.b] && b[line.a] == b[line.c] {
        return GameStatus(b[line.a], false, Some(line));
      }
      i := i + 1;
    }
    if forall j | 0 <= j < 9 :: b[j].Some? {
      return GameStatus(None, true, None);
    }
    return GameStatus(None, false, None);
  }

  /** The first complete line in table order decides the winner. */
  lemma EvaluateFirstMatch(b: Board, k: nat)
    requires k < |LINES| && Completes(b, LINES[k])
    requires forall j | 0 <= j < k :: !Completes(b, LINES[j])
    ensures Evaluate(b) == GameStatus(b[LINES[k].a], false, Some(LINES[k]))
    ensures Evaluate(b).winner.Some?
  {
  }

  /** No complete line and no empty cell: a draw. */
  lemma EvaluateDraw(b: Board)
    requires !HasCompletedLine(b) && Full(b)
    ensures Evaluate(b) == GameStatus(None, true, None)
  {
  }

  /** No complete line and an empty cell: the game goes on. */
  lemma EvaluateNeutral(b: Board)
    requires !HasCompletedLine(b) && !Full(b)
    ensures Evaluate(b) == NEUTRAL
  {
  }

  /** A status is terminal exactly when some line is complete or the board
      is full. */
  lemma TerminalIff(b: Board)
    ensures Terminal(Evaluate(b)) <==> HasCompletedLine(b) || Full(b)
  {
  }

  /** While the game goes on, some cell is empty. */
  lemma NonTerminalHasEmptyCell(b: Board)
    requires !Terminal(Evaluate(b))
    ensures exists i | 0 <= i < 9 :: b[i].None?
  {
    TerminalIff(b);
  }

  /** The empty board is still running. */
  lemma EvaluateInitial()
    ensures Evaluate(INITIAL_BOARD) == NEUTRAL
  {
  }

  /** A diagonal of X wins with that diagonal as the line. */
  lemma ExampleDiagonal()
    ensures Evaluate([Some(X), None, None, None, Some(X), None, None, None, Some(X)])
         == GameStatus(Some(X), false, Some(Line(0, 4, 8)))
  {
  }

  /** A full board with no complete line is a draw. */
  lemma ExampleDraw()
    ensures Evaluate([Some(X), Some(O), Some(X), Some(X), Some(O), Some(O), Some(O), Some(X), Some(X)])
         == GameStatus(None, true, None)
  {
  }
}
