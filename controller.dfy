/** The turn controller of App.tsx: the game state (board, turn, status,
    processing flag, chat log) and the operations that change it. The AI
    ply of handleUserMove runs across two awaited requests and an 800 ms
    timer; each of those resumptions is a separate step here, so a reset
    can fall between them. */
module Controller {
  import opened Types
  import opened Rules
  import opened Chat
  import opened Ai

  /** The guard on the AI's move as written: the index is not -1 and the
      cell it names is not occupied. Reading outside the board gives an
      undefined (falsy) cell, so out-of-range indices pass. */
  predicate AIGuardAsWritten(b: seq<Cell>, aiIdx: int) {
    aiIdx != -1 && !(0 <= aiIdx < |b| && b[aiIdx].Some?)
  }

  /** The guard the controller uses: the index names an empty cell of the
      board. It agrees with AIGuardAsWritten on every index of the board and
      rejects every other index, which then forfeits the AI's ply. */
  predicate AIGuard(b: Board, aiIdx: int) {
    0 <= aiIdx < 9 && b[aiIdx].None?
  }

  /** The guard as written lets indices 9 and -2 through, although neither
      names a cell of the nine-cell board; the corrected guard rejects them. */
  lemma AsWrittenGuardAdmitsOffBoard(b: Board)
    ensures AIGuardAsWritten(b, 9) && !(9 < |b|) && !AIGuard(b, 9)
    ensures AIGuardAsWritten(b, -2) && !AIGuard(b, -2)
  {
  }

  /** The corrected guard is the guard as written restricted to the
      indices of the board: an index it accepts names an empty cell. */
  lemma GuardIsAsWrittenOnBoard(b: Board, i: int)
    ensures AIGuard(b, i) <==> 0 <= i < |b| && AIGuardAsWritten(b, i)
    ensures AIGuard(b, i) ==> b[i] == None
  {
  }

  /** When the AI is asked for a move the game is still running, so the
      fallback names an empty cell and always passes the guard. */
  lemma FallbackIsLegal(b: Board)
    requires !Terminal(Evaluate(b))
    ensures AIGuard(b, GetAIMove(b, Failed))
  {
  }

  /** A suspended AI ply: the locals handleUserMove holds while it waits for
      the commentary, for the move, or for the timer. */
  datatype Ply =
    | AwaitingCommentary(newBoard: Board, idx: Index)
    | AwaitingMove(newBoard: Board)
    | AwaitingTimer(finalBoard: Board)

  /** A suspended ply waiting for a request was started on a running game. */
  ghost predicate PlyOk(p: Ply) {
    match p
    case AwaitingCommentary(nb, _) => !Terminal(Evaluate(nb))
    case AwaitingMove(nb) => !Terminal(Evaluate(nb))
    case AwaitingTimer(_) => true
  }

  /** s without its element at k. */
  function Remove(s: seq<Ply>, k: nat): (r: seq<Ply>)
    requires k < |s|
    ensures |r| == |s| - 1
    ensures forall j | 0 <= j < k :: r[j] == s[j]
    ensures forall j | k <= j < |r| :: r[j] == s[j + 1]
  {
    s[..k] + s[k + 1..]
  }

  class Game {
    var board: Board
    var turn: Player
    var status: GameStatus
    var isProcessing: bool
    var messages: seq<ChatMessage>
    /** AI plies started and not yet finished, oldest first. */
    var pending: seq<Ply>
    /** Every message added since the last reset. */
    ghost var history: seq<ChatMessage>

    /** The status is always that of the board, the AI's turn and the
        processing flag go together, the log is the tail of the history,
        and every waiting ply started on a running game. */
    ghost predicate Valid()
      reads this
    {
      status == Evaluate(board)
      && (isProcessing <==> turn == O)
      && messages == Recent(history)
      && forall k | 0 <= k < |pending| :: PlyOk(pending[k])
    }

    /** The guard of handleUserMove: the cell is empty, nobody has won, it
        is not a draw, it is X's turn and no AI ply is in progress. */
    predicate Accepts(idx: Index)
      reads this
    {
      board[idx].None? && status.winner.None? && !status.isDraw
      && turn == X && !isProcessing
    }

    /** The initial state of the component. */
    constructor ()
      ensures Valid()
      ensures board == INITIAL_BOARD && status == NEUTRAL && turn == X
      ensures !isProcessing && messages == [] && pending == []
    {
      board := INITIAL_BOARD;
      turn := X;
      status := NEUTRAL;
      isProcessing := false;
      messages := [];
      pending := [];
      history := [];
      EvaluateInitial();
    }

    /** addMessage: the log keeps its last four entries and gains the new one. */
    method AddMessage(role: Role, text: string)
      requires Valid()
      modifies this`messages, this`history
      ensures Valid()
      ensures messages == AppendCapped(old(messages), ChatMessage(role, text))
      ensures history == old(history) + [ChatMessage(role, text)]
    {
      AppendCappedKeepsRecent(history, ChatMessage(role, text));
      messages := AppendCapped(messages, ChatMessage(role, text));
      history := history + [ChatMessage(role, text)];
    }

    /** The synchronous part of handleUserMove: the guard, the X placement,
        the re-evaluation, and, when the game goes on, the hand-over to the
        AI. `started` tells whether an AI ply was started. */
    method PlaceHumanMove(idx: Index) returns (started: bool)
      requires Valid()
      modifies this`board, this`status, this`turn, this`isProcessing, this`pending
      ensures Valid()
      ensures !old(Accepts(idx)) ==>
        !started && board == old(board) && status == old(status)
        && turn == old(turn) && isProcessing == old(isProcessing) && pending == old(pending)
      ensures old(Accepts(idx)) ==>
        board == old(board)[idx := Some(X)] && status == Evaluate(board)
      ensures started <==> old(Accepts(idx)) && !Terminal(status)
      ensures old(Accepts(idx)) && !started ==>
        turn == old(turn) && isProcessing == old(isProcessing) && pending == old(pending)
      ensures started ==>
        turn == O && isProcessing && pending == old(pending) + [AwaitingCommentary(board, idx)]
    {
      if !Accepts(idx) {
        return false;
      }
      var newBoard := board[idx := Some(X)];
      board := newBoard;
      var s := CheckWinner(newBoard);
      status := s;
      if s.winner.Some? || s.isDraw {
        return false;
      }
      turn := O;
      isProcessing := true;
      pending := pending + [AwaitingCommentary(newBoard, idx)];
      started := true;
    }

    /** The commentary request of ply k returns: its text (or the stock
        phrase) goes to the log and the ply goes on to ask for a move. */
    method ReceiveCommentary(k: nat, reply: Reply<string>)
      requires Valid() && k < |pending| && pending[k].AwaitingCommentary?
      modifies this`messages, this`history, this`pending
      ensures Valid()
      ensures messages == AppendCapped(old(messages), ChatMessage(Ai, GetAICommentary(reply)))
      ensures pending == old(pending)[k := AwaitingMove(old(pending)[k].newBoard)]
    {
      var newBoard := pending[k].newBoard;
      AddMessage(Ai, GetAICommentary(reply));
      pending := pending[k := AwaitingMove(newBoard)];
    }

    /** The move request of ply k returns. A move on an empty cell is held
        for the timer; any other index forfeits the ply and hands the turn
        back to X at once. The fallback always passes. */
    method ReceiveMove(k: nat, reply: Reply<int>) returns (aiIdx: int)
      requires Valid() && k < |pending| && pending[k].AwaitingMove?
      modifies this`turn, this`isProcessing, this`pending
      ensures Valid()
      ensures aiIdx == GetAIMove(old(pending)[k].newBoard, reply)
      ensures reply.Failed? ==> AIGuard(old(pending)[k].newBoard, aiIdx)
      ensures var nb := old(pending)[k].newBoard;
        AIGuard(nb, aiIdx) ==>
          pending == old(pending)[k := AwaitingTimer(nb[aiIdx := Some(O)])]
          && turn == old(turn) && isProcessing == old(isProcessing)
      ensures var nb := old(pending)[k].newBoard;
        !AIGuard(nb, aiIdx) ==>
          pending == Remove(old(pending), k) && turn == X && !isProcessing
    {
      var newBoard := pending[k].newBoard;
      aiIdx := GetAIMove(newBoard, reply);
      if reply.Failed? {
        FallbackIsLegal(newBoard);
      }
      // The source tests only aiIdx !== -1 and occupancy; AIGuard also
      // demands 0 <= aiIdx < 9 (see AsWrittenGuardAdmitsOffBoard).
      if AIGuard(newBoard, aiIdx) {
        pending := pending[k := AwaitingTimer(newBoard[aiIdx := Some(O)])];
      } else {
        isProcessing := false;
        turn := X;
        pending := Remove(pending, k);
      }
    }

    /** The 800 ms timer of ply k fires: its board replaces the current one
        unconditionally (there is no check that the game was not reset in
        between), is re-evaluated, and the turn goes back to X. */
    method FireTimer(k: nat)
      requires Valid() && k < |pending| && pending[k].AwaitingTimer?
      modifies this`board, this`status, this`turn, this`isProcessing, this`pending
      ensures Valid()
      ensures board == old(pending)[k].finalBoard && status == Evaluate(board)
      ensures turn == X && !isProcessing
      ensures pending == Remove(old(pending), k)
    {
      var finalBoard := pending[k].finalBoard;
      board := finalBoard;
      var s := CheckWinner(finalBoard);
      status := s;
      turn := X;
      isProcessing := false;
      pending := Remove(pending, k);
    }

    /** resetGame: an empty board, a running status, X to move, an empty log
        and no ply in progress. Plies still waiting are not cancelled. */
    method ResetGame()
      requires Valid()
      modifies this`board, this`status, this`turn, this`messages, this`history, this`isProcessing
      ensures Valid()
      ensures board == INITIAL_BOARD && status == NEUTRAL && turn == X
      ensures messages == [] && !isProcessing
      ensures pending == old(pending)
    {
      board := INITIAL_BOARD;
      status := NEUTRAL;
      turn := X;
      messages := [];
      history := [];
      isProcessing := false;
      EvaluateInitial();
    }

    /** handleUserMove run to completion with no other event in between:
        the commentary and the move requests answer `commentary` and `move`,
        and the timer fires. */
    method HandleUserMove(idx: Index, commentary: Reply<string>, move: Reply<int>)
      requires Valid()
      modifies this
      ensures Valid()
      ensures pending == old(pending)
      ensures !old(Accepts(idx)) ==>
        board == old(board) && status == old(status) && turn == old(turn)
        && isProcessing == old(isProcessing) && messages == old(messages)
      ensures old(Accepts(idx)) && Terminal(Evaluate(old(board)[idx := Some(X)])) ==>
        board == old(board)[idx := Some(X)] && status == Evaluate(board)
        && turn == old(turn) && isProcessing == old(isProcessing) && messages == old(messages)
      ensures var nb := old(board)[idx := Some(X)];
        old(Accepts(idx)) && !Terminal(Evaluate(nb)) ==>
          var aiIdx := GetAIMove(nb, move);
          board == (if AIGuard(nb, aiIdx) then nb[aiIdx := Some(O)] else nb)
          && status == Evaluate(board) && turn == X && !isProcessing
          && messages == AppendCapped(old(messages), ChatMessage(Ai, GetAICommentary(commentary)))
    {
      var started := PlaceHumanMove(idx);
      if started {
        var k := |pending| - 1;
        ReceiveCommentary(k, commentary);
        var aiIdx := ReceiveMove(k, move);
        if k < |pending| && pending[k].AwaitingTimer? {
          FireTimer(k);
        }
        assert pending == old(pending);
      }
    }
  }

  /** A board holding a single symbol is still running. */
  lemma SingleMarkRunning(i: Index, p: Player)
    ensures Evaluate(INITIAL_BOARD[i := Some(p)]) == NEUTRAL
  {
  }

  /** A fresh game in which X took cell a and the ply waits for its move. */
  method GameAwaitingMove(a: Index) returns (g: Game)
    ensures fresh(g) && g.Valid()
    ensures g.pending == [AwaitingMove(INITIAL_BOARD[a := Some(X)])]
  {
    var nb := INITIAL_BOARD[a := Some(X)];
    g := new Game();
    SingleMarkRunning(a, X);
    var started := g.PlaceHumanMove(a);
    assert started && g.pending == [AwaitingCommentary(nb, a)];
    g.ReceiveCommentary(0, Failed);
  }

  /** A fresh game in which X took cell a and the AI's answer c is held
      for the timer. */
  method GameWithHeldMove(a: Index, c: Index) returns (g: Game)
    requires a != c
    ensures fresh(g) && g.Valid()
    ensures g.pending == [AwaitingTimer(INITIAL_BOARD[a := Some(X)][c := Some(O)])]
  {
    g := GameAwaitingMove(a);
    var aiIdx := g.ReceiveMove(0, Answered(c));
  }

  /** A reply outstanding at a reset still lands: X takes a, the AI answers
      c, the game is reset before the timer fires, and X takes d in the new
      game; the timer then overwrites the board with the old game's board,
      clearing d. */
  method StaleTimerAfterReset(a: Index, c: Index, d: Index) returns (afterMove: Board, afterTimer: Board)
    requires a != c && d != a && d != c
    ensures afterMove == INITIAL_BOARD[d := Some(X)]
    ensures afterTimer == INITIAL_BOARD[a := Some(X)][c := Some(O)]
    ensures afterMove[d] == Some(X) && afterTimer[d] == None
  {
    var g := GameWithHeldMove(a, c);
    g.ResetGame();
    SingleMarkRunning(d, X);
    var started := g.PlaceHumanMove(d);
    afterMove := g.board;
    g.FireTimer(0);
    afterTimer := g.board;
  }
}
