/** The AI client (services/ai.ts). The remote model call is an oracle: its
    answer, or its failure, is a parameter. What is modelled is what each
    operation returns for that answer, in particular the fallbacks. */
module Ai {
  import opened Types

  /** The outcome of one request to the remote model. */
  datatype Reply<T> = Answered(value: T) | Failed

  /** The phrase used when the commentary request fails. */
  const FALLBACK_COMMENTARY: string := "Nice move! Let's see what I can do."

  /** findIndex(cell => cell === null) on the cells from `from` on: the first
      empty position, or -1 when there is none. */
  function FindEmpty(b: seq<Cell>, from: nat): (r: int)
    requires from <= |b|
    ensures r == -1 <==> forall j | from <= j < |b| :: b[j].Some?
    ensures r != -1 ==> from <= r < |b| && b[r].None?
    ensures r != -1 ==> forall j | from <= j < r :: b[j].Some?
    decreases |b| - from
  {
    if from == |b| then -1
    else if b[from].None? then from
    else FindEmpty(b, from + 1)
  }

  /** The move fallback: the first empty cell of the board, -1 if it is full. */
  function FallbackMove(b: Board): (r: int)
    ensures r == -1 <==> forall j | 0 <= j < 9 :: b[j].Some?
    ensures r != -1 ==> 0 <= r < 9 && b[r].None?
    ensures r != -1 ==> forall j | 0 <= j < r :: b[j].Some?
  {
    FindEmpty(b, 0)
  }

  /** getAIMove: an answered request yields the parsed integer unchecked (it
      may be out of range or name an occupied cell); a failed one yields the
      fallback: the first empty cell, or -1 exactly on a full board. */
  function GetAIMove(b: Board, reply: Reply<int>): (r: int)
    ensures reply.Answered? ==> r == reply.value
    ensures reply.Failed? ==> (r == -1 <==> forall j | 0 <= j < 9 :: b[j].Some?)
    ensures reply.Failed? ==> r == FallbackMove(b)
    ensures reply.Failed? && r != -1 ==> 0 <= r < 9 && b[r].None?
  {
    match reply
    case Answered(move) => move
    case Failed => FallbackMove(b)
  }

  /** getAICommentary: the model's text, or the stock phrase on failure. */
  function GetAICommentary(reply: Reply<string>): (r: string)
    ensures reply.Answered? ==> r == reply.value
    ensures reply.Failed? ==> r == FALLBACK_COMMENTARY
  {
    match reply
    case Answered(text) => text
    case Failed => FALLBACK_COMMENTARY
  }
}
