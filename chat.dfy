/** The chat log: a list of messages that keeps only the most recent five
    (addMessage in App.tsx). */
module Chat {
  import opened Types

  /** How many messages the log shows at most. */
  const CAPACITY: nat := 5

  /** The most recent CAPACITY messages of a history, oldest first. */
  function Recent(h: seq<ChatMessage>): (r: seq<ChatMessage>)
  {
    if |h| <= CAPACITY then h else h[|h| - CAPACITY..]
  }

  /** The update of addMessage: keep the last four entries, then add m. */
  function AppendCapped(log: seq<ChatMessage>, m: ChatMessage): (r: seq<ChatMessage>)
    ensures |r| <= CAPACITY
    ensures |r| == (if |log| < CAPACITY then |log| + 1 else CAPACITY)
    ensures r[|r| - 1] == m
    ensures r[..|r| - 1] == log[|log| - (|r| - 1)..]
  {
    var start := if |log| < CAPACITY - 1 then 0 else |log| - (CAPACITY - 1);
    log[start..] + [m]
  }

  /** Appending to the shown log gives the most recent five of the longer
      history: the log is always the tail of everything appended. */
  lemma AppendCappedKeepsRecent(h: seq<ChatMessage>, m: ChatMessage)
    ensures AppendCapped(Recent(h), m) == Recent(h + [m])
  {
  }
}
