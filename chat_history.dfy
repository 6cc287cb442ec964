/** The conversation log kept by the console loops: an append-only list of role/content
    entries that can be cleared (AI_SQL_Agent/Chat_History.py). */
module ChatLog {

  /** One `{"role": ..., "content": ...}` entry of the log. */
  datatype Message = Message(role: string, content: string)

  function UserEntry(content: string): Message {
    Message("user", content)
  }

  function AssistantEntry(content: string): Message {
    Message("assistant", content)
  }

  class ChatHistory {
    var messages: seq<Message>

    /** A new log is empty. */
    constructor()
      ensures messages == []
    {
      messages := [];
    }

    /** Appends one user entry at the end; earlier entries stay as they were. */
    method AddUserMessage(content: string)
      modifies this
      ensures messages == old(messages) + [UserEntry(content)]
    {
      messages := messages + [UserEntry(content)];
    }

    /** Appends one assistant entry at the end; earlier entries stay as they were. */
    method AddAssistantMessage(content: string)
      modifies this
      ensures messages == old(messages) + [AssistantEntry(content)]
    {
      messages := messages + [AssistantEntry(content)];
    }

    /** Replaces the log by an empty one. */
    method ClearHistory()
      modifies this
      ensures messages == []
    {
      messages := [];
    }

    /** `get_history()` and iteration: the entries, oldest first. */
    function GetHistory(): (h: seq<Message>)
      reads this
      ensures |h| == |messages|
      ensures forall i :: 0 <= i < |h| ==> h[i] == messages[i]
    {
      messages
    }

    /** `len(history)`. */
    function Len(): (n: nat)
      reads this
      ensures n == |GetHistory()|
    {
      |messages|
    }
  }

  /** A call on the log, for stating what a sequence of calls leaves behind. */
  datatype Op = AddUser(text: string) | AddAssistant(text: string) | Clear

  /** The log after one call. */
  function Apply(log: seq<Message>, op: Op): seq<Message> {
    match op
    case AddUser(c) => log + [UserEntry(c)]
    case AddAssistant(c) => log + [AssistantEntry(c)]
    case Clear => []
  }

  /** The log after a sequence of calls, in order. */
  function Replay(log: seq<Message>, ops: seq<Op>): seq<Message>
    decreases |ops|
  {
    if ops == [] then log else Replay(Apply(log, ops[0]), ops[1..])
  }

  /** The calls after the last `Clear` (all of them when there is none). */
  function SinceLastClear(ops: seq<Op>): (r: seq<Op>)
    ensures |r| <= |ops| && r == ops[|ops| - |r|..]
    ensures Clear !in r
  {
    if ops == [] then []
    else if ops[|ops| - 1] == Clear then []
    else SinceLastClear(ops[..|ops| - 1]) + [ops[|ops| - 1]]
  }

  /** The entries a clear-free sequence of calls appends, in call order. */
  function Appended(ops: seq<Op>): (r: seq<Message>)
    requires Clear !in ops
    ensures |r| == |ops|
  {
    if ops == [] then []
    else
      var e := if ops[|ops| - 1].AddUser? then UserEntry(ops[|ops| - 1].text)
               else AssistantEntry(ops[|ops| - 1].text);
      Appended(ops[..|ops| - 1]) + [e]
  }

  lemma {:induction false} ReplaySnoc(log: seq<Message>, ops: seq<Op>, op: Op)
    ensures Replay(log, ops + [op]) == Apply(Replay(log, ops), op)
    decreases |ops|
  {
    if ops == [] {
      assert ops + [op] == [op];
    } else {
      assert (ops + [op])[1..] == ops[1..] + [op];
      ReplaySnoc(Apply(log, ops[0]), ops[1..], op);
    }
  }

  /** Replaying calls that contain no `Clear` appends their entries, in order, to the log. */
  lemma {:induction false} ReplayWithoutClear(log: seq<Message>, ops: seq<Op>)
    requires Clear !in ops
    ensures Replay(log, ops) == log + Appended(ops)
    decreases |ops|
  {
    if ops != [] {
      var init := ops[..|ops| - 1];
      var op := ops[|ops| - 1];
      assert ops == init + [op];
      assert Clear !in init;
      ReplayWithoutClear(log, init);
      ReplaySnoc(log, init, op);
    }
  }

  /** After any sequence of calls the log holds exactly the entries appended since the last
      clear, in the order they were appended; with no clear, they follow the entries already
      there. */
  lemma {:induction false} ReplayKeepsSinceLastClear(log: seq<Message>, ops: seq<Op>)
    ensures Clear in ops ==> Replay(log, ops) == Appended(SinceLastClear(ops))
    ensures Clear !in ops ==> Replay(log, ops) == log + Appended(ops)
    decreases |ops|
  {
    if Clear !in ops {
      ReplayWithoutClear(log, ops);
    } else {
      var init := ops[..|ops| - 1];
      var op := ops[|ops| - 1];
      assert ops == init + [op];
      ReplaySnoc(log, init, op);
      if op == Clear {
        assert SinceLastClear(ops) == [];
      } else {
        assert Clear in init;
        ReplayKeepsSinceLastClear(log, init);
        assert SinceLastClear(ops) == SinceLastClear(init) + [op];
        assert SinceLastClear(ops)[..|SinceLastClear(ops)| - 1] == SinceLastClear(init);
      }
    }
  }

  /** `len` of a log built from scratch counts the entries appended since the last clear. */
  lemma LengthSinceLastClear(ops: seq<Op>)
    ensures |Replay([], ops)| == |SinceLastClear(ops)|
  {
    ReplayKeepsSinceLastClear([], ops);
    if Clear !in ops {
      SinceLastClearWithoutClear(ops);
    }
  }

  lemma {:induction false} SinceLastClearWithoutClear(ops: seq<Op>)
    requires Clear !in ops
    ensures SinceLastClear(ops) == ops
    decreases |ops|
  {
    if ops != [] {
      var init := ops[..|ops| - 1];
      assert Clear !in init;
      SinceLastClearWithoutClear(init);
      assert ops == init + [ops[|ops| - 1]];
    }
  }
}
