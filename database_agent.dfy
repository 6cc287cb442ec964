/** The single-chain chatbot of AI_SQL_Agent/Database_Agent.py: its own conversation log (with a
    range deletion), the table list fetched once at start-up, the system message built on it,
    and the console loop that sends each question with that system message and logs the
    reply. The model is the environment; the table list comes in as the rows of its query. */
module DatabaseAgent {
  import opened Wrappers
  import opened Strings
  import opened Ordering
  import opened ChatLog
  import opened Console

  // ---------------------------------------------------------------------------------------
  // The conversation log.

  /** Python's bound for one end of a step-1 slice on a list of length `n`: a negative index
      counts from the end, and the result is clamped to `0..n`. */
  function SliceBound(i: int, n: nat): (b: nat)
    ensures b <= n
    ensures 0 <= i <= n ==> b == i
    ensures i < 0 <= i + n ==> b == i + n
    ensures i + n < 0 ==> b == 0
    ensures n < i ==> b == n
  {
    if i < 0 then (if i + n < 0 then 0 else i + n)
    else if i > n then n
    else i
  }

  /** Of two indices of the same sign, the later one never has the earlier bound (a negative
      index can have a later bound than a non-negative one). */
  lemma SliceBoundMonotone(i: int, j: int, n: nat)
    requires i <= j && (0 <= i || j < 0)
    ensures SliceBound(i, n) <= SliceBound(j, n)
  {
    if i < 0 && j < 0 {
      assert i + n <= j + n;
    }
  }

  /** `del log[start:end]`: the entries from the start bound up to the end bound go; when the
      end bound is not past the start bound nothing goes. */
  function Removed(log: seq<Message>, start: int, end: int): seq<Message> {
    var lo := SliceBound(start, |log|);
    var hi := SliceBound(end, |log|);
    if hi <= lo then log else log[..lo] + log[hi..]
  }

  class ChatHistory {
    var messages: seq<Message>

    /** A new log is empty. */
    constructor()
      ensures messages == []
    {
      messages := [];
    }

    /** Appends one user entry at the end; earlier entries stay as they were. */
    method AddUserMessage(content: string)
      modifies this
      ensures messages == old(messages) + [UserEntry(content)]
    {
      messages := messages + [UserEntry(content)];
    }

    /** Appends one assistant entry at the end; earlier entries stay as they were. */
    method AddAssistantMessage(content: string)
      modifies this
      ensures messages == old(messages) + [AssistantEntry(content)]
    {
      messages := messages + [AssistantEntry(content)];
    }

    /** Replaces the log by an empty one. */
    method ClearHistory()
      modifies this
      ensures messages == []
    {
      messages := [];
    }

    /** `len(chat)`. */
    function Len(): (n: nat)
      reads this
      ensures n == |messages|
      ensures n == 0 <==> messages == []
    {
      |messages|
    }

    /** `remove_range(start, end)`: `del self.messages[start:end]`, indices as Python reads
        them. */
    method RemoveRange(start: int, end: int)
      modifies this
      ensures messages == Removed(old(messages), start, end)
    {
      var lo := SliceBound(start, |messages|);
      var hi := SliceBound(end, |messages|);
      if lo < hi {
        messages := messages[..lo] + messages[hi..];
      }
    }
  }

  /** Within bounds, the range `[start, end)` goes and nothing else: the entries before it
      keep their places, those after it move down by its width, and the log is that much
      shorter. */
  lemma RemovedWithinBounds(log: seq<Message>, start: int, end: int)
    requires 0 <= start <= end <= |log|
    ensures |Removed(log, start, end)| == |log| - (end - start)
    ensures forall i :: 0 <= i < start ==> Removed(log, start, end)[i] == log[i]
    ensures forall i :: start <= i < |log| - (end - start) ==> Removed(log, start, end)[i] == log[i + (end - start)]
  {
    assert SliceBound(start, |log|) == start && SliceBound(end, |log|) == end;
    if start < end {
      assert Removed(log, start, end) == log[..start] + log[end..];
    }
  }

  /** Negative indices count from the end: `del log[-k:]` drops the last `k` entries. */
  lemma RemovedFromEnd(log: seq<Message>, k: int)
    requires 0 < k <= |log|
    ensures Removed(log, 0 - k, |log|) == log[..|log| - k]
  {
    assert log[|log|..] == [];
    assert log[..|log| - k] + [] == log[..|log| - k];
  }

  /** Bounds out of range are clamped, so the result is the log with one slice cut out; a
      reversed range whose indices have the same sign removes nothing. */
  lemma RemovedIsCut(log: seq<Message>, start: int, end: int)
    ensures exists lo: nat, hi: nat :: lo <= hi <= |log| && Removed(log, start, end) == log[..lo] + log[hi..]
    ensures end <= start && (0 <= end || start < 0) ==> Removed(log, start, end) == log
  {
    var lo := SliceBound(start, |log|);
    var hi := SliceBound(end, |log|);
    if hi <= lo {
      assert log == log[..lo] + log[lo..];
      assert lo <= lo <= |log| && Removed(log, start, end) == log[..lo] + log[lo..];
    } else {
      if end <= start && (0 <= end || start < 0) {
        SliceBoundMonotone(end, start, |log|);
      }
      assert lo <= hi <= |log| && Removed(log, start, end) == log[..lo] + log[hi..];
    }
  }

  // ---------------------------------------------------------------------------------------
  // `fetch_tables`: the rows of the catalogue query, as (schema name, table name) pairs.

  /** `f"{schema_name}.{table_name}"`. */
  function Qualified(row: (string, string)): string {
    row.0 + "." + row.1
  }

  function QualifiedNames(rows: seq<(string, string)>): (names: seq<string>)
    ensures |names| == |rows|
    ensures forall i :: 0 <= i < |rows| ==> names[i] == Qualified(rows[i])
  {
    seq(|rows|, i requires 0 <= i < |rows| => Qualified(rows[i]))
  }

  /** Some value of a non-empty set comes before every other one. */
  lemma {:induction false} MinimumExists(s: set<string>)
    requires s != {}
    ensures exists m :: m in s && forall y :: y in s && y != m ==> Less(m, y)
    decreases |s|
  {
    var x :| x in s;
    var rest := s - {x};
    if rest == {} {
      assert s == {x};
    } else {
      assert |rest| < |s|;
      MinimumExists(rest);
      var m :| m in rest && forall y :: y in rest && y != m ==> Less(m, y);
      LessTotal(x, m);
      if Less(x, m) {
        forall y | y in s && y != x ensures Less(x, y) {
          if y != m {
            assert y in rest;
            LessTransitive(x, m, y);
          }
        }
      } else {
        forall y | y in s && y != m ensures Less(m, y) {
          if y != x {
            assert y in rest;
          }
        }
      }
    }
  }

  /** `sorted(tables)` on a set: the least value is taken out until none is left. */
  method SortedList(s: set<string>) returns (r: seq<string>)
    ensures StrictlySorted(r)
    ensures forall y :: y in r <==> y in s
  {
    r := [];
    var rest := s;
    while rest != {}
      invariant StrictlySorted(r)
      invariant forall y :: y in s <==> y in r || y in rest
      invariant forall x, y :: x in r && y in rest ==> Less(x, y)
      decreases |rest|
    {
      MinimumExists(rest);
      var m :| m in rest && forall y :: y in rest && y != m ==> Less(m, y);
      r := r + [m];
      rest := rest - {m};
    }
  }

  /** The table list `fetch_tables` returns: every `schema.table` name once, ascending, one
      per line. */
  function TablesDescription(rows: seq<(string, string)>): string {
    Join("\n", SortedDistinct(QualifiedNames(rows)))
  }

  /** `fetch_tables` on the rows of its query, by a set-filling loop and a sort. */
  method FetchTables(rows: seq<(string, string)>) returns (text: string)
    ensures text == TablesDescription(rows)
  {
    var tables: set<string> := {};
    var i := 0;
    while i < |rows|
      invariant i <= |rows|
      invariant forall y :: y in tables <==> y in QualifiedNames(rows)[..i]
    {
      assert QualifiedNames(rows)[..i + 1] == QualifiedNames(rows)[..i] + [Qualified(rows[i])];
      tables := tables + {Qualified(rows[i])};
      i := i + 1;
    }
    assert QualifiedNames(rows)[..i] == QualifiedNames(rows);
    var names := SortedList(tables);
    SortedUnique(names, SortedDistinct(QualifiedNames(rows)));
    text := Join("\n", names);
  }

  /** The table list, read back line by line, is every qualified name exactly once, in
      ascending order, whenever no name holds a line break; no rows give the empty text. */
  lemma TablesListing(rows: seq<(string, string)>)
    requires forall i :: 0 <= i < |rows| ==> '\n' !in Qualified(rows[i])
    ensures var names := SortedDistinct(QualifiedNames(rows));
      && StrictlySorted(names)
      && (forall y :: y in names <==> exists i :: 0 <= i < |rows| && y == Qualified(rows[i]))
      && (rows == [] ==> Join("\n", names) == "")
      && (rows != [] ==> Split(Join("\n", names), '\n') == names)
  {
    var names := SortedDistinct(QualifiedNames(rows));
    forall y | y in names ensures exists i :: 0 <= i < |rows| && y == Qualified(rows[i]) {
      var i :| 0 <= i < |QualifiedNames(rows)| && QualifiedNames(rows)[i] == y;
    }
    forall y | exists i :: 0 <= i < |rows| && y == Qualified(rows[i]) ensures y in names {
      var i :| 0 <= i < |rows| && y == Qualified(rows[i]);
      assert QualifiedNames(rows)[i] == y;
    }
    if rows != [] {
      assert QualifiedNames(rows)[0] in names;
      forall k | 0 <= k < |names| ensures '\n' !in names[k] {
        assert names[k] in names;
        var i :| 0 <= i < |rows| && names[k] == Qualified(rows[i]);
      }
      SplitJoin(names, '\n');
    }
  }

  // ---------------------------------------------------------------------------------------
  // The system message and the console loop.

  /** The one model this chatbot talks to. */
  const AgentModel := "mistral"

  const SystemIntro := "\nI am an agent focusing on the tables below, how can I help?\n\nThe tables in the database are:\n\n"
  const DateLead := "\n\nToday's date is "
  const SystemRules := ".\nList the tables to use and explain how you will answer.\n"

  function SystemParts(tablesDescription: string, today: string): seq<string> {
    [SystemIntro, tablesDescription, DateLead, today, SystemRules]
  }

  /** `build_system_message`; `today` is `datetime.now()` as `%Y-%m-%d`. */
  function BuildSystemMessage(tablesDescription: string, today: string): string {
    Concat(SystemParts(tablesDescription, today))
  }

  /** The system message holds the table list and the date verbatim. */
  lemma SystemMessageEmbeds(tablesDescription: string, today: string)
    ensures Contains(BuildSystemMessage(tablesDescription, today), tablesDescription)
    ensures Contains(BuildSystemMessage(tablesDescription, today), today)
  {
    ContainsPart(SystemParts(tablesDescription, today), 1);
    ContainsPart(SystemParts(tablesDescription, today), 3);
  }

  /** What the chain sends for one question: the system message, then the question as the
      human `{input}`. */
  function ChainRequest(system: string, question: string): seq<Message> {
    [Message("system", system), Message("human", question)]
  }

  /** The chain and what it was built on: the system message (fixed for the whole session)
      and the model, which gets the message list and replies or raises. */
  datatype Env = Env(system: string, llm: seq<Message> -> Result<string, string>)

  /** How a turn ended. */
  datatype Outcome = Skipped | Exited | ScreenCleared | HistoryCleared | HistoryShown | Replied | Failed(error: string)

  /** What a turn leaves behind: how it ended, the log, and the requests it sent. */
  datatype Turn = Turn(outcome: Outcome, history: seq<Message>, requests: seq<seq<Message>>)

  /** One turn of the `while True` loop on the log `h` and the input line. */
  function TurnSpec(h: seq<Message>, line: string, env: Env): Turn {
    match ParseCommand(line)
    case Skip => Turn(Skipped, h, [])
    case Exit => Turn(Exited, h, [])
    case ClearScreen => Turn(ScreenCleared, h, [])
    case ClearHistory => Turn(HistoryCleared, [], [])
    case ShowHistory => Turn(HistoryShown, h, [])
    case Query(q) =>
      var req := ChainRequest(env.system, q);
      match env.llm(req)
      case Err(e) => Turn(Failed(e), h + [UserEntry(q)], [req])
      case Ok(reply) => Turn(Replied, h + [UserEntry(q)] + [AssistantEntry(reply)], [req])
  }

  /** One turn, on the log object. */
  method RunTurn(chat: ChatHistory, line: string, env: Env) returns (outcome: Outcome, requests: seq<seq<Message>>)
    modifies chat
    ensures Turn(outcome, chat.messages, requests) == TurnSpec(old(chat.messages), line, env)
  {
    var command := ParseCommand(line);
    match command
    case Skip =>
      outcome, requests := Skipped, [];
    case Exit =>
      outcome, requests := Exited, [];
    case ClearScreen =>
      outcome, requests := ScreenCleared, [];
    case ClearHistory =>
      chat.ClearHistory();
      outcome, requests := HistoryCleared, [];
    case ShowHistory =>
      outcome, requests := HistoryShown, [];
    case Query(q) =>
      chat.AddUserMessage(q);
      var req := ChainRequest(env.system, q);
      requests := [req];
      var reply := env.llm(req);
      if reply.Err? {
        outcome := Failed(reply.error);
      } else {
        chat.AddAssistantMessage(reply.value);
        outcome := Replied;
      }
  }

  /** Where a session over a finite list of input lines ends: the log, the number of lines
      read, and whether an exit command ended it. */
  datatype Session = Session(history: seq<Message>, consumed: nat, exited: bool)

  function SessionSpec(h: seq<Message>, lines: seq<string>, env: Env): Session
    decreases |lines|
  {
    if lines == [] then Session(h, 0, false)
    else
      var t := TurnSpec(h, lines[0], env);
      if t.outcome == Exited then Session(t.history, 1, true)
      else
        var rest := SessionSpec(t.history, lines[1..], env);
        Session(rest.history, rest.consumed + 1, rest.exited)
  }

  /** The `while True` loop: one turn per line until an exit command. */
  method MainLoop(chat: ChatHistory, lines: seq<string>, env: Env) returns (consumed: nat, exited: bool)
    modifies chat
    ensures Session(chat.messages, consumed, exited) == SessionSpec(old(chat.messages), lines, env)
  {
    ghost var goal := SessionSpec(chat.messages, lines, env);
    consumed, exited := 0, false;
    while consumed < |lines| && !exited
      invariant consumed <= |lines|
      invariant !exited ==> var s := SessionSpec(chat.messages, lines[consumed..], env);
        Session(s.history, s.consumed + consumed, s.exited) == goal
      invariant exited ==> Session(chat.messages, consumed, true) == goal
      decreases |lines| - consumed, !exited
    {
      ghost var t := TurnSpec(chat.messages, lines[consumed], env);
      var outcome, _ := RunTurn(chat, lines[consumed], env);
      assert outcome == t.outcome && chat.messages == t.history;
      assert lines[consumed..][1..] == lines[consumed + 1..];
      consumed := consumed + 1;
      exited := outcome == Exited;
    }
  }

  /** `main()` up to the loop: the table list is fetched once and built into the system
      message the chain keeps for the whole session. */
  method StartUp(rows: seq<(string, string)>, today: string, llm: seq<Message> -> Result<string, string>)
    returns (env: Env)
    ensures env == Env(BuildSystemMessage(TablesDescription(rows), today), llm)
  {
    var tablesDescription := FetchTables(rows);
    env := Env(BuildSystemMessage(tablesDescription, today), llm);
  }

  /** Every request a turn sends after start-up names every table of the database and the
      date in its system message. */
  lemma StartUpRequestsNameEveryTable(rows: seq<(string, string)>, today: string,
                                      llm: seq<Message> -> Result<string, string>, h: seq<Message>, line: string)
    ensures var env := Env(BuildSystemMessage(TablesDescription(rows), today), llm);
      forall req: seq<Message> :: req in TurnSpec(h, line, env).requests ==>
        && |req| == 2 && req[0].role == "system" && req[1].role == "human"
        && Contains(req[0].content, today)
        && (forall i :: 0 <= i < |rows| ==> Contains(req[0].content, Qualified(rows[i])))
  {
    var env := Env(BuildSystemMessage(TablesDescription(rows), today), llm);
    var system := env.system;
    SystemMessageEmbeds(TablesDescription(rows), today);
    var names := SortedDistinct(QualifiedNames(rows));
    forall i | 0 <= i < |rows| ensures Contains(system, Qualified(rows[i])) {
      assert QualifiedNames(rows)[i] == Qualified(rows[i]);
      assert Qualified(rows[i]) in QualifiedNames(rows);
      assert Qualified(rows[i]) in names;
      var k :| 0 <= k < |names| && names[k] == Qualified(rows[i]);
      PieceInJoin(names, k, "\n");
      ContainsTransitive(system, TablesDescription(rows), Qualified(rows[i]));
    }
    TurnLog(h, line, env);
  }

  /** A question is logged, sent alone with the system message, and, when the model answers,
      followed by exactly that answer; commands send nothing, `/ch` empties the log and the
      others leave it as it was. */
  lemma TurnLog(h: seq<Message>, line: string, env: Env)
    ensures var t := TurnSpec(h, line, env);
      ParseCommand(line).Query? ==>
        var q := ParseCommand(line).text;
        && t.requests == [[Message("system", env.system), Message("human", q)]]
        && (t.outcome == Replied <==> env.llm(t.requests[0]).Ok?)
        && (t.outcome == Replied ==> t.history == h + [UserEntry(q), AssistantEntry(env.llm(t.requests[0]).value)])
        && (t.outcome != Replied ==> t.outcome.Failed? && t.history == h + [UserEntry(q)])
    ensures var t := TurnSpec(h, line, env);
      !ParseCommand(line).Query? ==>
        t.requests == [] && t.history == (if ParseCommand(line) == ClearHistory then [] else h)
    ensures TurnSpec(h, line, env).outcome == Exited <==> ParseCommand(line) == Exit
  {
    if ParseCommand(line).Query? {
      var q := ParseCommand(line).text;
      var r := env.llm(ChainRequest(env.system, q));
      if r.Ok? {
        assert h + [UserEntry(q)] + [AssistantEntry(r.value)] == h + [UserEntry(q), AssistantEntry(r.value)];
      }
    }
  }

  /** The log is question, answer, question, answer, ... */
  predicate Alternating(log: seq<Message>) {
    && |log| % 2 == 0
    && (forall i :: 0 <= i < |log| && i % 2 == 0 ==> log[i].role == "user")
    && (forall i :: 0 <= i < |log| && i % 2 == 1 ==> log[i].role == "assistant")
  }

  /** While the model always answers, a session keeps the log alternating: every question it
      logs is followed by its answer, and `/ch` starts over from an empty log. */
  lemma {:induction false} SessionAlternates(h: seq<Message>, lines: seq<string>, env: Env)
    requires forall req :: env.llm(req).Ok?
    requires Alternating(h)
    ensures Alternating(SessionSpec(h, lines, env).history)
    decreases |lines|
  {
    if lines != [] {
      var t := TurnSpec(h, lines[0], env);
      TurnLog(h, lines[0], env);
      if ParseCommand(lines[0]).Query? {
        var q := ParseCommand(lines[0]).text;
        var a := env.llm(t.requests[0]).value;
        assert t.history == h + [UserEntry(q), AssistantEntry(a)];
        assert t.history[|h|].role == "user" && t.history[|h| + 1].role == "assistant";
        assert forall i :: 0 <= i < |h| ==> t.history[i] == h[i];
      }
      if t.outcome != Exited {
        SessionAlternates(t.history, lines[1..], env);
      }
    }
  }
}
