/** The deterministic parts of the multi-agent `ChatAgent` (AI_SQL_Agent/Chat.py): the message
    list sent to the model, the "yes" classifier, the planner's table extraction, the prompt
    clauses that depend on the route and on the ProductID filter, the blank-schema guard before
    SQL synthesis, and the formatting of result sets for the final answer. Model replies and
    database rows are inputs. Fixed prompt prose is kept as short stand-in constants; only
    where the inputs are embedded and which clauses appear is modelled. */
module ChatAgent {
  import opened Wrappers
  import opened Strings
  import opened Ordering
  import opened ChatLog
  import opened TableRefs

  /** The model behind `model == "qwen"`, and the one used for every other name. */
  const CoderModel := "qwen2.5-coder:7b"
  const SmallModel := "llama3.2:3b"

  /** The message list `call_llm` sends: the system prompt, then each history entry as its
      role and content, then the user input as a human message unless it is empty. */
  function LlmMessages(prompt: string, userInput: string, history: seq<Message>): seq<Message> {
    [Message("system", prompt)] + history + (if userInput == "" then [] else [Message("human", userInput)])
  }

  /** `call_llm` up to the model invocation: the messages it assembles and the model it picks. */
  method CallLlm(prompt: string, userInput: string, history: seq<Message>, model: string)
    returns (messages: seq<Message>, llm: string)
    ensures messages == LlmMessages(prompt, userInput, history)
    ensures llm == CoderModel <==> model == "qwen"
    ensures llm == SmallModel <==> model != "qwen"
  {
    messages := [Message("system", prompt)];
    if |history| > 0 {
      for i := 0 to |history|
        invariant messages == [Message("system", prompt)] + history[..i]
      {
        messages := messages + [Message(history[i].role, history[i].content)];
      }
    }
    if userInput != "" {
      messages := messages + [Message("human", userInput)];
    }
    llm := if model == "qwen" then CoderModel else SmallModel;
  }

  /** What the model sees: the system prompt first, the history in order right after it, and
      the user input last when it is non-empty. */
  lemma LlmMessagesLayout(prompt: string, userInput: string, history: seq<Message>)
    ensures var m := LlmMessages(prompt, userInput, history);
      && |m| == |history| + (if userInput == "" then 1 else 2)
      && m[0] == Message("system", prompt)
      && m[1..|history| + 1] == history
      && (userInput != "" ==> m[|m| - 1] == Message("human", userInput))
  {
  }

  const DecideIntro := "You decide how to route user questions: vector, sql or hybrid.\n\nNow classify this user question:\n\"\"\""
  const DecideOutro := "\"\"\"\n\nReply only with one of: vector, sql, hybrid."

  /** `decide_search_method`'s prompt, with the question embedded verbatim. */
  function DecidePrompt(question: string): string {
    Concat([DecideIntro, question, DecideOutro])
  }

  /** `decide_search_method`: the request sent to the small model, with the history. */
  function DecideRequest(question: string, history: seq<Message>): (req: seq<Message>)
    ensures |req| == |history| + (if question == "" then 1 else 2)
    ensures req[0] == Message("system", DecidePrompt(question)) && Contains(req[0].content, question)
    ensures req[1..|history| + 1] == history
    ensures question != "" ==> req[|req| - 1] == Message("human", question)
  {
    ContainsPart([DecideIntro, question, DecideOutro], 1);
    LlmMessagesLayout(DecidePrompt(question), question, history);
    LlmMessages(DecidePrompt(question), question, history)
  }

  /** `is_db_related`: the reply, stripped by `call_llm` and lowercased, contains "yes". */
  function IsDbRelated(reply: string): bool {
    Contains(Lower(Strip(reply)), "yes")
  }

  lemma YesLettersNotSpace(c: char)
    requires LowerChar(c) in "yes"
    ensures !IsSpace(c)
  {
  }

  /** Stripping never changes the decision: "yes" has no whitespace in it. */
  lemma DbRelatedIgnoresStrip(reply: string)
    ensures IsDbRelated(reply) <==> Contains(Lower(reply), "yes")
  {
    var i := StripIsSlice(reply);
    var m := |Strip(reply)|;
    LowerSlice(reply, i, i + m);
    if IsDbRelated(reply) {
      ContainsInSlice(Lower(reply), i, i + m, "yes");
    }
    if Contains(Lower(reply), "yes") {
      var k := ContainsWitness(Lower(reply), "yes");
      YesInsideStrip(reply, i, m, k);
    }
  }

  /** The whitespace around the stripped part, position by position. */
  lemma SpaceBounds(s: string, i: nat, j: nat)
    requires i <= j <= |s| && AllSpace(s[..i]) && AllSpace(s[j..])
    ensures forall p :: 0 <= p < i ==> IsSpace(s[p])
    ensures forall p :: j <= p < |s| ==> IsSpace(s[p])
  {
    forall p | 0 <= p < i ensures IsSpace(s[p]) {
      assert s[..i][p] == s[p];
    }
    forall p | j <= p < |s| ensures IsSpace(s[p]) {
      assert s[j..][p - j] == s[p];
    }
  }

  /** An occurrence of "yes" in the lowercased reply lies inside the stripped part. */
  lemma YesInsideStrip(reply: string, i: nat, m: nat, k: nat)
    requires i + m <= |reply| && Lower(Strip(reply)) == Lower(reply)[i..i + m]
    requires AllSpace(reply[..i]) && AllSpace(reply[i + m..])
    requires k <= |reply| && StartsWith(Lower(reply)[k..], "yes")
    ensures Contains(Lower(Strip(reply)), "yes")
  {
    var low := Lower(reply);
    assert k + 3 <= |reply|;
    assert low[k] == low[k..][..3][0] == 'y';
    assert low[k + 2] == low[k..][..3][2] == 's';
    YesLettersNotSpace(reply[k]);
    YesLettersNotSpace(reply[k + 2]);
    SpaceBounds(reply, i, i + m);
    assert i <= k && k + 3 <= i + m;
    assert low[i..i + m][k - i..][..3] == low[k..][..3];
    ContainsAt(low[i..i + m], k - i, "yes");
  }

  const HybridNoteText := "\nNote: ProductIDs come from a separate semantic search; plan with placeholders.\n"

  /** The note added to the planner prompt on the hybrid route and on no other. */
  function HybridNote(searchMethod: string): (note: string)
    ensures note != "" <==> searchMethod == "hybrid"
  {
    if searchMethod == "hybrid" then HybridNoteText else ""
  }

  const Agent1Intro := "\nYou help users query a SQL Server database. The tables, with descriptions, are:\n\n"
  const DateLead := "\n\nToday is "
  const Agent1Rules := ".\n\nList relevant tables, explain what to do, do not write SQL.\n"
  const QuestionLead := "\n\nUser question:\n"

  /** The pieces of `agent1_prompt`: the table descriptions, today's date (`datetime.now()`
      as `%Y-%m-%d`), the route-dependent note, the question. */
  function Agent1Parts(descriptions: string, today: string, question: string, searchMethod: string): seq<string> {
    [Agent1Intro, descriptions, DateLead, today, Agent1Rules, HybridNote(searchMethod), QuestionLead, question, "\n"]
  }

  /** `agent1_prompt`. */
  function Agent1Prompt(descriptions: string, today: string, question: string, searchMethod: string): string {
    Concat(Agent1Parts(descriptions, today, question, searchMethod))
  }

  /** The planner prompt embeds the descriptions, the date and the question verbatim, and
      the hybrid note on the hybrid route. */
  lemma Agent1PromptEmbeds(descriptions: string, today: string, question: string, searchMethod: string)
    ensures Contains(Agent1Prompt(descriptions, today, question, searchMethod), descriptions)
    ensures Contains(Agent1Prompt(descriptions, today, question, searchMethod), today)
    ensures Contains(Agent1Prompt(descriptions, today, question, searchMethod), question)
    ensures searchMethod == "hybrid" ==>
      Contains(Agent1Prompt(descriptions, today, question, searchMethod), HybridNoteText)
  {
    var parts := Agent1Parts(descriptions, today, question, searchMethod);
    ContainsPart(parts, 1);
    ContainsPart(parts, 3);
    ContainsPart(parts, 5);
    ContainsPart(parts, 7);
  }

  /** The planner request: the prompt, the history, and the question as the human message. */
  function PlannerRequest(descriptions: string, today: string, question: string, history: seq<Message>, searchMethod: string): seq<Message> {
    LlmMessages(Agent1Prompt(descriptions, today, question, searchMethod), question, history)
  }

  /** What `run_agent1` returns: the stripped plan and the sorted distinct table names. */
  datatype Plan = Plan(text: string, tables: seq<string>)

  /** `run_agent1` on the model's reply (which `call_llm` has already stripped). */
  function RunAgent1(reply: string): (r: Plan)
    ensures r.text == Strip(reply)
    ensures StrictlySorted(r.tables)
    ensures forall t :: t in r.tables <==> t in FindAll(Bounded, Strip(reply))
  {
    var response := Strip(reply);
    StripIdempotent(reply);
    Plan(Strip(response), SortedDistinct(FindAll(Bounded, response)))
  }

  /** Every table the planner step selects is a `Schema.Table` reference. */
  lemma PlanTablesAreRefs(reply: string)
    ensures forall t :: t in RunAgent1(reply).tables ==> IsTableRef(t)
  {
    FoundAreTableRefs(Bounded, Strip(reply), 0);
  }

  /** The planner step selects no table exactly when the reply has no dotted name. */
  lemma PlanNoTablesIff(reply: string)
    ensures RunAgent1(reply).tables == [] <==> !HasDottedName(Strip(reply))
  {
    FindAllEmptyIff(Bounded, Strip(reply));
    var found := FindAll(Bounded, Strip(reply));
    if found != [] {
      assert found[0] in RunAgent1(reply).tables;
    }
  }

  /** `Sales.Customer` and `[Sales.Customer]` in one reply give a single table. */
  lemma PlanCollapsesBrackets(x: string, y: string)
    requires IsIdent(x) && IsIdent(y)
    ensures RunAgent1(x + "." + y + " [" + x + "." + y + "]").tables == [x + "." + y]
  {
    var t := x + "." + y;
    var reply := x + "." + y + " [" + x + "." + y + "]";
    BoundedBareAndBracketed(x, y);
    assert reply[0] == x[0] && reply[|reply| - 1] == ']';
    StripTrimmed(reply);
    var r := RunAgent1(reply).tables;
    forall u ensures u in r <==> u in [t] {
    }
    SortedUnique(r, [t]);
  }

  const ClauseListLead := "\n    IMPORTANT: The relevant ProductIDs for this query are: "
  const ClauseMust := "\n    You MUST include the filter:\n    "
  const ClauseRules := "\n    in the SQL query. Use these exact ProductIDs.\n    "

  /** True of `product_ids_filter`: present and non-empty. */
  predicate FilterGiven(filter: Option<string>) {
    filter.Some? && filter.value != ""
  }

  /** The ProductID clause of `agent2_prompt`: empty unless a non-empty filter is given. */
  function ProductClause(filter: Option<string>): (clause: string)
    ensures clause == "" <==> !FilterGiven(filter)
  {
    if FilterGiven(filter) then
      var f := filter.value;
      Concat([ClauseListLead + f + ".", ClauseMust, "WHERE ProductID IN (" + f + ")", ClauseRules])
    else ""
  }

  /** A given filter appears verbatim twice: in the list and inside `IN (...)`. */
  lemma ProductClauseEmbedsFilter(f: string)
    requires f != ""
    ensures Contains(ProductClause(Some(f)), ClauseListLead + f + ".")
    ensures Contains(ProductClause(Some(f)), "WHERE ProductID IN (" + f + ")")
  {
    var parts := [ClauseListLead + f + ".", ClauseMust, "WHERE ProductID IN (" + f + ")", ClauseRules];
    ContainsPart(parts, 0);
    ContainsPart(parts, 2);
  }

  const Agent2Intro := "\n    You are a senior T-SQL expert. Write one SQL Server SELECT query.\n\n    Schema:\n    "
  const PlanLead := "\n\n    Plan from domain expert:\n    "
  const Agent2QuestionLead := "\n\n    User question:\n    "
  const Agent2Rules := "\n\n    STRICT RULES: no comments or placeholders; only the columns shown.\n    "

  /** The pieces of `agent2_prompt`: schema, plan and question verbatim, then the clause. */
  function Agent2Parts(schema: string, question: string, plan: string, filter: Option<string>): seq<string> {
    [Agent2Intro, schema, PlanLead, plan, Agent2QuestionLead, question, "\n    ", ProductClause(filter), Agent2Rules]
  }

  /** `agent2_prompt`. */
  function Agent2Prompt(schema: string, question: string, plan: string, filter: Option<string>): string {
    Concat(Agent2Parts(schema, question, plan, filter))
  }

  /** With a non-empty filter the prompt demands `WHERE ProductID IN (<filter>)`; without one it
      is exactly the prompt with no filter at all. */
  lemma Agent2PromptFilter(schema: string, question: string, plan: string, filter: Option<string>)
    ensures FilterGiven(filter) ==>
      Contains(Agent2Prompt(schema, question, plan, filter), "WHERE ProductID IN (" + filter.value + ")")
    ensures !FilterGiven(filter) ==>
      Agent2Prompt(schema, question, plan, filter) == Agent2Prompt(schema, question, plan, None)
  {
    if FilterGiven(filter) {
      ContainsPart(Agent2Parts(schema, question, plan, filter), 7);
      ProductClauseEmbedsFilter(filter.value);
      ContainsTransitive(Agent2Prompt(schema, question, plan, filter), ProductClause(filter),
        "WHERE ProductID IN (" + filter.value + ")");
    } else {
      assert Agent2Parts(schema, question, plan, filter) == Agent2Parts(schema, question, plan, None);
    }
  }

  /** The schema, the plan and the question all reach the synthesis prompt verbatim. */
  lemma Agent2PromptEmbeds(schema: string, question: string, plan: string, filter: Option<string>)
    ensures Contains(Agent2Prompt(schema, question, plan, filter), schema)
    ensures Contains(Agent2Prompt(schema, question, plan, filter), plan)
    ensures Contains(Agent2Prompt(schema, question, plan, filter), question)
  {
    ContainsPart(Agent2Parts(schema, question, plan, filter), 1);
    ContainsPart(Agent2Parts(schema, question, plan, filter), 3);
    ContainsPart(Agent2Parts(schema, question, plan, filter), 5);
  }

  const EmptySchemaError := "Schema is empty. Check selected tables."

  /** `run_agent2` once the schema text is fetched: a blank schema raises `ValueError` before
      any model call; otherwise this is the request sent to the coder model, carrying the
      prompt, the history and the question. The reply comes back stripped by `call_llm`, and
      stripping it again changes nothing. */
  function RunAgent2Request(schema: string, question: string, plan: string, filter: Option<string>,
                            history: seq<Message>): (r: Result<seq<Message>, string>)
    ensures r.Err? <==> AllSpace(schema)
    ensures r.Err? ==> r.error == EmptySchemaError
  {
    BlankIffAllSpace(schema);
    if IsBlank(schema) then Err(EmptySchemaError)
    else Ok(LlmMessages(Agent2Prompt(schema, question, plan, filter), question, history))
  }

  /** A result set as the code sees it: column names and rows, each cell as its `str` text,
      and the `str` of the row list that the console prints and logs. */
  datatype ResultSet = ResultSet(columns: seq<string>, rows: seq<seq<string>>, shown: string)

  /** Every row has one cell per column, as a database cursor delivers it. */
  predicate WellFormed(t: ResultSet) {
    forall i :: 0 <= i < |t.rows| ==> |t.rows[i]| == |t.columns|
  }

  /** `xs.index(x)`: the first position of `x`, or nothing when `ValueError` would be raised. */
  function IndexOf(xs: seq<string>, x: string): (r: Option<nat>)
    ensures r.Some? ==> r.value < |xs| && xs[r.value] == x && x !in xs[..r.value]
    ensures r.None? <==> x !in xs
  {
    if xs == [] then None
    else if xs[0] == x then Some(0)
    else match IndexOf(xs[1..], x)
      case None => None
      case Some(i) =>
        assert xs[..i + 1] == [xs[0]] + xs[1..][..i];
        Some(i + 1)
  }

  /** The cells of column `idx`, in row order. */
  function Column(rows: seq<seq<string>>, idx: nat): (ids: seq<string>)
    requires forall i :: 0 <= i < |rows| ==> idx < |rows[i]|
    ensures |ids| == |rows|
  {
    seq(|rows|, i requires 0 <= i < |rows| => rows[i][idx])
  }

  /** The filter `run_hybrid_search` builds: the ProductID cells comma-joined in row order,
      or nothing when the column is missing or the joined text is empty (`or None`). */
  function ProductIdFilter(vector: ResultSet): (f: Option<string>)
    requires WellFormed(vector)
    ensures "ProductID" !in vector.columns ==> f.None?
    ensures vector.rows == [] ==> f.None?
  {
    match IndexOf(vector.columns, "ProductID")
    case None => None
    case Some(idx) =>
      var joined := Join(",", Column(vector.rows, idx));
      if joined == "" then None else Some(joined)
  }

  /** Splitting the filter at the commas gives back the ProductID of every row, in row order,
      whenever no ProductID text contains a comma. */
  lemma ProductIdFilterRoundTrip(vector: ResultSet)
    requires WellFormed(vector) && ProductIdFilter(vector).Some?
    requires forall i :: 0 <= i < |vector.rows| ==> ',' !in vector.rows[i][IndexOf(vector.columns, "ProductID").value]
    ensures Split(ProductIdFilter(vector).value, ',') == Column(vector.rows, IndexOf(vector.columns, "ProductID").value)
  {
    var ids := Column(vector.rows, IndexOf(vector.columns, "ProductID").value);
    assert ids != [];
    SplitJoin(ids, ',');
  }

  /** How many rows `run_hybrid_search` asks the vector search for. */
  const HybridVectorTop := 10

  /** `run_hybrid_search` up to the SQL execution: the filter from the vector rows goes into
      the synthesis request. */
  function HybridRequest(vector: ResultSet, schema: string, question: string, plan: string,
                         history: seq<Message>): (r: Result<seq<Message>, string>)
    requires WellFormed(vector)
    ensures r.Err? <==> AllSpace(schema)
  {
    RunAgent2Request(schema, question, plan, ProductIdFilter(vector), history)
  }

  /** With ProductID rows, the hybrid synthesis prompt demands exactly those ProductIDs; with
      none it is the prompt without a filter. */
  lemma HybridPromptCarriesIds(vector: ResultSet, schema: string, question: string, plan: string,
                               history: seq<Message>)
    requires WellFormed(vector) && !AllSpace(schema)
    ensures var req := HybridRequest(vector, schema, question, plan, history).value;
      && req[0].role == "system"
      && (ProductIdFilter(vector).Some? ==>
            Contains(req[0].content, "WHERE ProductID IN (" + ProductIdFilter(vector).value + ")"))
      && (ProductIdFilter(vector).None? ==> req[0].content == Agent2Prompt(schema, question, plan, None))
  {
    Agent2PromptFilter(schema, question, plan, ProductIdFilter(vector));
  }

  /** The argument of `_format_results`: None (or anything falsy), a `(columns, rows)` pair, or
      some other truthy value whose length is not 2. */
  datatype ResultArg = Absent | Pair(results: ResultSet) | NotPair

  /** One `"col: val"` entry per position of `zip(columns, row)`. */
  function Pairs(columns: seq<string>, row: seq<string>): (ps: seq<string>)
    ensures |ps| == if |columns| <= |row| then |columns| else |row|
  {
    var n := if |columns| <= |row| then |columns| else |row|;
    seq(n, i requires 0 <= i < n => columns[i] + ": " + row[i])
  }

  /** One formatted row: the entries joined by `", "`. */
  function FormatRow(columns: seq<string>, row: seq<string>): string {
    Join(", ", Pairs(columns, row))
  }

  /** The formatted line of each row, in row order. */
  function FormatLines(columns: seq<string>, rows: seq<seq<string>>): (lines: seq<string>)
    ensures |lines| == |rows|
  {
    seq(|rows|, i requires 0 <= i < |rows| => FormatRow(columns, rows[i]))
  }

  /** At most the first five. */
  function Take5(xs: seq<string>): seq<string> {
    if |xs| <= 5 then xs else xs[..5]
  }

  /** What `_format_results` returns. */
  function ResultsText(results: ResultArg): string {
    if !results.Pair? then "No results."
    else Join("\n", Take5(FormatLines(results.results.columns, results.results.rows)))
  }

  /** `_format_results`: builds the line list row by row, then joins the first five. */
  method FormatResults(results: ResultArg) returns (text: string)
    ensures text == ResultsText(results)
  {
    if !results.Pair? {
      return "No results.";
    }
    var columns := results.results.columns;
    var rows := results.results.rows;
    var formatted: seq<string> := [];
    for i := 0 to |rows|
      invariant formatted == FormatLines(columns, rows[..i])
    {
      formatted := formatted + [FormatRow(columns, rows[i])];
    }
    assert rows[..|rows|] == rows;
    text := Join("\n", Take5(formatted));
  }

  /** A present result set is never formatted as the text for a missing one. */
  lemma NoResultsIff(results: ResultArg)
    ensures ResultsText(results) == "No results." <==> !results.Pair?
  {
    if results.Pair? {
      FormattedHasMark(results.results);
      assert ':' !in "No results." && '\n' !in "No results.";
    }
  }

  /** Formatted rows are empty text, or show a `:` or a line break. */
  lemma FormattedHasMark(t: ResultSet)
    ensures var text := ResultsText(Pair(t)); text == "" || ':' in text || '\n' in text
  {
    var lines := Take5(FormatLines(t.columns, t.rows));
    var text := Join("\n", lines);
    if |lines| >= 2 {
      JoinHead("\n", lines);
      assert text[|lines[0]|] == (lines[0] + "\n")[|lines[0]|];
    } else if |lines| == 1 {
      RowMark(t.columns, t.rows[0]);
    }
  }

  /** A formatted row is empty or has a `:` right after its first column name. */
  lemma RowMark(columns: seq<string>, row: seq<string>)
    ensures FormatRow(columns, row) == "" || ':' in FormatRow(columns, row)
  {
    var ps := Pairs(columns, row);
    if ps != [] {
      JoinHead(", ", ps);
      var k := |columns[0]|;
      assert ps[0] == columns[0] + ": " + row[0];
      assert FormatRow(columns, row)[k] == ps[0][k] == ':';
    }
  }

  /** For a non-empty result set whose names and cells have no line break, the lines of the
      text are the formatted rows, the first five of them, in row order. */
  lemma ResultsLines(t: ResultSet)
    requires t.rows != []
    requires forall k :: 0 <= k < |t.columns| ==> '\n' !in t.columns[k]
    requires forall i, k :: 0 <= i < |t.rows| && 0 <= k < |t.rows[i]| ==> '\n' !in t.rows[i][k]
    ensures Split(ResultsText(Pair(t)), '\n') == Take5(FormatLines(t.columns, t.rows))
  {
    var lines := Take5(FormatLines(t.columns, t.rows));
    forall j | 0 <= j < |lines| ensures '\n' !in lines[j] {
      RowHasNoBreak(t.columns, t.rows[j]);
    }
    SplitJoin(lines, '\n');
  }

  lemma RowHasNoBreak(columns: seq<string>, row: seq<string>)
    requires forall k :: 0 <= k < |columns| ==> '\n' !in columns[k]
    requires forall k :: 0 <= k < |row| ==> '\n' !in row[k]
    ensures '\n' !in FormatRow(columns, row)
  {
    var ps := Pairs(columns, row);
    forall j | 0 <= j < |ps| ensures '\n' !in ps[j] {
      assert ps[j] == columns[j] + ": " + row[j];
    }
    JoinAvoids(", ", ps, '\n');
  }

  lemma {:induction false} JoinAvoids(sep: string, xs: seq<string>, c: char)
    requires c !in sep
    requires forall j :: 0 <= j < |xs| ==> c !in xs[j]
    ensures c !in Join(sep, xs)
    decreases |xs|
  {
    if |xs| >= 2 {
      JoinAvoids(sep, xs[1..], c);
    }
  }

  /** The text shown for one result set in the final-answer prompt: the literal `None` when it
      is absent, its formatting otherwise. */
  function ResultSection(results: ResultArg): string {
    if results.Absent? then "None" else ResultsText(results)
  }

  /** The final-answer prompt shows `None` exactly for an absent result set: no formatting of
      a present one reads `None`. */
  lemma ResultSectionNoneIff(results: ResultArg)
    ensures ResultSection(results) == "None" <==> results.Absent?
  {
    if results.Pair? {
      FormattedHasMark(results.results);
      assert ':' !in "None" && '\n' !in "None";
    }
  }

  const FinalIntro := "You are a helpful assistant. Answer the user's question from these results.\n\nUser Question:\n\"\"\""
  const VectorLead := "\"\"\"\n\nVector Search Results:\n"
  const SqlLead := "\n\nSQL Results:\n"
  const FinalOutro := "\n\nRespond with a helpful, concise summary based on these results."

  /** The prompt of `generate_final_response`. */
  function FinalPrompt(question: string, vector: ResultArg, sql: ResultArg): string {
    Concat([FinalIntro, question, VectorLead + ResultSection(vector), SqlLead + ResultSection(sql) + FinalOutro])
  }

  /** The final-answer prompt shows the question, and each result section under its heading. */
  lemma FinalPromptSections(question: string, vector: ResultArg, sql: ResultArg)
    ensures Contains(FinalPrompt(question, vector, sql), question)
    ensures Contains(FinalPrompt(question, vector, sql), VectorLead + ResultSection(vector))
    ensures Contains(FinalPrompt(question, vector, sql), SqlLead + ResultSection(sql) + FinalOutro)
  {
    var parts := [FinalIntro, question, VectorLead + ResultSection(vector), SqlLead + ResultSection(sql) + FinalOutro];
    ContainsPart(parts, 1);
    ContainsPart(parts, 2);
    ContainsPart(parts, 3);
  }

  /** The final-answer request is the prompt alone: no history and no human message, sent to
      the default model. */
  lemma FinalRequestIsPromptOnly(question: string, vector: ResultArg, sql: ResultArg)
    ensures LlmMessages(FinalPrompt(question, vector, sql), "", []) == [Message("system", FinalPrompt(question, vector, sql))]
  {
  }
}
