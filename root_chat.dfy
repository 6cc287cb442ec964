/** The deterministic parts of the single-model `ChatAgent` (Chat.py): the two-message request
    `call_llm` sends, the "yes" classifier, the planner's table extraction, the ProductID
    filter of the hybrid search and the prompt clause that embeds it. Model replies and
    database rows are inputs. Fixed prompt prose is kept as short stand-in constants; only
    where the inputs are embedded and which clauses appear is modelled. */
module RootChat {
  import opened Wrappers
  import opened Strings
  import opened ChatLog
  import opened TableRefs
  import opened ChatAgent

  /** The one model this agent talks to. */
  const RootModel := "codellama:7b"

  /** `call_llm`'s request: the system prompt, then the human `{input}` message filled with the
      user input, which is sent even when it is empty. */
  function RootMessages(prompt: string, userInput: string): seq<Message> {
    [Message("system", prompt), Message("human", userInput)]
  }

  /** Against the multi-agent `call_llm` with no history: the same request, except that this
      one also sends an empty user input as a human message of its own. */
  lemma RootMessagesVersusAgent(prompt: string, userInput: string)
    ensures userInput != "" ==> RootMessages(prompt, userInput) == LlmMessages(prompt, userInput, [])
    ensures userInput == "" ==> RootMessages(prompt, userInput) == LlmMessages(prompt, userInput, []) + [Message("human", "")]
    ensures |RootMessages(prompt, userInput)| == 2
  {
  }

  const DbIntro := "Reply YES if the question needs the database.\nUser question:\n\"\"\""
  const DbOutro := "\"\"\"\n"

  /** `is_db_related`'s request: the question inside the system prompt, an empty user input. */
  function DbRelatedRequest(question: string): seq<Message> {
    RootMessages(Concat([DbIntro, question, DbOutro]), "")
  }

  /** "yes" starts at position `k` of `s`. */
  predicate YesAt(s: string, k: nat) {
    k + 3 <= |s| && s[k..k + 3] == "yes"
  }

  /** `is_db_related` decides as the multi-agent classifier does (`ChatAgent.IsDbRelated`):
      true exactly when "yes" occurs, in any letter case, at some position of the reply. */
  lemma DbRelatedIff(reply: string)
    ensures IsDbRelated(reply) <==> exists k: nat :: YesAt(Lower(reply), k)
  {
    DbRelatedIgnoresStrip(reply);
    var low := Lower(reply);
    if Contains(low, "yes") {
      var k := ContainsWitness(low, "yes");
      assert low[k..][..3] == low[k..k + 3];
      assert YesAt(low, k);
    }
    if exists k: nat :: YesAt(low, k) {
      var k: nat :| YesAt(low, k);
      assert low[k..][..3] == low[k..k + 3];
      ContainsAt(low, k, "yes");
    }
  }

  const DecideIntro := "Pick vector, sql or hybrid for:\n\"\"\""
  const DecideOutro := "\"\"\"\nReply with one word."

  /** `decide_search_method`'s request: the question inside the system prompt. */
  function DecideRequest(question: string): seq<Message> {
    RootMessages(Concat([DecideIntro, question, DecideOutro]), "")
  }

  const Agent1Intro := "\nThe tables, with descriptions:\n\n"
  const DateLead := "\n\nToday\'s date is "
  const Agent1Rules := ".\nList tables; no SQL.\n\nUser question:\n"

  /** The pieces of `agent1_prompt`: the catalogue listing, today's date and the question. */
  function Agent1Parts(descriptions: string, today: string, question: string): seq<string> {
    [Agent1Intro, descriptions, DateLead, today, Agent1Rules, question, "\n"]
  }

  /** `run_agent1`'s request; `today` is `datetime.now()` as `%Y-%m-%d`. */
  function PlannerRequest(descriptions: string, today: string, question: string): seq<Message> {
    RootMessages(Concat(Agent1Parts(descriptions, today, question)), "")
  }

  /** What `run_agent1` returns: the (already stripped) reply and the set of table names in
      it. `list(set(...))` has no fixed order, so the names are kept as a set. */
  datatype RootPlan = RootPlan(text: string, tables: set<string>)

  /** `run_agent1` on the reply `call_llm` returned: the optional brackets around a name are
      not part of it. */
  function RunAgent1(response: string): (r: RootPlan)
    ensures r.text == response
    ensures forall t :: t in r.tables <==> t in FindAll(Loose, response)
  {
    RootPlan(response, set t | t in FindAll(Loose, response))
  }

  /** Every table the planner step selects is a `Schema.Table` reference. */
  lemma PlanTablesAreRefs(response: string)
    ensures forall t :: t in RunAgent1(response).tables ==> IsTableRef(t)
  {
    FoundAreTableRefs(Loose, response, 0);
  }

  /** The planner step selects no table exactly when the reply has no dotted name. */
  lemma PlanNoTablesIff(response: string)
    ensures RunAgent1(response).tables == {} <==> !HasDottedName(response)
  {
    FindAllEmptyIff(Loose, response);
    var found := FindAll(Loose, response);
    if found != [] {
      assert found[0] in RunAgent1(response).tables;
    }
  }

  /** `Sales.Customer` and `[Sales.Customer]` in one reply give a single table. */
  lemma PlanCollapsesBrackets(x: string, y: string)
    requires IsIdent(x) && IsIdent(y)
    ensures RunAgent1(x + "." + y + " [" + x + "." + y + "]").tables == {x + "." + y}
  {
    LooseBareAndBracketed(x, y);
  }

  const ClauseLead := "\n    IMPORTANT:\n    - ProductIDs: "
  const ClauseWhere := "\n    - Only results WHERE ProductID "
  const ClauseTail := "\n    - Else use a table with ProductID."

  /** The ProductID clause of `agent2_prompt`: empty unless the filter is present and
      non-empty, and then the filter twice, in parentheses and inside `IN (...)`. */
  function ProductClause(filter: Option<string>): (clause: string)
    ensures clause == "" <==> !FilterGiven(filter)
  {
    if FilterGiven(filter) then
      var f := filter.value;
      Concat([ClauseLead + "(" + f + ")", ClauseWhere + "IN (" + f + ")", ClauseTail])
    else ""
  }

  /** A given filter appears verbatim in the list and inside `IN (...)`. */
  lemma ProductClauseEmbedsFilter(f: string)
    requires f != ""
    ensures Contains(ProductClause(Some(f)), "(" + f + ")")
    ensures Contains(ProductClause(Some(f)), "IN (" + f + ")")
  {
    var parts := [ClauseLead + "(" + f + ")", ClauseWhere + "IN (" + f + ")", ClauseTail];
    ContainsPart(parts, 0);
    ContainsMiddle(ClauseLead, "(" + f + ")", "");
    assert ClauseLead + ("(" + f + ")") + "" == parts[0];
    ContainsTransitive(Concat(parts), parts[0], "(" + f + ")");
    ContainsPart(parts, 1);
    ContainsMiddle(ClauseWhere, "IN (" + f + ")", "");
    assert ClauseWhere + ("IN (" + f + ")") + "" == parts[1];
    ContainsTransitive(Concat(parts), parts[1], "IN (" + f + ")");
  }

  const Agent2Intro := "\n    SQL Server expert.\n    1. SCHEMA: "
  const PlanLead := "\n    2. AGENT 1 PLAN: "
  const QuestionLead := "\n    3. USER QUESTION: "
  const Agent2Rules := "\n\n    ONLY a single raw SELECT.\n    "

  function Agent2Parts(schema: string, question: string, plan: string, filter: Option<string>): seq<string> {
    [Agent2Intro, schema, PlanLead, plan, QuestionLead, question, "\n    ", ProductClause(filter), Agent2Rules]
  }

  /** `agent2_prompt`; the selected tables are a parameter of it but not part of the text. */
  function Agent2Prompt(schema: string, question: string, plan: string, filter: Option<string>): string {
    Concat(Agent2Parts(schema, question, plan, filter))
  }

  /** With a non-empty filter the prompt demands `IN (<filter>)`; without one it is exactly the
      prompt with no filter at all. */
  lemma Agent2PromptFilter(schema: string, question: string, plan: string, filter: Option<string>)
    ensures FilterGiven(filter) ==>
      Contains(Agent2Prompt(schema, question, plan, filter), "IN (" + filter.value + ")")
    ensures !FilterGiven(filter) ==>
      Agent2Prompt(schema, question, plan, filter) == Agent2Prompt(schema, question, plan, None)
  {
    if FilterGiven(filter) {
      ContainsPart(Agent2Parts(schema, question, plan, filter), 7);
      ProductClauseEmbedsFilter(filter.value);
      ContainsTransitive(Agent2Prompt(schema, question, plan, filter), ProductClause(filter),
        "IN (" + filter.value + ")");
    } else {
      assert Agent2Parts(schema, question, plan, filter) == Agent2Parts(schema, question, plan, None);
    }
  }

  /** `run_agent2`'s request once the schema text is fetched: there is no blank-schema guard
      here, so even an empty schema reaches the model. */
  function Agent2Request(schema: string, question: string, plan: string, filter: Option<string>): seq<Message> {
    RootMessages(Agent2Prompt(schema, question, plan, filter), "")
  }

  /** A request of a system prompt holding `text`, with an empty user input. */
  predicate Asks(req: seq<Message>, text: string) {
    |req| == 2 && req[0].role == "system" && req[1] == Message("human", "") && Contains(req[0].content, text)
  }

  /** Every request is the system prompt with an empty user input, and each prompt embeds its
      inputs verbatim: the question in all four, the catalogue listing and the date in the
      planner's, the schema text and the plan in the synthesis one. */
  lemma RequestsEmbedInputs(question: string, descriptions: string, today: string, schema: string, plan: string,
                            filter: Option<string>)
    ensures Asks(DbRelatedRequest(question), question) && Asks(DecideRequest(question), question)
    ensures Asks(PlannerRequest(descriptions, today, question), question)
    ensures Asks(Agent2Request(schema, question, plan, filter), question)
    ensures var p := PlannerRequest(descriptions, today, question)[0].content;
      Contains(p, descriptions) && Contains(p, today)
    ensures var p := Agent2Request(schema, question, plan, filter)[0].content;
      Contains(p, schema) && Contains(p, plan)
  {
    ContainsPart([DbIntro, question, DbOutro], 1);
    ContainsPart([DecideIntro, question, DecideOutro], 1);
    ContainsPart(Agent1Parts(descriptions, today, question), 1);
    ContainsPart(Agent1Parts(descriptions, today, question), 3);
    ContainsPart(Agent1Parts(descriptions, today, question), 5);
    ContainsPart(Agent2Parts(schema, question, plan, filter), 1);
    ContainsPart(Agent2Parts(schema, question, plan, filter), 3);
    ContainsPart(Agent2Parts(schema, question, plan, filter), 5);
  }

  /** How many rows `run_hybrid_search` asks the vector search for, and its stock threshold. */
  const HybridTop := 1
  const VectorStock := 100

  /** The `IndexError` a row without a cell at the ProductID position raises. */
  const RowTooShort := "list index out of range"

  /** `[str(row[idx]) for row in rows]`: the cells at position `idx` in row order, or
      nothing when some row is too short to have one (`IndexError`). */
  function Cells(rows: seq<seq<string>>, idx: nat): (r: Option<seq<string>>)
    ensures r.Some? ==> |r.value| == |rows|
  {
    if rows == [] then Some([])
    else if idx < |rows[0]| then
      match Cells(rows[1..], idx)
      case None => None
      case Some(rest) => Some([rows[0][idx]] + rest)
    else None
  }

  /** The cells exist exactly when every row reaches position `idx`, and then they are that
      column. */
  lemma {:induction false} CellsIsColumn(rows: seq<seq<string>>, idx: nat)
    ensures Cells(rows, idx).Some? <==> forall i :: 0 <= i < |rows| ==> idx < |rows[i]|
    ensures Cells(rows, idx).Some? ==> Cells(rows, idx).value == Column(rows, idx)
    decreases |rows|
  {
    if rows != [] {
      CellsIsColumn(rows[1..], idx);
      if idx < |rows[0]| && Cells(rows[1..], idx).Some? {
        assert forall i :: 0 <= i < |rows| ==> idx < |rows[i]| by {
          forall i | 0 <= i < |rows| ensures idx < |rows[i]| {
            if i > 0 { assert rows[i] == rows[1..][i - 1]; }
          }
        }
        var col := Column(rows, idx);
        assert col == [rows[0][idx]] + Column(rows[1..], idx);
      }
      if idx < |rows[0]| && Cells(rows[1..], idx).None? {
        var i :| 0 <= i < |rows[1..]| && idx >= |rows[1..][i]|;
        assert rows[1..][i] == rows[i + 1];
      }
    }
  }

  /** The filter of `run_hybrid_search`: no filter when there is no ProductID column (the
      `ValueError` is swallowed), an error when a row is too short to hold that column, and
      otherwise the ProductID cells comma-joined in row order, or no filter when that text is
      empty (`or None`). */
  function HybridFilter(vector: ResultSet): Result<Option<string>, string> {
    match IndexOf(vector.columns, "ProductID")
    case None => Ok(None)
    case Some(idx) =>
      match Cells(vector.rows, idx)
      case None => Err(RowTooShort)
      case Some(ids) =>
        var joined := Join(",", ids);
        Ok(if joined == "" then None else Some(joined))
  }

  /** On rows with one cell per column the filter is the one the multi-agent hybrid search
      builds (`ChatAgent.ProductIdFilter`); only a row shorter than the ProductID position
      raises. */
  lemma HybridFilterAgrees(vector: ResultSet)
    ensures "ProductID" !in vector.columns || vector.rows == [] ==> HybridFilter(vector) == Ok(None)
    ensures WellFormed(vector) ==> HybridFilter(vector) == Ok(ProductIdFilter(vector))
    ensures HybridFilter(vector).Err? <==>
      "ProductID" in vector.columns &&
      exists i :: 0 <= i < |vector.rows| && |vector.rows[i]| <= IndexOf(vector.columns, "ProductID").value
  {
    if "ProductID" in vector.columns {
      CellsIsColumn(vector.rows, IndexOf(vector.columns, "ProductID").value);
    }
  }

  /** With ProductID rows the synthesis request demands exactly those ProductIDs. */
  lemma HybridRequestCarriesIds(vector: ResultSet, schema: string, question: string, plan: string)
    requires HybridFilter(vector).Ok?
    ensures var f := HybridFilter(vector).value;
      var req := Agent2Request(schema, question, plan, f);
      (f.Some? ==> Contains(req[0].content, "IN (" + f.value + ")"))
      && (f.None? ==> req == Agent2Request(schema, question, plan, None))
  {
    Agent2PromptFilter(schema, question, plan, HybridFilter(vector).value);
  }
}
