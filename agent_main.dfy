/** The console loop of the multi-agent assistant (AI_SQL_Agent/Main.py): one input line is a
    command or a question; a question is logged, routed by the small model to vector, SQL or
    hybrid search, planned, turned into SQL, executed and answered. The models and the
    database are the environment of a turn: each call either answers or raises, and a raised
    error ends the turn, keeping whatever was logged before it. */
module AgentMain {
  import opened Wrappers
  import opened Strings
  import opened ChatLog
  import opened ChatAgent
  import opened Console
  import opened SqlFences

  /** The services one turn calls. `llm` gets the model name and the message list and gives
      the reply text (or the error it raised); `descriptions` is the table catalogue the
      planner sees; `today` is the date the planner prompt shows (`datetime.now()` as
      `%Y-%m-%d`); `vectorSearch` gets the question, the stock threshold and the row count;
      `schema` the selected tables; `execute` the SQL text. */
  datatype Env = Env(
    llm: (string, seq<Message>) -> Result<string, string>,
    descriptions: string,
    today: string,
    vectorSearch: (string, nat, nat) -> Result<ResultSet, string>,
    schema: seq<string> -> Result<string, string>,
    execute: string -> Result<ResultSet, string>)

  /** One call a turn makes on its environment, in the order made. */
  datatype Call =
    | Model(model: string, request: seq<Message>)
    | VectorSearch(question: string, stock: nat, top: nat)
    | FetchSchema(tables: seq<string>)
    | Execute(sql: string)

  /** How a turn ended. */
  datatype Outcome =
    | Skipped | Exited | ScreenCleared | HistoryCleared | HistoryShown
    | NoTables
    | Answered(route: Route)
    | Failed(error: string)

  /** `run_vector_search`'s default stock threshold and row count. */
  const VectorStock := 100
  const VectorTop := 1

  /** The entries the loop logs for the assistant. */
  function VectorMessage(v: ResultSet): string {
    "Vector search results:\n" + v.shown
  }

  function SqlMessage(sql: string, r: ResultSet): string {
    "SQL Query:\n" + sql + "\nResults:\n" + r.shown
  }

  function HybridMessage(sql: string, r: ResultSet): string {
    "Hybrid SQL:\n" + sql + "\nResults:\n" + r.shown
  }

  /** Each logged entry opens with its own heading. */
  lemma MessageLeads(sql: string, v: ResultSet, r: ResultSet)
    ensures StartsWith(VectorMessage(v), "Vector search results:\n")
    ensures StartsWith(SqlMessage(sql, r), "SQL Query:\n")
    ensures StartsWith(HybridMessage(sql, r), "Hybrid SQL:\n")
  {
    PrefixStart("Vector search results:\n", v.shown);
    PrefixStart("SQL Query:\n", sql + "\nResults:\n" + r.shown);
    assert SqlMessage(sql, r) == "SQL Query:\n" + (sql + "\nResults:\n" + r.shown);
    PrefixStart("Hybrid SQL:\n", sql + "\nResults:\n" + r.shown);
    assert HybridMessage(sql, r) == "Hybrid SQL:\n" + (sql + "\nResults:\n" + r.shown);
  }

  lemma PrefixStart(p: string, rest: string)
    ensures StartsWith(p + rest, p)
  {
    assert (p + rest)[..|p|] == p;
  }

  /** `call_llm` on the environment: the reply comes back stripped. */
  function Ask(env: Env, model: string, request: seq<Message>): Result<string, string> {
    match env.llm(model, request)
    case Err(e) => Err(e)
    case Ok(text) => Ok(Strip(text))
  }

  /** What a turn leaves behind: how it ended, the log, and the calls it made. */
  datatype Turn = Turn(outcome: Outcome, history: seq<Message>, calls: seq<Call>)

  /** What one stage of a question adds: how it ended, the entries it logged (after those
      already there) and the calls it made, in order. */
  datatype Stage = Stage(outcome: Outcome, added: seq<Message>, calls: seq<Call>)

  /** A stage run after one call that logged nothing. */
  function Preceded(call: Call, st: Stage): Stage {
    Stage(st.outcome, st.added, [call] + st.calls)
  }

  /** A stage run after `calls` and after logging `added`. */
  function After(calls: seq<Call>, added: seq<Message>, st: Stage): Stage {
    Stage(st.outcome, added + st.added, calls + st.calls)
  }

  /** One turn of the `while True` loop on the log `h` and the input line. */
  function TurnSpec(h: seq<Message>, line: string, env: Env): Turn {
    match ParseCommand(line)
    case Skip => Turn(Skipped, h, [])
    case Exit => Turn(Exited, h, [])
    case ClearScreen => Turn(ScreenCleared, h, [])
    case ClearHistory => Turn(HistoryCleared, [], [])
    case ShowHistory => Turn(HistoryShown, h, [])
    case Query(q) =>
      var h1 := h + [UserEntry(q)];
      var st := QueryStage(h1, q, env);
      Turn(st.outcome, h1 + st.added, st.calls)
  }

  /** A question, already logged in `h1`: route it, then search. */
  function QueryStage(h1: seq<Message>, q: string, env: Env): Stage {
    var req := DecideRequest(q, h1);
    match Ask(env, SmallModel, req)
    case Err(e) => Stage(Failed(e), [], [Model(SmallModel, req)])
    case Ok(reply) =>
      var route := NormalizeRoute(reply);
      Preceded(Model(SmallModel, req),
               if route == Vector then VectorStage(h1, q, env) else PlannedStage(h1, q, route, env))
  }

  /** The vector route: one search, its rows logged, then the final answer. */
  function VectorStage(h1: seq<Message>, q: string, env: Env): Stage {
    var search := VectorSearch(q, VectorStock, VectorTop);
    match env.vectorSearch(q, VectorStock, VectorTop)
    case Err(e) => Stage(Failed(e), [], [search])
    case Ok(v) => After([search], [AssistantEntry(VectorMessage(v))], FinalStage(q, Pair(v), Absent, Vector, env))
  }

  /** `generate_final_response` with the default model; the answer is printed, so only
      whether the call raised matters, and it logs nothing. */
  function FinalStage(q: string, vector: ResultArg, sql: ResultArg, route: Route, env: Env): Stage {
    var req := LlmMessages(FinalPrompt(q, vector, sql), "", []);
    match env.llm(CoderModel, req)
    case Err(e) => Stage(Failed(e), [], [Model(CoderModel, req)])
    case Ok(_) => Stage(Answered(route), [], [Model(CoderModel, req)])
  }

  /** The sql and hybrid routes: the planner picks the tables; with none the turn stops. */
  function PlannedStage(h1: seq<Message>, q: string, route: Route, env: Env): Stage {
    var req := PlannerRequest(env.descriptions, env.today, q, h1, RouteName(route));
    match Ask(env, CoderModel, req)
    case Err(e) => Stage(Failed(e), [], [Model(CoderModel, req)])
    case Ok(reply) =>
      var plan := RunAgent1(reply);
      if plan.tables == [] then Stage(NoTables, [], [Model(CoderModel, req)])
      else Preceded(Model(CoderModel, req),
                    if route == Sql then SqlStage(h1, q, plan, env) else HybridStage(h1, q, plan, env))
  }

  /** The SQL step shared by the sql and hybrid routes: it fails with an error, or gives the
      cleaned SQL and its rows; either way with the calls it made. */
  datatype SqlOutcome =
    | SqlFailed(error: string, calls: seq<Call>)
    | SqlDone(sql: string, rows: ResultSet, calls: seq<Call>)

  /** `run_agent2` (no ProductID filter) on the log `h`, `clean_sql_query`, then
      `execute_sql_query`. */
  function SqlStep(h: seq<Message>, q: string, plan: Plan, env: Env): SqlOutcome {
    var fetch := FetchSchema(plan.tables);
    match env.schema(plan.tables)
    case Err(e) => SqlFailed(e, [fetch])
    case Ok(schema) =>
      match RunAgent2Request(schema, q, plan.text, None, h)
      case Err(e) => SqlFailed(e, [fetch])
      case Ok(req) =>
        match Ask(env, CoderModel, req)
        case Err(e) => SqlFailed(e, [fetch, Model(CoderModel, req)])
        case Ok(reply) =>
          var sql := CleanAnchored(reply);
          match env.execute(sql)
          case Err(e) => SqlFailed(e, [fetch, Model(CoderModel, req), Execute(sql)])
          case Ok(rows) => SqlDone(sql, rows, [fetch, Model(CoderModel, req), Execute(sql)])
  }

  /** The sql route: the SQL step, its query and rows logged, then the final answer. */
  function SqlStage(h1: seq<Message>, q: string, plan: Plan, env: Env): Stage {
    match SqlStep(h1, q, plan, env)
    case SqlFailed(e, c) => Stage(Failed(e), [], c)
    case SqlDone(sql, rows, c) =>
      After(c, [AssistantEntry(SqlMessage(sql, rows))], FinalStage(q, Absent, Pair(rows), Sql, env))
  }

  /** The hybrid route: a one-row vector search logged first, then the SQL step on the log
      that now holds it, its query and rows logged, then the final answer with both. */
  function HybridStage(h1: seq<Message>, q: string, plan: Plan, env: Env): Stage {
    var search := VectorSearch(q, VectorStock, VectorTop);
    match env.vectorSearch(q, VectorStock, VectorTop)
    case Err(e) => Stage(Failed(e), [], [search])
    case Ok(v) =>
      var logged := AssistantEntry(VectorMessage(v));
      match SqlStep(h1 + [logged], q, plan, env)
      case SqlFailed(e, c) => Stage(Failed(e), [logged], [search] + c)
      case SqlDone(sql, rows, c) =>
        After([search] + c, [logged, AssistantEntry(HybridMessage(sql, rows))],
              FinalStage(q, Pair(v), Pair(rows), Hybrid, env))
  }

  /** One turn, on the log object. */
  method RunTurn(history: ChatHistory, line: string, env: Env) returns (outcome: Outcome, calls: seq<Call>)
    modifies history
    ensures Turn(outcome, history.messages, calls) == TurnSpec(old(history.messages), line, env)
  {
    var command := ParseCommand(line);
    match command
    case Skip =>
      outcome, calls := Skipped, [];
    case Exit =>
      outcome, calls := Exited, [];
    case ClearScreen =>
      outcome, calls := ScreenCleared, [];
    case ClearHistory =>
      history.ClearHistory();
      outcome, calls := HistoryCleared, [];
    case ShowHistory =>
      outcome, calls := HistoryShown, [];
    case Query(q) =>
      history.AddUserMessage(q);
      outcome, calls := RunQuery(history, q, env);
  }

  /** A logged question: route it, then run the chosen search. */
  method RunQuery(history: ChatHistory, q: string, env: Env) returns (outcome: Outcome, calls: seq<Call>)
    modifies history
    ensures var st := QueryStage(old(history.messages), q, env);
      outcome == st.outcome && calls == st.calls && history.messages == old(history.messages) + st.added
  {
    var req := DecideRequest(q, history.GetHistory());
    calls := [Model(SmallModel, req)];
    var reply := Ask(env, SmallModel, req);
    if reply.Err? {
      return Failed(reply.error), calls;
    }
    QueryStageSteps(history.messages, q, env);
    var route := NormalizeRoute(reply.value);
    var more: seq<Call>;
    if route == Vector {
      outcome, more := RunVector(history, q, env);
    } else {
      outcome, more := RunPlanned(history, q, route, env);
    }
    calls := calls + more;
  }

  /** The sql and hybrid routes: plan, then run the chosen search. */
  method RunPlanned(history: ChatHistory, q: string, route: Route, env: Env) returns (outcome: Outcome, calls: seq<Call>)
    modifies history
    ensures var st := PlannedStage(old(history.messages), q, route, env);
      outcome == st.outcome && calls == st.calls && history.messages == old(history.messages) + st.added
  {
    var req := PlannerRequest(env.descriptions, env.today, q, history.GetHistory(), RouteName(route));
    PlannedStageSteps(history.messages, q, route, env);
    calls := [Model(CoderModel, req)];
    var reply := Ask(env, CoderModel, req);
    if reply.Err? {
      return Failed(reply.error), calls;
    }
    var plan := RunAgent1(reply.value);
    if plan.tables == [] {
      return NoTables, calls;
    }
    var more: seq<Call>;
    if route == Sql {
      outcome, more := RunSql(history, q, plan, env);
    } else {
      outcome, more := RunHybrid(history, q, plan, env);
    }
    calls := calls + more;
  }

  lemma QueryStageSteps(h1: seq<Message>, q: string, env: Env)
    ensures var req := DecideRequest(q, h1);
      var reply := Ask(env, SmallModel, req);
      && (reply.Err? ==> QueryStage(h1, q, env) == Stage(Failed(reply.error), [], [Model(SmallModel, req)]))
      && (reply.Ok? && NormalizeRoute(reply.value) == Vector ==>
            QueryStage(h1, q, env) == Preceded(Model(SmallModel, req), VectorStage(h1, q, env)))
      && (reply.Ok? && NormalizeRoute(reply.value) != Vector ==>
            QueryStage(h1, q, env) == Preceded(Model(SmallModel, req), PlannedStage(h1, q, NormalizeRoute(reply.value), env)))
  {
  }

  lemma PlannedStageSteps(h1: seq<Message>, q: string, route: Route, env: Env)
    ensures var req := PlannerRequest(env.descriptions, env.today, q, h1, RouteName(route));
      var reply := Ask(env, CoderModel, req);
      && (reply.Err? ==> PlannedStage(h1, q, route, env) == Stage(Failed(reply.error), [], [Model(CoderModel, req)]))
      && (reply.Ok? && RunAgent1(reply.value).tables == [] ==>
            PlannedStage(h1, q, route, env) == Stage(NoTables, [], [Model(CoderModel, req)]))
      && (reply.Ok? && RunAgent1(reply.value).tables != [] && route == Sql ==>
            PlannedStage(h1, q, route, env) == Preceded(Model(CoderModel, req), SqlStage(h1, q, RunAgent1(reply.value), env)))
      && (reply.Ok? && RunAgent1(reply.value).tables != [] && route != Sql ==>
            PlannedStage(h1, q, route, env) == Preceded(Model(CoderModel, req), HybridStage(h1, q, RunAgent1(reply.value), env)))
  {
  }

  method RunVector(history: ChatHistory, q: string, env: Env) returns (outcome: Outcome, calls: seq<Call>)
    modifies history
    ensures var st := VectorStage(old(history.messages), q, env);
      outcome == st.outcome && calls == st.calls && history.messages == old(history.messages) + st.added
  {
    calls := [VectorSearch(q, VectorStock, VectorTop)];
    var v := env.vectorSearch(q, VectorStock, VectorTop);
    if v.Err? {
      return Failed(v.error), calls;
    }
    history.AddAssistantMessage(VectorMessage(v.value));
    AfterFinal(calls, [AssistantEntry(VectorMessage(v.value))], q, Pair(v.value), Absent, Vector, env);
    var final := RunFinal(q, Pair(v.value), Absent, Vector, env);
    outcome, calls := final.outcome, calls + final.calls;
  }

  /** The final answer is requested; the reply is printed, not logged. */
  method RunFinal(q: string, vector: ResultArg, sql: ResultArg, route: Route, env: Env) returns (st: Stage)
    ensures st == FinalStage(q, vector, sql, route, env)
  {
    var req := LlmMessages(FinalPrompt(q, vector, sql), "", []);
    var answer := env.llm(CoderModel, req);
    st := Stage(if answer.Err? then Failed(answer.error) else Answered(route), [], [Model(CoderModel, req)]);
  }

  method RunSqlStep(history: ChatHistory, q: string, plan: Plan, env: Env) returns (step: SqlOutcome)
    ensures step == SqlStep(history.messages, q, plan, env)
  {
    var fetch := FetchSchema(plan.tables);
    var schema := env.schema(plan.tables);
    if schema.Err? {
      return SqlFailed(schema.error, [fetch]);
    }
    var req := RunAgent2Request(schema.value, q, plan.text, None, history.GetHistory());
    if req.Err? {
      return SqlFailed(req.error, [fetch]);
    }
    var reply := Ask(env, CoderModel, req.value);
    if reply.Err? {
      return SqlFailed(reply.error, [fetch, Model(CoderModel, req.value)]);
    }
    var sql := CleanAnchored(reply.value);
    var rows := env.execute(sql);
    if rows.Err? {
      return SqlFailed(rows.error, [fetch, Model(CoderModel, req.value), Execute(sql)]);
    }
    step := SqlDone(sql, rows.value, [fetch, Model(CoderModel, req.value), Execute(sql)]);
  }

  lemma SqlStageSteps(h: seq<Message>, q: string, plan: Plan, env: Env, step: SqlOutcome)
    requires step == SqlStep(h, q, plan, env)
    ensures step.SqlFailed? ==> SqlStage(h, q, plan, env) == Stage(Failed(step.error), [], step.calls)
    ensures step.SqlDone? ==>
      SqlStage(h, q, plan, env)
      == After(step.calls, [AssistantEntry(SqlMessage(step.sql, step.rows))], FinalStage(q, Absent, Pair(step.rows), Sql, env))
  {
  }

  /** The final stage logs nothing, so a stage ending with it logs what came before. */
  lemma AfterFinal(calls: seq<Call>, added: seq<Message>, q: string, vector: ResultArg, sql: ResultArg,
                   route: Route, env: Env)
    ensures var final := FinalStage(q, vector, sql, route, env);
      After(calls, added, final) == Stage(final.outcome, added, calls + final.calls)
  {
    assert added + [] == added;
  }

  method RunSql(history: ChatHistory, q: string, plan: Plan, env: Env) returns (outcome: Outcome, calls: seq<Call>)
    modifies history
    ensures var st := SqlStage(old(history.messages), q, plan, env);
      outcome == st.outcome && calls == st.calls && history.messages == old(history.messages) + st.added
  {
    var step := RunSqlStep(history, q, plan, env);
    SqlStageSteps(history.messages, q, plan, env, step);
    if step.SqlFailed? {
      return Failed(step.error), step.calls;
    }
    AfterFinal(step.calls, [AssistantEntry(SqlMessage(step.sql, step.rows))], q, Absent, Pair(step.rows), Sql, env);
    history.AddAssistantMessage(SqlMessage(step.sql, step.rows));
    var final := RunFinal(q, Absent, Pair(step.rows), Sql, env);
    outcome, calls := final.outcome, step.calls + final.calls;
  }

  method RunHybrid(history: ChatHistory, q: string, plan: Plan, env: Env) returns (outcome: Outcome, calls: seq<Call>)
    modifies history
    ensures var st := HybridStage(old(history.messages), q, plan, env);
      outcome == st.outcome && calls == st.calls && history.messages == old(history.messages) + st.added
  {
    calls := [VectorSearch(q, VectorStock, VectorTop)];
    var v := env.vectorSearch(q, VectorStock, VectorTop);
    if v.Err? {
      return Failed(v.error), calls;
    }
    ghost var h1 := history.messages;
    var logged := AssistantEntry(VectorMessage(v.value));
    history.AddAssistantMessage(VectorMessage(v.value));
    var step := RunSqlStep(history, q, plan, env);
    HybridStageSteps(h1, q, plan, env, v.value, step);
    if step.SqlFailed? {
      return Failed(step.error), calls + step.calls;
    }
    var answer := AssistantEntry(HybridMessage(step.sql, step.rows));
    AfterFinal(calls + step.calls, [logged, answer], q, Pair(v.value), Pair(step.rows), Hybrid, env);
    history.AddAssistantMessage(HybridMessage(step.sql, step.rows));
    TwoAppended(h1, logged, answer);
    var final := RunFinal(q, Pair(v.value), Pair(step.rows), Hybrid, env);
    outcome, calls := final.outcome, (calls + step.calls) + final.calls;
  }

  lemma TwoAppended(h: seq<Message>, a: Message, b: Message)
    ensures h + [a] + [b] == h + [a, b]
  {
  }

  lemma HybridStageSteps(h1: seq<Message>, q: string, plan: Plan, env: Env, v: ResultSet, step: SqlOutcome)
    requires env.vectorSearch(q, VectorStock, VectorTop) == Ok(v)
    requires step == SqlStep(h1 + [AssistantEntry(VectorMessage(v))], q, plan, env)
    ensures step.SqlFailed? ==>
      HybridStage(h1, q, plan, env)
      == Stage(Failed(step.error), [AssistantEntry(VectorMessage(v))], [VectorSearch(q, VectorStock, VectorTop)] + step.calls)
    ensures step.SqlDone? ==>
      HybridStage(h1, q, plan, env)
      == After([VectorSearch(q, VectorStock, VectorTop)] + step.calls,
               [AssistantEntry(VectorMessage(v)), AssistantEntry(HybridMessage(step.sql, step.rows))],
               FinalStage(q, Pair(v), Pair(step.rows), Hybrid, env))
  {
  }

  /** Where a session over a finite list of input lines ends: the log, the number of lines
      read, and whether an exit command ended it (otherwise the lines ran out). */
  datatype Session = Session(history: seq<Message>, consumed: nat, exited: bool)

  function SessionSpec(h: seq<Message>, lines: seq<string>, env: Env): Session
    decreases |lines|
  {
    if lines == [] then Session(h, 0, false)
    else
      var t := TurnSpec(h, lines[0], env);
      if t.outcome == Exited then Session(t.history, 1, true)
      else
        var rest := SessionSpec(t.history, lines[1..], env);
        Session(rest.history, rest.consumed + 1, rest.exited)
  }

  /** The `while True` loop: one turn per line until an exit command. */
  method MainLoop(history: ChatHistory, lines: seq<string>, env: Env) returns (consumed: nat, exited: bool)
    modifies history
    ensures Session(history.messages, consumed, exited) == SessionSpec(old(history.messages), lines, env)
  {
    ghost var goal := SessionSpec(history.messages, lines, env);
    consumed, exited := 0, false;
    while consumed < |lines| && !exited
      invariant consumed <= |lines|
      invariant !exited ==> var s := SessionSpec(history.messages, lines[consumed..], env);
        Session(s.history, s.consumed + consumed, s.exited) == goal
      invariant exited ==> Session(history.messages, consumed, true) == goal
      decreases |lines| - consumed, !exited
    {
      var outcome, _ := RunTurn(history, lines[consumed], env);
      assert lines[consumed..][1..] == lines[consumed + 1..];
      consumed := consumed + 1;
      exited := outcome == Exited;
    }
  }

  /** Every entry is the assistant's. */
  predicate AssistantOnly(log: seq<Message>) {
    forall i :: 0 <= i < |log| ==> log[i].role == "assistant"
  }

  /** The final-answer stage sends the prompt alone to the default model and logs nothing;
      it answers on the route it was given or fails. */
  lemma FinalStageShape(q: string, vector: ResultArg, sql: ResultArg, route: Route, env: Env)
    ensures var st := FinalStage(q, vector, sql, route, env);
      && st.added == []
      && st.calls == [Model(CoderModel, [Message("system", FinalPrompt(q, vector, sql))])]
      && (st.outcome == Answered(route) || st.outcome.Failed?)
  {
    FinalRequestIsPromptOnly(q, vector, sql);
  }

  /** The final-answer stage makes one call, logs nothing, and answers on its route or
      fails. */
  lemma FinalStageEnds(q: string, vector: ResultArg, sql: ResultArg, route: Route, env: Env)
    ensures var st := FinalStage(q, vector, sql, route, env);
      st.added == [] && |st.calls| == 1 && (st.outcome == Answered(route) || st.outcome.Failed?)
  {
    var req := LlmMessages(FinalPrompt(q, vector, sql), "", []);
    if env.llm(CoderModel, req).Ok? {
      assert FinalStage(q, vector, sql, route, env) == Stage(Answered(route), [], [Model(CoderModel, req)]);
    } else {
      assert FinalStage(q, vector, sql, route, env).outcome.Failed?;
    }
  }

  /** The SQL step fetches the schema of the planned tables first, makes at most three
      calls, and with three the last one runs SQL; with rows it has made exactly three, the
      last running the cleaned query it reports. */
  lemma SqlStepCalls(h: seq<Message>, q: string, plan: Plan, env: Env)
    ensures var r := SqlStep(h, q, plan, env);
      && 1 <= |r.calls| <= 3
      && r.calls[0] == FetchSchema(plan.tables)
      && (|r.calls| == 3 ==> r.calls[2].Execute?)
      && (r.SqlDone? ==> |r.calls| == 3 && r.calls[2] == Execute(r.sql))
  {
    var schema := env.schema(plan.tables);
    if schema.Ok? {
      var req := RunAgent2Request(schema.value, q, plan.text, None, h);
      if req.Ok? {
        var reply := Ask(env, CoderModel, req.value);
        if reply.Ok? {
          var sql := CleanAnchored(reply.value);
          var rows := env.execute(sql);
          assert SqlStep(h, q, plan, env).calls == [FetchSchema(plan.tables), Model(CoderModel, req.value), Execute(sql)];
        } else {
          assert SqlStep(h, q, plan, env).calls == [FetchSchema(plan.tables), Model(CoderModel, req.value)];
        }
      } else {
        assert SqlStep(h, q, plan, env).calls == [FetchSchema(plan.tables)];
      }
    } else {
      assert SqlStep(h, q, plan, env).calls == [FetchSchema(plan.tables)];
    }
  }

  /** The SQL step's second call, when it gets that far, sends the synthesis request (no
      ProductID filter, on the log it is given) to the default model. */
  lemma SqlStepSynthesis(h: seq<Message>, q: string, plan: Plan, env: Env)
    ensures var r := SqlStep(h, q, plan, env);
      |r.calls| >= 2 ==>
        env.schema(plan.tables).Ok?
        && r.calls[1] == Model(CoderModel, LlmMessages(Agent2Prompt(env.schema(plan.tables).value, q, plan.text, None), q, h))
  {
    var schema := env.schema(plan.tables);
    if schema.Ok? {
      var req := RunAgent2Request(schema.value, q, plan.text, None, h);
      if req.Ok? {
        assert req.value == LlmMessages(Agent2Prompt(schema.value, q, plan.text, None), q, h);
        var reply := Ask(env, CoderModel, req.value);
        if reply.Ok? {
          var sql := CleanAnchored(reply.value);
          var rows := env.execute(sql);
          assert SqlStep(h, q, plan, env).calls == [FetchSchema(plan.tables), Model(CoderModel, req.value), Execute(sql)];
        } else {
          assert SqlStep(h, q, plan, env).calls == [FetchSchema(plan.tables), Model(CoderModel, req.value)];
        }
      } else {
        assert SqlStep(h, q, plan, env).calls == [FetchSchema(plan.tables)];
      }
    } else {
      assert SqlStep(h, q, plan, env).calls == [FetchSchema(plan.tables)];
    }
  }

  /** The vector route searches once for one row and, when it answers, has logged one entry
      holding the rows and sent one final request. */
  lemma VectorStageShape(h1: seq<Message>, q: string, env: Env)
    ensures var st := VectorStage(h1, q, env);
      |st.calls| >= 1 && st.calls[0] == VectorSearch(q, VectorStock, VectorTop)
    ensures var st := VectorStage(h1, q, env);
      |st.added| <= 1 && AssistantOnly(st.added)
    ensures var st := VectorStage(h1, q, env);
      st.outcome.Failed? || st.outcome == Answered(Vector)
    ensures var st := VectorStage(h1, q, env);
      st.outcome.Answered? ==>
        |st.calls| == 2 && |st.added| == 1 && StartsWith(st.added[0].content, "Vector search results:\n")
  {
    var search := VectorSearch(q, VectorStock, VectorTop);
    var v := env.vectorSearch(q, VectorStock, VectorTop);
    if v.Ok? {
      var logged := AssistantEntry(VectorMessage(v.value));
      var final := FinalStage(q, Pair(v.value), Absent, Vector, env);
      FinalStageEnds(q, Pair(v.value), Absent, Vector, env);
      AfterFinal([search], [logged], q, Pair(v.value), Absent, Vector, env);
      MessageLeads("", v.value, v.value);
      assert VectorStage(h1, q, env) == Stage(final.outcome, [logged], [search] + final.calls);
    } else {
      assert VectorStage(h1, q, env) == Stage(Failed(v.error), [], [search]);
    }
  }

  /** The sql route, stage by stage: failed SQL step, or the step's calls, its logged entry
      and the final stage. */
  lemma SqlStageCases(h1: seq<Message>, q: string, plan: Plan, env: Env)
    ensures var step := SqlStep(h1, q, plan, env);
      step.SqlFailed? ==> SqlStage(h1, q, plan, env) == Stage(Failed(step.error), [], step.calls)
    ensures var step := SqlStep(h1, q, plan, env);
      step.SqlDone? ==>
        var final := FinalStage(q, Absent, Pair(step.rows), Sql, env);
        SqlStage(h1, q, plan, env)
          == Stage(final.outcome, [AssistantEntry(SqlMessage(step.sql, step.rows))], step.calls + final.calls)
  {
    var step := SqlStep(h1, q, plan, env);
    SqlStageSteps(h1, q, plan, env, step);
    if step.SqlDone? {
      AfterFinal(step.calls, [AssistantEntry(SqlMessage(step.sql, step.rows))], q, Absent, Pair(step.rows), Sql, env);
    }
  }

  /** The sql route starts by fetching the schema of the planned tables and logs at most one
      entry, the assistant's. */
  lemma SqlStageStart(h1: seq<Message>, q: string, plan: Plan, env: Env)
    ensures var st := SqlStage(h1, q, plan, env);
      |st.calls| >= 1 && st.calls[0] == FetchSchema(plan.tables)
      && |st.added| <= 1 && AssistantOnly(st.added)
  {
    SqlStepCalls(h1, q, plan, env);
    SqlStageCases(h1, q, plan, env);
  }

  /** The sql route answers on the sql route or fails; when it answers it has fetched,
      synthesised, executed and sent one final request, and logged the query and its rows. */
  lemma SqlStageAnswer(h1: seq<Message>, q: string, plan: Plan, env: Env)
    ensures var st := SqlStage(h1, q, plan, env);
      st.outcome.Failed? || st.outcome == Answered(Sql)
    ensures var st := SqlStage(h1, q, plan, env);
      st.outcome.Answered? ==>
        |st.calls| == 4 && st.calls[2].Execute? && |st.added| == 1
        && StartsWith(st.added[0].content, "SQL Query:\n")
  {
    var step := SqlStep(h1, q, plan, env);
    SqlStepCalls(h1, q, plan, env);
    SqlStageCases(h1, q, plan, env);
    if step.SqlDone? {
      FinalStageEnds(q, Absent, Pair(step.rows), Sql, env);
      MessageLeads(step.sql, step.rows, step.rows);
    }
  }

  /** The hybrid route, stage by stage: a failed search, a failed SQL step after the
      logged search rows, or both logged and the final stage. */
  lemma HybridStageCases(h1: seq<Message>, q: string, plan: Plan, env: Env)
    ensures var v := env.vectorSearch(q, VectorStock, VectorTop);
      v.Err? ==> HybridStage(h1, q, plan, env) == Stage(Failed(v.error), [], [VectorSearch(q, VectorStock, VectorTop)])
    ensures var v := env.vectorSearch(q, VectorStock, VectorTop);
      v.Ok? ==>
        var logged := AssistantEntry(VectorMessage(v.value));
        var step := SqlStep(h1 + [logged], q, plan, env);
        step.SqlFailed? ==>
          HybridStage(h1, q, plan, env)
          == Stage(Failed(step.error), [logged], [VectorSearch(q, VectorStock, VectorTop)] + step.calls)
    ensures var v := env.vectorSearch(q, VectorStock, VectorTop);
      v.Ok? ==>
        var logged := AssistantEntry(VectorMessage(v.value));
        var step := SqlStep(h1 + [logged], q, plan, env);
        step.SqlDone? ==>
          var final := FinalStage(q, Pair(v.value), Pair(step.rows), Hybrid, env);
          HybridStage(h1, q, plan, env)
          == Stage(final.outcome, [logged, AssistantEntry(HybridMessage(step.sql, step.rows))],
                   ([VectorSearch(q, VectorStock, VectorTop)] + step.calls) + final.calls)
  {
    var search := VectorSearch(q, VectorStock, VectorTop);
    var v := env.vectorSearch(q, VectorStock, VectorTop);
    if v.Ok? {
      var logged := AssistantEntry(VectorMessage(v.value));
      var step := SqlStep(h1 + [logged], q, plan, env);
      HybridStageSteps(h1, q, plan, env, v.value, step);
      if step.SqlDone? {
        var answer := AssistantEntry(HybridMessage(step.sql, step.rows));
        AfterFinal([search] + step.calls, [logged, answer], q, Pair(v.value), Pair(step.rows), Hybrid, env);
      }
    }
  }

  /** The hybrid route starts with a one-row vector search and logs at most two entries, the
      assistant's. */
  lemma HybridStageStart(h1: seq<Message>, q: string, plan: Plan, env: Env)
    ensures var st := HybridStage(h1, q, plan, env);
      |st.calls| >= 1 && st.calls[0] == VectorSearch(q, VectorStock, VectorTop)
      && |st.added| <= 2 && AssistantOnly(st.added)
  {
    var v := env.vectorSearch(q, VectorStock, VectorTop);
    HybridStageCases(h1, q, plan, env);
    if v.Ok? {
      var logged := AssistantEntry(VectorMessage(v.value));
      SqlStepCalls(h1 + [logged], q, plan, env);
      var step := SqlStep(h1 + [logged], q, plan, env);
      if step.SqlDone? {
        FinalStageEnds(q, Pair(v.value), Pair(step.rows), Hybrid, env);
      }
    }
  }

  /** Once past the search, the hybrid route has logged the search rows first and then
      fetched the schema of the planned tables. */
  lemma HybridStageLogsSearchFirst(h1: seq<Message>, q: string, plan: Plan, env: Env)
    ensures var st := HybridStage(h1, q, plan, env);
      |st.calls| >= 2 ==>
        env.vectorSearch(q, VectorStock, VectorTop).Ok?
        && st.calls[1] == FetchSchema(plan.tables)
        && |st.added| >= 1
        && st.added[0] == AssistantEntry(VectorMessage(env.vectorSearch(q, VectorStock, VectorTop).value))
  {
    var v := env.vectorSearch(q, VectorStock, VectorTop);
    HybridStageCases(h1, q, plan, env);
    if v.Ok? {
      var logged := AssistantEntry(VectorMessage(v.value));
      SqlStepCalls(h1 + [logged], q, plan, env);
      var step := SqlStep(h1 + [logged], q, plan, env);
      if step.SqlDone? {
        FinalStageEnds(q, Pair(v.value), Pair(step.rows), Hybrid, env);
      }
    }
  }

  /** The hybrid route's synthesis request is built on the log that already holds the
      search rows. */
  lemma HybridSynthesisSeesSearch(h1: seq<Message>, q: string, plan: Plan, env: Env)
    ensures var st := HybridStage(h1, q, plan, env);
      |st.calls| >= 3 ==>
        env.schema(plan.tables).Ok? && |st.added| >= 1
        && st.calls[2] == Model(CoderModel, LlmMessages(Agent2Prompt(env.schema(plan.tables).value, q, plan.text, None), q, h1 + [st.added[0]]))
  {
    var st := HybridStage(h1, q, plan, env);
    var v := env.vectorSearch(q, VectorStock, VectorTop);
    HybridStageCases(h1, q, plan, env);
    if v.Ok? {
      var logged := AssistantEntry(VectorMessage(v.value));
      var step := SqlStep(h1 + [logged], q, plan, env);
      SqlStepCalls(h1 + [logged], q, plan, env);
      SqlStepSynthesis(h1 + [logged], q, plan, env);
      if |step.calls| >= 2 {
        assert st.added[0] == logged;
        assert st.calls[2] == step.calls[1];
      }
    }
  }

  /** The hybrid route answers on the hybrid route or fails. */
  lemma HybridStageOutcome(h1: seq<Message>, q: string, plan: Plan, env: Env)
    ensures var st := HybridStage(h1, q, plan, env);
      st.outcome.Failed? || st.outcome == Answered(Hybrid)
  {
    var v := env.vectorSearch(q, VectorStock, VectorTop);
    HybridStageCases(h1, q, plan, env);
    if v.Ok? {
      var logged := AssistantEntry(VectorMessage(v.value));
      SqlStepCalls(h1 + [logged], q, plan, env);
      var step := SqlStep(h1 + [logged], q, plan, env);
      if step.SqlDone? {
        FinalStageEnds(q, Pair(v.value), Pair(step.rows), Hybrid, env);
      }
    }
  }

  /** When the hybrid route answers it has searched, fetched, synthesised, executed and sent
      one final request, and logged the search rows and then the query with its rows. */
  lemma HybridStageAnswer(h1: seq<Message>, q: string, plan: Plan, env: Env)
    ensures var st := HybridStage(h1, q, plan, env);
      st.outcome.Answered? ==>
        |st.calls| == 5 && st.calls[3].Execute? && |st.added| == 2
        && StartsWith(st.added[1].content, "Hybrid SQL:\n")
  {
    var st := HybridStage(h1, q, plan, env);
    var search := VectorSearch(q, VectorStock, VectorTop);
    var v := env.vectorSearch(q, VectorStock, VectorTop);
    HybridStageCases(h1, q, plan, env);
    if v.Ok? {
      var logged := AssistantEntry(VectorMessage(v.value));
      var step := SqlStep(h1 + [logged], q, plan, env);
      SqlStepCalls(h1 + [logged], q, plan, env);
      if step.SqlDone? {
        var answer := AssistantEntry(HybridMessage(step.sql, step.rows));
        var final := FinalStage(q, Pair(v.value), Pair(step.rows), Hybrid, env);
        FinalStageEnds(q, Pair(v.value), Pair(step.rows), Hybrid, env);
        MessageLeads(step.sql, v.value, step.rows);
        assert st == Stage(final.outcome, [logged, answer], ([search] + step.calls) + final.calls);
        assert |st.calls| == 5 && st.calls[3] == step.calls[2];
        assert st.added[1] == answer;
      } else {
        assert st.outcome.Failed?;
      }
    } else {
      assert st.outcome.Failed?;
    }
  }

  /** The sql and hybrid routes start with the planner request to the default model, on the
      log holding the question; they log at most two entries, the assistant's. */
  lemma PlannedStageStart(h1: seq<Message>, q: string, route: Route, env: Env)
    requires route != Vector
    ensures var st := PlannedStage(h1, q, route, env);
      |st.calls| >= 1 && st.calls[0] == Model(CoderModel, PlannerRequest(env.descriptions, env.today, q, h1, RouteName(route)))
      && |st.added| <= 2 && AssistantOnly(st.added)
  {
    var req := PlannerRequest(env.descriptions, env.today, q, h1, RouteName(route));
    var reply := Ask(env, CoderModel, req);
    PlannedStageSteps(h1, q, route, env);
    if reply.Ok? && RunAgent1(reply.value).tables != [] {
      var plan := RunAgent1(reply.value);
      if route == Sql {
        SqlStageStart(h1, q, plan, env);
      } else {
        HybridStageStart(h1, q, plan, env);
      }
    }
  }

  /** The sql and hybrid routes fail, stop after the planner when it names no table, or
      answer on their own route; the counts of calls they make when they answer. */
  lemma PlannedStageEnds(h1: seq<Message>, q: string, route: Route, env: Env)
    requires route != Vector
    ensures var st := PlannedStage(h1, q, route, env);
      st.outcome.Failed? || st.outcome == NoTables || st.outcome == Answered(route)
    ensures var st := PlannedStage(h1, q, route, env);
      st.outcome == NoTables ==> |st.calls| == 1 && st.added == []
    ensures var st := PlannedStage(h1, q, route, env);
      st.outcome == Answered(Sql) ==> |st.calls| == 5
    ensures var st := PlannedStage(h1, q, route, env);
      st.outcome == Answered(Hybrid) ==> |st.calls| == 6 && st.calls[1] == VectorSearch(q, VectorStock, VectorTop)
  {
    var req := PlannerRequest(env.descriptions, env.today, q, h1, RouteName(route));
    var reply := Ask(env, CoderModel, req);
    PlannedStageSteps(h1, q, route, env);
    if reply.Ok? && RunAgent1(reply.value).tables != [] {
      var plan := RunAgent1(reply.value);
      if route == Sql {
        SqlStageAnswer(h1, q, plan, env);
      } else {
        HybridStageOutcome(h1, q, plan, env);
        HybridStageStart(h1, q, plan, env);
        HybridStageAnswer(h1, q, plan, env);
      }
    }
  }

  /** A question starts with the routing request to the small model, on the log that holds
      it; it logs at most two entries, the assistant's. */
  lemma QueryStageStart(h1: seq<Message>, q: string, env: Env)
    ensures var st := QueryStage(h1, q, env);
      |st.calls| >= 1 && st.calls[0] == Model(SmallModel, DecideRequest(q, h1))
      && |st.added| <= 2 && AssistantOnly(st.added)
  {
    var reply := Ask(env, SmallModel, DecideRequest(q, h1));
    QueryStageSteps(h1, q, env);
    if reply.Ok? {
      var route := NormalizeRoute(reply.value);
      if route == Vector {
        VectorStageShape(h1, q, env);
      } else {
        PlannedStageStart(h1, q, route, env);
      }
    }
  }

  /** A question fails, stops for want of tables, or is answered; an answer is always on the
      route the small model's reply names, and a stop comes after the planner. */
  lemma QueryStageEnds(h1: seq<Message>, q: string, env: Env)
    ensures var st := QueryStage(h1, q, env);
      st.outcome.Failed? || st.outcome == NoTables || st.outcome.Answered?
    ensures var st := QueryStage(h1, q, env);
      var reply := Ask(env, SmallModel, DecideRequest(q, h1));
      st.outcome.Answered? ==> reply.Ok? && st.outcome.route == NormalizeRoute(reply.value)
    ensures var st := QueryStage(h1, q, env);
      st.outcome == NoTables ==> |st.calls| == 2 && st.added == []
  {
    var reply := Ask(env, SmallModel, DecideRequest(q, h1));
    QueryStageSteps(h1, q, env);
    if reply.Ok? {
      var route := NormalizeRoute(reply.value);
      if route == Vector {
        VectorStageShape(h1, q, env);
      } else {
        PlannedStageEnds(h1, q, route, env);
      }
    }
  }

  /** How many calls an answered question has made on each route: routing, search and final
      answer on the vector route; routing, planning, schema, synthesis, execution and final
      answer on the sql route; the hybrid route adds its vector search after the planner. */
  lemma QueryStageCallCounts(h1: seq<Message>, q: string, env: Env)
    ensures var st := QueryStage(h1, q, env);
      st.outcome == Answered(Vector) ==> |st.calls| == 3 && st.calls[1] == VectorSearch(q, VectorStock, VectorTop)
    ensures var st := QueryStage(h1, q, env);
      st.outcome == Answered(Sql) ==> |st.calls| == 6
    ensures var st := QueryStage(h1, q, env);
      st.outcome == Answered(Hybrid) ==> |st.calls| == 7 && st.calls[2] == VectorSearch(q, VectorStock, VectorTop)
  {
    var reply := Ask(env, SmallModel, DecideRequest(q, h1));
    QueryStageSteps(h1, q, env);
    if reply.Ok? {
      var route := NormalizeRoute(reply.value);
      if route == Vector {
        VectorStageShape(h1, q, env);
      } else {
        PlannedStageEnds(h1, q, route, env);
      }
    }
  }

  /** A turn ends the loop exactly on an exit command. */
  lemma TurnExitsIff(h: seq<Message>, line: string, env: Env)
    ensures TurnSpec(h, line, env).outcome == Exited <==> ParseCommand(line) == Exit
  {
    if ParseCommand(line).Query? {
      var q := ParseCommand(line).text;
      QueryStageEnds(h + [UserEntry(q)], q, env);
    }
  }

  /** Commands make no call; `/ch` empties the log and the others leave it as it was. */
  lemma CommandTurns(h: seq<Message>, line: string, env: Env)
    ensures !ParseCommand(line).Query? ==> TurnSpec(h, line, env).calls == []
    ensures ParseCommand(line) == ClearHistory ==> TurnSpec(h, line, env).history == []
    ensures !ParseCommand(line).Query? && ParseCommand(line) != ClearHistory ==> TurnSpec(h, line, env).history == h
  {
  }

  /** A question is logged first, after the entries already there, and then at most two
      assistant entries follow it; the first call routes it on the log that holds it. */
  lemma QueryTurnLog(h: seq<Message>, line: string, env: Env)
    requires ParseCommand(line).Query?
    ensures var t := TurnSpec(h, line, env);
      var q := ParseCommand(line).text;
      |h| + 1 <= |t.history| <= |h| + 3
      && t.history[..|h| + 1] == h + [UserEntry(q)]
      && AssistantOnly(t.history[|h| + 1..])
      && |t.calls| >= 1 && t.calls[0] == Model(SmallModel, DecideRequest(q, h + [UserEntry(q)]))
  {
    var q := ParseCommand(line).text;
    var h1 := h + [UserEntry(q)];
    var st := QueryStage(h1, q, env);
    QueryStageStart(h1, q, env);
    assert TurnSpec(h, line, env) == Turn(st.outcome, h1 + st.added, st.calls);
    LoggedAfter(h1, st.added);
  }

  lemma LoggedAfter(h1: seq<Message>, added: seq<Message>)
    requires AssistantOnly(added)
    ensures (h1 + added)[..|h1|] == h1 && (h1 + added)[|h1|..] == added
    ensures AssistantOnly((h1 + added)[|h1|..])
  {
    assert (h1 + added)[..|h1|] == h1;
    assert (h1 + added)[|h1|..] == added;
  }

  /** A session reads lines up to and including the first exit command and stops there; with
      no exit command it reads every line. */
  lemma {:induction false} SessionStopsAtFirstExit(h: seq<Message>, lines: seq<string>, env: Env)
    ensures var s := SessionSpec(h, lines, env);
      s.consumed <= |lines|
      && (s.exited ==> s.consumed >= 1 && ParseCommand(lines[s.consumed - 1]) == Exit)
      && (!s.exited ==> s.consumed == |lines|)
    decreases |lines|
  {
    if lines != [] {
      var t := TurnSpec(h, lines[0], env);
      TurnExitsIff(h, lines[0], env);
      if t.outcome != Exited {
        SessionStopsAtFirstExit(t.history, lines[1..], env);
        var s := SessionSpec(h, lines, env);
        if s.exited {
          assert lines[s.consumed - 1] == lines[1..][s.consumed - 2];
        }
      }
    }
  }

  /** No line before the last one a session reads is an exit command. */
  lemma {:induction false} SessionReadsNoEarlierExit(h: seq<Message>, lines: seq<string>, env: Env)
    ensures var s := SessionSpec(h, lines, env);
      forall i :: 0 <= i < |lines| && i < s.consumed - 1 ==> ParseCommand(lines[i]) != Exit
    decreases |lines|
  {
    if lines != [] {
      var t := TurnSpec(h, lines[0], env);
      TurnExitsIff(h, lines[0], env);
      if t.outcome != Exited {
        SessionReadsNoEarlierExit(t.history, lines[1..], env);
        var s := SessionSpec(h, lines, env);
        forall i | 0 <= i < |lines| && i < s.consumed - 1
          ensures ParseCommand(lines[i]) != Exit
        {
          if i > 0 {
            assert lines[i] == lines[1..][i - 1];
          }
        }
      }
    }
  }

  /** A session that ends without exiting read no exit command at all. */
  lemma {:induction false} SessionWithoutExitHasNone(h: seq<Message>, lines: seq<string>, env: Env)
    ensures var s := SessionSpec(h, lines, env);
      !s.exited ==> forall i :: 0 <= i < |lines| ==> ParseCommand(lines[i]) != Exit
    decreases |lines|
  {
    if lines != [] {
      var t := TurnSpec(h, lines[0], env);
      TurnExitsIff(h, lines[0], env);
      if t.outcome != Exited {
        SessionWithoutExitHasNone(t.history, lines[1..], env);
        var s := SessionSpec(h, lines, env);
        if !s.exited {
          forall i | 0 <= i < |lines|
            ensures ParseCommand(lines[i]) != Exit
          {
            if i > 0 {
              assert lines[i] == lines[1..][i - 1];
            }
          }
        }
      }
    }
  }

  /** Without a `/ch` command among the lines, a session only appends to the log. */
  lemma {:induction false} SessionKeepsLog(h: seq<Message>, lines: seq<string>, env: Env)
    requires forall i :: 0 <= i < |lines| ==> ParseCommand(lines[i]) != ClearHistory
    ensures var s := SessionSpec(h, lines, env);
      |h| <= |s.history| && s.history[..|h|] == h
    decreases |lines|
  {
    if lines != [] {
      var t := TurnSpec(h, lines[0], env);
      CommandTurns(h, lines[0], env);
      if ParseCommand(lines[0]).Query? {
        QueryTurnLog(h, lines[0], env);
        assert t.history[..|h|] == h;
      }
      if t.outcome != Exited {
        forall i | 0 <= i < |lines[1..]|
          ensures ParseCommand(lines[1..][i]) != ClearHistory
        {
          assert lines[1..][i] == lines[i + 1];
        }
        SessionKeepsLog(t.history, lines[1..], env);
        var rest := SessionSpec(t.history, lines[1..], env);
        assert rest.history[..|h|] == rest.history[..|t.history|][..|h|];
      }
    }
  }
}
