/** The console loop of the single-model assistant (Main.py): one input line is a command or a
    question; a question is logged, routed by the model to vector, SQL or hybrid search, and
    for SQL and hybrid planned and turned into SQL. The model and the database are the
    environment of a turn: each call either answers or raises, and a raised error ends the
    turn (the generic `except` prints it), keeping whatever was logged before it. */
module RootMain {
  import opened Wrappers
  import opened Strings
  import opened ChatLog
  import opened Console
  import opened SqlFences
  import opened Catalog
  import ChatAgent
  import AgentMain
  import RootChat

  /** The services one turn calls. `llm` gets the message list and gives the reply text (or
      the error it raised); `descriptions` is the catalogue listing
      (`Catalog.FetchTableDescriptions()`); `today` is the date the planner prompt shows;
      `vectorSearch` gets the question, the stock threshold and the row count; `schemaRows`
      the selected tables, giving the column rows of their schema query; `execute` the SQL
      text. */
  datatype Env = Env(
    llm: seq<Message> -> Result<string, string>,
    descriptions: string,
    today: string,
    vectorSearch: (string, nat, nat) -> Result<ChatAgent.ResultSet, string>,
    schemaRows: set<string> -> Result<seq<SchemaRow>, string>,
    execute: string -> Result<ChatAgent.ResultSet, string>)

  /** One call a turn makes on its environment, in the order made. */
  datatype Call =
    | Model(request: seq<Message>)
    | VectorSearch(question: string, stock: nat, top: nat)
    | FetchSchema(tables: set<string>)
    | Execute(sql: string)

  type Outcome = AgentMain.Outcome

  /** `run_vector_search`'s default row count, used by both routes that search. */
  const VectorTop := 1

  /** The `TypeError` the hybrid branch raises when it indexes the returned tuple by `"sql"`. */
  const TupleIndexError := "tuple indices must be integers or slices, not str"

  /** `call_llm` on the environment: the reply comes back stripped. */
  function Ask(env: Env, request: seq<Message>): (r: Result<string, string>)
    ensures r.Ok? ==> env.llm(request).Ok? && r.value == Strip(env.llm(request).value)
  {
    match env.llm(request)
    case Err(e) => Err(e)
    case Ok(text) => Ok(Strip(text))
  }

  /** What a turn leaves behind: how it ended, the log, and the calls it made. */
  datatype Turn = Turn(outcome: Outcome, history: seq<Message>, calls: seq<Call>)

  /** What a question adds after its own user entry: how it ended, the entries it logged and
      the calls it made, in order. */
  datatype Stage = Stage(outcome: Outcome, added: seq<Message>, calls: seq<Call>)

  /** A stage run after one call that logged nothing. */
  function Preceded(call: Call, st: Stage): Stage {
    Stage(st.outcome, st.added, [call] + st.calls)
  }

  /** One turn of the `while True` loop on the log `h` and the input line. */
  function TurnSpec(h: seq<Message>, line: string, env: Env): Turn {
    match ParseCommand(line)
    case Skip => Turn(AgentMain.Skipped, h, [])
    case Exit => Turn(AgentMain.Exited, h, [])
    case ClearScreen => Turn(AgentMain.ScreenCleared, h, [])
    case ClearHistory => Turn(AgentMain.HistoryCleared, [], [])
    case ShowHistory => Turn(AgentMain.HistoryShown, h, [])
    case Query(q) =>
      var st := QueryStage(q, env);
      Turn(st.outcome, h + [UserEntry(q)] + st.added, st.calls)
  }

  /** A logged question: route it (the log is not sent), then search. */
  function QueryStage(q: string, env: Env): Stage {
    var req := RootChat.DecideRequest(q);
    match Ask(env, req)
    case Err(e) => Stage(AgentMain.Failed(e), [], [Model(req)])
    case Ok(reply) =>
      var route := NormalizeRoute(reply);
      Preceded(Model(req), if route == Vector then VectorStage(q, env) else PlannedStage(q, route, env))
  }

  /** The vector route: one search whose rows are logged; nothing is planned. */
  function VectorStage(q: string, env: Env): Stage {
    var search := VectorSearch(q, RootChat.VectorStock, VectorTop);
    match env.vectorSearch(q, RootChat.VectorStock, VectorTop)
    case Err(e) => Stage(AgentMain.Failed(e), [], [search])
    case Ok(v) => Stage(AgentMain.Answered(Vector), [AssistantEntry(AgentMain.VectorMessage(v))], [search])
  }

  /** The sql and hybrid routes: the planner picks the tables; with none the turn stops. */
  function PlannedStage(q: string, route: Route, env: Env): Stage {
    var req := RootChat.PlannerRequest(env.descriptions, env.today, q);
    match Ask(env, req)
    case Err(e) => Stage(AgentMain.Failed(e), [], [Model(req)])
    case Ok(reply) =>
      var plan := RootChat.RunAgent1(reply);
      if plan.tables == {} then Stage(AgentMain.NoTables, [], [Model(req)])
      else Preceded(Model(req), if route == Sql then SqlStage(q, plan, env) else HybridStage(q, plan, env))
  }

  /** `run_agent2`: it fails with an error, or gives the stripped SQL reply; either way with
      the calls it made. */
  datatype Synthesis =
    | SynthesisFailed(error: string, calls: seq<Call>)
    | Synthesised(sql: string, calls: seq<Call>)

  /** `run_agent2` with an optional ProductID filter: the schema of the selected tables, then
      the synthesis request built on its text. */
  function Agent2Step(q: string, plan: RootChat.RootPlan, filter: Option<string>, env: Env): Synthesis {
    var fetch := FetchSchema(plan.tables);
    match env.schemaRows(plan.tables)
    case Err(e) => SynthesisFailed(e, [fetch])
    case Ok(rows) =>
      var req := RootChat.Agent2Request(SchemaText(rows), q, plan.text, filter);
      match Ask(env, req)
      case Err(e) => SynthesisFailed(e, [fetch, Model(req)])
      case Ok(reply) => Synthesised(Strip(reply), [fetch, Model(req)])
  }

  /** The sql route: synthesis without a filter, `clean_sql_query`, execution, and the query
      with its rows logged. */
  function SqlStage(q: string, plan: RootChat.RootPlan, env: Env): Stage {
    match Agent2Step(q, plan, None, env)
    case SynthesisFailed(e, c) => Stage(AgentMain.Failed(e), [], c)
    case Synthesised(raw, c) =>
      var sql := CleanGlobal(raw);
      match env.execute(sql)
      case Err(e) => Stage(AgentMain.Failed(e), [], c + [Execute(sql)])
      case Ok(rows) => Stage(AgentMain.Answered(Sql), [AssistantEntry(AgentMain.SqlMessage(sql, rows))], c + [Execute(sql)])
  }

  /** The hybrid route: `run_hybrid_search` searches for one row, builds the ProductID filter,
      synthesises with it and runs the uncleaned query; the loop then indexes the returned
      pair by `"sql"`, which raises, so the turn ends in the error handler with nothing
      logged. */
  function HybridStage(q: string, plan: RootChat.RootPlan, env: Env): Stage {
    var search := VectorSearch(q, RootChat.VectorStock, RootChat.HybridTop);
    match env.vectorSearch(q, RootChat.VectorStock, RootChat.HybridTop)
    case Err(e) => Stage(AgentMain.Failed(e), [], [search])
    case Ok(v) =>
      match RootChat.HybridFilter(v)
      case Err(e) => Stage(AgentMain.Failed(e), [], [search])
      case Ok(filter) =>
        match Agent2Step(q, plan, filter, env)
        case SynthesisFailed(e, c) => Stage(AgentMain.Failed(e), [], [search] + c)
        case Synthesised(sql, c) =>
          var calls := [search] + c + [Execute(sql)];
          match env.execute(sql)
          case Err(e) => Stage(AgentMain.Failed(e), [], calls)
          case Ok(_) => Stage(AgentMain.Failed(TupleIndexError), [], calls)
  }

  /** One turn, on the log object. */
  method RunTurn(history: ChatHistory, line: string, env: Env) returns (outcome: Outcome, calls: seq<Call>)
    modifies history
    ensures Turn(outcome, history.messages, calls) == TurnSpec(old(history.messages), line, env)
  {
    var command := ParseCommand(line);
    match command
    case Skip =>
      outcome, calls := AgentMain.Skipped, [];
    case Exit =>
      outcome, calls := AgentMain.Exited, [];
    case ClearScreen =>
      outcome, calls := AgentMain.ScreenCleared, [];
    case ClearHistory =>
      history.ClearHistory();
      outcome, calls := AgentMain.HistoryCleared, [];
    case ShowHistory =>
      outcome, calls := AgentMain.HistoryShown, [];
    case Query(q) =>
      history.AddUserMessage(q);
      outcome, calls := RunQuery(history, q, env);
  }

  /** A logged question: route it, then run the chosen search. */
  method RunQuery(history: ChatHistory, q: string, env: Env) returns (outcome: Outcome, calls: seq<Call>)
    modifies history
    ensures var st := QueryStage(q, env);
      outcome == st.outcome && calls == st.calls && history.messages == old(history.messages) + st.added
  {
    var req := RootChat.DecideRequest(q);
    calls := [Model(req)];
    var reply := Ask(env, req);
    if reply.Err? {
      return AgentMain.Failed(reply.error), calls;
    }
    var route := NormalizeRoute(reply.value);
    var more: seq<Call>;
    if route == Vector {
      outcome, more := RunVector(history, q, env);
    } else {
      outcome, more := RunPlanned(history, q, route, env);
    }
    calls := calls + more;
  }

  method RunVector(history: ChatHistory, q: string, env: Env) returns (outcome: Outcome, calls: seq<Call>)
    modifies history
    ensures var st := VectorStage(q, env);
      outcome == st.outcome && calls == st.calls && history.messages == old(history.messages) + st.added
  {
    calls := [VectorSearch(q, RootChat.VectorStock, VectorTop)];
    var v := env.vectorSearch(q, RootChat.VectorStock, VectorTop);
    if v.Err? {
      return AgentMain.Failed(v.error), calls;
    }
    history.AddAssistantMessage(AgentMain.VectorMessage(v.value));
    outcome := AgentMain.Answered(Vector);
  }

  /** The sql and hybrid routes: plan, then run the chosen search. */
  method RunPlanned(history: ChatHistory, q: string, route: Route, env: Env) returns (outcome: Outcome, calls: seq<Call>)
    modifies history
    ensures var st := PlannedStage(q, route, env);
      outcome == st.outcome && calls == st.calls && history.messages == old(history.messages) + st.added
  {
    var req := RootChat.PlannerRequest(env.descriptions, env.today, q);
    calls := [Model(req)];
    var reply := Ask(env, req);
    if reply.Err? {
      return AgentMain.Failed(reply.error), calls;
    }
    var plan := RootChat.RunAgent1(reply.value);
    if plan.tables == {} {
      return AgentMain.NoTables, calls;
    }
    var more: seq<Call>;
    if route == Sql {
      outcome, more := RunSql(history, q, plan, env);
    } else {
      var st := RunHybrid(q, plan, env);
      outcome, more := st.outcome, st.calls;
      assert st.added == [];
    }
    calls := calls + more;
  }

  /** `run_agent2`: the schema text is built by `fetch_table_schema`'s loops over the fetched
      rows. */
  method RunAgent2(q: string, plan: RootChat.RootPlan, filter: Option<string>, env: Env) returns (step: Synthesis)
    ensures step == Agent2Step(q, plan, filter, env)
  {
    var fetch := FetchSchema(plan.tables);
    var rows := env.schemaRows(plan.tables);
    if rows.Err? {
      return SynthesisFailed(rows.error, [fetch]);
    }
    var schema := FetchTableSchema(rows.value);
    var req := RootChat.Agent2Request(schema, q, plan.text, filter);
    var reply := Ask(env, req);
    if reply.Err? {
      return SynthesisFailed(reply.error, [fetch, Model(req)]);
    }
    step := Synthesised(Strip(reply.value), [fetch, Model(req)]);
  }

  method RunSql(history: ChatHistory, q: string, plan: RootChat.RootPlan, env: Env) returns (outcome: Outcome, calls: seq<Call>)
    modifies history
    ensures var st := SqlStage(q, plan, env);
      outcome == st.outcome && calls == st.calls && history.messages == old(history.messages) + st.added
  {
    var step := RunAgent2(q, plan, None, env);
    if step.SynthesisFailed? {
      return AgentMain.Failed(step.error), step.calls;
    }
    var sql := CleanGlobal(step.sql);
    calls := step.calls + [Execute(sql)];
    var rows := env.execute(sql);
    if rows.Err? {
      return AgentMain.Failed(rows.error), calls;
    }
    history.AddAssistantMessage(AgentMain.SqlMessage(sql, rows.value));
    outcome := AgentMain.Answered(Sql);
  }

  /** The hybrid route logs nothing, so it is run without the log. */
  method RunHybrid(q: string, plan: RootChat.RootPlan, env: Env) returns (st: Stage)
    ensures st == HybridStage(q, plan, env)
  {
    var search := VectorSearch(q, RootChat.VectorStock, RootChat.HybridTop);
    var v := env.vectorSearch(q, RootChat.VectorStock, RootChat.HybridTop);
    if v.Err? {
      return Stage(AgentMain.Failed(v.error), [], [search]);
    }
    var filter := RootChat.HybridFilter(v.value);
    if filter.Err? {
      return Stage(AgentMain.Failed(filter.error), [], [search]);
    }
    var step := RunAgent2(q, plan, filter.value, env);
    if step.SynthesisFailed? {
      return Stage(AgentMain.Failed(step.error), [], [search] + step.calls);
    }
    var calls := [search] + step.calls + [Execute(step.sql)];
    var rows := env.execute(step.sql);
    if rows.Err? {
      return Stage(AgentMain.Failed(rows.error), [], calls);
    }
    st := Stage(AgentMain.Failed(TupleIndexError), [], calls);
  }

  /** Where a session over a finite list of input lines ends: the log, the number of lines
      read, and whether an exit command ended it (otherwise the lines ran out). */
  datatype Session = Session(history: seq<Message>, consumed: nat, exited: bool)

  function SessionSpec(h: seq<Message>, lines: seq<string>, env: Env): Session
    decreases |lines|
  {
    if lines == [] then Session(h, 0, false)
    else
      var t := TurnSpec(h, lines[0], env);
      if t.outcome == AgentMain.Exited then Session(t.history, 1, true)
      else
        var rest := SessionSpec(t.history, lines[1..], env);
        Session(rest.history, rest.consumed + 1, rest.exited)
  }

  /** The `while True` loop: one turn per line until an exit command. */
  method MainLoop(history: ChatHistory, lines: seq<string>, env: Env) returns (consumed: nat, exited: bool)
    modifies history
    ensures Session(history.messages, consumed, exited) == SessionSpec(old(history.messages), lines, env)
  {
    ghost var goal := SessionSpec(history.messages, lines, env);
    consumed, exited := 0, false;
    while consumed < |lines| && !exited
      invariant consumed <= |lines|
      invariant !exited ==> var s := SessionSpec(history.messages, lines[consumed..], env);
        Session(s.history, s.consumed + consumed, s.exited) == goal
      invariant exited ==> Session(history.messages, consumed, true) == goal
      decreases |lines| - consumed, !exited
    {
      var outcome, _ := RunTurn(history, lines[consumed], env);
      assert lines[consumed..][1..] == lines[consumed + 1..];
      consumed := consumed + 1;
      exited := outcome == AgentMain.Exited;
    }
  }

  /** `run_agent2` fetches the schema of the selected tables first and, when that answers,
      sends the synthesis request built on the schema text; the SQL it gives is the model's
      reply, stripped. */
  lemma Agent2StepCalls(q: string, plan: RootChat.RootPlan, filter: Option<string>, env: Env)
    ensures var s := Agent2Step(q, plan, filter, env);
      1 <= |s.calls| <= 2 && s.calls[0] == FetchSchema(plan.tables)
    ensures var s := Agent2Step(q, plan, filter, env);
      |s.calls| == 2 ==>
        env.schemaRows(plan.tables).Ok?
        && s.calls[1] == Model(RootChat.Agent2Request(SchemaText(env.schemaRows(plan.tables).value), q, plan.text, filter))
    ensures var s := Agent2Step(q, plan, filter, env);
      s.Synthesised? ==>
        |s.calls| == 2 && env.llm(s.calls[1].request).Ok? && s.sql == Strip(env.llm(s.calls[1].request).value)
  {
    var rows := env.schemaRows(plan.tables);
    if rows.Ok? {
      var req := RootChat.Agent2Request(SchemaText(rows.value), q, plan.text, filter);
      var reply := Ask(env, req);
      if reply.Ok? {
        StripIdempotent(env.llm(req).value);
        assert Agent2Step(q, plan, filter, env) == Synthesised(Strip(reply.value), [FetchSchema(plan.tables), Model(req)]);
      }
    }
  }

  /** The vector route searches once, for one row above the stock threshold; it answers
      exactly when the search does, logging its rows, and otherwise logs nothing. */
  lemma VectorStageShape(q: string, env: Env)
    ensures var st := VectorStage(q, env);
      var v := env.vectorSearch(q, RootChat.VectorStock, VectorTop);
      && st.calls == [VectorSearch(q, RootChat.VectorStock, VectorTop)]
      && (st.outcome == AgentMain.Answered(Vector) <==> v.Ok?)
      && (v.Ok? ==> st.added == [AssistantEntry(AgentMain.VectorMessage(v.value))])
      && (v.Err? ==> st.outcome == AgentMain.Failed(v.error) && st.added == [])
  {
  }

  /** The sql route, case by case: a failed synthesis, or the cleaned reply run. */
  lemma SqlStageSteps(q: string, plan: RootChat.RootPlan, env: Env)
    ensures var step := Agent2Step(q, plan, None, env);
      step.SynthesisFailed? ==> SqlStage(q, plan, env) == Stage(AgentMain.Failed(step.error), [], step.calls)
    ensures var step := Agent2Step(q, plan, None, env);
      step.Synthesised? ==>
        var sql := CleanGlobal(step.sql);
        SqlStage(q, plan, env).calls == step.calls + [Execute(sql)]
        && (env.execute(sql).Err? ==> SqlStage(q, plan, env).outcome.Failed? && SqlStage(q, plan, env).added == [])
        && (env.execute(sql).Ok? ==>
              SqlStage(q, plan, env).outcome == AgentMain.Answered(Sql)
              && SqlStage(q, plan, env).added == [AssistantEntry(AgentMain.SqlMessage(sql, env.execute(sql).value))])
  {
  }

  /** The sql route fetches the schema first, answers on the sql route or fails, and logs
      nothing when it fails. */
  lemma SqlStageShape(q: string, plan: RootChat.RootPlan, env: Env)
    ensures var st := SqlStage(q, plan, env);
      && 1 <= |st.calls| <= 3 && st.calls[0] == FetchSchema(plan.tables)
      && (st.outcome.Failed? || st.outcome == AgentMain.Answered(Sql))
      && (st.outcome.Failed? ==> st.added == [])
  {
    Agent2StepCalls(q, plan, None, env);
    SqlStageSteps(q, plan, env);
  }

  /** The sql route synthesises without a ProductID clause and runs the cleaned reply, which
      holds no fence. */
  lemma SqlStageCalls(q: string, plan: RootChat.RootPlan, env: Env)
    ensures var st := SqlStage(q, plan, env);
      |st.calls| >= 2 ==>
        env.schemaRows(plan.tables).Ok?
        && st.calls[1] == Model(RootChat.Agent2Request(SchemaText(env.schemaRows(plan.tables).value), q, plan.text, None))
    ensures var st := SqlStage(q, plan, env);
      |st.calls| == 3 ==>
        st.calls[2] == Execute(CleanGlobal(Strip(env.llm(st.calls[1].request).value)))
        && NoFence(st.calls[2].sql)
  {
    var step := Agent2Step(q, plan, None, env);
    Agent2StepCalls(q, plan, None, env);
    SqlStageSteps(q, plan, env);
    if step.Synthesised? {
      CleanGlobalNoFence(step.sql);
    }
  }

  /** The sql route answers only after the query ran, as its third call, logging that
      fence-free query with its rows. */
  lemma SqlStageAnswer(q: string, plan: RootChat.RootPlan, env: Env)
    ensures var st := SqlStage(q, plan, env);
      st.outcome.Answered? ==>
        |st.calls| == 3 && st.calls[2].Execute? && NoFence(st.calls[2].sql) && env.execute(st.calls[2].sql).Ok?
        && st.added == [AssistantEntry(AgentMain.SqlMessage(st.calls[2].sql, env.execute(st.calls[2].sql).value))]
  {
    var step := Agent2Step(q, plan, None, env);
    Agent2StepCalls(q, plan, None, env);
    SqlStageSteps(q, plan, env);
    if step.Synthesised? {
      CleanGlobalNoFence(step.sql);
    }
  }

  /** The hybrid route never answers and never logs: whatever its calls give, the turn ends
      in the error handler. It searches for one row first; a row too short for the ProductID
      position stops it before the schema is fetched; the synthesis request carries the
      ProductID filter; and the query it runs is the stripped reply, not cleaned of fences. */
  lemma HybridStageShape(q: string, plan: RootChat.RootPlan, env: Env)
    ensures var st := HybridStage(q, plan, env);
      && st.outcome.Failed? && st.added == []
      && 1 <= |st.calls| <= 4 && st.calls[0] == VectorSearch(q, RootChat.VectorStock, RootChat.HybridTop)
    ensures var st := HybridStage(q, plan, env);
      var v := env.vectorSearch(q, RootChat.VectorStock, RootChat.HybridTop);
      |st.calls| >= 2 <==> v.Ok? && RootChat.HybridFilter(v.value).Ok?
    ensures var st := HybridStage(q, plan, env);
      var v := env.vectorSearch(q, RootChat.VectorStock, RootChat.HybridTop);
      |st.calls| >= 3 ==>
        env.schemaRows(plan.tables).Ok?
        && st.calls[2] == Model(RootChat.Agent2Request(SchemaText(env.schemaRows(plan.tables).value), q, plan.text,
                                                       RootChat.HybridFilter(v.value).value))
    ensures var st := HybridStage(q, plan, env);
      |st.calls| == 4 ==>
        st.calls[3] == Execute(Strip(env.llm(st.calls[2].request).value))
        && (env.execute(st.calls[3].sql).Ok? ==> st.outcome == AgentMain.Failed(TupleIndexError))
  {
    var search := VectorSearch(q, RootChat.VectorStock, RootChat.HybridTop);
    var v := env.vectorSearch(q, RootChat.VectorStock, RootChat.HybridTop);
    if v.Ok? && RootChat.HybridFilter(v.value).Ok? {
      var filter := RootChat.HybridFilter(v.value).value;
      var step := Agent2Step(q, plan, filter, env);
      Agent2StepCalls(q, plan, filter, env);
      if step.Synthesised? {
        assert HybridStage(q, plan, env).calls == [search] + step.calls + [Execute(step.sql)];
      } else {
        assert HybridStage(q, plan, env).calls == [search] + step.calls;
      }
    }
  }

  /** The planner step, case by case: a failed request, no tables, or the route's own
      stage after the planner call. */
  lemma PlannedStageSteps(q: string, route: Route, env: Env)
    ensures var req := RootChat.PlannerRequest(env.descriptions, env.today, q);
      var reply := Ask(env, req);
      && (reply.Err? ==> PlannedStage(q, route, env) == Stage(AgentMain.Failed(reply.error), [], [Model(req)]))
      && (reply.Ok? && RootChat.RunAgent1(reply.value).tables == {} ==>
            PlannedStage(q, route, env) == Stage(AgentMain.NoTables, [], [Model(req)]))
      && (reply.Ok? && RootChat.RunAgent1(reply.value).tables != {} && route == Sql ==>
            PlannedStage(q, route, env) == Preceded(Model(req), SqlStage(q, RootChat.RunAgent1(reply.value), env)))
      && (reply.Ok? && RootChat.RunAgent1(reply.value).tables != {} && route != Sql ==>
            PlannedStage(q, route, env) == Preceded(Model(req), HybridStage(q, RootChat.RunAgent1(reply.value), env)))
  {
  }

  /** The sql and hybrid routes start with the planner request, log at most one entry, the
      assistant's, and answer only on the sql route, never on the hybrid one. */
  lemma PlannedStageShape(q: string, route: Route, env: Env)
    requires route != Vector
    ensures var st := PlannedStage(q, route, env);
      && |st.calls| >= 1 && st.calls[0] == Model(RootChat.PlannerRequest(env.descriptions, env.today, q))
      && |st.added| <= 1 && AgentMain.AssistantOnly(st.added)
      && (st.outcome.Failed? || st.outcome == AgentMain.NoTables || st.outcome == AgentMain.Answered(Sql))
      && (st.outcome == AgentMain.Answered(Sql) ==> route == Sql)
  {
    var reply := Ask(env, RootChat.PlannerRequest(env.descriptions, env.today, q));
    PlannedStageSteps(q, route, env);
    if reply.Ok? && RootChat.RunAgent1(reply.value).tables != {} {
      if route == Sql {
        SqlStageShape(q, RootChat.RunAgent1(reply.value), env);
      } else {
        HybridStageShape(q, RootChat.RunAgent1(reply.value), env);
      }
    }
  }

  /** The sql and hybrid routes stop, with nothing logged and no call after the planner's,
      exactly when the planner's reply names no `Schema.Table`. */
  lemma PlannedNoTablesIff(q: string, route: Route, env: Env)
    requires route != Vector
    ensures var st := PlannedStage(q, route, env);
      var reply := Ask(env, RootChat.PlannerRequest(env.descriptions, env.today, q));
      st.outcome == AgentMain.NoTables <==> reply.Ok? && !TableRefs.HasDottedName(reply.value)
    ensures var st := PlannedStage(q, route, env);
      st.outcome == AgentMain.NoTables ==> |st.calls| == 1 && st.added == []
  {
    var reply := Ask(env, RootChat.PlannerRequest(env.descriptions, env.today, q));
    PlannedStageShape(q, route, env);
    PlannedStageSteps(q, route, env);
    if reply.Ok? {
      RootChat.PlanNoTablesIff(reply.value);
      if RootChat.RunAgent1(reply.value).tables != {} {
        if route == Sql {
          SqlStageShape(q, RootChat.RunAgent1(reply.value), env);
        } else {
          HybridStageShape(q, RootChat.RunAgent1(reply.value), env);
        }
      }
    }
  }

  /** Past the planner, the tables it named are `Schema.Table` references, and the next call
      fetches their schema (sql) or runs the one-row search (hybrid). */
  lemma PlannedSecondCall(q: string, route: Route, env: Env)
    requires route != Vector
    ensures var st := PlannedStage(q, route, env);
      var reply := Ask(env, RootChat.PlannerRequest(env.descriptions, env.today, q));
      |st.calls| >= 2 ==>
        reply.Ok? && RootChat.RunAgent1(reply.value).tables != {}
        && (forall t :: t in RootChat.RunAgent1(reply.value).tables ==> TableRefs.IsTableRef(t))
        && st.calls[1] == (if route == Sql then FetchSchema(RootChat.RunAgent1(reply.value).tables)
                           else VectorSearch(q, RootChat.VectorStock, RootChat.HybridTop))
  {
    var reply := Ask(env, RootChat.PlannerRequest(env.descriptions, env.today, q));
    PlannedStageSteps(q, route, env);
    if reply.Ok? && RootChat.RunAgent1(reply.value).tables != {} {
      RootChat.PlanTablesAreRefs(reply.value);
      if route == Sql {
        SqlStageShape(q, RootChat.RunAgent1(reply.value), env);
      } else {
        HybridStageShape(q, RootChat.RunAgent1(reply.value), env);
      }
    }
  }

  /** An answer on the sql route ran, as the fourth call, a fence-free query and logged it
      with its rows. */
  lemma PlannedSqlAnswer(q: string, route: Route, env: Env)
    requires route != Vector
    ensures var st := PlannedStage(q, route, env);
      st.outcome == AgentMain.Answered(Sql) ==>
        |st.calls| == 4 && st.calls[3].Execute? && NoFence(st.calls[3].sql)
        && env.execute(st.calls[3].sql).Ok?
        && st.added == [AssistantEntry(AgentMain.SqlMessage(st.calls[3].sql, env.execute(st.calls[3].sql).value))]
  {
    var reply := Ask(env, RootChat.PlannerRequest(env.descriptions, env.today, q));
    PlannedStageSteps(q, route, env);
    PlannedStageShape(q, route, env);
    if route == Sql && reply.Ok? && RootChat.RunAgent1(reply.value).tables != {} {
      SqlStageAnswer(q, RootChat.RunAgent1(reply.value), env);
    }
  }

  /** A question starts with the routing request, built from the question alone. It logs at
      most one entry, the assistant's, and never answers on the hybrid route; an answer is on
      the route the reply names. */
  lemma QueryStageShape(q: string, env: Env)
    ensures var st := QueryStage(q, env);
      && |st.calls| >= 1 && st.calls[0] == Model(RootChat.DecideRequest(q))
      && |st.added| <= 1 && AgentMain.AssistantOnly(st.added)
      && st.outcome != AgentMain.Answered(Hybrid)
      && (st.outcome.Failed? || st.outcome == AgentMain.NoTables || st.outcome.Answered?)
    ensures var st := QueryStage(q, env);
      var reply := Ask(env, RootChat.DecideRequest(q));
      st.outcome.Answered? ==> reply.Ok? && st.outcome.route == NormalizeRoute(reply.value)
  {
    var reply := Ask(env, RootChat.DecideRequest(q));
    if reply.Ok? {
      var route := NormalizeRoute(reply.value);
      if route == Vector {
        VectorStageShape(q, env);
      } else {
        PlannedStageShape(q, route, env);
      }
    }
  }

  /** What each route does after the routing call: "vector" searches once and plans
      nothing; a stop for want of tables comes right after the planner; an answer on the sql
      route ran the fence-free query it logged. */
  lemma QueryStageRoutes(q: string, env: Env)
    ensures var st := QueryStage(q, env);
      var reply := Ask(env, RootChat.DecideRequest(q));
      reply.Ok? && reply.value == "vector" ==>
        st.calls == [Model(RootChat.DecideRequest(q)), VectorSearch(q, RootChat.VectorStock, VectorTop)]
    ensures var st := QueryStage(q, env);
      st.outcome == AgentMain.NoTables ==>
        |st.calls| == 2 && st.calls[1] == Model(RootChat.PlannerRequest(env.descriptions, env.today, q)) && st.added == []
    ensures var st := QueryStage(q, env);
      st.outcome == AgentMain.Answered(Sql) ==>
        |st.calls| == 5 && st.calls[4].Execute? && NoFence(st.calls[4].sql)
        && env.execute(st.calls[4].sql).Ok?
        && st.added == [AssistantEntry(AgentMain.SqlMessage(st.calls[4].sql, env.execute(st.calls[4].sql).value))]
    ensures var st := QueryStage(q, env);
      var reply := Ask(env, RootChat.DecideRequest(q));
      reply.Ok? && reply.value == "hybrid" ==> !st.outcome.Answered? && st.added == []
  {
    var reply := Ask(env, RootChat.DecideRequest(q));
    if reply.Ok? {
      var route := NormalizeRoute(reply.value);
      if route == Vector {
        VectorStageShape(q, env);
      } else {
        PlannedStageShape(q, route, env);
        PlannedNoTablesIff(q, route, env);
        PlannedSqlAnswer(q, route, env);
        if route == Hybrid {
          var req := RootChat.PlannerRequest(env.descriptions, env.today, q);
          var plan := Ask(env, req);
          if plan.Ok? && RootChat.RunAgent1(plan.value).tables != {} {
            HybridStageShape(q, RootChat.RunAgent1(plan.value), env);
          }
        }
      }
    }
  }

  /** A question never ends the loop. */
  lemma QueryNeverExits(q: string, env: Env)
    ensures QueryStage(q, env).outcome != AgentMain.Exited
  {
    QueryStageShape(q, env);
  }

  /** A turn ends the loop exactly on an exit command. */
  lemma TurnExitsIff(h: seq<Message>, line: string, env: Env)
    ensures TurnSpec(h, line, env).outcome == AgentMain.Exited <==> ParseCommand(line) == Exit
  {
    var c := ParseCommand(line);
    if c.Query? {
      QueryNeverExits(c.text, env);
      assert TurnSpec(h, line, env).outcome == QueryStage(c.text, env).outcome;
    }
  }

  /** Commands make no call; `/ch` empties the log and the others leave it as it was. A
      question is logged first, after the entries already there, and at most one assistant
      entry follows it; its calls do not depend on the log, which is never sent. */
  lemma TurnLog(h: seq<Message>, line: string, env: Env)
    ensures ParseCommand(line) == ClearHistory ==> TurnSpec(h, line, env) == Turn(AgentMain.HistoryCleared, [], [])
    ensures !ParseCommand(line).Query? && ParseCommand(line) != ClearHistory ==>
      TurnSpec(h, line, env).history == h && TurnSpec(h, line, env).calls == []
    ensures ParseCommand(line).Query? ==>
      var t := TurnSpec(h, line, env);
      var q := ParseCommand(line).text;
      |h| + 1 <= |t.history| <= |h| + 2
      && t.history[..|h| + 1] == h + [UserEntry(q)]
      && AgentMain.AssistantOnly(t.history[|h| + 1..])
      && t.calls == QueryStage(q, env).calls
      && t.calls[0] == Model(RootChat.DecideRequest(q))
  {
    if ParseCommand(line).Query? {
      var q := ParseCommand(line).text;
      var st := QueryStage(q, env);
      QueryStageShape(q, env);
      AgentMain.LoggedAfter(h + [UserEntry(q)], st.added);
    }
  }

  /** A session reads lines up to and including the first exit command and stops there; with
      no exit command it reads every line. */
  lemma {:induction false} SessionStopsAtFirstExit(h: seq<Message>, lines: seq<string>, env: Env)
    ensures var s := SessionSpec(h, lines, env);
      s.consumed <= |lines|
      && (s.exited ==> s.consumed >= 1 && ParseCommand(lines[s.consumed - 1]) == Exit)
      && (!s.exited ==> s.consumed == |lines|)
      && (forall i :: 0 <= i < |lines| && i < s.consumed - 1 ==> ParseCommand(lines[i]) != Exit)
      && (!s.exited ==> forall i :: 0 <= i < |lines| ==> ParseCommand(lines[i]) != Exit)
    decreases |lines|
  {
    if lines != [] {
      var t := TurnSpec(h, lines[0], env);
      TurnExitsIff(h, lines[0], env);
      if t.outcome != AgentMain.Exited {
        SessionStopsAtFirstExit(t.history, lines[1..], env);
        var s := SessionSpec(h, lines, env);
        forall i | 0 <= i < |lines| && i < s.consumed - 1
          ensures ParseCommand(lines[i]) != Exit
        {
          if i > 0 {
            assert lines[i] == lines[1..][i - 1];
          }
        }
        if !s.exited {
          forall i | 0 <= i < |lines|
            ensures ParseCommand(lines[i]) != Exit
          {
            if i > 0 {
              assert lines[i] == lines[1..][i - 1];
            }
          }
        }
      }
    }
  }

  /** Without a `/ch` command among the lines, a session only appends to the log. */
  lemma {:induction false} SessionKeepsLog(h: seq<Message>, lines: seq<string>, env: Env)
    requires forall i :: 0 <= i < |lines| ==> ParseCommand(lines[i]) != ClearHistory
    ensures var s := SessionSpec(h, lines, env);
      |h| <= |s.history| && s.history[..|h|] == h
    decreases |lines|
  {
    if lines != [] {
      var t := TurnSpec(h, lines[0], env);
      TurnLog(h, lines[0], env);
      if ParseCommand(lines[0]).Query? {
        assert t.history[..|h|] == t.history[..|h| + 1][..|h|];
      }
      if t.outcome != AgentMain.Exited {
        forall i | 0 <= i < |lines[1..]|
          ensures ParseCommand(lines[1..][i]) != ClearHistory
        {
          assert lines[1..][i] == lines[i + 1];
        }
        SessionKeepsLog(t.history, lines[1..], env);
        var rest := SessionSpec(t.history, lines[1..], env);
        assert rest.history[..|h|] == rest.history[..|t.history|][..|h|];
      }
    }
  }
}
