# SQL_Chat, modelled in Dafny

SQL_Chat is a console assistant. It turns a question about a SQL Server database into SQL
with the help of local language models. The repository ships three chat programs:

- **The multi-agent loop** (`AI_SQL_Agent/Main.py` with `AI_SQL_Agent/Chat.py`).
  - A small model routes each question to vector, SQL or hybrid search.
  - A planner picks the `schema.table` names.
  - A coder model writes the query. The loop cleans the query of Markdown fences, runs it,
    and has the results summarised.
- **The single-model loop** (`Main.py` with `Chat.py` and `Database.py`). It has the same
  shape. It differs in its prompts, its fence cleaning, its table extraction and its
  hybrid branch.
- **The single-chain chatbot** (`AI_SQL_Agent/Database_Agent.py`). It lists the database's
  tables once. Every question then goes to one model together with a system message that
  holds that list.

`Plugins.py` holds a stand-alone `generate_sql_query`.

The model treats the language models, the database and the console as the environment.
- A model is a function from the message list to a reply or a raised error.
- The database is the rows its queries return.
- The console is the list of input lines.

What the programs compute from these is modelled as written:
- the command parser and the conversation log;
- the requests each step sends and which inputs they embed;
- the route normalisation;
- the table-name scanners (`re.findall`, leftmost-first);
- `sorted(set(...))`;
- the three fence cleaners;
- the ProductID filter;
- the schema and catalogue texts;
- the result formatting;
- for each loop, the order in which it logs entries and makes calls, up to the first
  error.

Each loop is a pure specification function (`TurnSpec`, `SessionSpec`). An imperative
method on the `ChatHistory` object (`RunTurn`, `MainLoop`) is proved equal to it. The
lemmas state what the specification promises.

Modules:
- `Strings`: Python `str` primitives.
- `Ordering`: `str` order and `sorted(set(...))`.
- `ChatLog`: `AI_SQL_Agent/Chat_History.py`.
- `Console`: command parsing and routes.
- `SqlFences`: the three `clean_sql_query` variants.
- `TableRefs`: the two table regexes.
- `ChatAgent`: `AI_SQL_Agent/Chat.py`.
- `AgentMain`: `AI_SQL_Agent/Main.py`.
- `RootChat`: `Chat.py`.
- `Catalog`: `Database.py`.
- `RootMain`: `Main.py`.
- `DatabaseAgent`: `AI_SQL_Agent/Database_Agent.py`.
- `Plugins`: `Plugins.py`.

Where the code and its description disagree, the model follows the code:
- Route names are matched case-sensitively, not case-insensitively. Any reply other than
  exactly `vector` or `hybrid` means SQL.
- Both synthesis prompts embed the ProductID filter twice, not exactly once.
- The single-model hybrid branch always fails. It indexes the returned `(columns, rows)`
  tuple by `"sql"`, which raises `TypeError`, and the generic handler catches it.

## Model

| member | source | states |
|---|---|---|
| ChatLog.ChatHistory.constructor | AI_SQL_Agent/Chat_History.py:2-3 | a new log is empty |
| ChatLog.ChatHistory.AddUserMessage | AI_SQL_Agent/Chat_History.py:5-6 | appends exactly one user entry; earlier entries unchanged |
| ChatLog.ChatHistory.AddAssistantMessage | AI_SQL_Agent/Chat_History.py:8-9 | appends exactly one assistant entry; earlier entries unchanged |
| ChatLog.ChatHistory.ClearHistory | AI_SQL_Agent/Chat_History.py:11-12 | the log becomes empty |
| ChatLog.ChatHistory.GetHistory | AI_SQL_Agent/Chat_History.py:14-18 | yields the stored entries, position by position |
| ChatLog.ChatHistory.Len | AI_SQL_Agent/Chat_History.py:20-21 | `len` is the number of entries iterated |
| ChatLog.ReplayKeepsSinceLastClear | AI_SQL_Agent/Chat_History.py:5-12 | after any sequence of calls the log is exactly the entries appended since the last clear, in order; with no clear they follow the old entries |
| ChatLog.ReplayWithoutClear | AI_SQL_Agent/Chat_History.py:5-9 | clear-free calls append their entries, in call order |
| ChatLog.LengthSinceLastClear | AI_SQL_Agent/Chat_History.py:11-21 | the length of a fresh log counts the appends since the last clear |
| ChatLog.SinceLastClear | AI_SQL_Agent/Chat_History.py:11-12 | the calls after the last clear are a suffix free of clears |
| Console.ParseCommand | AI_SQL_Agent/Main.py:46-71 | blank after strip is skipped; exit words in any case end the loop; `/c`, `/ch`, `/h` exact; everything else is the stripped question, and only then (iff) |
| Console.ParseIgnoresSurroundingSpace | AI_SQL_Agent/Main.py:46 | whitespace around a line never changes its reading |
| Console.NormalizeRoute | AI_SQL_Agent/Main.py:79-80 | `vector` and `hybrid` iff the exact word; every other reply is SQL |
| Console.RouteName | AI_SQL_Agent/Main.py:104 | a route's name normalises back to that route |
| Strings.StripIsSlice | AI_SQL_Agent/Chat.py:11-19 | `strip()` keeps one slice with only whitespace around it |
| Strings.StripIdempotent | AI_SQL_Agent/Chat.py:175 | stripping twice equals stripping once |
| Strings.StripTrimmed | AI_SQL_Agent/Chat.py:175 | text without surrounding whitespace is left alone |
| Strings.BlankIffAllSpace | AI_SQL_Agent/Chat.py:164 | `not s.strip()` iff every character is whitespace |
| Strings.JoinSplit | Plugins.py:14 | joining the pieces of a split with its separator gives the text back |
| Strings.SplitJoin | AI_SQL_Agent/Database_Agent.py:54 | splitting a join of separator-free pieces gives the pieces back |
| Ordering.LessTotal | AI_SQL_Agent/Chat.py:160 | Python's `str` order is total |
| Ordering.LessTransitive | AI_SQL_Agent/Chat.py:160 | Python's `str` order is transitive |
| Ordering.SortedDistinct | AI_SQL_Agent/Chat.py:160 | `sorted(set(xs))` is strictly ascending and holds exactly the values of `xs` |
| Ordering.SortedUnique | AI_SQL_Agent/Chat.py:160 | two strictly ascending lists with the same members are equal |
| Ordering.SortedDistinctOrderInsensitive | AI_SQL_Agent/Chat.py:160 | the result depends only on which values occur, not on their order or repetition |
| Ordering.SortedDistinctIdempotent | AI_SQL_Agent/Chat.py:160 | applying it twice changes nothing |
| SqlFences.CleanAnchoredUnwraps | AI_SQL_Agent/Main.py:18-23 | a query fenced with a tagged or newline-separated opening fence and a closing fence, with any surrounding whitespace, comes back exactly |
| SqlFences.CleanAnchoredKeepsInterior | AI_SQL_Agent/Main.py:18-23 | the result is a slice of the stripped reply: only the ends are cut |
| SqlFences.CleanAnchoredWithoutFences | AI_SQL_Agent/Main.py:18-23 | fence-free text is only stripped |
| SqlFences.AnchoredKeepsInnerFence | AI_SQL_Agent/Main.py:20-22 | a fence inside the query survives the anchored cleaner |
| SqlFences.CleanGlobalNoFence | Main.py:18-19 | after the global substitution no fence is left anywhere |
| SqlFences.CleanGlobalWithoutFences | Main.py:18-19 | fence-free text is only stripped |
| SqlFences.RemoveFenceTokensShape | Main.py:19 | the scan's output holds no fence and starts with backticks only where the input does |
| SqlFences.GlobalDropsInnerFence | Main.py:19 | a fence inside the query is removed |
| SqlFences.FourBackticksGlobal | Main.py:19 | four backticks before `sql` leave a single backtick and `sql` behind |
| SqlFences.CleanReplaceNoFence | Plugins.py:29 | after the two replacements no fence is left anywhere |
| SqlFences.ReplaceDropsInnerFence | Plugins.py:29 | a fence inside the query is removed |
| SqlFences.FourBackticksReplace | Plugins.py:29 | four backticks before `sql` leave only a single backtick, unlike the global pattern |
| TableRefs.FoundAreTableRefs | AI_SQL_Agent/Chat.py:157 | every found token is a `Schema.Table` reference with no brackets |
| TableRefs.FindAllEmptyIff | Chat.py:142 | either scanner finds nothing iff no dot has identifier characters on both sides |
| TableRefs.MatchBareRef | AI_SQL_Agent/Chat.py:157 | a reference not inside a longer identifier run is matched whole where it starts |
| TableRefs.BoundedBareAndBracketed | AI_SQL_Agent/Chat.py:157 | `A.B [A.B]` gives the reference twice (the set then collapses it) |
| TableRefs.LooseBareAndBracketed | Chat.py:142 | the loose pattern gives the reference twice as well |
| TableRefs.DottedAtRef | Chat.py:142 | a written `x.y` is matched in full |
| ChatAgent.CallLlm | AI_SQL_Agent/Chat.py:21-30 | the messages are the specified list; the coder model iff `model == "qwen"`, otherwise the small one |
| ChatAgent.LlmMessagesLayout | AI_SQL_Agent/Chat.py:22-27 | system prompt first, history in order, the user input last only when non-empty |
| ChatAgent.DecideRequest | AI_SQL_Agent/Chat.py:35-54 | the routing prompt (which contains the question) as the system message, then the history in order, then the question as the last human message when it is non-empty |
| ChatAgent.DbRelatedIgnoresStrip | AI_SQL_Agent/Chat.py:56-64 | the classifier says yes iff the lowercased reply contains "yes", stripped or not |
| ChatAgent.HybridNote | AI_SQL_Agent/Chat.py:67-74 | the note is non-empty iff the route is `hybrid` |
| ChatAgent.Agent1PromptEmbeds | AI_SQL_Agent/Chat.py:76-93 | the planner prompt embeds the descriptions, today's date and the question, and the note on the hybrid route |
| ChatAgent.RunAgent1 | AI_SQL_Agent/Chat.py:139-160 | the plan is the stripped reply; the tables are strictly sorted and exactly the matches of the bounded pattern |
| ChatAgent.PlanTablesAreRefs | AI_SQL_Agent/Chat.py:157-160 | every selected table is a `Schema.Table` reference |
| ChatAgent.PlanNoTablesIff | AI_SQL_Agent/Chat.py:157-160 | no table is selected iff the reply has no dotted name |
| ChatAgent.PlanCollapsesBrackets | AI_SQL_Agent/Chat.py:157-160 | `A.B` and `[A.B]` give one table |
| ChatAgent.ProductClause | AI_SQL_Agent/Chat.py:96-104 | the clause is empty iff the filter is absent or empty |
| ChatAgent.ProductClauseEmbedsFilter | AI_SQL_Agent/Chat.py:97-102 | the filter appears in the list and in `WHERE ProductID IN (...)` |
| ChatAgent.Agent2PromptFilter | AI_SQL_Agent/Chat.py:95-117 | a given filter makes the prompt demand `WHERE ProductID IN (f)`; otherwise the prompt equals the unfiltered one |
| ChatAgent.Agent2PromptEmbeds | AI_SQL_Agent/Chat.py:106-117 | the schema, plan and question reach the prompt verbatim |
| ChatAgent.RunAgent2Request | AI_SQL_Agent/Chat.py:162-174 | fails with the `ValueError` text iff the schema is blank |
| ChatAgent.IndexOf | AI_SQL_Agent/Chat.py:181 | the first position of the value; nothing iff the value is absent (`ValueError`) |
| ChatAgent.ProductIdFilter | AI_SQL_Agent/Chat.py:179-193 | no filter without a ProductID column or without rows |
| ChatAgent.ProductIdFilterRoundTrip | AI_SQL_Agent/Chat.py:181-183 | splitting the filter at commas gives the ProductID column back, in row order |
| ChatAgent.HybridRequest | AI_SQL_Agent/Chat.py:177-195 | fails iff the schema is blank |
| ChatAgent.HybridPromptCarriesIds | AI_SQL_Agent/Chat.py:187-195 | with ProductIDs the request demands exactly them; without any it is the unfiltered prompt |
| ChatAgent.Pairs | AI_SQL_Agent/Chat.py:234 | `zip` stops at the shorter of columns and row |
| ChatAgent.FormatLines | AI_SQL_Agent/Chat.py:232-234 | one line per row |
| ChatAgent.FormatResults | AI_SQL_Agent/Chat.py:227-235 | the loop builds the specified text |
| ChatAgent.NoResultsIff | AI_SQL_Agent/Chat.py:228-229 | "No results." iff the argument is not a pair |
| ChatAgent.FormattedHasMark | AI_SQL_Agent/Chat.py:231-235 | formatted results are empty or show a `:` or a line break |
| ChatAgent.RowMark | AI_SQL_Agent/Chat.py:234 | a formatted row is empty or has a `:` |
| ChatAgent.ResultsLines | AI_SQL_Agent/Chat.py:231-235 | read back line by line, the text is the first five formatted rows, in order |
| ChatAgent.ResultSectionNoneIff | AI_SQL_Agent/Chat.py:217-221 | the prompt shows `None` iff the result set is absent |
| ChatAgent.FinalPromptSections | AI_SQL_Agent/Chat.py:211-223 | the question and each section under its heading |
| ChatAgent.FinalRequestIsPromptOnly | AI_SQL_Agent/Chat.py:225 | the final request is the prompt alone |
| AgentMain.MessageLeads | AI_SQL_Agent/Main.py:91-173 | each logged entry opens with its heading |
| AgentMain.RunTurn | AI_SQL_Agent/Main.py:44-189 | the method's outcome, log and calls are those of `TurnSpec` |
| AgentMain.RunQuery | AI_SQL_Agent/Main.py:74-183 | a question's run equals `QueryStage` on the log |
| AgentMain.RunPlanned | AI_SQL_Agent/Main.py:102-183 | the planned routes' run equals `PlannedStage` |
| AgentMain.RunVector | AI_SQL_Agent/Main.py:83-100 | the vector route's run equals `VectorStage` |
| AgentMain.RunFinal | AI_SQL_Agent/Main.py:93-99 | the final answer step equals `FinalStage` |
| AgentMain.RunSqlStep | AI_SQL_Agent/Main.py:119-132 | synthesis, cleaning and execution equal `SqlStep` |
| AgentMain.RunSql | AI_SQL_Agent/Main.py:116-142 | the sql route's run equals `SqlStage` |
| AgentMain.RunHybrid | AI_SQL_Agent/Main.py:144-183 | the hybrid route's run equals `HybridStage` |
| AgentMain.MainLoop | AI_SQL_Agent/Main.py:44-189 | the loop's log, lines read and exit flag are those of `SessionSpec` |
| AgentMain.QueryStageSteps | AI_SQL_Agent/Main.py:78-104 | a question fails on the routing call, or continues to the vector or planned stage by the normalised reply |
| AgentMain.PlannedStageSteps | AI_SQL_Agent/Main.py:104-183 | the planner fails, finds no tables, or continues to the sql or hybrid stage |
| AgentMain.SqlStageSteps | AI_SQL_Agent/Main.py:119-142 | a failed step logs nothing; a done step logs the query with its rows before the final answer |
| AgentMain.AfterFinal | AI_SQL_Agent/Main.py:135-139 | the final stage adds no entry |
| AgentMain.HybridStageSteps | AI_SQL_Agent/Main.py:148-183 | the search rows are logged before the SQL step; the query is logged after it |
| AgentMain.FinalStageShape | AI_SQL_Agent/Main.py:93-99 | one request with the prompt alone; nothing logged; answer on the route or failure |
| AgentMain.FinalStageEnds | AI_SQL_Agent/Main.py:135-139 | one call, nothing logged, answer or failure |
| AgentMain.SqlStepCalls | AI_SQL_Agent/Main.py:119-132 | the schema fetch comes first; at most three calls; with rows the third runs the cleaned query |
| AgentMain.SqlStepSynthesis | AI_SQL_Agent/Main.py:119-125 | the second call is the unfiltered synthesis request on the given log |
| AgentMain.VectorStageShape | AI_SQL_Agent/Main.py:83-100 | one search for one row at stock 100; an answer logged one entry of the rows |
| AgentMain.SqlStageCases | AI_SQL_Agent/Main.py:116-142 | the sql route case by case |
| AgentMain.SqlStageStart | AI_SQL_Agent/Main.py:119 | the schema fetch comes first; at most one assistant entry |
| AgentMain.SqlStageAnswer | AI_SQL_Agent/Main.py:132-142 | an answer made four calls, the third an execution, and logged `SQL Query:` |
| AgentMain.HybridStageCases | AI_SQL_Agent/Main.py:144-183 | the hybrid route case by case |
| AgentMain.HybridStageStart | AI_SQL_Agent/Main.py:148 | the one-row search comes first; at most two assistant entries |
| AgentMain.HybridStageLogsSearchFirst | AI_SQL_Agent/Main.py:148-156 | past the search, its rows are logged first and the schema is fetched next |
| AgentMain.HybridSynthesisSeesSearch | AI_SQL_Agent/Main.py:153-163 | the synthesis request is built on the log that holds the search rows |
| AgentMain.HybridStageOutcome | AI_SQL_Agent/Main.py:176-183 | answers on the hybrid route or fails |
| AgentMain.HybridStageAnswer | AI_SQL_Agent/Main.py:170-183 | an answer made five calls and logged `Hybrid SQL:` second |
| AgentMain.PlannedStageStart | AI_SQL_Agent/Main.py:104 | the planner request comes first, on the log holding the question |
| AgentMain.PlannedStageEnds | AI_SQL_Agent/Main.py:104-183 | failure, no tables after one call, or an answer on the route, with its call count |
| AgentMain.QueryStageStart | AI_SQL_Agent/Main.py:74-78 | the routing request on the log holding the question comes first; at most two assistant entries |
| AgentMain.QueryStageEnds | AI_SQL_Agent/Main.py:78-112 | an answer is on the route the normalised reply names; no tables after two calls |
| AgentMain.QueryStageCallCounts | AI_SQL_Agent/Main.py:83-183 | call counts per answered route: 3, 6 and 7 |
| AgentMain.TurnExitsIff | AI_SQL_Agent/Main.py:51-53 | a turn exits iff the line is an exit command |
| AgentMain.CommandTurns | AI_SQL_Agent/Main.py:47-71 | commands make no call; `/ch` empties the log; the others keep it |
| AgentMain.QueryTurnLog | AI_SQL_Agent/Main.py:74-78 | the question is logged first, then at most two assistant entries |
| AgentMain.SessionStopsAtFirstExit | AI_SQL_Agent/Main.py:44-53 | a session reads up to and including the first exit command |
| AgentMain.SessionReadsNoEarlierExit | AI_SQL_Agent/Main.py:44-53 | no line before the last one a session reads is an exit command |
| AgentMain.SessionWithoutExitHasNone | AI_SQL_Agent/Main.py:44-53 | a session that ends without exiting read no exit command |
| AgentMain.SessionKeepsLog | AI_SQL_Agent/Main.py:44-183 | without `/ch` a session only appends to the log |
| RootChat.RootMessagesVersusAgent | Chat.py:11-17 | the request is system plus human `{input}`, always two messages, even for an empty input |
| RootChat.DbRelatedIff | Chat.py:28-41 | true iff "yes" occurs at some position of the lowercased reply |
| RootChat.RunAgent1 | Chat.py:135-143 | the plan is the reply; the tables are exactly the loose pattern's matches, as a set |
| RootChat.PlanTablesAreRefs | Chat.py:142 | every table is a `Schema.Table` reference |
| RootChat.PlanNoTablesIff | Chat.py:142 | no table iff the reply has no dotted name |
| RootChat.PlanCollapsesBrackets | Chat.py:142 | `A.B` and `[A.B]` give one table |
| RootChat.ProductClause | Chat.py:85-91 | the clause is empty iff the filter is absent or empty |
| RootChat.ProductClauseEmbedsFilter | Chat.py:87-90 | the filter appears in parentheses and inside `IN (...)` |
| RootChat.Agent2PromptFilter | Chat.py:84-114 | a given filter makes the prompt demand `IN (f)`; otherwise the prompt equals the unfiltered one |
| RootChat.RequestsEmbedInputs | Chat.py:28-156 | all four requests carry the question in their system prompt; the planner prompt carries the listing and the date; the synthesis prompt carries the schema and the plan |
| RootChat.Cells | Chat.py:165 | one cell per row when present |
| RootChat.CellsIsColumn | Chat.py:165 | the cells exist iff every row reaches the index, and then they are that column |
| RootChat.HybridFilterAgrees | Chat.py:158-177 | no filter without a ProductID column or rows; on well-formed rows it equals the multi-agent filter; `IndexError` iff a row is too short |
| RootChat.HybridRequestCarriesIds | Chat.py:170-177 | with ProductIDs the request demands exactly them |
| RootMain.Ask | Chat.py:17-26 | an answer is the model's reply, stripped |
| RootMain.RunTurn | Main.py:36-160 | the method's outcome, log and calls are those of `TurnSpec` |
| RootMain.RunQuery | Main.py:64-145 | a question's run equals `QueryStage` |
| RootMain.RunVector | Main.py:85-94 | the vector route's run equals `VectorStage` |
| RootMain.RunPlanned | Main.py:96-145 | the planned routes' run equals `PlannedStage` |
| RootMain.RunAgent2 | Chat.py:145-156 | the schema is built by `fetch_table_schema`'s loops, then the synthesis step equals `Agent2Step` |
| RootMain.RunSql | Main.py:110-125 | the sql route's run equals `SqlStage` |
| RootMain.RunHybrid | Main.py:127-136 | the hybrid route's run equals `HybridStage` |
| RootMain.MainLoop | Main.py:36-160 | the loop's log, lines read and exit flag are those of `SessionSpec` |
| RootMain.Agent2StepCalls | Chat.py:145-156 | the schema is fetched first; the synthesis request is built on its text; the SQL is the stripped reply |
| RootMain.VectorStageShape | Main.py:85-94 | one search for one row at stock 100; answers iff the search does, logging its rows |
| RootMain.SqlStageSteps | Main.py:110-125 | a failed synthesis logs nothing; otherwise the cleaned query is run and logged |
| RootMain.SqlStageShape | Main.py:110-125 | the schema fetch comes first; answers on the sql route or fails with nothing logged |
| RootMain.SqlStageCalls | Main.py:112-124 | unfiltered synthesis; the executed query is the cleaned reply |
| RootMain.SqlStageAnswer | Main.py:124-125 | an answer ran a fence-free query as the third call |
| RootMain.HybridStageShape | Main.py:127-136 | never answers and never logs; search first; a short row stops before the schema; the filter reaches the request; the uncleaned reply is run |
| RootMain.PlannedStageSteps | Main.py:98-145 | the planner fails, finds no tables, or continues to its route |
| RootMain.PlannedStageShape | Main.py:98-145 | planner first; at most one assistant entry; answers only on the sql route |
| RootMain.PlannedNoTablesIff | Main.py:104-106 | a stop iff the planner reply names no `Schema.Table`; then nothing logged and one call |
| RootMain.PlannedSecondCall | Main.py:104-136 | past the planner the tables are references; the next call fetches the schema or searches |
| RootMain.PlannedSqlAnswer | Main.py:110-125 | an answer ran a fence-free query as the fourth call |
| RootMain.QueryStageShape | Main.py:77-94 | the routing request comes first; at most one assistant entry; never an answer on the hybrid route |
| RootMain.QueryStageRoutes | Main.py:79-145 | what each route does after the routing call |
| RootMain.TurnExitsIff | Main.py:46-48 | a turn exits iff the line is an exit command |
| RootMain.TurnLog | Main.py:39-64 | commands make no call; `/ch` empties the log; a question is logged first, then at most one entry; the log is never sent |
| RootMain.SessionStopsAtFirstExit | Main.py:37-48 | a session reads up to and including the first exit command |
| RootMain.SessionKeepsLog | Main.py:37-145 | without `/ch` a session only appends to the log |
| Catalog.DictOfKeys | Database.py:11-84 | a dict display keeps each key once, at its first place |
| Catalog.DictOfLookup | Database.py:11-84 | each key holds the value of its last pair |
| Catalog.DictOfDistinct | Database.py:11-84 | distinct keys are stored as written |
| Catalog.PutKeys | Database.py:11-84 | assignment keeps an existing key's place and adds a new key last |
| Catalog.PutLookup | Database.py:11-84 | assignment changes only the assigned key |
| Catalog.ListingLines | Database.py:86 | one line per item, in order; the listing splits back into the lines |
| Catalog.PlaceholderCount | Database.py:89 | one `?` per table, separated by commas |
| Catalog.ColumnDefShape | Database.py:127-129 | the definition ends with the type, description and nullability; `strip()` matters only at the name |
| Catalog.SchemaTables | Database.py:124-140 | one block per table, in first-seen order |
| Catalog.ColumnsInOrder | Database.py:125-132 | columns are filed in row order |
| Catalog.EveryRowFiled | Database.py:125-132 | every row's definition is filed under its own table |
| Catalog.SchemaTextShape | Database.py:134-140 | empty iff no rows; otherwise it opens with the first table's header and ends with a blank line |
| Catalog.FetchTableSchema | Database.py:124-140 | the two loops build `SchemaText(rows)` |
| DatabaseAgent.SliceBound | AI_SQL_Agent/Database_Agent.py:27-28 | Python's slice bound: in-range indices kept, negatives counted from the end, clamped otherwise |
| DatabaseAgent.ChatHistory.constructor | AI_SQL_Agent/Database_Agent.py:9-10 | a new log is empty |
| DatabaseAgent.ChatHistory.AddUserMessage | AI_SQL_Agent/Database_Agent.py:12-13 | appends one user entry |
| DatabaseAgent.ChatHistory.AddAssistantMessage | AI_SQL_Agent/Database_Agent.py:15-16 | appends one assistant entry |
| DatabaseAgent.ChatHistory.ClearHistory | AI_SQL_Agent/Database_Agent.py:18-19 | the log becomes empty |
| DatabaseAgent.ChatHistory.Len | AI_SQL_Agent/Database_Agent.py:24-25 | `len(chat)` is the number of entries; zero iff the log is empty |
| DatabaseAgent.ChatHistory.RemoveRange | AI_SQL_Agent/Database_Agent.py:27-28 | the log becomes `Removed(old log, start, end)` |
| DatabaseAgent.RemovedWithinBounds | AI_SQL_Agent/Database_Agent.py:27-28 | within bounds exactly `[start, end)` goes: earlier entries stay, later ones shift down, the log shrinks by the width |
| DatabaseAgent.RemovedFromEnd | AI_SQL_Agent/Database_Agent.py:27-28 | `del log[-k:]` drops the last `k` entries |
| DatabaseAgent.RemovedIsCut | AI_SQL_Agent/Database_Agent.py:27-28 | the result is always the log with one slice cut out; a reversed range of same-sign indices removes nothing |
| DatabaseAgent.SliceBoundMonotone | AI_SQL_Agent/Database_Agent.py:27-28 | same-sign indices keep their order as bounds |
| DatabaseAgent.QualifiedNames | AI_SQL_Agent/Database_Agent.py:48-49 | one `schema.table` name per row |
| DatabaseAgent.SortedList | AI_SQL_Agent/Database_Agent.py:54 | `sorted(tables)` on a set is strictly ascending, with the same members |
| DatabaseAgent.FetchTables | AI_SQL_Agent/Database_Agent.py:47-54 | the text is the sorted distinct qualified names joined by line breaks |
| DatabaseAgent.TablesListing | AI_SQL_Agent/Database_Agent.py:47-54 | read back line by line: every qualified name once, ascending; empty without rows |
| DatabaseAgent.SystemMessageEmbeds | AI_SQL_Agent/Database_Agent.py:57-70 | the system message holds the table list and the date |
| DatabaseAgent.StartUp | AI_SQL_Agent/Database_Agent.py:84-96 | the chain's system message is built once from the fetched table list and the date |
| DatabaseAgent.StartUpRequestsNameEveryTable | AI_SQL_Agent/Database_Agent.py:84-96 | after start-up every request a turn sends is a system and a human message, and the system message names every table of the database and the date |
| DatabaseAgent.RunTurn | AI_SQL_Agent/Database_Agent.py:104-148 | the method's outcome, log and requests are those of `TurnSpec` |
| DatabaseAgent.MainLoop | AI_SQL_Agent/Database_Agent.py:104-148 | the loop's log, lines read and exit flag are those of `SessionSpec` |
| DatabaseAgent.TurnLog | AI_SQL_Agent/Database_Agent.py:106-142 | a question is logged, sent alone with the system message, and followed by the answer iff the model answers; commands send nothing; exits iff an exit command |
| DatabaseAgent.SessionAlternates | AI_SQL_Agent/Database_Agent.py:104-142 | while the model always answers, the log alternates user, assistant |
| Plugins.CommasToLines | Plugins.py:14 | the reference text has the list's length |
| Plugins.SchemaDescriptionReplacesCommas | Plugins.py:14 | split-and-join turns each comma into a line break in place |
| Plugins.SchemaLinesRoundTrip | Plugins.py:14 | its lines are the comma pieces, untrimmed; rejoined with commas they give the list |
| Plugins.GenerateSqlQueryShape | Plugins.py:3-33 | the request carries the schema text and the user's request; the query runs iff the model answered; it is the fence-free cleaned reply; the database's answer is returned |

## Left out

- `Catalog.FetchTableDescriptions`: the model keeps the 72-entry literal, but proves no
  fact about its concrete keys. Proving that each literal key is a `Schema.Table` name
  costs too much solver time. The generic listing lemmas cover every dictionary.
- Prompt prose is replaced by short stand-in constants. The model keeps where each input
  is embedded and which clauses appear.
- langchain's template handling is left out. It reads `{...}` in the prompt text as
  variables, and a prompt or question holding braces can fail there. The model passes
  every text through verbatim.
- Printing, the clear-screen escape codes and the listing shown by `/h` are left out. They
  are output only.
- `KeyboardInterrupt` and `sys.exit` are left out. Input is a finite list of lines, and a
  session ends when they run out. In the programs, `input()` then raises `EOFError`,
  which `except Exception` catches, so all three loops print the error and ask again
  forever (AI_SQL_Agent/Main.py:188-189, Main.py:159-160,
  AI_SQL_Agent/Database_Agent.py:147-148).
- The connection strings, `pyodbc` and `get_connection` are left out.
- The databases are environment functions from the call's arguments to rows or an error.
  This covers `execute_sql_query`, `run_vector_search`, `fetch_table_schema`'s query and
  `fetch_tables`' query.
- Result rows are cells already converted with `str`. `shown` stands for `str(rows)`.
- `datetime.now()` is a `today` parameter. It is the `today` field of the environments of
  `RootMain` and `AgentMain`, which fills the planner prompt, and the argument of
  `DatabaseAgent.BuildSystemMessage`.
- `Database.fetch_table_descriptions()` in the single-model loop is the `descriptions`
  field of its environment.
- The models are environment functions. Temperature and model loading are not modelled.
- `_parse_llm_response` is modelled as a reply text that is stripped. The dict and `str()`
  branches are not distinguished.
- `Database.vector_search_products` is not called by any loop, so it is left out.
- `AI_SQL_Agent/embed_api.py` is outside the modelled core.
- The `Database` module imported by `AI_SQL_Agent/Main.py` is not part of this model. Its
  schema text is an environment function there.
- The module `Chat_History` imported by `Main.py` is modelled by
  `AI_SQL_Agent/Chat_History.py`.
- `is_db_related` is modelled, but no loop calls it: the call in `Main.py` is commented
  out.
- `generate_final_response`'s `model` argument is always the default model at the call
  sites.
- `RootChat.RunAgent1`: the table list is modelled as a set. `list(set(...))` has no fixed
  order.
- `DatabaseAgent.TurnLog`: the chatbot logs the model's reply object. The model logs its
  text.
- `Plugins.GenerateSqlQueryShape`: `database.execute_query` is not defined in the
  repository. It is an environment function.
- Word characters for `\b` and `[A-Za-z0-9_]` are ASCII. Python's `\b` also counts
  non-ASCII letters and digits as word characters; those are not modelled.
- `lower()` is modelled on ASCII letters only.
