/** `generate_sql_query` of Plugins.py: the comma-separated table list becomes the schema
    text, one table per line; the model gets it in the system prompt with the user's request,
    and its reply, with the Markdown fences removed, is run on the database. The model and the
    database are the environment. */
module Plugins {
  import opened Wrappers
  import opened Strings
  import opened ChatLog
  import opened SqlFences
  import ChatAgent

  /** `"\n".join(list_of_tables.split(","))`. */
  function SchemaDescription(listOfTables: string): string {
    Join("\n", Split(listOfTables, ','))
  }

  /** The same text, character by character: every comma turned into a line break. */
  function CommasToLines(s: string): (r: string)
    ensures |r| == |s|
  {
    if s == [] then [] else [if s[0] == ',' then '\n' else s[0]] + CommasToLines(s[1..])
  }

  /** Putting a character in front of the first piece puts it in front of the join. */
  lemma JoinFirstCons(sep: string, c: char, x: string, ys: seq<string>)
    ensures Join(sep, [[c] + x] + ys) == [c] + Join(sep, [x] + ys)
  {
    if ys != [] {
      assert ([[c] + x] + ys)[1..] == ys && ([x] + ys)[1..] == ys;
    }
  }

  /** Splitting on commas and joining with line breaks replaces each comma in place and
      leaves every other character where it was. */
  lemma {:induction false} SchemaDescriptionReplacesCommas(s: string)
    ensures SchemaDescription(s) == CommasToLines(s)
  {
    if s != [] {
      var rest := Split(s[1..], ',');
      SchemaDescriptionReplacesCommas(s[1..]);
      if s[0] == ',' {
        assert Split(s, ',') == [""] + rest;
        assert ([""] + rest)[1..] == rest;
        assert Join("\n", [""] + rest) == "" + "\n" + Join("\n", rest);
      } else {
        assert Split(s, ',') == [[s[0]] + rest[0]] + rest[1..];
        JoinFirstCons("\n", s[0], rest[0], rest[1..]);
        assert [rest[0]] + rest[1..] == rest;
      }
    }
  }

  /** Read back line by line, the schema text is the comma-separated pieces of the list, in
      order and untrimmed, whenever the list itself holds no line break; joining them with
      commas gives the list back. */
  lemma SchemaLinesRoundTrip(listOfTables: string)
    requires '\n' !in listOfTables
    ensures Split(SchemaDescription(listOfTables), '\n') == Split(listOfTables, ',')
    ensures Join(",", Split(SchemaDescription(listOfTables), '\n')) == listOfTables
  {
    var pieces := Split(listOfTables, ',');
    forall k | 0 <= k < |pieces| ensures '\n' !in pieces[k] {
      JoinSplit(listOfTables, ',');
      PieceInJoin(pieces, k, ",");
      if '\n' in pieces[k] {
        var j :| 0 <= j < |pieces[k]| && pieces[k][j] == '\n';
        ContainsChar(Join(",", pieces), pieces[k], j);
      }
    }
    SplitJoin(pieces, '\n');
    JoinSplit(listOfTables, ',');
  }

  /** A character of a text contained in another is a character of that other one. */
  lemma ContainsChar(s: string, p: string, j: nat)
    requires Contains(s, p) && j < |p|
    ensures p[j] in s
  {
    var k := ContainsWitness(s, p);
    assert s[k + j] == p[j];
  }

  const PromptIntro := "You create T-SQL queries based on the given schema and user request.\nThe schema is:\n"
  const PromptTail := "\n"

  function PromptParts(schemaDescription: string): seq<string> {
    [PromptIntro, schemaDescription, PromptTail]
  }

  /** The system prompt, built on the schema text. */
  function SystemPrompt(schemaDescription: string): string {
    Concat(PromptParts(schemaDescription))
  }

  /** The two messages the chain sends: the system prompt, then the request as it is. */
  function GenerateRequest(listOfTables: string, userRequest: string): seq<Message> {
    [Message("system", SystemPrompt(SchemaDescription(listOfTables))), Message("human", userRequest)]
  }

  /** The environment: the model and `database.execute_query`; each answers or raises. */
  datatype Env = Env(llm: seq<Message> -> Result<string, string>, execute: string -> Result<ChatAgent.ResultSet, string>)

  /** A call into the environment, in the order made. */
  datatype Call = Model(request: seq<Message>) | Execute(sql: string)

  /** What `generate_sql_query` returns, or the exception it lets through, and the calls it
      made on the way. */
  datatype Run = Run(result: Result<ChatAgent.ResultSet, string>, calls: seq<Call>)

  /** `generate_sql_query(llm, kernel, list_of_tables, user_request, database)`; `kernel` is
      not used. */
  function GenerateSqlQuery(listOfTables: string, userRequest: string, env: Env): Run {
    var request := GenerateRequest(listOfTables, userRequest);
    match env.llm(request)
    case Err(e) => Run(Err(e), [Model(request)])
    case Ok(response) =>
      var sql := CleanReplace(response);
      Run(env.execute(sql), [Model(request), Execute(sql)])
  }

  /** The request carries the schema text and the user's words; the query is run only when
      the model answered, it is that answer with every fence removed and then stripped, and
      the results are returned as the database gave them, failure included. */
  lemma GenerateSqlQueryShape(listOfTables: string, userRequest: string, env: Env)
    ensures var r := GenerateSqlQuery(listOfTables, userRequest, env);
      && 1 <= |r.calls| <= 2
      && r.calls[0].Model?
      && |r.calls[0].request| == 2
      && r.calls[0].request[0].role == "system"
      && Contains(r.calls[0].request[0].content, SchemaDescription(listOfTables))
      && r.calls[0].request[1] == Message("human", userRequest)
    ensures var r := GenerateSqlQuery(listOfTables, userRequest, env);
      |r.calls| == 2 <==> env.llm(r.calls[0].request).Ok?
    ensures var r := GenerateSqlQuery(listOfTables, userRequest, env);
      |r.calls| == 1 ==> r.result == Err(env.llm(r.calls[0].request).error)
    ensures var r := GenerateSqlQuery(listOfTables, userRequest, env);
      |r.calls| == 2 ==>
        && r.calls[1] == Execute(CleanReplace(env.llm(r.calls[0].request).value))
        && NoFence(r.calls[1].sql)
        && r.result == env.execute(r.calls[1].sql)
  {
    ContainsPart(PromptParts(SchemaDescription(listOfTables)), 1);
    var request := GenerateRequest(listOfTables, userRequest);
    if env.llm(request).Ok? {
      CleanReplaceNoFence(env.llm(request).value);
    }
  }
}
