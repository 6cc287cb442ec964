/** What the three console loops (AI_SQL_Agent/Main.py, Main.py, AI_SQL_Agent/Database_Agent.py)
    make of one input line, and how the two multi-agent loops turn the classifier's reply into
    a search route. */
module Console {
  import opened Strings

  /** The reading of one input line. */
  datatype Command = Skip | Exit | ClearScreen | ClearHistory | ShowHistory | Query(text: string)

  /** The line after `.strip()`: blank is skipped; `/exit`, `exit` and `quit` in any letter case
      end the loop; `/c`, `/ch` and `/h` are matched exactly; anything else is a question. */
  function ParseCommand(line: string): (c: Command)
    ensures c == Skip <==> Strip(line) == ""
    ensures c == Exit <==> Strip(line) != "" && Lower(Strip(line)) in ["/exit", "exit", "quit"]
    ensures c.Query? ==> c.text == Strip(line) && c.text != ""
    ensures c.Query? <==> Strip(line) != "" && Lower(Strip(line)) !in ["/exit", "exit", "quit"]
                          && Strip(line) !in ["/c", "/ch", "/h"]
  {
    var s := Strip(line);
    if s == "" then Skip
    else if Lower(s) in ["/exit", "exit", "quit"] then Exit
    else if s == "/c" then ClearScreen
    else if s == "/ch" then ClearHistory
    else if s == "/h" then ShowHistory
    else Query(s)
  }

  /** Surrounding whitespace never changes the reading of a line. */
  lemma ParseIgnoresSurroundingSpace(lead: string, line: string, trail: string)
    requires AllSpace(lead) && AllSpace(trail)
    ensures ParseCommand(lead + line + trail) == ParseCommand(line)
  {
    if Strip(line) != [] {
      StripPadded(lead, line, trail);
    } else {
      StripPaddedBlank(lead, line, trail);
    }
  }

  lemma StripPadded(lead: string, line: string, trail: string)
    requires AllSpace(lead) && AllSpace(trail) && Strip(line) != []
    ensures Strip(lead + line + trail) == Strip(line)
  {
    var s := Strip(line);
    var i := StripIsSlice(line);
    var pre := line[..i];
    var post := line[i + |s|..];
    assert line == pre + s + post;
    assert AllSpace(pre) && AllSpace(post);
    assert s != [] && !IsSpace(s[0]) && !IsSpace(s[|s| - 1]);
    PaddedCore(lead, pre, s, post, trail);
    assert lead + (pre + s + post) + trail == lead + line + trail;
  }

  lemma PaddedCore(lead: string, pre: string, s: string, post: string, trail: string)
    requires AllSpace(lead) && AllSpace(pre) && AllSpace(post) && AllSpace(trail)
    requires s != [] && !IsSpace(s[0]) && !IsSpace(s[|s| - 1])
    ensures Strip(lead + (pre + s + post) + trail) == s
  {
    AllSpaceConcat(lead, pre);
    AllSpaceConcat(post, trail);
    assert lead + (pre + s + post) + trail == (lead + pre) + s + (post + trail);
    StripAround(lead + pre, s, post + trail);
  }

  lemma StripPaddedBlank(lead: string, line: string, trail: string)
    requires AllSpace(lead) && AllSpace(trail) && Strip(line) == []
    ensures Strip(lead + line + trail) == []
  {
    BlankIffAllSpace(line);
    AllSpaceConcat(lead, line);
    AllSpaceConcat(lead + line, trail);
    BlankIffAllSpace(lead + line + trail);
  }

  lemma AllSpaceConcat(a: string, b: string)
    requires AllSpace(a) && AllSpace(b)
    ensures AllSpace(a + b)
  {
    forall i | 0 <= i < |a + b| ensures IsSpace((a + b)[i]) {
      if i >= |a| {
        assert (a + b)[i] == b[i - |a|];
      }
    }
  }

  /** The search route. */
  datatype Route = Vector | Sql | Hybrid

  /** The route for the classifier's (stripped) reply: an exact, case-sensitive match of
      `vector` or `hybrid` picks that route; every other reply, `sql` included, falls back to
      SQL. */
  function NormalizeRoute(reply: string): (r: Route)
    ensures r == Vector <==> reply == "vector"
    ensures r == Hybrid <==> reply == "hybrid"
    ensures r == Sql <==> reply != "vector" && reply != "hybrid"
  {
    if reply == "vector" then Vector
    else if reply == "hybrid" then Hybrid
    else Sql
  }

  /** The name of a route, as passed on to the planner prompt. */
  function RouteName(r: Route): (name: string)
    ensures NormalizeRoute(name) == r
  {
    match r
    case Vector => "vector"
    case Sql => "sql"
    case Hybrid => "hybrid"
  }
}
