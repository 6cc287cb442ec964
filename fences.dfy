/** The three code-fence sanitisers that turn a model reply into the query text that is run:
    the anchored one of AI_SQL_Agent/Main.py, the global regular expression of Main.py and the
    two `str.replace` calls of Plugins.py. They differ, and each is modelled on its own. */
module SqlFences {
  import opened Strings

  const Fence := "```"

  predicate NoFence(s: string) {
    !Contains(s, Fence)
  }

  /** `sql` under `re.IGNORECASE`: each letter in either case, and, by Python's case-folding
      rule for `s`, also U+017F LATIN SMALL LETTER LONG S. */
  predicate IsSqlTagAnyCase(t: string) {
    && |t| == 3
    && (t[0] == 's' || t[0] == 'S' || t[0] == '\U{17F}')
    && (t[1] == 'q' || t[1] == 'Q')
    && (t[2] == 'l' || t[2] == 'L')
  }

  // ---------------------------------------------------------------------------------------
  // AI_SQL_Agent/Main.py: three anchored substitutions, each on freshly stripped text.

  /** `re.sub(r"^```sql\s*", "", s, flags=re.IGNORECASE)`. */
  function DropTaggedOpening(s: string): string {
    if StartsWith(s, Fence) && |s| >= 6 && IsSqlTagAnyCase(s[3..6]) then StripLeft(s[6..]) else s
  }

  /** `re.sub(r"^```\s*", "", s)`. */
  function DropOpening(s: string): string {
    if StartsWith(s, Fence) then StripLeft(s[3..]) else s
  }

  /** `re.sub(r"\s*```$", "", s)` on stripped text, which has no final newline for `$` to
      stand before: the last fence goes, with all the whitespace in front of it. */
  function DropClosing(s: string): string {
    if EndsWith(s, Fence) then StripRight(s[..|s| - 3]) else s
  }

  /** `clean_sql_query` of AI_SQL_Agent/Main.py. */
  function CleanAnchored(raw: string): string {
    Strip(DropClosing(Strip(DropOpening(Strip(DropTaggedOpening(Strip(raw)))))))
  }

  /** Every step keeps a contiguous slice of its input. */
  lemma DropsAreSlices(s: string)
    ensures Slice(DropTaggedOpening(s), s) && Slice(DropOpening(s), s) && Slice(DropClosing(s), s)
    ensures Slice(Strip(s), s)
  {
    TaggedSlice(s);
    OpeningSlice(s);
    ClosingSlice(s);
    var i := StripIsSlice(s);
  }

  lemma TaggedSlice(s: string)
    ensures Slice(DropTaggedOpening(s), s)
  {
    SliceSelf(s);
    if StartsWith(s, Fence) && |s| >= 6 && IsSqlTagAnyCase(s[3..6]) {
      StripLeftIsSuffix(s[6..]);
      assert s[6..][|s[6..]| - |StripLeft(s[6..])|..] == s[|s| - |StripLeft(s[6..])|..];
      SuffixSlice(StripLeft(s[6..]), s);
    }
  }

  lemma OpeningSlice(s: string)
    ensures Slice(DropOpening(s), s)
  {
    SliceSelf(s);
    if StartsWith(s, Fence) {
      StripLeftIsSuffix(s[3..]);
      assert s[3..][|s[3..]| - |StripLeft(s[3..])|..] == s[|s| - |StripLeft(s[3..])|..];
      SuffixSlice(StripLeft(s[3..]), s);
    }
  }

  lemma ClosingSlice(s: string)
    ensures Slice(DropClosing(s), s)
  {
    SliceSelf(s);
    if EndsWith(s, Fence) {
      StripRightIsPrefix(s[..|s| - 3]);
      assert s[..|s| - 3][..|StripRight(s[..|s| - 3])|] == s[..|StripRight(s[..|s| - 3])|];
      PrefixSlice(StripRight(s[..|s| - 3]), s);
    }
  }

  lemma SliceSelf(s: string)
    ensures Slice(s, s)
  {
    assert s == s[0..|s|];
  }

  lemma SuffixSlice(r: string, s: string)
    requires |r| <= |s| && r == s[|s| - |r|..]
    ensures Slice(r, s)
  {
    assert r == s[|s| - |r|..|s|];
  }

  lemma PrefixSlice(r: string, s: string)
    requires |r| <= |s| && r == s[..|r|]
    ensures Slice(r, s)
  {
    assert r == s[0..|r|];
  }

  /** `r` is a contiguous piece of `s`. */
  predicate Slice(r: string, s: string) {
    exists i, j :: 0 <= i <= j <= |s| && r == s[i..j]
  }

  lemma SliceTransitive(a: string, b: string, c: string)
    requires Slice(a, b) && Slice(b, c)
    ensures Slice(a, c)
  {
    var i, j :| 0 <= i <= j <= |b| && a == b[i..j];
    var k, l :| 0 <= k <= l <= |c| && b == c[k..l];
    assert k + j <= l;
    forall t | 0 <= t < j - i ensures a[t] == c[k + i + t] {
      assert a[t] == b[i + t];
    }
    assert a == c[k + i..k + j];
  }

  /** The cleaned query is the stripped reply with at most an opening and a closing fence cut
      off its ends: the text in between is never touched. */
  lemma CleanAnchoredKeepsInterior(raw: string)
    ensures Slice(CleanAnchored(raw), Strip(raw))
  {
    var t0 := Strip(raw);
    var t1 := DropTaggedOpening(t0);
    var t2 := Strip(t1);
    var t3 := DropOpening(t2);
    var t4 := Strip(t3);
    var t5 := DropClosing(t4);
    var t6 := Strip(t5);
    DropsAreSlices(t0); DropsAreSlices(t1); DropsAreSlices(t2);
    DropsAreSlices(t3); DropsAreSlices(t4); DropsAreSlices(t5);
    SliceTransitive(t2, t1, t0);
    SliceTransitive(t3, t2, t0);
    SliceTransitive(t4, t3, t0);
    SliceTransitive(t5, t4, t0);
    SliceTransitive(t6, t5, t0);
  }

  /** With no fence anywhere, cleaning only strips the surrounding whitespace. */
  lemma CleanAnchoredWithoutFences(raw: string)
    requires NoFence(raw)
    ensures CleanAnchored(raw) == Strip(raw)
  {
    var t := Strip(raw);
    StripKeepsNoFence(raw);
    StripIdempotent(raw);
    NoFenceFixed(t);
  }

  /** Stripping cannot create a fence. */
  lemma StripKeepsNoFence(s: string)
    requires NoFence(s)
    ensures NoFence(Strip(s))
  {
    var i := StripIsSlice(s);
    if Contains(Strip(s), Fence) {
      ContainsInSlice(s, i, i + |Strip(s)|, Fence);
    }
  }

  /** None of the three substitutions applies to fence-free text. */
  lemma NoFenceFixed(t: string)
    requires NoFence(t)
    ensures DropTaggedOpening(t) == t && DropOpening(t) == t && DropClosing(t) == t
  {
    NoFenceEnds(t);
  }

  /** Fence-free text neither starts nor ends with a fence. */
  lemma NoFenceEnds(t: string)
    requires NoFence(t)
    ensures !StartsWith(t, Fence) && !EndsWith(t, Fence)
  {
    if EndsWith(t, Fence) {
      ContainsAt(t, |t| - 3, Fence);
    }
  }

  /** The round trip the sanitiser exists for: a reply that wraps the query `body` in an opening
      fence (tagged `sql` in any case, or untagged and followed by whitespace such as a newline)
      and a closing fence, with any whitespace around, yields exactly `body`. */
  lemma CleanAnchoredUnwraps(lead: string, tag: string, w1: string, body: string, w2: string, trail: string)
    requires AllSpace(lead) && AllSpace(w1) && AllSpace(w2) && AllSpace(trail)
    requires IsSqlTagAnyCase(tag) || (tag == "" && w1 != "")
    requires body == [] || (body[0] != '`' && !IsSpace(body[0]) && !IsSpace(body[|body| - 1]))
    ensures CleanAnchored(lead + Fence + tag + w1 + body + w2 + Fence + trail) == body
  {
    var x := Fence + tag + w1 + body + w2 + Fence;
    assert lead + Fence + tag + w1 + body + w2 + Fence + trail == lead + x + trail;
    StripAround(lead, x, trail);
    var u := UnwrapOpening(tag, w1, body, w2);
    UnwrapClosing(body, w2, u);
  }

  /** The first two substitutions remove the opening fence, its tag and the whitespace after it.
      An empty body leaves the closing fence, or nothing when the tagged pattern already
      consumed it as the opening one. */
  lemma UnwrapOpening(tag: string, w1: string, body: string, w2: string) returns (u: string)
    requires AllSpace(w1) && AllSpace(w2)
    requires IsSqlTagAnyCase(tag) || (tag == "" && w1 != "")
    requires body == [] || (body[0] != '`' && !IsSpace(body[0]) && !IsSpace(body[|body| - 1]))
    ensures body != [] ==> u == body + w2 + Fence
    ensures body == [] ==> u == Fence || u == []
    ensures Strip(DropOpening(Strip(DropTaggedOpening(Fence + tag + w1 + body + w2 + Fence)))) == u
  {
    if IsSqlTagAnyCase(tag) {
      u := UnwrapTagged(tag, w1, body, w2);
    } else {
      var y := body + w2 + Fence;
      assert Fence + tag + w1 + body + w2 + Fence == Fence + (w1 + y);
      var v := BodyStart(body, w2);
      UnwrapUntagged(w1, y, v);
      u := v;
    }
  }

  lemma UnwrapTagged(tag: string, w1: string, body: string, w2: string) returns (u: string)
    requires AllSpace(w1) && AllSpace(w2) && IsSqlTagAnyCase(tag)
    requires body == [] || (body[0] != '`' && !IsSpace(body[0]))
    ensures u == if body == [] then [] else body + w2 + Fence
    ensures Strip(DropOpening(Strip(DropTaggedOpening(Fence + tag + w1 + body + w2 + Fence)))) == u
  {
    var y := body + w2 + Fence;
    var v := BodyStart(body, w2);
    assert Fence + tag + w1 + body + w2 + Fence == Fence + tag + w1 + y;
    OpeningTagged(tag, w1, y);
    if body == [] {
      TaggedEmpty();
      u := [];
    } else {
      assert v[0] == body[0];
      TaggedBody(v);
      u := v;
    }
  }

  lemma UnwrapUntagged(w1: string, y: string, v: string)
    requires AllSpace(w1) && w1 != [] && y != [] && y[|y| - 1] == '`'
    requires StripLeft(y) == v && v != [] && !IsSpace(v[0]) && v[|v| - 1] == '`'
    ensures Strip(DropOpening(Strip(DropTaggedOpening(Fence + (w1 + y))))) == v
  {
    var z := w1 + y;
    UntaggedOpening(w1, y, z);
    StripTrimmed(v);
  }

  lemma UntaggedOpening(w1: string, y: string, z: string)
    requires AllSpace(w1) && w1 != [] && y != [] && y[|y| - 1] == '`' && z == w1 + y
    ensures Strip(DropTaggedOpening(Fence + z)) == Fence + z
    ensures DropOpening(Fence + z) == StripLeft(y)
  {
    assert z[0] == w1[0] && z[|z| - 1] == '`';
    UntaggedKept(z);
    FencedTrimmed(z);
    DropOpeningFenced(z);
    StripLeftSpaces(w1, y);
  }

  /** A tagged opening directly followed by the closing fence: both go. */
  lemma TaggedEmpty()
    ensures Strip(DropOpening(Strip(Fence))) == []
  {
    StripTrimmed(Fence);
    assert DropOpening(Fence) == [];
    StripTrimmed([]);
  }

  lemma TaggedBody(v: string)
    requires v != [] && v[0] != '`' && !IsSpace(v[0]) && v[|v| - 1] == '`'
    ensures Strip(DropOpening(Strip(v))) == v
  {
    StripTrimmed(v);
    assert !StartsWith(v, Fence) by { assert v[0] != Fence[0]; }
  }

  /** Text that starts with a fence and ends with a backtick has nothing to strip. */
  lemma FencedTrimmed(z: string)
    requires z != [] && z[|z| - 1] == '`'
    ensures Strip(Fence + z) == Fence + z
  {
    var x := Fence + z;
    assert x[0] == '`' && x[|x| - 1] == '`';
    StripTrimmed(x);
  }

  /** What is left once the whitespace in front of the body is gone. */
  lemma BodyStart(body: string, w2: string) returns (v: string)
    requires AllSpace(w2)
    requires body == [] || !IsSpace(body[0])
    ensures v == if body == [] then Fence else body + w2 + Fence
    ensures StripLeft(body + w2 + Fence) == v
    ensures v != [] && !IsSpace(v[0]) && v[|v| - 1] == '`'
  {
    if body == [] {
      assert body + w2 + Fence == w2 + Fence;
      StripLeftSpaces(w2, Fence);
      assert StripLeft(Fence) == Fence;
      v := Fence;
    } else {
      v := body + w2 + Fence;
      assert v[0] == body[0];
    }
  }

  /** The third substitution removes the closing fence and the whitespace before it. */
  lemma UnwrapClosing(body: string, w2: string, u: string)
    requires AllSpace(w2)
    requires body == [] || (!IsSpace(body[0]) && !IsSpace(body[|body| - 1]))
    requires body != [] ==> u == body + w2 + Fence
    requires body == [] ==> u == Fence || u == []
    ensures Strip(DropClosing(u)) == body
  {
    if body == [] {
      assert DropClosing(Fence) == [];
      assert DropClosing([]) == [];
      StripTrimmed([]);
    } else {
      assert u[..|u| - 3] == body + w2;
      StripRightSpaces(body, w2);
      assert StripRight(body) == body;
      StripTrimmed(body);
    }
  }

  lemma OpeningTagged(tag: string, w1: string, y: string)
    requires IsSqlTagAnyCase(tag) && AllSpace(w1)
    ensures DropTaggedOpening(Fence + tag + w1 + y) == StripLeft(y)
  {
    var x := Fence + tag + w1 + y;
    assert x[..3] == Fence;
    assert x[3..6] == tag;
    assert x[6..] == w1 + y;
    StripLeftSpaces(w1, y);
  }

  lemma UntaggedKept(z: string)
    requires z != [] && IsSpace(z[0])
    ensures DropTaggedOpening(Fence + z) == Fence + z
  {
    var x := Fence + z;
    if |x| >= 6 {
      assert x[3..6][0] == z[0];
    }
  }

  lemma DropOpeningFenced(z: string)
    ensures DropOpening(Fence + z) == StripLeft(z)
  {
    assert (Fence + z)[..3] == Fence;
    assert (Fence + z)[3..] == z;
  }

  // ---------------------------------------------------------------------------------------
  // Main.py: one global, case-sensitive substitution.

  /** `re.sub(r"```(?:sql)?|```", "", s)`: scanning left to right, a fence is removed together
      with a directly following lower-case `sql`; everything else is kept. */
  function RemoveFenceTokens(s: string): string {
    if s == [] then []
    else if StartsWith(s, Fence + "sql") then RemoveFenceTokens(s[6..])
    else if StartsWith(s, Fence) then RemoveFenceTokens(s[3..])
    else [s[0]] + RemoveFenceTokens(s[1..])
  }

  /** `clean_sql_query` of Main.py. */
  function CleanGlobal(raw: string): string {
    Strip(RemoveFenceTokens(raw))
  }

  /** Putting one character in front of fence-free text creates a fence only when that character
      is a backtick and the text starts with two of them. */
  lemma ConsNoFence(c: char, r: string)
    requires NoFence(r)
    requires !(c == '`' && |r| >= 2 && r[0] == '`' && r[1] == '`')
    ensures NoFence([c] + r)
  {
    var w := [c] + r;
    assert w[1..] == r;
    if |w| >= 3 {
      assert w[..3][0] == c && w[..3][1] == r[0] && w[..3][2] == r[1];
    }
  }

  /** A tagged fence starts with a fence. */
  lemma TaggedFenceIsFence(s: string)
    ensures StartsWith(s, Fence + "sql") ==> StartsWith(s, Fence)
  {
    if |s| >= 6 {
      assert s[..3] == s[..6][..3];
      assert (Fence + "sql")[..3] == Fence;
    }
  }

  /** Whatever the scan keeps holds no fence, and it can start with backticks only where the
      input does. */
  lemma {:induction false} RemoveFenceTokensShape(s: string)
    ensures NoFence(RemoveFenceTokens(s))
    ensures var r := RemoveFenceTokens(s);
      && (r != [] && r[0] == '`' ==> s != [] && s[0] == '`')
      && (|r| >= 2 && r[0] == '`' && r[1] == '`' ==> |s| >= 2 && s[0] == '`' && s[1] == '`')
  {
    if s == [] {
      assert !StartsWith([], Fence);
    } else if StartsWith(s, Fence + "sql") {
      RemoveFenceTokensShape(s[6..]);
      assert s[..3] == Fence;
    } else if StartsWith(s, Fence) {
      RemoveFenceTokensShape(s[3..]);
    } else {
      var rest := RemoveFenceTokens(s[1..]);
      RemoveFenceTokensShape(s[1..]);
      ConsNoFence(s[0], rest);
    }
  }

  /** After Main.py's cleaning no fence is left anywhere in the query. */
  lemma CleanGlobalNoFence(raw: string)
    ensures NoFence(CleanGlobal(raw))
  {
    RemoveFenceTokensShape(raw);
    StripKeepsNoFence(RemoveFenceTokens(raw));
  }

  /** With no fence anywhere, Main.py's cleaning only strips the surrounding whitespace. */
  lemma {:induction false} RemoveFenceTokensAbsent(s: string)
    requires NoFence(s)
    ensures RemoveFenceTokens(s) == s
  {
    if s != [] {
      TaggedFenceIsFence(s);
      RemoveFenceTokensAbsent(s[1..]);
    }
  }

  lemma CleanGlobalWithoutFences(raw: string)
    requires NoFence(raw)
    ensures CleanGlobal(raw) == Strip(raw)
  {
    RemoveFenceTokensAbsent(raw);
  }

  // ---------------------------------------------------------------------------------------
  // Plugins.py: `response.replace("```sql", "").replace("```", "").strip()`.

  function CleanReplace(response: string): string {
    Strip(RemoveAll(RemoveAll(response, Fence + "sql"), Fence))
  }

  lemma {:induction false} RemoveAllFenceShape(s: string)
    ensures NoFence(RemoveAll(s, Fence))
    ensures var r := RemoveAll(s, Fence);
      && (r != [] && r[0] == '`' ==> s != [] && s[0] == '`')
      && (|r| >= 2 && r[0] == '`' && r[1] == '`' ==> |s| >= 2 && s[0] == '`' && s[1] == '`')
  {
    if s == [] {
      assert !StartsWith([], Fence);
    } else if StartsWith(s, Fence) {
      RemoveAllFenceShape(s[3..]);
    } else {
      var rest := RemoveAll(s[1..], Fence);
      RemoveAllFenceShape(s[1..]);
      ConsNoFence(s[0], rest);
    }
  }

  /** After Plugins.py's cleaning no fence is left anywhere in the query. */
  lemma CleanReplaceNoFence(response: string)
    ensures NoFence(CleanReplace(response))
  {
    RemoveAllFenceShape(RemoveAll(response, Fence + "sql"));
    StripKeepsNoFence(RemoveAll(RemoveAll(response, Fence + "sql"), Fence));
  }

  /** Text with no backtick passes the global scan unchanged and does not disturb what
      follows it. */
  lemma {:induction false} NoTickPrefix(x: string, z: string)
    requires '`' !in x
    ensures RemoveFenceTokens(x + z) == x + RemoveFenceTokens(z)
  {
    if x == [] {
      assert x + z == z;
    } else {
      var w := x + z;
      assert w[0] == x[0] && w[1..] == x[1..] + z;
      KeepStep(w);
      NoTickPrefix(x[1..], z);
      assert [x[0]] + (x[1..] + RemoveFenceTokens(z)) == x + RemoveFenceTokens(z);
    }
  }

  /** A character other than a backtick is kept by the scan. */
  lemma KeepStep(w: string)
    requires w != [] && w[0] != '`'
    ensures RemoveFenceTokens(w) == [w[0]] + RemoveFenceTokens(w[1..])
  {
    assert !StartsWith(w, Fence) && !StartsWith(w, Fence + "sql");
  }

  /** The same for a replacement of a pattern that starts with a backtick. */
  lemma {:induction false} NoTickPrefixReplace(x: string, z: string, p: string)
    requires '`' !in x && p != [] && p[0] == '`'
    ensures RemoveAll(x + z, p) == x + RemoveAll(z, p)
  {
    if x == [] {
      assert x + z == z;
    } else {
      var w := x + z;
      assert w[0] == x[0] && w[1..] == x[1..] + z;
      NoTickPrefixReplace(x[1..], z, p);
      assert [x[0]] + (x[1..] + RemoveAll(z, p)) == x + RemoveAll(z, p);
    }
  }

  lemma NoTickKept(x: string)
    requires '`' !in x
    ensures RemoveFenceTokens(x) == x
    ensures RemoveAll(x, Fence) == x && RemoveAll(x, Fence + "sql") == x
  {
    assert x + [] == x;
    NoTickPrefix(x, []);
    NoTickPrefixReplace(x, [], Fence);
    NoTickPrefixReplace(x, [], Fence + "sql");
  }

  /** The sanitisers are different functions. A fence inside the query, between text that is
      neither whitespace nor a backtick at the ends, survives the anchored cleaning of
      AI_SQL_Agent/Main.py ... */
  lemma AnchoredKeepsInnerFence(x: string, y: string)
    requires x != [] && x[0] != '`' && !IsSpace(x[0])
    requires y != [] && y[|y| - 1] != '`' && !IsSpace(y[|y| - 1])
    ensures CleanAnchored(x + Fence + y) == x + Fence + y
  {
    var t := x + Fence + y;
    assert t[0] == x[0] && t[|t| - 1] == y[|y| - 1];
    StripTrimmed(t);
    assert !StartsWith(t, Fence) by { assert t[0] != Fence[0]; }
    assert !EndsWith(t, Fence) by { assert t[|t| - 1] != Fence[2]; }
  }

  /** ... while the global expression of Main.py removes it (here with backtick-free text
      around it that does not start with `sql`) ... */
  lemma GlobalDropsInnerFence(x: string, y: string)
    requires '`' !in x && '`' !in y && !StartsWith(y, "sql")
    ensures CleanGlobal(x + Fence + y) == Strip(x + y)
  {
    assert x + Fence + y == x + (Fence + y);
    NoTickPrefix(x, Fence + y);
    NoTickKept(y);
    BareFenceDropped(y);
  }

  lemma BareFenceDropped(y: string)
    requires !StartsWith(y, "sql")
    ensures RemoveFenceTokens(Fence + y) == RemoveFenceTokens(y)
  {
    var f := Fence + y;
    assert f[..3] == Fence && f[3..] == y;
    if |f| >= 6 {
      assert f[..6][3..] == y[..3];
    }
  }

  /** ... and so do the replacements of Plugins.py. */
  lemma ReplaceDropsInnerFence(x: string, y: string)
    requires '`' !in x && '`' !in y && !StartsWith(y, "sql")
    ensures CleanReplace(x + Fence + y) == Strip(x + y)
  {
    assert x + Fence + y == x + (Fence + y);
    NoTickPrefixReplace(x, Fence + y, Fence + "sql");
    NoTickPrefixReplace(x, Fence + y, Fence);
    NoTickKept(y);
    ShortTicksKept(y);
    var f := Fence + y;
    assert f[..3] == Fence && f[3..] == y;
  }

  /** Replacing the tagged fence leaves a bare fence followed by backtick-free text alone. */
  lemma ShortTicksKept(y: string)
    requires '`' !in y && !StartsWith(y, "sql")
    ensures RemoveAll(Fence + y, Fence + "sql") == Fence + y
  {
    var f := Fence + y;
    var p := Fence + "sql";
    assert f[1..] == "``" + y && f[2..] == "`" + y && f[3..] == y;
    if |f| >= 6 {
      assert f[..6][3..] == y[..3];
      assert p[3..] == "sql";
    }
    if |f| >= 4 {
      assert f[1..][2] == y[0] && f[2..][1] == y[0];
    }
    NoTickKept(y);
    assert RemoveAll(f[2..], p) == "`" + y;
    assert RemoveAll(f[1..], p) == "``" + y;
  }

  /** ... and a fence written with four backticks before `sql` leaves `` `sql `` after the
      global expression but only `` ` `` after the two replacements. */
  lemma FourBackticksGlobal(y: string)
    requires '`' !in y
    ensures RemoveFenceTokens("````sql" + y) == "`sql" + y
  {
    var s := "````sql" + y;
    assert s[..3] == Fence;
    assert s[3] == '`' && s[4] == 's';
    assert s[3..] == "`" + ("sql" + y);
    assert !StartsWith(s, Fence + "sql");
    NoTickPrefix("sql", y);
    NoTickKept(y);
    OneTick("sql" + y);
  }

  lemma OneTick(r: string)
    requires r != [] && r[0] != '`'
    ensures RemoveFenceTokens("`" + r) == "`" + RemoveFenceTokens(r)
  {
    var w := "`" + r;
    assert w[1..] == r;
    assert !StartsWith(w, Fence) by { assert w[1] != Fence[1]; }
    assert !StartsWith(w, Fence + "sql") by { assert w[1] != (Fence + "sql")[1]; }
  }

  lemma FourBackticksReplace(y: string)
    requires '`' !in y
    ensures RemoveAll(RemoveAll("````sql" + y, Fence + "sql"), Fence) == "`" + y
  {
    var s := "````sql" + y;
    assert s[3] == '`';
    assert s[1..] == Fence + "sql" + y;
    assert s[1..][6..] == y;
    NoTickKept(y);
    assert RemoveAll(s, Fence + "sql") == "`" + y;
    var r := "`" + y;
    assert |r| < 3 || r[1] != '`';
    assert r[1..] == y;
  }
}
