/** The Python string primitives the agent relies on: `str.isspace`, `strip`, `lower`,
    `sep.join`, `split` on one separator character, `in` on strings and `replace(p, "")`.
    Characters are Unicode scalar values, as Python's `str` elements are. */
module Strings {

  /** Python's `str.isspace()` on one character. CPython's `re` uses the same test for `\s`
      in a `str` pattern, and `strip()` without arguments removes exactly these characters. */
  predicate IsSpace(c: char) {
    || c == ' '
    || ('\t' <= c <= '\r')
    || ('\U{1C}' <= c <= '\U{1F}')
    || c == '\U{85}' || c == '\U{A0}' || c == '\U{1680}'
    || ('\U{2000}' <= c <= '\U{200A}')
    || c == '\U{2028}' || c == '\U{2029}' || c == '\U{202F}' || c == '\U{205F}' || c == '\U{3000}'
  }

  predicate AllSpace(s: string) {
    forall i :: 0 <= i < |s| ==> IsSpace(s[i])
  }

  /** Python's `s.lstrip()`: a suffix of `s` that does not start with whitespace. */
  function StripLeft(s: string): (r: string)
    ensures |r| <= |s|
    ensures r != [] ==> !IsSpace(r[0])
  {
    if s != [] && IsSpace(s[0]) then StripLeft(s[1..]) else s
  }

  /** What `lstrip()` keeps is the end of `s`. */
  lemma {:induction false} StripLeftIsSuffix(s: string)
    ensures StripLeft(s) == s[|s| - |StripLeft(s)|..]
  {
    if s != [] && IsSpace(s[0]) {
      StripLeftIsSuffix(s[1..]);
      assert s[1..][|s[1..]| - |StripLeft(s[1..])|..] == s[|s| - |StripLeft(s)|..];
    }
  }

  /** What `lstrip()` removes is whitespace only. */
  lemma {:induction false} StripLeftRemovesSpace(s: string)
    ensures AllSpace(s[..|s| - |StripLeft(s)|])
  {
    if s != [] && IsSpace(s[0]) {
      StripLeftRemovesSpace(s[1..]);
      var k := |s| - |StripLeft(s)|;
      assert s[..k] == [s[0]] + s[1..][..k - 1];
    }
  }

  /** Python's `s.rstrip()`: a prefix of `s` that does not end with whitespace. */
  function StripRight(s: string): (r: string)
    ensures |r| <= |s|
    ensures r != [] ==> !IsSpace(r[|r| - 1])
  {
    if s != [] && IsSpace(s[|s| - 1]) then StripRight(s[..|s| - 1]) else s
  }

  /** What `rstrip()` keeps is the start of `s`. */
  lemma {:induction false} StripRightIsPrefix(s: string)
    ensures StripRight(s) == s[..|StripRight(s)|]
  {
    if s != [] && IsSpace(s[|s| - 1]) {
      StripRightIsPrefix(s[..|s| - 1]);
      assert s[..|s| - 1][..|StripRight(s)|] == s[..|StripRight(s)|];
    }
  }

  /** What `rstrip()` removes is whitespace only. */
  lemma {:induction false} StripRightRemovesSpace(s: string)
    ensures AllSpace(s[|StripRight(s)|..])
  {
    if s != [] && IsSpace(s[|s| - 1]) {
      StripRightRemovesSpace(s[..|s| - 1]);
      var k := |StripRight(s)|;
      assert s[k..] == s[..|s| - 1][k..] + [s[|s| - 1]];
    }
  }

  /** Python's `s.strip()`: no whitespace at either end. */
  function Strip(s: string): (r: string)
    ensures |r| <= |s|
    ensures r != [] ==> !IsSpace(r[0]) && !IsSpace(r[|r| - 1])
  {
    StripRightIsPrefix(StripLeft(s));
    StripRight(StripLeft(s))
  }

  /** `strip()` keeps the slice of `s` between its leading and its trailing whitespace. */
  lemma StripIsSlice(s: string) returns (i: nat)
    ensures i + |Strip(s)| <= |s| && Strip(s) == s[i..i + |Strip(s)|]
    ensures AllSpace(s[..i]) && AllSpace(s[i + |Strip(s)|..])
  {
    var l := StripLeft(s);
    StripLeftIsSuffix(s);
    StripRightIsPrefix(l);
    StripLeftRemovesSpace(s);
    StripRightRemovesSpace(l);
    i := |s| - |l|;
    StripSlices(s, l, StripRight(l));
  }

  lemma StripSlices(s: string, l: string, r: string)
    requires |l| <= |s| && l == s[|s| - |l|..]
    requires |r| <= |l| && r == l[..|r|] && AllSpace(l[|r|..])
    ensures var i := |s| - |l|; i + |r| <= |s| && r == s[i..i + |r|] && AllSpace(s[i + |r|..])
  {
    var i := |s| - |l|;
    assert s[i + |r|..] == l[|r|..];
  }

  /** `not s.strip()`: the text is empty or whitespace only. */
  predicate IsBlank(s: string) {
    Strip(s) == []
  }

  lemma BlankIffAllSpace(s: string)
    ensures IsBlank(s) <==> AllSpace(s)
  {
    var i := StripIsSlice(s);
    if IsBlank(s) {
      assert s == s[..i] + s[i..];
    } else {
      assert s[i] == Strip(s)[0];
    }
  }

  /** Text that already has no surrounding whitespace is left alone by `strip()`. */
  lemma StripTrimmed(s: string)
    requires s == [] || (!IsSpace(s[0]) && !IsSpace(s[|s| - 1]))
    ensures Strip(s) == s
  {
    if s != [] {
      assert StripLeft(s) == s;
      assert StripRight(s) == s;
    }
  }

  lemma StripIdempotent(s: string)
    ensures Strip(Strip(s)) == Strip(s)
  {
    StripTrimmed(Strip(s));
  }

  /** `lstrip()` stops at the first non-space character, so a tail starting with one survives. */
  lemma {:induction false} StripLeftKeepsTail(w: string, t: string)
    requires t != [] && !IsSpace(t[0])
    ensures EndsWith(StripLeft(w + t), t)
  {
    if w == [] {
      assert w + t == t;
    } else if IsSpace(w[0]) {
      assert (w + t)[1..] == w[1..] + t;
      StripLeftKeepsTail(w[1..], t);
    } else {
      assert (w + t)[|w + t| - |t|..] == t;
    }
  }

  /** Leading whitespace in front of `y` makes no difference to `lstrip()`. */
  lemma {:induction false} StripLeftSpaces(w: string, y: string)
    requires AllSpace(w)
    ensures StripLeft(w + y) == StripLeft(y)
  {
    if w != [] {
      assert (w + y)[1..] == w[1..] + y;
      StripLeftSpaces(w[1..], y);
    } else {
      assert w + y == y;
    }
  }

  /** Trailing whitespace after `y` makes no difference to `rstrip()`. */
  lemma {:induction false} StripRightSpaces(y: string, w: string)
    requires AllSpace(w)
    ensures StripRight(y + w) == StripRight(y)
  {
    if w != [] {
      assert (y + w)[..|y + w| - 1] == y + w[..|w| - 1];
      StripRightSpaces(y, w[..|w| - 1]);
    } else {
      assert y + w == y;
    }
  }

  /** Whitespace around a trimmed text is exactly what `strip()` removes. */
  lemma StripAround(lead: string, x: string, trail: string)
    requires AllSpace(lead) && AllSpace(trail)
    requires x != [] && !IsSpace(x[0]) && !IsSpace(x[|x| - 1])
    ensures Strip(lead + x + trail) == x
  {
    StripLeftSpaces(lead, x + trail);
    assert lead + x + trail == lead + (x + trail);
    assert StripLeft(x + trail) == x + trail;
    StripRightSpaces(x, trail);
    assert StripRight(x) == x;
  }

  /** An occurrence at a known position is an occurrence. */
  lemma {:induction false} ContainsAt(s: string, k: nat, p: string)
    requires k <= |s| && StartsWith(s[k..], p)
    ensures Contains(s, p)
  {
    if k == 0 {
      assert s[0..] == s;
    } else {
      assert s[1..][k - 1..] == s[k..];
      ContainsAt(s[1..], k - 1, p);
    }
  }

  /** Every occurrence is at some position. */
  lemma {:induction false} ContainsWitness(s: string, p: string) returns (k: nat)
    requires Contains(s, p)
    ensures k <= |s| && StartsWith(s[k..], p)
  {
    if StartsWith(s, p) {
      assert s[0..] == s;
      k := 0;
    } else {
      var k' := ContainsWitness(s[1..], p);
      assert s[1..][k'..] == s[k' + 1..];
      k := k' + 1;
    }
  }

  /** A substring of a slice is a substring of the whole. */
  lemma ContainsInSlice(s: string, i: nat, j: nat, p: string)
    requires i <= j <= |s| && Contains(s[i..j], p)
    ensures Contains(s, p)
  {
    var k := ContainsWitness(s[i..j], p);
    assert s[i + k..][..|p|] == s[i..j][k..][..|p|];
    ContainsAt(s, i + k, p);
  }

  /** Text placed between two others occurs in the result. */
  lemma ContainsMiddle(a: string, p: string, b: string)
    ensures Contains(a + p + b, p)
  {
    assert (a + p + b)[|a|..] == p + b;
    assert (p + b)[..|p|] == p;
    ContainsAt(a + p + b, |a|, p);
  }

  /** An occurrence inside an occurrence is an occurrence. */
  lemma ContainsTransitive(s: string, m: string, p: string)
    requires Contains(s, m) && Contains(m, p)
    ensures Contains(s, p)
  {
    var k1 := ContainsWitness(s, m);
    var k2 := ContainsWitness(m, p);
    assert s[k1..][..|m|] == m;
    assert s[k1 + k2..][..|p|] == m[k2..][..|p|];
    ContainsAt(s, k1 + k2, p);
  }

  /** Each piece occurs in the join. */
  lemma {:induction false} PieceInJoin(xs: seq<string>, k: nat, sep: string)
    requires k < |xs|
    ensures Contains(Join(sep, xs), xs[k])
    decreases k
  {
    if |xs| == 1 {
      ContainsMiddle("", xs[0], "");
      assert "" + xs[0] + "" == xs[0];
    } else if k == 0 {
      ContainsMiddle("", xs[0], sep + Join(sep, xs[1..]));
      assert "" + xs[0] + (sep + Join(sep, xs[1..])) == Join(sep, xs);
    } else {
      PieceInJoin(xs[1..], k - 1, sep);
      ContainsMiddle(xs[0] + sep, Join(sep, xs[1..]), "");
      assert xs[0] + sep + Join(sep, xs[1..]) + "" == Join(sep, xs);
      ContainsTransitive(Join(sep, xs), Join(sep, xs[1..]), xs[k]);
    }
  }

  /** Text made of parts laid end to end. */
  function Concat(parts: seq<string>): string {
    if parts == [] then "" else parts[0] + Concat(parts[1..])
  }

  /** Each part occurs in the text built from the parts. */
  lemma {:induction false} ContainsPart(parts: seq<string>, i: nat)
    requires i < |parts|
    ensures Contains(Concat(parts), parts[i])
    decreases i
  {
    var rest := Concat(parts[1..]);
    if i == 0 {
      ContainsMiddle("", parts[0], rest);
      assert "" + parts[0] + rest == Concat(parts);
    } else {
      ContainsPart(parts[1..], i - 1);
      ContainsMiddle(parts[0], rest, "");
      assert parts[0] + rest + "" == Concat(parts);
      ContainsTransitive(Concat(parts), rest, parts[i]);
    }
  }

  /** Python's `c.lower()` restricted to ASCII letters. */
  function LowerChar(c: char): char {
    if 'A' <= c <= 'Z' then (c as int + 32) as char else c
  }

  function Lower(s: string): string {
    seq(|s|, i requires 0 <= i < |s| => LowerChar(s[i]))
  }

  /** Lowercasing commutes with taking a slice. */
  lemma LowerSlice(s: string, i: nat, j: nat)
    requires i <= j <= |s|
    ensures Lower(s[i..j]) == Lower(s)[i..j]
  {
  }

  /** Python's `sep.join(xs)`. */
  function Join(sep: string, xs: seq<string>): string {
    if |xs| == 0 then ""
    else if |xs| == 1 then xs[0]
    else xs[0] + sep + Join(sep, xs[1..])
  }

  /** A join starts with its first piece, followed by the separator when more pieces come. */
  lemma JoinHead(sep: string, xs: seq<string>)
    requires |xs| >= 1
    ensures StartsWith(Join(sep, xs), xs[0])
    ensures |xs| >= 2 ==> StartsWith(Join(sep, xs), xs[0] + sep)
  {
    if |xs| >= 2 {
      assert Join(sep, xs) == (xs[0] + sep) + Join(sep, xs[1..]);
    }
  }

  /** Python's `s.split(c)` for a one-character separator: the pieces between separators,
      at least one, none of them containing the separator. */
  function Split(s: string, c: char): (r: seq<string>)
    ensures |r| >= 1
    ensures forall k :: 0 <= k < |r| ==> c !in r[k]
  {
    if s == [] then [""]
    else
      var rest := Split(s[1..], c);
      if s[0] == c then [""] + rest else [[s[0]] + rest[0]] + rest[1..]
  }

  /** Joining the pieces of a split with the same separator gives the text back. */
  lemma {:induction false} JoinSplit(s: string, c: char)
    ensures Join([c], Split(s, c)) == s
  {
    if s != [] {
      var rest := Split(s[1..], c);
      JoinSplit(s[1..], c);
      if |rest| >= 2 {
        assert Join([c], rest) == rest[0] + [c] + Join([c], rest[1..]);
      }
      if s[0] != c {
        assert s == [s[0]] + s[1..];
      }
    }
  }

  lemma {:induction false} SplitPrefix(a: string, t: string, c: char)
    requires c !in a
    ensures Split(a + t, c) == [a + Split(t, c)[0]] + Split(t, c)[1..]
  {
    if a == [] {
      var st := Split(t, c);
      assert a + t == t && a + st[0] == st[0];
      assert st == [st[0]] + st[1..];
    } else {
      assert (a + t)[0] == a[0] && a[0] != c;
      assert (a + t)[1..] == a[1..] + t;
      assert c !in a[1..];
      SplitPrefix(a[1..], t, c);
      assert [a[0]] + (a[1..] + Split(t, c)[0]) == a + Split(t, c)[0];
    }
  }

  /** Splitting a join whose pieces avoid the separator gives the pieces back. */
  lemma {:induction false} SplitJoin(xs: seq<string>, c: char)
    requires |xs| >= 1
    requires forall k :: 0 <= k < |xs| ==> c !in xs[k]
    ensures Split(Join([c], xs), c) == xs
  {
    if |xs| >= 2 {
      var j := Join([c], xs[1..]);
      SplitJoin(xs[1..], c);
      assert Join([c], xs) == xs[0] + ([c] + j);
      assert ([c] + j)[1..] == j;
      assert c !in xs[0];
      SplitPrefix(xs[0], [c] + j, c);
      assert Split([c] + j, c) == [""] + Split(j, c);
      assert xs[0] + "" == xs[0];
      assert xs == [xs[0]] + xs[1..];
    } else {
      assert c !in xs[0];
      SplitPrefix(xs[0], "", c);
      assert xs[0] + "" == xs[0];
    }
  }

  predicate StartsWith(s: string, p: string) {
    |p| <= |s| && s[..|p|] == p
  }

  predicate EndsWith(s: string, p: string) {
    |p| <= |s| && s[|s| - |p|..] == p
  }

  /** Python's `p in s`: `p` starts at some position of `s`. */
  predicate Contains(s: string, p: string) {
    StartsWith(s, p) || (s != [] && Contains(s[1..], p))
  }

  /** Python's `s.replace(p, "")`: every leftmost, non-overlapping occurrence of `p` removed. */
  function RemoveAll(s: string, p: string): string
    requires p != []
  {
    if s == [] then []
    else if StartsWith(s, p) then RemoveAll(s[|p|..], p)
    else [s[0]] + RemoveAll(s[1..], p)
  }

  /** `replace` changes nothing when the pattern does not occur. */
  lemma {:induction false} RemoveAllAbsent(s: string, p: string)
    requires p != [] && !Contains(s, p)
    ensures RemoveAll(s, p) == s
  {
    if s != [] {
      RemoveAllAbsent(s[1..], p);
    }
  }
}
