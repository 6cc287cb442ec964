/** The scanners that pull `schema.table` references out of a planner reply: the word-bounded
    pattern of AI_SQL_Agent/Chat.py (optional `[` plus spaces before, optional spaces plus `]`
    after) and the looser pattern of Chat.py (optional brackets, no word boundaries), both as
    `re.findall` runs them: leftmost match first, the next search starting where a match ended. */
module TableRefs {
  import opened Wrappers
  import opened Strings

  /** `[A-Za-z0-9_]`; the same class stands for the regex word characters behind `\b`. */
  predicate IsIdentChar(c: char) {
    'A' <= c <= 'Z' || 'a' <= c <= 'z' || '0' <= c <= '9' || c == '_'
  }

  /** A non-empty run of identifier characters. */
  predicate IsIdent(x: string) {
    x != [] && forall k :: 0 <= k < |x| ==> IsIdentChar(x[k])
  }

  /** `Schema.Table`: exactly one dot, an identifier on each side of it. */
  predicate IsTableRef(t: string) {
    var parts := Split(t, '.');
    |parts| == 2 && IsIdent(parts[0]) && IsIdent(parts[1])
  }

  lemma TableRefOfParts(x: string, y: string)
    requires IsIdent(x) && IsIdent(y)
    ensures IsTableRef(x + "." + y)
  {
    assert Join(".", [x, y]) == x + "." + y;
    SplitJoin([x, y], '.');
  }

  /** Some dot in `s` has an identifier character on both sides. */
  predicate HasDottedName(s: string) {
    exists k :: 0 < k < |s| - 1 && IsIdentChar(s[k - 1]) && s[k] == '.' && IsIdentChar(s[k + 1])
  }

  /** End of the longest run of identifier characters starting at `i`. */
  function IdentEnd(s: string, i: nat): (j: nat)
    requires i <= |s|
    ensures i <= j <= |s|
    ensures j < |s| ==> !IsIdentChar(s[j])
    decreases |s| - i
  {
    if i < |s| && IsIdentChar(s[i]) then IdentEnd(s, i + 1) else i
  }

  lemma {:induction false} IdentEndRun(s: string, i: nat)
    requires i <= |s|
    ensures forall k :: i <= k < IdentEnd(s, i) ==> IsIdentChar(s[k])
    decreases |s| - i
  {
    if i < |s| && IsIdentChar(s[i]) {
      IdentEndRun(s, i + 1);
    }
  }

  lemma {:induction false} IdentEndAt(s: string, i: nat, j: nat)
    requires i <= j <= |s|
    requires forall k :: i <= k < j ==> IsIdentChar(s[k])
    requires j == |s| || !IsIdentChar(s[j])
    ensures IdentEnd(s, i) == j
    decreases j - i
  {
    if i < j {
      IdentEndAt(s, i + 1, j);
    }
  }

  /** End of the longest run of whitespace starting at `i` (greedy `\s*`). */
  function SpaceEnd(s: string, i: nat): (j: nat)
    requires i <= |s|
    ensures i <= j <= |s|
    decreases |s| - i
  {
    if i < |s| && IsSpace(s[i]) then SpaceEnd(s, i + 1) else i
  }

  /** `\b` at position `p`: a word character on exactly one side. */
  predicate Boundary(s: string, p: nat)
    requires p <= |s|
  {
    (p > 0 && IsIdentChar(s[p - 1])) != (p < |s| && IsIdentChar(s[p]))
  }

  /** `[A-Za-z0-9_]+\.[A-Za-z0-9_]+` tried at `q`: where the match ends, if it matches.
      Both runs are greedy and nothing after them can force a shorter run. */
  function DottedEnd(s: string, q: nat): (r: Option<nat>)
    requires q <= |s|
    ensures r.Some? ==> q < r.value <= |s|
  {
    var a := IdentEnd(s, q);
    if a == q || a == |s| || s[a] != '.' then None
    else
      var b := IdentEnd(s, a + 1);
      if b == a + 1 then None else Some(b)
  }

  /** A dotted match from `q` is a table reference. */
  lemma DottedIsTableRef(s: string, q: nat)
    requires q <= |s| && DottedEnd(s, q).Some?
    ensures IsTableRef(s[q..DottedEnd(s, q).value])
  {
    var a := IdentEnd(s, q);
    var b := DottedEnd(s, q).value;
    IdentEndRun(s, q);
    IdentEndRun(s, a + 1);
    assert IsIdent(s[q..a]);
    assert IsIdent(s[a + 1..b]);
    assert s[q..b] == s[q..a] + "." + s[a + 1..b];
    TableRefOfParts(s[q..a], s[a + 1..b]);
  }

  /** A dotted match from `q` shows a dot between two identifier characters. */
  lemma DottedWitness(s: string, q: nat)
    requires q <= |s| && DottedEnd(s, q).Some?
    ensures HasDottedName(s)
  {
    var a := IdentEnd(s, q);
    IdentEndRun(s, q);
    assert IsIdentChar(s[a - 1]);
    assert IsIdentChar(s[a + 1]);
  }

  /** A reference `x.y` written at `q` and not followed by an identifier character is matched
      there in full. */
  lemma DottedAtRef(s: string, q: nat, x: string, y: string)
    requires IsIdent(x) && IsIdent(y)
    requires q + |x + "." + y| <= |s| && s[q..q + |x + "." + y|] == x + "." + y
    requires q + |x + "." + y| == |s| || !IsIdentChar(s[q + |x + "." + y|])
    ensures DottedEnd(s, q) == Some(q + |x + "." + y|)
  {
    var t := x + "." + y;
    var a := q + |x|;
    forall k | q <= k < a ensures IsIdentChar(s[k]) {
      assert s[k] == t[k - q] == x[k - q];
    }
    assert s[a] == t[|x|] == '.';
    IdentEndAt(s, q, a);
    forall k | a + 1 <= k < q + |t| ensures IsIdentChar(s[k]) {
      assert s[k] == t[k - q] == y[k - a - 1];
    }
    IdentEndAt(s, a + 1, q + |t|);
  }

  /** The two patterns: AI_SQL_Agent/Chat.py's word-bounded one and Chat.py's loose one. */
  datatype Pattern = Bounded | Loose

  /** One match: the captured `schema.table` text and where the match ends. */
  datatype Hit = Hit(token: string, end: nat)

  /** Where a match whose reference ends at `b` ends: the bounded pattern takes `\s*\]` only
      when the `\b` after it holds, that is when an identifier character follows the `]`. */
  function CloseEnd(pat: Pattern, s: string, b: nat): (e: nat)
    requires b <= |s|
    ensures b <= e <= |s|
  {
    if pat == Bounded then
      var c := SpaceEnd(s, b);
      if c + 1 < |s| && s[c] == ']' && IsIdentChar(s[c + 1]) then c + 1 else b
    else if b < |s| && s[b] == ']' then b + 1 else b
  }

  /** The pattern tried at position `p`. The bounded one needs `\b` first, so its `[` branch
      is taken only right after a word character. */
  function MatchAt(pat: Pattern, s: string, p: nat): (r: Option<Hit>)
    requires p < |s|
    ensures r.Some? ==> p < r.value.end <= |s|
  {
    if pat == Bounded && !Boundary(s, p) then None
    else
      var q := if s[p] != '[' then p else if pat == Bounded then SpaceEnd(s, p + 1) else p + 1;
      match DottedEnd(s, q)
      case None => None
      case Some(b) => Some(Hit(s[q..b], CloseEnd(pat, s, b)))
  }

  lemma MatchIsTableRef(pat: Pattern, s: string, p: nat)
    requires p < |s| && MatchAt(pat, s, p).Some?
    ensures IsTableRef(MatchAt(pat, s, p).value.token)
  {
    var q := if s[p] != '[' then p else if pat == Bounded then SpaceEnd(s, p + 1) else p + 1;
    DottedIsTableRef(s, q);
  }

  lemma MatchWitness(pat: Pattern, s: string, p: nat)
    requires p < |s| && MatchAt(pat, s, p).Some?
    ensures HasDottedName(s)
  {
    var q := if s[p] != '[' then p else if pat == Bounded then SpaceEnd(s, p + 1) else p + 1;
    DottedWitness(s, q);
  }

  /** `re.findall` from position `p`. */
  function FindFrom(pat: Pattern, s: string, p: nat): seq<string>
    requires p <= |s|
    decreases |s| - p
  {
    if p == |s| then []
    else
      match MatchAt(pat, s, p)
      case None => FindFrom(pat, s, p + 1)
      case Some(h) => [h.token] + FindFrom(pat, s, h.end)
  }

  function FindAll(pat: Pattern, s: string): seq<string> {
    FindFrom(pat, s, 0)
  }

  /** Every token found is a `Schema.Table` reference; brackets never belong to one. */
  lemma {:induction false} FoundAreTableRefs(pat: Pattern, s: string, p: nat)
    requires p <= |s|
    ensures forall t :: t in FindFrom(pat, s, p) ==> IsTableRef(t)
    decreases |s| - p
  {
    if p < |s| {
      match MatchAt(pat, s, p)
      case None => FoundAreTableRefs(pat, s, p + 1);
      case Some(h) =>
        MatchIsTableRef(pat, s, p);
        FoundAreTableRefs(pat, s, h.end);
    }
  }

  lemma {:induction false} FoundWitness(pat: Pattern, s: string, p: nat)
    requires p <= |s| && FindFrom(pat, s, p) != []
    ensures HasDottedName(s)
    decreases |s| - p
  {
    match MatchAt(pat, s, p)
    case None => FoundWitness(pat, s, p + 1);
    case Some(h) => MatchWitness(pat, s, p);
  }

  /** Start of the identifier run that ends just before `i`. */
  function RunStart(s: string, i: nat): (r: nat)
    requires i <= |s|
    ensures r <= i
    decreases i
  {
    if i > 0 && IsIdentChar(s[i - 1]) then RunStart(s, i - 1) else i
  }

  lemma {:induction false} RunStartRun(s: string, i: nat)
    requires i <= |s|
    ensures forall k :: RunStart(s, i) <= k < i ==> IsIdentChar(s[k])
    ensures RunStart(s, i) == 0 || !IsIdentChar(s[RunStart(s, i) - 1])
    decreases i
  {
    if i > 0 && IsIdentChar(s[i - 1]) {
      RunStartRun(s, i - 1);
    }
  }

  /** At the start of the identifier run in front of a dot, either pattern matches. */
  lemma MatchAtRunStart(pat: Pattern, s: string, k: nat)
    requires 0 < k < |s| - 1 && IsIdentChar(s[k - 1]) && s[k] == '.' && IsIdentChar(s[k + 1])
    ensures RunStart(s, k) < k && MatchAt(pat, s, RunStart(s, k)).Some?
  {
    var p := RunStart(s, k);
    RunStartRun(s, k);
    IdentEndAt(s, p, k);
    assert IdentEnd(s, k + 1) > k + 1;
    assert s[p] != '[';
    assert DottedEnd(s, p).Some?;
  }

  lemma {:induction false} FindFromNonEmpty(pat: Pattern, s: string, p: nat, k: nat)
    requires 0 < k < |s| - 1 && IsIdentChar(s[k - 1]) && s[k] == '.' && IsIdentChar(s[k + 1])
    requires p <= RunStart(s, k)
    ensures FindFrom(pat, s, p) != []
    decreases |s| - p
  {
    MatchAtRunStart(pat, s, k);
    if MatchAt(pat, s, p).None? {
      FindFromNonEmpty(pat, s, p + 1, k);
    }
  }

  /** The scan finds nothing exactly when no dot has identifier characters on both sides. */
  lemma FindAllEmptyIff(pat: Pattern, s: string)
    ensures FindAll(pat, s) == [] <==> !HasDottedName(s)
  {
    if FindAll(pat, s) != [] {
      FoundWitness(pat, s, 0);
    }
    if HasDottedName(s) {
      var k :| 0 < k < |s| - 1 && IsIdentChar(s[k - 1]) && s[k] == '.' && IsIdentChar(s[k + 1]);
      FindFromNonEmpty(pat, s, 0, k);
    }
  }

  /** A reference written at `p`, not inside a longer identifier run, is the hit there. */
  lemma MatchBareRef(pat: Pattern, s: string, p: nat, x: string, y: string)
    requires IsIdent(x) && IsIdent(y)
    requires p + |x + "." + y| <= |s| && s[p..p + |x + "." + y|] == x + "." + y
    requires p + |x + "." + y| == |s| || !IsIdentChar(s[p + |x + "." + y|])
    requires p == 0 || !IsIdentChar(s[p - 1])
    ensures MatchAt(pat, s, p) == Some(Hit(x + "." + y, CloseEnd(pat, s, p + |x + "." + y|)))
  {
    assert s[p] == (x + "." + y)[0] == x[0];
    DottedAtRef(s, p, x, y);
  }

  /** Positions holding neither `[` nor an identifier character start no match. */
  lemma NoMatchAtOther(pat: Pattern, s: string, p: nat)
    requires p < |s| && s[p] != '[' && !IsIdentChar(s[p])
    ensures MatchAt(pat, s, p) == None
  {
  }

  /** Positions in `A.B [A.B]`: the reference, a space, `[`, the reference again, `]`. */
  lemma BareAndBracketedLayout(x: string, y: string)
    requires IsIdent(x) && IsIdent(y)
    ensures var t := x + "." + y; var s := t + " [" + t + "]"; var n := |t|;
      |s| == 2 * n + 3 && s[..n] == t && s[n] == ' ' && s[n + 1] == '[' &&
      s[n + 2..2 * n + 2] == t && s[2 * n + 2] == ']' && IsIdentChar(s[2 * n + 1])
  {
    var t := x + "." + y;
    var s := t + " [" + t + "]";
    var n := |t|;
    assert s[2 * n + 1] == t[n - 1] == y[|y| - 1];
  }

  /** The bounded pattern: after the first hit, `" ["` starts nothing and the bracketed copy
      is hit from its first identifier character; the closing `]` ends the text. */
  lemma BoundedAfterFirst(s: string, x: string, y: string, n: nat)
    requires IsIdent(x) && IsIdent(y) && n == |x + "." + y|
    requires |s| == 2 * n + 3 && s[n] == ' ' && s[n + 1] == '['
    requires s[n + 2..2 * n + 2] == x + "." + y && s[2 * n + 2] == ']' && IsIdentChar(s[2 * n + 1])
    ensures FindFrom(Bounded, s, n) == [x + "." + y]
  {
    NoMatchAtOther(Bounded, s, n);
    assert FindFrom(Bounded, s, n) == FindFrom(Bounded, s, n + 1);
    assert !Boundary(s, n + 1);
    assert FindFrom(Bounded, s, n + 1) == FindFrom(Bounded, s, n + 2);
    BoundedLastHit(s, x, y, n);
  }

  lemma BoundedLastHit(s: string, x: string, y: string, n: nat)
    requires IsIdent(x) && IsIdent(y) && n == |x + "." + y|
    requires |s| == 2 * n + 3 && s[n + 1] == '['
    requires s[n + 2..2 * n + 2] == x + "." + y && s[2 * n + 2] == ']'
    ensures FindFrom(Bounded, s, n + 2) == [x + "." + y]
  {
    MatchBareRef(Bounded, s, n + 2, x, y);
    assert SpaceEnd(s, 2 * n + 2) == 2 * n + 2;
    assert CloseEnd(Bounded, s, 2 * n + 2) == 2 * n + 2;
    NoMatchAtOther(Bounded, s, 2 * n + 2);
    assert FindFrom(Bounded, s, 2 * n + 2) == [];
  }

  /** The bounded pattern reads `A.B [A.B]` as the same reference twice. */
  lemma BoundedBareAndBracketed(x: string, y: string)
    requires IsIdent(x) && IsIdent(y)
    ensures FindAll(Bounded, x + "." + y + " [" + x + "." + y + "]") == [x + "." + y, x + "." + y]
  {
    var t := x + "." + y;
    var s := t + " [" + t + "]";
    var n := |t|;
    assert s == x + "." + y + " [" + x + "." + y + "]";
    BareAndBracketedLayout(x, y);
    BoundedFirstHit(s, x, y, n);
    BoundedAfterFirst(s, x, y, n);
  }

  lemma BoundedFirstHit(s: string, x: string, y: string, n: nat)
    requires IsIdent(x) && IsIdent(y) && n == |x + "." + y|
    requires |s| == 2 * n + 3 && s[..n] == x + "." + y && s[n] == ' ' && s[n + 1] == '['
    ensures FindFrom(Bounded, s, 0) == [x + "." + y] + FindFrom(Bounded, s, n)
  {
    MatchBareRef(Bounded, s, 0, x, y);
    assert SpaceEnd(s, n + 1) == n + 1;
    assert CloseEnd(Bounded, s, n) == n;
  }

  /** The loose pattern: after the first hit, the space starts nothing and the `[` starts the
      hit on the bracketed copy, whose `]` ends the text. */
  lemma LooseAfterFirst(s: string, x: string, y: string, n: nat)
    requires IsIdent(x) && IsIdent(y) && n == |x + "." + y|
    requires |s| == 2 * n + 3 && s[n] == ' ' && s[n + 1] == '['
    requires s[n + 2..2 * n + 2] == x + "." + y && s[2 * n + 2] == ']'
    ensures FindFrom(Loose, s, n) == [x + "." + y]
  {
    NoMatchAtOther(Loose, s, n);
    assert FindFrom(Loose, s, n) == FindFrom(Loose, s, n + 1);
    DottedAtRef(s, n + 2, x, y);
    assert MatchAt(Loose, s, n + 1) == Some(Hit(x + "." + y, 2 * n + 3));
    assert FindFrom(Loose, s, 2 * n + 3) == [];
  }

  /** The loose pattern reads `A.B [A.B]` as the same reference twice. */
  lemma LooseBareAndBracketed(x: string, y: string)
    requires IsIdent(x) && IsIdent(y)
    ensures FindAll(Loose, x + "." + y + " [" + x + "." + y + "]") == [x + "." + y, x + "." + y]
  {
    var t := x + "." + y;
    var s := t + " [" + t + "]";
    var n := |t|;
    assert s == x + "." + y + " [" + x + "." + y + "]";
    BareAndBracketedLayout(x, y);
    MatchBareRef(Loose, s, 0, x, y);
    assert CloseEnd(Loose, s, n) == n;
    LooseAfterFirst(s, x, y, n);
  }
}
