/** The shapes of regular expression the extractor uses, and one attempt of each.

    Every rule is a guarded `Pattern` prefix (matched greedily, which is exact for guarded
    patterns) followed by its capture groups, whose own backtracking is written out:
    the heredoc's `(\w+)(.+?)` tries longer tokens first and shorter bodies first, and the
    `\s*(.+)$` of a parameter gives back whitespace until a character other than a line
    feed follows. */
module Rules {
  import opened Chars
  import opened Text
  import opened Optional
  import opened Patterns
  import opened Search

  /** The shapes of the extractor's rules, each a fixed prefix `head` and then:
      - `Quoted`: a run of non-quote characters, captured, then a quote;
      - `Bracketed`: a run of characters other than a closing bracket, captured, then one;
      - `Heredoc`: an optional dash, a captured word token, the shortest captured text up
        to a line whose first non-blank text is that token, with `.` crossing lines;
      - `Assignment`: a captured word, the pattern `mid`, blanks, and the captured rest of
        the line;
      - `LineStart`: anchored at a line start, a captured word after the head. */
  datatype Rule =
    | Quoted(head: Pattern)
    | Bracketed(head: Pattern)
    | Heredoc(head: Pattern)
    | Assignment(head: Pattern, mid: Pattern)
    | LineStart(head: Pattern)

  /** The number of capture groups of a rule. */
  function Arity(r: Rule): nat {
    match r
    case Quoted(_) => 1
    case Bracketed(_) => 1
    case Heredoc(_) => 2
    case Assignment(_, _) => 2
    case LineStart(_) => 1
  }

  /** The literal text every match of `r` starts with (empty when the rule starts otherwise). */
  function Lead(r: Rule): string {
    var p := if r.LineStart? then [] else r.head;
    if 0 < |p| && p[0].Lit? then p[0].w else ""
  }

  /** A match found `k` characters further on: its length counts them too. */
  function Ahead(k: nat, m: Option<Hit>): (r: Option<Hit>)
    ensures r.Some? <==> m.Some?
    ensures r.Some? ==> r.value == Hit(k + m.value.len, m.value.caps)
  {
    match m
    case None => None
    case Some(h) => Some(Hit(k + h.len, h.caps))
  }

  /** A match with the group `key` put in front of its groups. */
  function Keyed(key: string, m: Option<Hit>): (r: Option<Hit>)
    ensures r.Some? <==> m.Some?
    ensures r.Some? ==> r.value == Hit(m.value.len, [key] + m.value.caps)
  {
    match m
    case None => None
    case Some(h) => Some(Hit(h.len, [key] + h.caps))
  }

  /** A run of class-`k` characters at the start of `t`, closed by the one character that
      ends it, the run being the capture: `([^'"]+)['"]` and `([^\]]+)\]`. */
  function Delimited(k: CharClass, t: string): (m: Option<Hit>)
    ensures m.Some? ==> 0 < m.value.len <= |t| && |m.value.caps| == 1
    ensures m.Some? ==> var v := m.value.caps[0];
              && 0 < |v| && m.value.len == |v| + 1
              && t[..|v|] == v && AllIn(k, v) && !InClass(k, t[|v|])
    ensures m.None? <==> Run(k, t) == 0 || Run(k, t) == |t|
  {
    var c := Run(k, t);
    if c == 0 || c == |t| then None else Some(Hit(c + 1, [t[..c]]))
  }

  /** `^\s*TOKEN` holds at offset `e`: `e` starts a line and, after any whitespace, `tok`
      follows. */
  predicate TermAt(s: string, tok: string, e: nat)
    requires e <= |s|
  {
    0 < e && s[e - 1] == '\n' && tok <= s[e + Run(Space, s[e..])..]
  }

  /** The lazy `(.+?)` followed by `^\s*TOKEN`: the first offset from `e` on where the
      terminator holds. */
  function Terminator(s: string, tok: string, e: nat): (t: Option<nat>)
    requires e <= |s| + 1
    ensures t.Some? ==> e <= t.value <= |s| && TermAt(s, tok, t.value)
    decreases |s| + 1 - e
  {
    if e > |s| then None
    else if TermAt(s, tok, e) then Some(e)
    else Terminator(s, tok, e + 1)
  }

  /** The terminator found is the first offset from `e` on where `^\s*TOKEN` holds; when
      none is found, it holds nowhere from `e` on. */
  lemma {:induction false} TerminatorFirst(s: string, tok: string, e: nat)
    requires e <= |s| + 1
    ensures var t := Terminator(s, tok, e);
            t.Some? ==> forall x | e <= x < t.value :: !TermAt(s, tok, x)
    ensures Terminator(s, tok, e).None? ==> forall x | e <= x <= |s| :: !TermAt(s, tok, x)
    decreases |s| + 1 - e
  {
    if e <= |s| && !TermAt(s, tok, e) {
      TerminatorFirst(s, tok, e + 1);
    }
  }

  /** The heredoc token `(\w+)` at the start of `u` and the body after it, trying the token
      lengths from `n` down to 1 (the engine backs off the greedy `\w+` one character at a
      time). */
  function HeredocFrom(u: string, n: nat): (m: Option<Hit>)
    requires n <= |u| && AllIn(Word, u[..n])
    ensures m.Some? ==> 0 < m.value.len <= |u| && |m.value.caps| == 2
    ensures m.Some? ==> 0 < |m.value.caps[0]| && AllIn(Word, m.value.caps[0]) && 0 < |m.value.caps[1]|
    decreases n
  {
    if n == 0 then None
    else
      match Terminator(u, u[..n], n + 1)
      case Some(e) =>
        var k := Run(Space, u[e..]);
        Some(Hit(e + k + n, [u[..n], u[n..e]]))
      case None =>
        AllInSlice(Word, u[..n], 0, n - 1);
        assert u[..n][0..n - 1] == u[..n - 1];
        HeredocFrom(u, n - 1)
  }

  /** The greedy `\s*` before `(.+)$` gives back whitespace until a character other than a
      line feed follows: the last offset up to `k` holding such a character. */
  function ValueStart(u: string, k: nat): (v: Option<nat>)
    requires k <= |u|
    ensures v.Some? ==> v.value <= k && v.value < |u| && u[v.value] != '\n'
    decreases k
  {
    if k < |u| && u[k] != '\n' then Some(k)
    else if k == 0 then None
    else ValueStart(u, k - 1)
  }

  /** The offset `ValueStart` gives back to is the last one that can start a value: every
      later offset up to `k` is a line feed or the end, and when there is none, so is every
      offset. */
  lemma {:induction false} ValueStartLast(u: string, k: nat)
    requires k <= |u|
    ensures var v := ValueStart(u, k);
            v.Some? ==> forall x | v.value < x <= k :: x == |u| || u[x] == '\n'
    ensures ValueStart(u, k).None? ==> forall x | 0 <= x <= k :: x == |u| || u[x] == '\n'
    decreases k
  {
    if k < |u| && u[k] != '\n' {
    } else if k > 0 {
      ValueStartLast(u, k - 1);
    }
  }

  /** `\s*(.+)$` at the start of `u`: the value is the rest of a line. */
  function LineValue(u: string): (m: Option<Hit>)
    ensures m.Some? ==> 0 < m.value.len <= |u| && |m.value.caps| == 1
    ensures m.Some? ==> var v := m.value.caps[0];
              && 0 < |v| <= m.value.len && u[m.value.len - |v|..m.value.len] == v && '\n' !in v
              && (m.value.len == |u| || u[m.value.len] == '\n')
  {
    match ValueStart(u, Run(Space, u))
    case None => None
    case Some(v) =>
      var e := v + LineEnd(u[v..]);
      assert u[v..][..e - v] == u[v..e];
      Some(Hit(e, [u[v..e]]))
  }

  /** `mid`, then `\s*(.+)$`, at the start of `u`. */
  function ValueAfter(mid: Pattern, u: string): (m: Option<Hit>)
    ensures m.Some? ==> 0 < m.value.len <= |u| && |m.value.caps| == 1
    ensures m.Some? ==> 0 < |m.value.caps[0]| && '\n' !in m.value.caps[0]
  {
    match Span(mid, u)
    case None => None
    case Some(n) => Ahead(n, LineValue(u[n..]))
  }

  /** `(\w+)`, then `mid`, then `\s*(.+)$`, at the start of `t`: the word and the rest of
      the line. */
  function AssignedFrom(mid: Pattern, t: string): (m: Option<Hit>)
    ensures m.Some? ==> 0 < m.value.len <= |t| && |m.value.caps| == 2
  {
    var w := Run(Word, t);
    if w == 0 then None else Keyed(t[..w], Ahead(w, ValueAfter(mid, t[w..])))
  }

  /** One attempt of `r` at the start of `s`. */
  function MatchHere(r: Rule, s: string, bol: bool): (m: Option<Hit>)
    ensures m.Some? ==> 0 < m.value.len <= |s| && |m.value.caps| == Arity(r)
  {
    if r.LineStart? && !bol then None
    else
      match Span(r.head, s)
      case None => None
      case Some(j) => Ahead(j, After(r, s[j..]))
  }

  /** What follows the head of `r`, at the start of the text `t` after it. */
  function After(r: Rule, t: string): (m: Option<Hit>)
    ensures m.Some? ==> 0 < m.value.len <= |t| && |m.value.caps| == Arity(r)
  {
    match r
    case Quoted(_) => Delimited(NonQuote, t)
    case Bracketed(_) => Delimited(NonBracket, t)
    case Heredoc(_) =>
      var d := if 0 < |t| && t[0] == '-' then 1 else 0;
      var u := t[d..];
      var n := Run(Word, u);
      Ahead(d, HeredocFrom(u, n))
    case Assignment(_, mid) => AssignedFrom(mid, t)
    case LineStart(_) =>
      var w := Run(Word, t);
      if w == 0 then None else Some(Hit(w, [t[..w]]))
  }

  /** Once the head has matched, the attempt is decided by what follows it. */
  lemma HeadAt(r: Rule, s: string, bol: bool, j: nat, t: string)
    requires r.LineStart? ==> bol
    requires Span(r.head, s) == Some(j) && j <= |s| && s[j..] == t
    ensures MatchHere(r, s, bol) == Ahead(j, After(r, t))
  {
  }

  /** Every match of `r` starts with `Lead(r)`. */
  lemma LeadNeeded(r: Rule, s: string, bol: bool)
    ensures MatchHere(r, s, bol).Some? ==> Lead(r) <= s
  {
    if !r.LineStart? && 0 < |r.head| && r.head[0].Lit? {
      SpanStep(r.head, s);
    }
  }

  /** What the capture groups of a match of `r` look like. */
  predicate Shaped(r: Rule, caps: seq<string>) {
    |caps| == Arity(r) &&
    match r
    case Quoted(_) => 0 < |caps[0]| && AllIn(NonQuote, caps[0])
    case Bracketed(_) => 0 < |caps[0]| && AllIn(NonBracket, caps[0])
    case Heredoc(_) => 0 < |caps[0]| && AllIn(Word, caps[0]) && 0 < |caps[1]|
    case Assignment(_, _) => 0 < |caps[0]| && AllIn(Word, caps[0]) && 0 < |caps[1]| && AllIn(NonNewline, caps[1])
    case LineStart(_) => 0 < |caps[0]| && AllIn(Word, caps[0])
  }

  /** Every match captures groups of the rule's shape: quoted literals without quotes,
      bracket contents without `]`, `\w+` words, and non-empty rests of lines. */
  lemma MatchShaped(r: Rule, s: string, bol: bool)
    ensures MatchHere(r, s, bol).Some? ==> Shaped(r, MatchHere(r, s, bol).value.caps)
  {
    if MatchHere(r, s, bol).Some? {
      var j := Span(r.head, s).value;
      HeadAt(r, s, bol, j, s[j..]);
      AfterShaped(r, s[j..]);
    }
  }

  lemma AfterShaped(r: Rule, t: string)
    ensures After(r, t).Some? ==> Shaped(r, After(r, t).value.caps)
  {
    match r
    case Quoted(_) =>
    case Bracketed(_) =>
    case Heredoc(_) =>
    case Assignment(_, mid) => AssignedShaped(mid, t);
    case LineStart(_) =>
  }

  lemma AssignedShaped(mid: Pattern, t: string)
    ensures var m := AssignedFrom(mid, t);
            m.Some? ==> 0 < |m.value.caps[0]| && AllIn(Word, m.value.caps[0])
                        && 0 < |m.value.caps[1]| && AllIn(NonNewline, m.value.caps[1])
  {
    var w := Run(Word, t);
    var m := ValueAfter(mid, t[w..]);
    if 0 < w && m.Some? {
      assert AssignedFrom(mid, t).value.caps == [t[..w]] + m.value.caps;
      NoNewline(m.value.caps[0]);
    }
  }

  lemma NoNewline(v: string)
    requires '\n' !in v
    ensures AllIn(NonNewline, v)
  {
    assert forall i | 0 <= i < |v| :: v[i] in v;
  }

  /** Only a line-start rule cares whether the attempt starts a line. */
  lemma Flagless(r: Rule, s: string, b: bool, c: bool)
    requires !r.LineStart?
    ensures MatchHere(r, s, b) == MatchHere(r, s, c)
  {
  }

  /** A stretch without the first character of the rule's leading literal starts no
      match. */
  lemma LeadAbsent(r: Rule, x: string, y: string, bol: bool)
    requires 0 < |Lead(r)| && Lead(r)[0] !in x
    ensures Barren(Attempt(r), x, y, bol)
  {
    var s := x + y;
    forall o | 0 <= o < |x| ensures !HitsAt(Attempt(r), s, bol, o) {
      LeadNeeded(r, s[o..], BolAt(s, o, bol));
      assert s[o..][0] == x[o] && x[o] in x;
    }
  }

  /** The rule as a matcher for `=~` and `scan`. */
  function Attempt(r: Rule): Matcher {
    (s: string, bol: bool) => MatchHere(r, s, bol)
  }

  /** A line that lacks the rule's leading literal starts no match, whatever follows it. */
  lemma BarrenLine(r: Rule, x: string, y: string, bol: bool)
    requires 0 < |Lead(r)| && '\n' !in Lead(r)
    requires 0 < |x| && x[|x| - 1] == '\n' && !Occurs(Lead(r), x)
    ensures Barren(Attempt(r), x, y, bol)
  {
    var h := Lead(r);
    var s := x + y;
    forall o | 0 <= o < |x| ensures !HitsAt(Attempt(r), s, bol, o) {
      LeadNeeded(r, s[o..], BolAt(s, o, bol));
      if o + |h| <= |x| {
        assert !OccursAt(h, x, o);
        assert x[o..][..|h|] == s[o..][..|h|];
      } else if |h| <= |s| - o {
        assert s[o..][|x| - 1 - o] == x[|x| - 1];
        assert h[|x| - 1 - o] in h;
      }
      assert !(h <= s[o..]);
    }
  }

  /** Neither `=~` nor `scan` finds anything in a string that lacks the first character of
      the rule's leading literal. */
  lemma LeadMissing(r: Rule, s: string, bol: bool)
    requires 0 < |Lead(r)| && Lead(r)[0] !in s
    ensures Find(Attempt(r), s, bol).None?
    ensures Scan(Attempt(r), s, bol) == []
  {
    LeadAbsent(r, s, "", bol);
    assert s + "" == s;
    FindSkip(Attempt(r), s, "", bol);
    ScanNone(Attempt(r), s, bol);
  }

  /** Every match `scan` reports has the rule's shape. */
  lemma ScanShaped(r: Rule, s: string, bol: bool)
    ensures forall i | 0 <= i < |Scan(Attempt(r), s, bol)| :: Shaped(r, Scan(Attempt(r), s, bol)[i])
  {
    forall t, b | MatchHere(r, t, b).Some? ensures Shaped(r, MatchHere(r, t, b).value.caps) {
      MatchShaped(r, t, b);
    }
    ScanEvery(Attempt(r), t => true, caps => Shaped(r, caps), s, bol);
  }

  /** A quoted literal is a piece of the text it was found in, so it keeps every character
      class the whole text keeps. */
  lemma ScanInherits(head: Pattern, k: CharClass, s: string, bol: bool)
    requires AllIn(k, s)
    ensures var sc := Scan(Attempt(Quoted(head)), s, bol);
            forall i | 0 <= i < |sc| :: |sc[i]| == 1 && AllIn(k, sc[i][0])
  {
    var r := Quoted(head);
    forall t, b | AllIn(k, t) && MatchHere(r, t, b).Some?
      ensures |MatchHere(r, t, b).value.caps| == 1 && AllIn(k, MatchHere(r, t, b).value.caps[0])
    {
      var m := MatchHere(r, t, b).value;
      AllInSlice(k, t, Span(head, t).value, m.len - 1);
    }
    forall t, i | AllIn(k, t) && 0 <= i <= |t| ensures AllIn(k, t[i..]) {
      AllInSlice(k, t, i, |t|);
    }
    ScanEvery(Attempt(r), t => AllIn(k, t), caps => |caps| == 1 && AllIn(k, caps[0]), s, bol);
  }

  // ---- one attempt, step by step ----

  /** A delimited capture: the longest run of `k`, which must be followed by a character
      outside `k`. */
  lemma DelimitedAt(k: CharClass, x: string, c: char, z: string)
    requires 0 < |x| && AllIn(k, x) && !InClass(k, c)
    ensures Delimited(k, x + ([c] + z)) == Some(Hit(|x| + 1, [x]))
  {
    RunOver(k, x, [c] + z);
    assert (x + ([c] + z))[..|x|] == x;
  }

  /** A line without a line feed, then one: the line is `v`. */
  lemma LineEndAt(v: string, z: string)
    requires '\n' !in v
    ensures LineEnd(v + ("\n" + z)) == |v|
  {
    NoNewline(v);
    RunOver(NonNewline, v, "\n" + z);
  }

  /** A line's rest after one space. */
  lemma LineValueAt(v: string, z: string)
    requires 0 < |v| && !IsSpace(v[0]) && '\n' !in v
    ensures LineValue(" " + (v + ("\n" + z))) == Some(Hit(1 + |v|, [v]))
  {
    var u := " " + (v + ("\n" + z));
    RunOver(Space, " ", v + ("\n" + z));
    assert u[1..] == v + ("\n" + z);
    LineEndAt(v, z);
    assert u[1..1 + |v|] == v;
  }

  /** `mid` and then the rest of a line. */
  lemma ValueAfterAt(mid: Pattern, u: string, n: nat, rest: string, h: Hit)
    requires Span(mid, u) == Some(n) && n <= |u| && u[n..] == rest && LineValue(rest) == Some(h)
    ensures ValueAfter(mid, u) == Some(Hit(n + h.len, h.caps))
  {
  }

  /** The word and what follows it. */
  lemma AssignedAt(mid: Pattern, t: string, k: string, rest: string)
    requires 0 < |k| && AllIn(Word, k) && (0 < |rest| ==> !IsWord(rest[0])) && t == k + rest
    ensures AssignedFrom(mid, t) == Keyed(k, Ahead(|k|, ValueAfter(mid, rest)))
  {
    RunOver(Word, k, rest);
    assert t[..|k|] == k && t[|k|..] == rest;
  }

  /** A literal that the text does not start with. */
  lemma SpanLitMiss(w: string, p: Pattern, t: string)
    requires 0 < |w| && 0 < |t| && t[0] != w[0]
    ensures Span([Lit(w)] + p, t).None?
  {
    var q := [Lit(w)] + p;
    assert q[0] == Lit(w);
  }

  /** An assignment rule's tail on `key mid v`, the key a word and one space before the
      value. */
  lemma KeyedLine(mid: Pattern, k: string, rest: string, n: nat, v: string, z: string)
    requires 0 < |k| && AllIn(Word, k) && (0 < |rest| ==> !IsWord(rest[0]))
    requires Span(mid, rest) == Some(n) && n <= |rest| && rest[n..] == " " + (v + ("\n" + z))
    requires 0 < |v| && !IsSpace(v[0]) && '\n' !in v
    ensures AssignedFrom(mid, k + rest) == Some(Hit(|k| + (n + (1 + |v|)), [k, v]))
  {
    var h := Hit(n + (1 + |v|), [v]);
    AssignedAt(mid, k + rest, k, rest);
    KeyedValue(mid, rest, n, v, z);
    KeyedFrom(mid, k + rest, k, rest, h);
    assert AssignedFrom(mid, k + rest) == Some(Hit(|k| + h.len, [k] + h.caps));
    assert [k] + h.caps == [k, v];
    assert Hit(|k| + h.len, [k] + h.caps) == Hit(|k| + (n + (1 + |v|)), [k, v]);
  }

  /** The word in front of the value's capture. */
  lemma KeyedFrom(mid: Pattern, t: string, k: string, rest: string, h: Hit)
    requires AssignedFrom(mid, t) == Keyed(k, Ahead(|k|, ValueAfter(mid, rest)))
    requires ValueAfter(mid, rest) == Some(h)
    ensures AssignedFrom(mid, t) == Some(Hit(|k| + h.len, [k] + h.caps))
  {
  }

  lemma KeyedValue(mid: Pattern, rest: string, n: nat, v: string, z: string)
    requires Span(mid, rest) == Some(n) && n <= |rest| && rest[n..] == " " + (v + ("\n" + z))
    requires 0 < |v| && !IsSpace(v[0]) && '\n' !in v
    ensures ValueAfter(mid, rest) == Some(Hit(n + (1 + |v|), [v]))
  {
    var u := rest[n..];
    assert ValueAfter(mid, rest) == Ahead(n, LineValue(u));
    assert LineValue(u) == Some(Hit(1 + |v|, [v])) by { LineValueAt(v, z); }
  }

  lemma KeyedHit(k: string, len: nat, v: string)
    ensures Keyed(k, Ahead(|k|, Some(Hit(len, [v])))) == Some(Hit(|k| + len, [k, v]))
  {
    assert [k] + [v] == [k, v];
  }

  /** The tail of an assignment rule. */
  lemma AssignmentAfter(head: Pattern, mid: Pattern, t: string)
    ensures After(Assignment(head, mid), t) == AssignedFrom(mid, t)
  {
  }
}
