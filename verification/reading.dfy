/** What the extractor's rules find in text assembled from known pieces: stretches where no
    attempt can succeed whatever follows, the greedy prefixes of the rules over literal
    pieces, and one match of each rule on the kind of line a template writes. */
module Reading {
  import opened Chars
  import opened Text
  import opened Optional
  import opened Patterns
  import opened Search
  import opened Rules
  import opened Ivars
  import opened AppParser

  /** `x` starts no match of the attempt `a`: whatever text follows it and whether or not
      it begins a line, `String#scan` and `=~` with this pattern step over all of `x`. */
  ghost predicate Inert(a: Matcher, x: string) {
    forall y: string, b: bool :: Barren(a, x, y, b)
  }

  lemma InertEmpty(a: Matcher)
    ensures Inert(a, "")
  {
  }

  lemma InertJoin(a: Matcher, x1: string, x2: string)
    requires Inert(a, x1) && Inert(a, x2)
    ensures Inert(a, x1 + x2)
  {
    forall y: string, b: bool ensures Barren(a, x1 + x2, y, b) {
      var s := x1 + x2 + y;
      assert s == x1 + (x2 + y);
      assert Barren(a, x1, x2 + y, b);
      var c := BolAt(s, |x1|, b);
      assert Barren(a, x2, y, c);
      forall o | 0 <= o < |x1 + x2| ensures !HitsAt(a, s, b, o) {
        if o >= |x1| {
          var o2 := o - |x1|;
          assert s[o..] == (x2 + y)[o2..];
          assert BolAt(s, o, b) == BolAt(x2 + y, o2, c);
          assert !HitsAt(a, x2 + y, c, o2);
        }
      }
    }
  }

  /** The text before a match ends a line, or is empty. */
  predicate Lined(x: string) {
    |x| == 0 || x[|x| - 1] == '\n'
  }

  /** `=~` looks past an inert stretch of whole lines to the same match. */
  lemma CapturePast(r: Rule, x: string, y: string)
    requires Inert(Attempt(r), x) && Lined(x)
    ensures FirstCapture(r, x + y) == FirstCapture(r, y)
  {
    assert Barren(Attempt(r), x, y, true);
    FindSkip(Attempt(r), x, y, true);
  }

  /** `scan` looks past an inert stretch. */
  lemma ScanPast(a: Matcher, x: string, y: string, b: bool)
    requires Inert(a, x)
    ensures Scan(a, x + y, b) == Scan(a, y, BolAt(x + y, |x|, b))
  {
    assert Barren(a, x, y, b);
    ScanSkip(a, x, y, b);
  }

  /** A match at the start of a line is the one `=~` reports. */
  lemma CaptureHere(r: Rule, y: string, h: Hit)
    requires MatchHere(r, y, true) == Some(h)
    ensures FirstCapture(r, y) == Some(h.caps[0])
  {
    FindFirst(Attempt(r), y, true);
  }

  // ---- greedy prefixes over literal pieces ----

  lemma SpanLit(w: string, p: Pattern, t: string)
    ensures Span([Lit(w)] + p, w + t) == Then(|w|, Span(p, t))
  {
    var q := [Lit(w)] + p;
    assert q[0] == Lit(w) && q[1..] == p;
    assert (w + t)[|w|..] == t;
  }

  lemma SpanBlank(g: string, p: Pattern, t: string)
    requires Blank(g) && (0 < |t| ==> !IsSpace(t[0]))
    ensures Span([Spaces] + p, g + t) == Then(|g|, Span(p, t))
  {
    var q := [Spaces] + p;
    assert q[0] == Spaces && q[1..] == p;
    RunOver(Space, g, t);
    assert (g + t)[|g|..] == t;
  }

  lemma SpanBlank1(g: string, p: Pattern, t: string)
    requires 0 < |g| && Blank(g) && (0 < |t| ==> !IsSpace(t[0]))
    ensures Span([Spaces1] + p, g + t) == Then(|g|, Span(p, t))
  {
    var q := [Spaces1] + p;
    assert q[0] == Spaces1 && q[1..] == p;
    RunOver(Space, g, t);
    assert (g + t)[|g|..] == t;
  }

  lemma SpanQuote(p: Pattern, t: string)
    ensures Span([Quote] + p, "'" + t) == Then(1, Span(p, t))
  {
    var q := [Quote] + p;
    assert q[0] == Quote && q[1..] == p;
    assert ("'" + t)[1..] == t;
  }

  lemma ThenThen(j: nat, k: nat, r: Option<nat>)
    ensures Then(j, Then(k, r)) == Then(j + k, r)
  {
  }

  /** ` = `, then text that does not start with whitespace. */
  lemma EqualsChain(p: Pattern, t: string)
    requires 0 < |t| ==> !IsSpace(t[0])
    ensures Span([Spaces] + ([Lit("=")] + ([Spaces] + p)), " " + ("=" + (" " + t))) == Then(3, Span(p, t))
  {
    SpanBlank(" ", [Lit("=")] + ([Spaces] + p), "=" + (" " + t));
    SpanLit("=", [Spaces] + p, " " + t);
    SpanBlank(" ", p, t);
  }

  lemma AssignChain(w: string, p: Pattern, t: string)
    requires 0 < |t| ==> !IsSpace(t[0])
    ensures Span([Lit(w)] + ([Spaces] + ([Lit("=")] + ([Spaces] + p))), w + (" " + ("=" + (" " + t))))
            == Then(|w| + 3, Span(p, t))
  {
    var x := Span(p, t);
    var q := [Spaces] + ([Lit("=")] + ([Spaces] + p));
    var u := " " + ("=" + (" " + t));
    assert Span(q, u) == Then(3, x) by { EqualsChain(p, t); }
    assert Span([Lit(w)] + q, w + u) == Then(|w|, Span(q, u)) by { SpanLit(w, q, u); }
    assert Then(|w|, Then(3, x)) == Then(|w| + 3, x) by { ThenThen(|w|, 3, x); }
  }

  /** `@v = `, then text that does not start with whitespace. */
  lemma AssignSpan(w: string, p: Pattern, t: string)
    requires 0 < |t| ==> !IsSpace(t[0])
    ensures Span([Lit(w), Spaces, Lit("="), Spaces] + p, w + " = " + t) == Then(|w| + 3, Span(p, t))
  {
    var q := [Lit(w)] + ([Spaces] + ([Lit("=")] + ([Spaces] + p)));
    var u := w + (" " + ("=" + (" " + t)));
    assert [Lit(w), Spaces, Lit("="), Spaces] + p == q;
    assert w + " = " + t == u;
    assert Span(q, u) == Then(|w| + 3, Span(p, t)) by { AssignChain(w, p, t); }
  }

  /** `@v = '`, then anything. */
  lemma ScalarHead(v: Var, z: string)
    ensures Span(AssignHead(v) + [Quote], "@" + Ident(v) + " = '" + z) == Some(|Ident(v)| + 5)
  {
    var w := "@" + Ident(v);
    assert w + " = '" + z == w + " = " + ("'" + z);
    assert AssignHead(v) + [Quote] == [Lit(w), Spaces, Lit("="), Spaces] + [Quote];
    assert [Quote] == [Quote] + [];
    SpanQuote([], z);
    AssignSpan(w, [Quote], "'" + z);
  }

  /** `@v = [`, then anything. */
  lemma ListHead(v: Var, z: string)
    ensures Span(AssignHead(v) + [Lit("[")], "@" + Ident(v) + " = [" + z) == Some(|Ident(v)| + 5)
  {
    var w := "@" + Ident(v);
    var p := [Lit("[")];
    assert Span(p, "[" + z) == Some(1) by {
      assert p == [Lit("[")] + [];
      SpanLit("[", [], z);
    }
    assert Span([Lit(w), Spaces, Lit("="), Spaces] + p, w + " = " + ("[" + z)) == Some(|w| + 4) by {
      AssignSpan(w, p, "[" + z);
    }
    assert w + " = [" + z == w + " = " + ("[" + z);
    assert AssignHead(v) + p == [Lit(w), Spaces, Lit("="), Spaces] + p;
  }

  /** `@description = <<`, then anything. */
  lemma HeredocHead(z: string)
    ensures Span(HeredocRule.head, "@description = <<" + z) == Some(17)
  {
    var w := "@" + Ident(Description);
    assert w == "@description";
    assert HeredocRule.head == [Lit(w), Spaces, Lit("="), Spaces] + [Lit("<<")];
    assert "@description = <<" + z == w + " = " + ("<<" + z);
    assert [Lit("<<")] == [Lit("<<")] + [];
    SpanLit("<<", [], z);
    AssignSpan(w, [Lit("<<")], "<<" + z);
  }

  lemma KeyOpenChain(p: Pattern, t: string)
    requires 0 < |t| && !IsSpace(t[0])
    ensures Span([Lit("@params")] + ([Spaces] + ([Lit("[")] + ([Spaces] + ([Quote] + p)))),
                 "@params" + ("" + ("[" + ("" + ("'" + t))))) == Then(9, Span(p, t))
  {
    var x := Span(p, t);
    var q1 := [Spaces] + ([Quote] + p);
    var u1 := "" + ("'" + t);
    var q2 := [Spaces] + ([Lit("[")] + q1);
    var u2 := "" + ("[" + u1);
    assert Span(q1, u1) == Then(1, x) by {
      SpanQuote(p, t);
      SpanBlank("", [Quote] + p, "'" + t);
    }
    assert Span([Lit("[")] + q1, "[" + u1) == Then(1, Span(q1, u1)) by { SpanLit("[", q1, u1); }
    assert Then(1, Then(1, x)) == Then(2, x) by { ThenThen(1, 1, x); }
    assert Span(q2, u2) == Span([Lit("[")] + q1, "[" + u1) by { SpanBlank("", [Lit("[")] + q1, "[" + u1); }
    assert Span([Lit("@params")] + q2, "@params" + u2) == Then(7, Span(q2, u2)) by { SpanLit("@params", q2, u2); }
    assert Then(7, Then(2, x)) == Then(9, x) by { ThenThen(7, 2, x); }
  }

  /** `@params['`, then more pattern over text that starts with something other than
      whitespace. */
  lemma KeyOpenHead(p: Pattern, t: string)
    requires 0 < |t| && !IsSpace(t[0])
    ensures Span(KeyOpen + p, "@params['" + t) == Then(9, Span(p, t))
  {
    assert KeyOpen + p == [Lit("@params")] + ([Spaces] + ([Lit("[")] + ([Spaces] + ([Quote] + p))));
    assert "@params['" + t == "@params" + ("" + ("[" + ("" + ("'" + t))));
    KeyOpenChain(p, t);
  }

  /** `@params['`, then a word. */
  lemma KeyOpenSpan(z: string)
    requires 0 < |z| && !IsSpace(z[0])
    ensures Span(KeyOpen, "@params['" + z) == Some(9)
  {
    assert KeyOpen + [] == KeyOpen;
    KeyOpenHead([], z);
  }

  lemma KeyCloseChain(p: Pattern, t: string)
    ensures Span([Quote] + ([Spaces] + ([Lit("]")] + ([Spaces] + ([Lit("=")] + p)))),
                 "'" + ("" + ("]" + (" " + ("=" + t))))) == Then(4, Span(p, t))
  {
    var x := Span(p, t);
    var q1 := [Spaces] + ([Lit("=")] + p);
    var u1 := " " + ("=" + t);
    var q2 := [Spaces] + ([Lit("]")] + q1);
    var u2 := "" + ("]" + u1);
    assert Span([Lit("=")] + p, "=" + t) == Then(1, x) by { SpanLit("=", p, t); }
    assert Span(q1, u1) == Then(1, Span([Lit("=")] + p, "=" + t)) by { SpanBlank(" ", [Lit("=")] + p, "=" + t); }
    assert Then(1, Then(1, x)) == Then(2, x) by { ThenThen(1, 1, x); }
    assert Span([Lit("]")] + q1, "]" + u1) == Then(1, Span(q1, u1)) by { SpanLit("]", q1, u1); }
    assert Then(1, Then(2, x)) == Then(3, x) by { ThenThen(1, 2, x); }
    assert Span(q2, u2) == Span([Lit("]")] + q1, "]" + u1) by { SpanBlank("", [Lit("]")] + q1, "]" + u1); }
    assert Span([Quote] + q2, "'" + u2) == Then(1, Span(q2, u2)) by { SpanQuote(q2, u2); }
    assert Then(1, Then(3, x)) == Then(4, x) by { ThenThen(1, 3, x); }
  }

  /** `'] =`, then more pattern. */
  lemma KeyCloseHead(p: Pattern, t: string)
    ensures Span(KeyClose + p, "'] =" + t) == Then(4, Span(p, t))
  {
    assert KeyClose + p == [Quote] + ([Spaces] + ([Lit("]")] + ([Spaces] + ([Lit("=")] + p))));
    assert "'] =" + t == "'" + ("" + ("]" + (" " + ("=" + t))));
    KeyCloseChain(p, t);
  }

  /** `'] =`, then anything. */
  lemma KeyCloseSpan(z: string)
    ensures Span(KeyClose, "'] =" + z) == Some(4)
  {
    assert KeyClose + [] == KeyClose;
    KeyCloseHead([], z);
  }

  /** `'] = '`, then anything. */
  lemma CloseQuote(z: string)
    ensures Span(KeyClose + [Spaces, Quote], "'] =" + (" " + ("'" + z))) == Some(6)
  {
    assert [Spaces, Quote] == [Spaces] + ([Quote] + []);
    SpanQuote([], z);
    SpanBlank(" ", [Quote], "'" + z);
    KeyCloseHead([Spaces, Quote], " " + ("'" + z));
  }

  /** `process_mode'] = '`, then anything. */
  lemma ModeTail(z: string)
    ensures Span([Lit("process_mode")] + (KeyClose + [Spaces, Quote]), "process_mode" + ("'] =" + (" " + ("'" + z))))
            == Some(18)
  {
    CloseQuote(z);
    SpanLit("process_mode", KeyClose + [Spaces, Quote], "'] =" + (" " + ("'" + z)));
  }

  /** `@params['process_mode'] = '`, then anything. */
  lemma ModeHead(z: string)
    ensures Span(ProcessModeRule.head, "@params['process_mode'] = '" + z) == Some(27)
  {
    var tail: Pattern := [Lit("process_mode")] + (KeyClose + [Spaces, Quote]);
    var t := "process_mode" + ("'] =" + (" " + ("'" + z)));
    assert ProcessModeRule.head == KeyOpen + tail;
    assert "@params['process_mode'] = '" + z == "@params['" + t;
    ModeTail(z);
    KeyOpenHead(tail, t);
  }

  lemma EzrunChain(z: string)
    ensures Span([Lit("run_RApp")] + ([Spaces] + ([Lit("(")] + ([Spaces] + [Quote]))),
                 "run_RApp" + ("" + ("(" + ("" + ("'" + z))))) == Some(10)
  {
    var x := Span([], z);
    var q1 := [Spaces] + [Quote];
    var u1 := "" + ("'" + z);
    var q2 := [Spaces] + ([Lit("(")] + q1);
    var u2 := "" + ("(" + u1);
    assert Span(q1, u1) == Then(1, x) by {
      SpanQuote([], z);
      assert [Quote] == [Quote] + [];
      SpanBlank("", [Quote], "'" + z);
    }
    assert Span([Lit("(")] + q1, "(" + u1) == Then(1, Span(q1, u1)) by { SpanLit("(", q1, u1); }
    assert Then(1, Then(1, x)) == Then(2, x) by { ThenThen(1, 1, x); }
    assert Span(q2, u2) == Span([Lit("(")] + q1, "(" + u1) by { SpanBlank("", [Lit("(")] + q1, "(" + u1); }
    assert Span([Lit("run_RApp")] + q2, "run_RApp" + u2) == Then(8, Span(q2, u2)) by { SpanLit("run_RApp", q2, u2); }
    assert Then(8, Then(2, x)) == Then(10, x) by { ThenThen(8, 2, x); }
    assert x == Some(0);
  }

  /** `run_RApp('`, then anything. */
  lemma EzrunHead(z: string)
    ensures Span(EzrunRule.head, "run_RApp('" + z) == Some(10)
  {
    assert EzrunRule.head == [Lit("run_RApp")] + ([Spaces] + ([Lit("(")] + ([Spaces] + [Quote])));
    assert "run_RApp('" + z == "run_RApp" + ("" + ("(" + ("" + ("'" + z))));
    EzrunChain(z);
  }

  // ---- one match of each rule ----

  /** A quoted-literal rule whose head reaches the opening quote captures the literal. */
  lemma QuotedHit(head: Pattern, u: string, x: string, z: string, bol: bool)
    requires Span(head, u + x + "'" + z) == Some(|u|) && Literal(x)
    ensures MatchHere(Quoted(head), u + x + "'" + z, bol) == Some(Hit(|u| + (|x| + 1), [x]))
  {
    var s := u + x + "'" + z;
    var t := x + (['\''] + z);
    assert s[|u|..] == t;
    HeadAt(Quoted(head), s, bol, |u|, t);
    DelimitedAt(NonQuote, x, '\'', z);
  }

  /** A bracketed rule whose head reaches the `[` captures everything up to the `]`. */
  lemma BracketedHit(head: Pattern, u: string, x: string, z: string, bol: bool)
    requires Span(head, u + x + "]" + z) == Some(|u|) && 0 < |x| && ']' !in x
    ensures MatchHere(Bracketed(head), u + x + "]" + z, bol) == Some(Hit(|u| + (|x| + 1), [x]))
  {
    var s := u + x + "]" + z;
    var t := x + ([']'] + z);
    assert s[|u|..] == t;
    HeadAt(Bracketed(head), s, bol, |u|, t);
    assert AllIn(NonBracket, x) by {
      forall i | 0 <= i < |x| ensures x[i] != ']' { assert x[i] in x; }
    }
    DelimitedAt(NonBracket, x, ']', z);
  }

  /** `@v = 'x'` gives `x`. */
  lemma ScalarHit(v: Var, x: string, z: string, bol: bool)
    requires Literal(x)
    ensures MatchHere(ScalarRule(v), "@" + Ident(v) + " = '" + x + "'" + z, bol).Some?
    ensures MatchHere(ScalarRule(v), "@" + Ident(v) + " = '" + x + "'" + z, bol).value.caps == [x]
  {
    var u := "@" + Ident(v) + " = '";
    ScalarHead(v, x + "'" + z);
    assert u + (x + "'" + z) == u + x + "'" + z;
    QuotedHit(AssignHead(v) + [Quote], u, x, z, bol);
  }

  /** `@v = [x]` gives the text `x` to scan for elements. */
  lemma ListHit(v: Var, x: string, z: string, bol: bool)
    requires 0 < |x| && ']' !in x
    ensures MatchHere(ListRule(v), "@" + Ident(v) + " = [" + x + "]" + z, bol).Some?
    ensures MatchHere(ListRule(v), "@" + Ident(v) + " = [" + x + "]" + z, bol).value.caps == [x]
  {
    var u := "@" + Ident(v) + " = [";
    ListHead(v, x + "]" + z);
    assert u + (x + "]" + z) == u + x + "]" + z;
    BracketedHit(AssignHead(v) + [Lit("[")], u, x, z, bol);
  }

  /** `@v = []` starts no match: the brackets hold nothing. */
  lemma EmptyListMiss(v: Var, z: string, bol: bool)
    ensures MatchHere(ListRule(v), "@" + Ident(v) + " = []" + z, bol).None?
  {
    var u := "@" + Ident(v) + " = [";
    ListHead(v, "]" + z);
    assert u + ("]" + z) == "@" + Ident(v) + " = []" + z;
    var s := u + ("]" + z);
    assert s[|u|..] == "]" + z;
    HeadAt(ListRule(v), s, bol, |u|, "]" + z);
  }

  /** `@params['process_mode'] = 'x'` gives `x`. */
  lemma ModeHit(x: string, z: string, bol: bool)
    requires Literal(x)
    ensures MatchHere(ProcessModeRule, "@params['process_mode'] = '" + x + "'" + z, bol).Some?
    ensures MatchHere(ProcessModeRule, "@params['process_mode'] = '" + x + "'" + z, bol).value.caps == [x]
  {
    var u := "@params['process_mode'] = '";
    ModeHead(x + "'" + z);
    assert u + (x + "'" + z) == u + x + "'" + z;
    QuotedHit(ProcessModeRule.head, u, x, z, bol);
  }

  /** `run_RApp('x'` gives `x`. */
  lemma EzrunHit(x: string, z: string, bol: bool)
    requires Literal(x)
    ensures MatchHere(EzrunRule, "run_RApp('" + x + "'" + z, bol).Some?
    ensures MatchHere(EzrunRule, "run_RApp('" + x + "'" + z, bol).value.caps == [x]
  {
    var u := "run_RApp('";
    EzrunHead(x + "'" + z);
    assert u + (x + "'" + z) == u + x + "'" + z;
    QuotedHit(EzrunRule.head, u, x, z, bol);
  }

  /** A parameter line starts with `@params['` and then its key. */
  lemma KeyRun(s: string, k: string, rest: string)
    requires s == "@params['" + (k + rest) && Identifier(k)
    ensures Span(KeyOpen, s) == Some(9) && s[9..] == k + rest
  {
    WordIsNotSpace(k[0]);
    assert (k + rest)[0] == k[0];
    KeyOpenSpan(k + rest);
  }

  /** After `@params['k`, a text the rule's closing part does not match. */
  lemma ParamMiss(s: string, k: string, rest: string, bol: bool)
    requires s == "@params['" + (k + rest) && Identifier(k) && (0 < |rest| ==> !IsWord(rest[0]))
    requires Span(KeyClose, rest).None?
    ensures MatchHere(ParamRule, s, bol).None?
  {
    KeyRun(s, k, rest);
    HeadAt(ParamRule, s, bol, 9, k + rest);
    AssignmentAfter(KeyOpen, KeyClose, k + rest);
    AssignedAt(KeyClose, k + rest, k, rest);
  }

  /** `@params['k'] = v` on a line of its own gives the key and the value, and the match
      ends where the line does. */
  lemma ParamHit(k: string, v: string, z: string, bol: bool)
    requires Identifier(k) && 0 < |v| && !IsSpace(v[0]) && '\n' !in v
    ensures var m := MatchHere(ParamRule, "@params['" + k + "'] = " + v + "\n" + z, bol);
            m.Some? && m.value.caps == [k, v] && m.value.len == 14 + |k| + |v|
  {
    var t := " " + (v + ("\n" + z));
    var rest := "'] =" + t;
    ParamText(k, v, z);
    ParamLine("@params['" + (k + rest), k, rest, t, v, z, bol);
  }

  lemma ParamLine(s: string, k: string, rest: string, t: string, v: string, z: string, bol: bool)
    requires Identifier(k) && 0 < |v| && !IsSpace(v[0]) && '\n' !in v
    requires t == " " + (v + ("\n" + z)) && rest == "'] =" + t && s == "@params['" + (k + rest)
    ensures var m := MatchHere(ParamRule, s, bol);
            m.Some? && m.value.caps == [k, v] && m.value.len == 14 + |k| + |v|
  {
    KeyRun(s, k, rest);
    HeadAt(ParamRule, s, bol, 9, k + rest);
    AssignmentAfter(KeyOpen, KeyClose, k + rest);
    ParamValue(k, rest, t, v, z);
  }

  /** After the key, `'] = v` up to the line feed. */
  lemma ParamValue(k: string, rest: string, t: string, v: string, z: string)
    requires Identifier(k) && 0 < |v| && !IsSpace(v[0]) && '\n' !in v
    requires t == " " + (v + ("\n" + z)) && rest == "'] =" + t
    ensures var m := AssignedFrom(KeyClose, k + rest);
            m.Some? && m.value.caps == [k, v] && m.value.len == |k| + 5 + |v|
  {
    KeyCloseSpan(t);
    assert rest[4..] == t;
    KeyedLine(KeyClose, k, rest, 4, v, z);
  }

  /** How a parameter line splits around its key. */
  lemma ParamText(k: string, v: string, z: string)
    ensures var s := "@params['" + k + "'] = " + v + "\n" + z;
            && s == "@params['" + (k + ("'] =" + (" " + (v + ("\n" + z)))))
            && s[13 + |k|..] == " " + (v + ("\n" + z))
  {
    var s := "@params['" + k + "'] = " + v + "\n" + z;
    assert s == "@params['" + (k + ("'] =" + (" " + (v + ("\n" + z)))));
    assert s[13 + |k|..] == " " + (v + ("\n" + z));
  }

  /** `', '` after the key: the `]` of the rule finds a comma. */
  lemma CommaMiss(t: string)
    ensures Span(KeyClose, "'" + ("" + (", '" + t))).None?
  {
    var p: Pattern := [Spaces] + ([Lit("=")] + []);
    assert KeyClose == [Quote] + ([Spaces] + ([Lit("]")] + p));
    SpanLitMiss("]", p, ", '" + t);
    SpanBlank("", [Lit("]")] + p, ", '" + t);
    SpanQuote([Spaces] + ([Lit("]")] + p), "" + (", '" + t));
  }

  /** `']` followed by something other than whitespace or `=`. */
  lemma RefCloseMiss(after: string)
    requires 0 < |after| && !IsSpace(after[0]) && after[0] != '='
    ensures Span(KeyClose, "'" + ("" + ("]" + ("" + after)))).None?
  {
    assert KeyClose == [Quote] + ([Spaces] + ([Lit("]")] + ([Spaces] + ([Lit("=")] + []))));
    SpanLitMiss("=", [], after);
    SpanBlank("", [Lit("=")] + [], after);
    SpanLit("]", [Spaces] + ([Lit("=")] + []), "" + after);
    SpanBlank("", [Lit("]")] + ([Spaces] + ([Lit("=")] + [])), "]" + ("" + after));
    SpanQuote([Spaces] + ([Lit("]")] + ([Spaces] + ([Lit("=")] + []))), "" + ("]" + ("" + after)));
  }

  /** `@params['k', 't'] = v` is not a match of the parameter rule: a `]` must follow the
      key. */
  lemma TaggedMiss(k: string, t: string, v: string, z: string, bol: bool)
    requires Identifier(k)
    ensures MatchHere(ParamRule, "@params['" + k + "', '" + t + "'] = " + v + z, bol).None?
  {
    var s := "@params['" + k + "', '" + t + "'] = " + v + z;
    var u := t + "'] = " + v + z;
    var rest := "'" + ("" + (", '" + u));
    assert s == "@params['" + (k + rest);
    CommaMiss(u);
    ParamMiss(s, k, rest, bol);
  }

  /** `@params['k']` followed by something other than whitespace or `=` is not a match of
      the parameter rule. */
  lemma RefMiss(k: string, after: string, bol: bool)
    requires Identifier(k) && 0 < |after| && !IsSpace(after[0]) && after[0] != '='
    ensures MatchHere(ParamRule, "@params['" + k + "']" + after, bol).None?
  {
    var s := "@params['" + k + "']" + after;
    var rest := "'" + ("" + ("]" + ("" + after)));
    assert s == "@params['" + (k + rest);
    RefCloseMiss(after);
    ParamMiss(s, k, rest, bol);
  }

  // ---- stretches no rule can start in ----

  /** `x` breaks off from `h` before either ends. */
  predicate Departs(h: string, x: string) {
    exists k | 0 <= k < |h| && k < |x| :: x[k] != h[k]
  }

  /** A stretch starting with a false start of the leading literal, and without its first
      character afterwards, starts no match. */
  lemma DepartInert(r: Rule, x: string)
    requires 0 < |Lead(r)| && Departs(Lead(r), x) && Lead(r)[0] !in x[1..]
    ensures Inert(Attempt(r), x)
  {
    var h := Lead(r);
    forall y: string, b: bool ensures Barren(Attempt(r), x, y, b) {
      var s := x + y;
      forall o | 0 <= o < |x| ensures !HitsAt(Attempt(r), s, b, o) {
        LeadNeeded(r, s[o..], BolAt(s, o, b));
        if o == 0 {
          var k :| 0 <= k < |h| && k < |x| && x[k] != h[k];
          assert s[0..][k] == x[k];
        } else {
          assert s[o..][0] == x[o] == x[1..][o - 1];
          assert x[1..][o - 1] in x[1..];
        }
      }
    }
  }

  /** A stretch without the first character of the leading literal starts no match. */
  lemma LeadInert(r: Rule, x: string)
    requires 0 < |Lead(r)| && Lead(r)[0] !in x
    ensures Inert(Attempt(r), x)
  {
    forall y: string, b: bool ensures Barren(Attempt(r), x, y, b) {
      LeadAbsent(r, x, y, b);
    }
  }

  /** A whole line that lacks the leading literal starts no match. */
  lemma LineInert(r: Rule, x: string)
    requires 0 < |Lead(r)| && '\n' !in Lead(r)
    requires 0 < |x| && x[|x| - 1] == '\n' && !Occurs(Lead(r), x)
    ensures Inert(Attempt(r), x)
  {
    forall y: string, b: bool ensures Barren(Attempt(r), x, y, b) {
      BarrenLine(r, x, y, b);
    }
  }

  /** A stretch that never starts a match of the rule, however it is continued. */
  lemma NoMatchInert(r: Rule, x: string)
    requires forall o, z, b | 0 <= o < |x| :: MatchHere(r, x[o..] + z, b).None?
    ensures Inert(Attempt(r), x)
  {
    forall y: string, b: bool ensures Barren(Attempt(r), x, y, b) {
      var s := x + y;
      forall o | 0 <= o < |x| ensures !HitsAt(Attempt(r), s, b, o) {
        assert s[o..] == x[o..] + y;
        assert MatchHere(r, x[o..] + y, BolAt(s, o, b)).None?;
      }
    }
  }

  /** Text without quote characters starts no match of the element rule. */
  lemma QuoteFreeInert(x: string)
    requires '\'' !in x && '"' !in x
    ensures Inert(Attempt(ElementRule), x)
  {
    forall o, z, b | 0 <= o < |x| ensures MatchHere(ElementRule, x[o..] + z, b).None? {
      assert (x[o..] + z)[0] == x[o] && x[o] in x;
      assert ElementRule.head == [Quote] + [];
    }
    NoMatchInert(ElementRule, x);
  }

  /** Two pieces, neither containing `h`, whose seam holds a character foreign to `h`. */
  lemma OccursJoin(h: string, x: string, y: string)
    requires 0 < |h| && !Occurs(h, x) && !Occurs(h, y)
    requires (0 < |x| && x[|x| - 1] !in h) || (0 < |y| && y[0] !in h)
    ensures !Occurs(h, x + y)
  {
    var s := x + y;
    forall i | 0 <= i <= |s| ensures !OccursAt(h, s, i) {
      if i + |h| > |s| {
      } else if i + |h| <= |x| {
        assert !OccursAt(h, x, i);
        assert s[i..][..|h|] == x[i..][..|h|];
      } else if |x| <= i {
        assert !OccursAt(h, y, i - |x|);
        assert s[i..] == y[i - |x|..];
      } else if 0 < |x| && x[|x| - 1] !in h {
        Foreign(h, s[i..], |x| - 1 - i);
      } else {
        Foreign(h, s[i..], |x| - i);
      }
    }
  }

  /** A text with a character foreign to `h` inside its first `|h|` does not start with
      `h`. */
  lemma Foreign(h: string, t: string, n: nat)
    requires n < |h| <= |t| && t[n] !in h
    ensures !(h <= t)
  {
    assert h[n] in h;
    assert t[..|h|][n] != h[n];
  }

  // ---- the method rule, line by line ----

  lemma RunJoin(k: CharClass, g: string, y: string)
    requires AllIn(k, g)
    ensures Run(k, g + y) == |g| + Run(k, y)
    decreases |g|
  {
    if |g| > 0 {
      assert (g + y)[0] == g[0] && InClass(k, g[0]);
      assert (g + y)[1..] == g[1..] + y;
      AllInSlice(k, g, 1, |g|);
      RunJoin(k, g[1..], y);
    } else {
      assert g + y == y;
    }
  }

  lemma AheadAhead(a: nat, b: nat, m: Option<Hit>)
    ensures Ahead(a, Ahead(b, m)) == Ahead(a + b, m)
  {
  }

  /** Leading whitespace only lengthens a match of `^\s*def\s+(\w+)`. */
  lemma MethodShift(g: string, y: string)
    requires Blank(g)
    ensures MatchHere(MethodRule, g + y, true) == Ahead(|g|, MatchHere(MethodRule, y, true))
  {
    assert MethodRule == LineStart([Spaces] + [Lit("def"), Spaces1]);
    LineStartShift([Lit("def"), Spaces1], g, y);
  }

  /** Leading whitespace only lengthens a match of a line-start rule that begins with
      `\s*`. */
  lemma LineStartShift(p: Pattern, g: string, y: string)
    requires Blank(g)
    ensures MatchHere(LineStart([Spaces] + p), g + y, true)
            == Ahead(|g|, MatchHere(LineStart([Spaces] + p), y, true))
  {
    var r := LineStart([Spaces] + p);
    SpacesShift(g, y, p);
    if Span([Spaces] + p, y).Some? {
      var j := Span([Spaces] + p, y).value;
      var t := y[j..];
      var m := After(r, t);
      assert MatchHere(r, y, true) == Ahead(j, m) by { HeadAt(r, y, true, j, t); }
      assert MatchHere(r, g + y, true) == Ahead(|g| + j, m) by {
        assert (g + y)[|g| + j..] == t;
        HeadAt(r, g + y, true, |g| + j, t);
      }
      assert Ahead(|g|, Ahead(j, m)) == Ahead(|g| + j, m) by { AheadAhead(|g|, j, m); }
    }
  }

  /** A leading `\s*` absorbs extra whitespace in front. */
  lemma SpacesShift(g: string, y: string, p: Pattern)
    requires Blank(g)
    ensures Span([Spaces] + p, g + y) == Then(|g|, Span([Spaces] + p, y))
  {
    var r := Run(Space, y);
    var y1 := y[..r];
    var y2 := y[r..];
    assert y == y1 + y2;
    assert 0 < |y2| ==> y2[0] == y[r];
    assert Blank(g + y1) by {
      forall i | 0 <= i < |g + y1| ensures IsSpace((g + y1)[i]) {
        if i < |g| { assert (g + y1)[i] == g[i]; } else { assert (g + y1)[i] == y1[i - |g|]; }
      }
    }
    assert g + y == (g + y1) + y2;
    SpanBlank(g + y1, p, y2);
    SpanBlank(y1, p, y2);
    ThenThen(|g|, |y1|, Span(p, y2));
  }

  /** A line of whitespace changes nothing `scan` finds. */
  lemma BlankLineScan(g: string, y: string)
    requires Blank(g) && 0 < |g| && g[|g| - 1] == '\n'
    ensures Scan(Attempt(MethodRule), g + y, true) == Scan(Attempt(MethodRule), y, true)
  {
    assert MethodRule == LineStart([Spaces] + [Lit("def"), Spaces1]);
    BlankLineSkip([Lit("def"), Spaces1], g, y);
  }

  /** A line of whitespace changes nothing `scan` finds with a line-start rule that begins
      with `\s*`. */
  lemma BlankLineSkip(p: Pattern, g: string, y: string)
    requires Blank(g) && 0 < |g| && g[|g| - 1] == '\n'
    ensures Scan(Attempt(LineStart([Spaces] + p)), g + y, true)
            == Scan(Attempt(LineStart([Spaces] + p)), y, true)
  {
    var r := LineStart([Spaces] + p);
    if MatchHere(r, y, true).Some? {
      BlankLineHit(p, g, y);
    } else {
      BlankLineBarren(p, g, y);
      ScanSkip(Attempt(r), g, y, true);
      assert (g + y)[|g| - 1] == g[|g| - 1];
    }
  }

  lemma BlankLineHit(p: Pattern, g: string, y: string)
    requires Blank(g) && MatchHere(LineStart([Spaces] + p), y, true).Some?
    ensures Scan(Attempt(LineStart([Spaces] + p)), g + y, true)
            == Scan(Attempt(LineStart([Spaces] + p)), y, true)
  {
    var r := LineStart([Spaces] + p);
    var a := Attempt(r);
    var s := g + y;
    var h := MatchHere(r, y, true).value;
    var e := |g| + h.len;
    assert a(s, true) == Some(Hit(e, h.caps)) by { LineStartShift(p, g, y); }
    assert Scan(a, s, true) == [h.caps] + Scan(a, s[e..], BolAt(s, e, true)) by {
      HitAt(a, s, true, Hit(e, h.caps));
    }
    assert Scan(a, y, true) == [h.caps] + Scan(a, y[h.len..], BolAt(y, h.len, true)) by {
      HitAt(a, y, true, h);
    }
    assert s[e..] == y[h.len..] && BolAt(s, e, true) == BolAt(y, h.len, true) by {
      assert s[e - 1] == y[h.len - 1];
    }
  }

  lemma BlankLineBarren(p: Pattern, g: string, y: string)
    requires Blank(g) && MatchHere(LineStart([Spaces] + p), y, true).None?
    ensures Barren(Attempt(LineStart([Spaces] + p)), g, y, true)
  {
    var r := LineStart([Spaces] + p);
    var s := g + y;
    forall o | 0 <= o < |g| ensures !HitsAt(Attempt(r), s, true, o) {
      if BolAt(s, o, true) {
        assert s[o..] == g[o..] + y;
        assert Blank(g[o..]) by { AllInSlice(Space, g, o, |g|); }
        LineStartShift(p, g[o..], y);
      }
    }
  }

  /** `  def name` on a line of its own is one match of the method rule. */
  lemma DefLineScan(g: string, name: string, y: string)
    requires Blank(g) && Identifier(name)
    ensures Scan(Attempt(MethodRule), g + "def " + name + "\n" + y, true)
            == [[name]] + Scan(Attempt(MethodRule), y, true)
  {
    var t := "def " + name + "\n" + y;
    assert g + "def " + name + "\n" + y == g + t;
    DefMatch(name, y);
    DefLineRest(name, y);
    assert MethodRule == LineStart([Spaces] + [Lit("def"), Spaces1]);
    LineHitScan([Lit("def"), Spaces1], g, t, y);
  }

  /** What follows the name on a `def` line. */
  lemma DefLineRest(name: string, y: string)
    requires Identifier(name)
    ensures var t := "def " + name + "\n" + y;
            4 + |name| <= |t| && t[4 + |name|..] == "\n" + y && t[3 + |name|] != '\n'
  {
    var t := "def " + name + "\n" + y;
    assert t[4 + |name|..] == "\n" + y;
    assert t[3 + |name|] == name[|name| - 1];
    WordIsNotSpace(name[|name| - 1]);
  }

  /** A line-start match that ends its line, after indentation: `scan` reports it and goes
      on with the next line. */
  lemma LineHitScan(p: Pattern, g: string, t: string, y: string)
    requires Blank(g)
    requires MatchHere(LineStart([Spaces] + p), t, true).Some?
    requires var n := MatchHere(LineStart([Spaces] + p), t, true).value.len;
             t[n..] == "\n" + y && t[n - 1] != '\n'
    ensures Scan(Attempt(LineStart([Spaces] + p)), g + t, true)
            == [MatchHere(LineStart([Spaces] + p), t, true).value.caps]
               + Scan(Attempt(LineStart([Spaces] + p)), y, true)
  {
    var r := LineStart([Spaces] + p);
    var a := Attempt(r);
    var s := g + t;
    var h := MatchHere(r, t, true).value;
    var e := |g| + h.len;
    assert a(s, true) == Some(Hit(e, h.caps)) by { LineStartShift(p, g, t); }
    assert Scan(a, s, true) == [h.caps] + Scan(a, s[e..], BolAt(s, e, true)) by {
      HitAt(a, s, true, Hit(e, h.caps));
    }
    assert s[e..] == "\n" + y && !BolAt(s, e, true) by {
      assert s[e - 1] == t[h.len - 1];
    }
    assert Scan(a, "\n" + y, false) == Scan(a, y, true) by { NewlineSkip([Spaces] + p, y); }
  }

  /** A line feed that does not itself start a line starts no line-start match. */
  lemma NewlineSkip(p: Pattern, y: string)
    ensures Scan(Attempt(LineStart(p)), "\n" + y, false) == Scan(Attempt(LineStart(p)), y, true)
  {
    assert Barren(Attempt(LineStart(p)), "\n", y, false);
    ScanSkip(Attempt(LineStart(p)), "\n", y, false);
  }

  /** `def name` followed by a line feed is one match of the method rule. */
  lemma DefMatch(name: string, y: string)
    requires Identifier(name)
    ensures MatchHere(MethodRule, "def " + name + "\n" + y, true) == Some(Hit(4 + |name|, [name]))
  {
    var t := "def " + name + "\n" + y;
    DefSpan(name, y);
    assert t[4..] == name + ("\n" + y);
    LineStartWord(MethodRule.head, t, 4, name, "\n" + y);
  }

  lemma DefSpan(name: string, y: string)
    requires Identifier(name)
    ensures Span(MethodRule.head, "def " + name + "\n" + y) == Some(4)
  {
    var head := MethodRule.head;
    assert head == [Spaces] + ([Lit("def")] + ([Spaces1] + []));
    WordIsNotSpace(name[0]);
    var u := name + "\n" + y;
    assert "def " + name + "\n" + y == "" + ("def" + (" " + u));
    SpanBlank1(" ", [], u);
    SpanLit("def", [Spaces1] + [], " " + u);
    SpanBlank("", [Lit("def")] + ([Spaces1] + []), "def" + (" " + u));
  }

  /** A line-start rule whose head is followed by a word captures the word. */
  lemma LineStartWord(p: Pattern, t: string, j: nat, w: string, z: string)
    requires Span(p, t) == Some(j) && j <= |t| && t[j..] == w + z
    requires Identifier(w) && (0 < |z| ==> !IsWord(z[0]))
    ensures MatchHere(LineStart(p), t, true) == Some(Hit(j + |w|, [w]))
  {
    WordAfter(p, w, z);
    HeadAt(LineStart(p), t, true, j, w + z);
  }

  /** After the head, a line-start rule takes the whole word. */
  lemma WordAfter(p: Pattern, w: string, z: string)
    requires Identifier(w) && (0 < |z| ==> !IsWord(z[0]))
    ensures After(LineStart(p), w + z) == Some(Hit(|w|, [w]))
  {
    RunOver(Word, w, z);
    assert (w + z)[..|w|] == w;
  }

  /** A line whose first character after the indentation is neither whitespace nor `d`
      holds no match of the method rule. */
  lemma PlainLineScan(g: string, x: string, y: string)
    requires Blank(g) && '\n' !in g && 0 < |x| && !IsSpace(x[0]) && x[0] != 'd' && '\n' !in x
    ensures Scan(Attempt(MethodRule), g + x + "\n" + y, true) == Scan(Attempt(MethodRule), y, true)
  {
    var a := Attempt(MethodRule);
    var u := g + x + "\n";
    var s := u + y;
    assert g + x + "\n" + y == s;
    forall o | 0 <= o < |u| ensures !HitsAt(a, s, true, o) {
      if o == 0 {
        assert s == g + (x + "\n" + y);
        MethodShift(g, x + "\n" + y);
        var t := x + "\n" + y;
        assert Run(Space, t) == 0;
        assert t[0] == x[0];
      } else {
        assert s[o - 1] == u[o - 1];
        if o - 1 < |g| {
          assert u[o - 1] == g[o - 1] && g[o - 1] in g;
        } else {
          assert u[o - 1] == x[o - 1 - |g|] && x[o - 1 - |g|] in x;
        }
      }
    }
    assert Barren(a, u, y, true);
    ScanSkip(a, u, y, true);
  }

  // ---- the heredoc's lazy body ----

  lemma {:induction false} TerminatorPast(s: string, tok: string, e: nat, m: nat)
    requires e + m <= |s|
    requires forall x | e <= x < e + m :: !TermAt(s, tok, x)
    ensures Terminator(s, tok, e) == Terminator(s, tok, e + m)
    decreases m
  {
    if m > 0 {
      TerminatorPast(s, tok, e + 1, m - 1);
    }
  }

  /** After a heredoc head: `-`, then the token, which the greedy `\w+` takes whole. */
  lemma HeredocAfter(h: Pattern, tok: string, rest: string)
    requires 0 < |tok| && AllIn(Word, tok) && (0 < |rest| ==> !IsWord(rest[0]))
    ensures After(Heredoc(h), "-" + (tok + rest)) == Ahead(1, HeredocFrom(tok + rest, |tok|))
  {
    var t := "-" + (tok + rest);
    assert t[0] == '-';
    assert t[1..] == tok + rest;
    RunOver(Word, tok, rest);
    assert (tok + rest)[..|tok|] == tok;
  }

  /** The longest token finds its terminator. */
  lemma HeredocFromAt(u: string, n: nat, tok: string, e: nat)
    requires 0 < n <= |u| && u[..n] == tok && AllIn(Word, tok)
    requires Terminator(u, tok, n + 1) == Some(e)
    ensures var m := HeredocFrom(u, n); m.Some? && m.value.caps == [tok, u[n..e]]
  {
    HeredocFound(u, n, e);
  }

  /** `heredoc_from` once the terminator is found at `e`. */
  lemma HeredocFound(u: string, n: nat, e: nat)
    requires 0 < n <= |u| && AllIn(Word, u[..n])
    requires Terminator(u, u[..n], n + 1) == Some(e)
    ensures var m := HeredocFrom(u, n); m.Some? && m.value.caps == [u[..n], u[n..e]]
  {
    assert n != 0;
  }

  /** Only a `LineStart` rule asks whether its attempt starts a line. */
  lemma BolFree(r: Rule, s: string, b: bool)
    requires !r.LineStart?
    ensures MatchHere(r, s, b) == MatchHere(r, s, true)
  {
  }

  /** So `=~` with such a rule reports the same match wherever the text starts: only the
      first attempt is told the flag, and the later ones read it off the text. */
  lemma FindBolFree(r: Rule, s: string, b: bool)
    requires !r.LineStart?
    ensures Find(Attempt(r), s, b) == Find(Attempt(r), s, true)
  {
    BolFree(r, s, b);
    assert Attempt(r)(s, b) == Attempt(r)(s, true);
  }

  /** `=~` with a rule that is not anchored at a line start looks past any inert text to
      the same match, whether or not that text ends a line. */
  lemma CaptureAfter(r: Rule, x: string, y: string)
    requires Inert(Attempt(r), x) && !r.LineStart?
    ensures FirstCapture(r, x + y) == FirstCapture(r, y)
  {
    assert Barren(Attempt(r), x, y, true);
    FindSkip(Attempt(r), x, y, true);
    FindBolFree(r, y, BolAt(x + y, |x|, true));
  }
}
