/** What the extractor finds when it reads a template back: a rule led by a variable's name
    finds the first line that assigns the variable, past lines that name only other
    variables; and the element rule, run over a rendered list, gives the list back. */
module Reparse {
  import opened Chars
  import opened Text
  import opened Optional
  import opened Patterns
  import opened Search
  import opened Rules
  import opened Ivars
  import opened Lists
  import opened AppParser
  import opened Reading
  import opened AppTemplate
  import opened Marks
  import opened Layout

  /** Every line is calm and names only variables of `S`. */
  predicate CalmLines(ls: seq<Line>, S: set<Var>) {
    forall i | 0 <= i < |ls| :: CalmLine(ls[i], S)
  }

  lemma TidyCalm(ls: seq<Line>, S: set<Var>)
    requires TidyLines(ls, S)
    ensures CalmLines(ls, S)
  {
    forall i | 0 <= i < |ls| ensures CalmLine(ls[i], S) {
      assert Tidy(ls[i], S);
    }
  }

  lemma CalmJoin(a: seq<Line>, b: seq<Line>, S: set<Var>)
    requires CalmLines(a, S) && CalmLines(b, S)
    ensures CalmLines(a + b, S)
  {
    forall i | 0 <= i < |a + b| ensures CalmLine((a + b)[i], S) {
      if i < |a| { assert (a + b)[i] == a[i]; } else { assert (a + b)[i] == b[i - |a|]; }
    }
  }

  lemma CalmMore(ls: seq<Line>, S: set<Var>, T: set<Var>)
    requires CalmLines(ls, S) && S <= T
    ensures CalmLines(ls, T)
  {
    forall i | 0 <= i < |ls| ensures CalmLine(ls[i], T) {
      assert CalmLine(ls[i], S);
    }
  }

  /** The text of lines around one line. */
  lemma RenderSplit(p: seq<Line>, t: Line, q: seq<Line>)
    ensures Render(p + [t] + q) == Render(p) + (LineText(t) + Render(q))
  {
    assert p + [t] + q == p + ([t] + q);
    RenderJoin(p, [t] + q);
    assert ([t] + q)[1..] == q;
  }

  // ---- searching past inert text ----

  /** Lines that name only variables of `S` hold no match of a rule led by another's name. */
  lemma LinesInert(r: Rule, v: Var, ls: seq<Line>, S: set<Var>)
    requires Lead(r) == "@" + Ident(v) && v !in S && CalmLines(ls, S)
    ensures Inert(Attempt(r), Render(ls))
  {
    RenderMarked(ls, S);
    MarkedInert(r, v, Render(ls), S);
  }

  /** `=~` looks past an inert stretch to a match that starts right after it. */
  lemma CaptureAfter(r: Rule, x: string, t: string, h: Hit)
    requires !r.LineStart? && Inert(Attempt(r), x) && MatchHere(r, t, true) == Some(h)
    ensures FirstCapture(r, x + t) == Some(h.caps[0])
  {
    var a := Attempt(r);
    var b := BolAt(x + t, |x|, true);
    assert Barren(a, x, t, true);
    FindSkip(a, x, t, true);
    Flagless(r, t, true, b);
    FindFirst(a, t, b);
  }

  /** `=~` finds nothing in an inert text. */
  lemma InertNone(r: Rule, s: string)
    requires Inert(Attempt(r), s)
    ensures FirstCapture(r, s).None?
  {
    var a := Attempt(r);
    assert Barren(a, s, "", true);
    assert s + "" == s;
    FindSkip(a, s, "", true);
    assert Find(a, "", BolAt(s, |s|, true)).None?;
  }

  /** Indentation starts no match of a rule led by a name or by `run_RApp`. */
  lemma IndentInert(r: Rule, n: nat)
    requires 0 < |Lead(r)| && !IsSpace(Lead(r)[0])
    ensures Inert(Attempt(r), Indent(n))
  {
    var g := Indent(n);
    forall i | 0 <= i < |g| ensures g[i] != Lead(r)[0] {
      assert g[i] == ' ';
    }
    LeadInert(r, g);
  }

  /** The text of a line whose first chunk is `@v`: the indentation, then the variable. */
  lemma AtLineText(v: Var, n: nat, cs: seq<Chunk>)
    ensures LineText(Line(n, [At(v)] + cs)) == Indent(n) + ("@" + Ident(v) + Body(cs) + "\n")
  {
    assert ([At(v)] + cs)[1..] == cs;
  }

  // ---- list lines ----

  lemma ListLineText(v: Var, x: string, y: string)
    ensures LineText(ListLine(v, x)) + y == Indent(4) + ("@" + Ident(v) + " = [" + x + "]" + ("\n" + y))
  {
    ListBody(v, x);
    Regroup(Indent(4), "@" + Ident(v) + " = [" + x + "]", y);
  }

  lemma ListBody(v: Var, x: string)
    ensures Body(ListLine(v, x).chunks) == "@" + Ident(v) + " = [" + x + "]"
  {
    var cs := ListLine(v, x).chunks;
    assert Body(cs[3..]) == "]" by { assert cs[3..][1..] == []; }
    assert Body(cs[2..]) == x + "]" by { assert cs[2..][1..] == cs[3..]; }
    assert Body(cs[1..]) == " = [" + (x + "]") by { assert cs[1..][1..] == cs[2..]; }
  }

  /** A line's text and what follows, the indentation split off. */
  lemma Regroup(g: string, b: string, y: string)
    ensures g + b + "\n" + y == g + (b + ("\n" + y))
  {
  }

  /** The first `@v = [...]` of the text is the line that assigns `v`, past lines that name
      only other variables. */
  lemma ListFound(v: Var, p: seq<Line>, x: string, q: seq<Line>, S: set<Var>)
    requires CalmLines(p, S) && v !in S && 0 < |x| && ']' !in x
    ensures FirstCapture(ListRule(v), Render(p + [ListLine(v, x)] + q)) == Some(x)
  {
    var r := ListRule(v);
    var z := "\n" + Render(q);
    var t := "@" + Ident(v) + " = [" + x + "]" + z;
    assert Lead(r) == "@" + Ident(v);
    LinesInert(r, v, p, S);
    IndentInert(r, 4);
    InertJoin(Attempt(r), Render(p), Indent(4));
    ListHit(v, x, z, true);
    RenderSplit(p, ListLine(v, x), q);
    ListLineText(v, x, Render(q));
    Assoc(Render(p), Indent(4), t);
    CaptureAfter(r, Render(p) + Indent(4), t, MatchHere(r, t, true).value);
  }

  /** The quoted elements of a list rendered by `QuotedList`, read back by the element
      rule, are the list. */
  lemma {:induction false} QuotedScan(xs: seq<string>, b: bool)
    requires AllElements(xs)
    ensures Flatten(Scan(Attempt(ElementRule), QuotedList(xs), b)) == xs
    decreases |xs|, 2
  {
    if |xs| == 0 {
      assert Scan(Attempt(ElementRule), "", b) == [];
    } else if |xs| == 1 {
      QuotedOne(xs[0], b);
      assert xs == [xs[0]];
    } else {
      QuotedMany(xs, b);
    }
  }

  /** A single element. */
  lemma QuotedOne(x: string, b: bool)
    requires Element(x)
    ensures Flatten(Scan(Attempt(ElementRule), QuotedList([x]), b)) == [x]
  {
    var a := Attempt(ElementRule);
    var c := BolAt("'" + x + "'" + "", |x| + 2, b);
    assert QuotedList([x]) == "'" + x + "'" + "";
    ElementHit(x, "", b);
    FlattenSingle(x, Scan(a, "", c));
    assert Scan(a, "", c) == [];
  }

  /** How `QuotedList` writes a list of two or more elements. */
  lemma QuotedCons(xs: seq<string>)
    requires 1 < |xs|
    ensures QuotedList(xs) == "'" + xs[0] + "'" + (", " + QuotedList(xs[1..]))
  {
    assert QuotedList(xs) == "'" + xs[0] + "', " + QuotedList(xs[1..]);
    CommaQuote();
    Reassociate("'", xs[0], "'", ", ", QuotedList(xs[1..]));
  }

  lemma CommaQuote()
    ensures "', " == "'" + ", "
  {
  }

  lemma Reassociate(a: string, x: string, c: string, d: string, q: string)
    ensures a + x + (c + d) + q == a + x + c + (d + q)
  {
  }

  /** The first of several elements, then the rest. */
  lemma {:induction false} QuotedMany(xs: seq<string>, b: bool)
    requires 1 < |xs| && AllElements(xs)
    ensures Flatten(Scan(Attempt(ElementRule), QuotedList(xs), b)) == xs
    decreases |xs|, 1
  {
    var a := Attempt(ElementRule);
    var x := xs[0];
    var rest := ", " + QuotedList(xs[1..]);
    var c := BolAt("'" + x + "'" + rest, |x| + 2, b);
    QuotedCons(xs);
    assert Element(x);
    ElementHit(x, rest, b);
    FlattenSingle(x, Scan(a, rest, c));
    QuotedRest(xs, c);
    assert xs == [x] + xs[1..];
  }

  /** The elements after the first, past the separator. */
  lemma {:induction false} QuotedRest(xs: seq<string>, c: bool)
    requires 1 < |xs| && AllElements(xs)
    ensures Flatten(Scan(Attempt(ElementRule), ", " + QuotedList(xs[1..]), c)) == xs[1..]
    decreases |xs|, 0
  {
    var tail := xs[1..];
    assert AllElements(tail) by {
      forall i | 0 <= i < |tail| ensures Element(tail[i]) { assert tail[i] == xs[i + 1]; }
    }
    CommaPast(QuotedList(tail), c);
    QuotedScan(tail, BolAt(", " + QuotedList(tail), 2, c));
  }

  /** One quoted element is one match, and the scan goes on after its closing quote. */
  lemma ElementHit(x: string, rest: string, b: bool)
    requires Element(x)
    ensures var s := "'" + x + "'" + rest;
            Scan(Attempt(ElementRule), s, b) == [[x]] + Scan(Attempt(ElementRule), rest, BolAt(s, |x| + 2, b))
  {
    var a := Attempt(ElementRule);
    var s := "'" + x + "'" + rest;
    assert Span([Quote], s) == Some(1) by {
      assert s[0] == '\'' && s[1..] == x + "'" + rest;
      assert [Quote][1..] == [];
    }
    assert ElementRule.head == [Quote];
    QuotedHit([Quote], "'", x, rest, b);
    assert s[|x| + 2..] == rest;
    ScanHit(a, s, b);
  }

  /** The separator between elements holds no quote. */
  lemma CommaPast(t: string, b: bool)
    ensures Scan(Attempt(ElementRule), ", " + t, b) == Scan(Attempt(ElementRule), t, BolAt(", " + t, 2, b))
  {
    QuoteFreeInert(", ");
    ScanPast(Attempt(ElementRule), ", ", t, b);
  }

  lemma FlattenSingle(x: string, rest: seq<seq<string>>)
    ensures Flatten([[x]] + rest) == [x] + Flatten(rest)
  {
    assert ([[x]] + rest)[1..] == rest;
  }

  /** A rendered list of elements holds no `]` and is empty only for the empty list. */
  lemma {:induction false} QuotedShape(xs: seq<string>)
    requires AllElements(xs)
    ensures ']' !in QuotedList(xs)
    ensures 0 < |xs| ==> 0 < |QuotedList(xs)|
    decreases |xs|
  {
    if |xs| > 0 {
      var x := xs[0];
      assert Element(x);
      assert ']' !in x by {
        forall i | 0 <= i < |x| ensures x[i] != ']' { assert InClass(NonBracket, x[i]); }
      }
      if |xs| > 1 {
        var tail := xs[1..];
        assert AllElements(tail) by {
          forall i | 0 <= i < |tail| ensures Element(tail[i]) { assert tail[i] == xs[i + 1]; }
        }
        QuotedShape(tail);
        NoBracket("'" + x + "', ", QuotedList(tail));
      } else {
        NoBracket("'", x);
        NoBracket("'" + x, "'");
      }
    }
  }

  lemma NoBracket(a: string, b: string)
    requires ']' !in a && ']' !in b
    ensures ']' !in a + b
  {
    forall i | 0 <= i < |a + b| ensures (a + b)[i] != ']' {
      if i < |a| { assert (a + b)[i] == a[i] && a[i] in a; }
      else { assert (a + b)[i] == b[i - |a|] && b[i - |a|] in b; }
    }
  }

  /** A list line of the template reads back as the list it renders. */
  lemma ElementsFound(v: Var, p: seq<Line>, xs: seq<string>, q: seq<Line>, S: set<Var>)
    requires CalmLines(p, S) && v !in S && 0 < |xs| && AllElements(xs)
    ensures Elements(v, Render(p + [ListLine(v, QuotedList(xs))] + q)) == xs
  {
    QuotedShape(xs);
    ListFound(v, p, QuotedList(xs), q, S);
    QuotedScan(xs, true);
  }

  // ---- scalar lines ----

  /** The text of `@v`, then three pieces of fixed text. */
  lemma AtBody(v: Var, a: string, x: string, c: string)
    ensures Body([At(v), Code(a), Code(x), Code(c)]) == "@" + Ident(v) + a + x + c
  {
    var cs := [At(v), Code(a), Code(x), Code(c)];
    assert Body(cs[3..]) == c by { assert cs[3..][1..] == []; }
    assert Body(cs[2..]) == x + c by { assert cs[2..][1..] == cs[3..]; }
    assert Body(cs[1..]) == a + (x + c) by { assert cs[1..][1..] == cs[2..]; }
    var h := "@" + Ident(v);
    Assoc(a, x, c);
    Assoc(h, a + x, c);
    Assoc(h, a, x);
  }

  lemma ScalarLineText(v: Var, x: string, y: string)
    ensures LineText(ScalarLine(v, x)) + y == Indent(4) + ("@" + Ident(v) + " = '" + x + "'" + ("\n" + y))
  {
    AtBody(v, " = '", x, "'");
    Regroup(Indent(4), "@" + Ident(v) + " = '" + x + "'", y);
  }

  /** The first `@v = '...'` of the text is the line that sets `v`, past lines that name
      only other variables. */
  lemma ScalarFound(v: Var, p: seq<Line>, x: string, q: seq<Line>, S: set<Var>)
    requires CalmLines(p, S) && v !in S && Literal(x)
    ensures FirstCapture(ScalarRule(v), Render(p + [ScalarLine(v, x)] + q)) == Some(x)
  {
    var r := ScalarRule(v);
    var z := "\n" + Render(q);
    var t := "@" + Ident(v) + " = '" + x + "'" + z;
    assert Lead(r) == "@" + Ident(v);
    LinesInert(r, v, p, S);
    IndentInert(r, 4);
    InertJoin(Attempt(r), Render(p), Indent(4));
    ScalarHit(v, x, z, true);
    RenderSplit(p, ScalarLine(v, x), q);
    ScalarLineText(v, x, Render(q));
    Assoc(Render(p), Indent(4), t);
    CaptureAfter(r, Render(p) + Indent(4), t, MatchHere(r, t, true).value);
  }

  /** The key of the process mode, written as the template writes it. */
  lemma ModeKey()
    ensures "@params['" + "process_mode" + "'] = " + "'" == "@params['process_mode'] = '"
  {
  }

  /** Regrouping a value line around its opening quote. */
  lemma Shuffle(g: string, k: string, q: string, m: string, tail: string, y: string)
    ensures g + (k + "" + (q + m + q + tail)) + "\n" + y == g + (k + q + m + q + (tail + ("\n" + y)))
  {
  }

  /** `@params['process_mode'] = 'm'` and a comment. */
  lemma ModeText(m: string, tail: string, y: string)
    ensures LineText(ModeLine("'" + m + "'" + tail)) + y
            == Indent(4) + ("@params['process_mode'] = '" + m + "'" + (tail + ("\n" + y)))
  {
    var k := "@params['" + "process_mode" + "'] = ";
    var cs := ModeLine("'" + m + "'" + tail).chunks;
    assert cs[1..] == [];
    assert Body(cs) == k + ("'" + m + "'" + tail) + "";
    Shuffle(Indent(4), k, "'", m, tail, y);
    ModeKey();
  }

  /** Lines that do not touch `@params`, and the indentation of the next line. */
  lemma ModeLead(p: seq<Line>, S: set<Var>)
    requires CalmLines(p, S) && Params !in S
    ensures Inert(Attempt(ProcessModeRule), Render(p) + Indent(4))
  {
    var r := ProcessModeRule;
    assert Lead(r) == "@" + Ident(Params);
    LinesInert(r, Params, p, S);
    IndentInert(r, 4);
    InertJoin(Attempt(r), Render(p), Indent(4));
  }

  /** The first `@params['process_mode'] = '...'` is the mode line, past lines that do not
      touch `@params`. */
  lemma ModeFound(p: seq<Line>, m: string, tail: string, q: seq<Line>, S: set<Var>)
    requires CalmLines(p, S) && Params !in S && Literal(m)
    ensures FirstCapture(ProcessModeRule, Render(p + [ModeLine("'" + m + "'" + tail)] + q)) == Some(m)
  {
    var r := ProcessModeRule;
    var l := ModeLine("'" + m + "'" + tail);
    var t := "@params['process_mode'] = '" + m + "'" + (tail + ("\n" + Render(q)));
    ModeLead(p, S);
    ModeHit(m, tail + ("\n" + Render(q)), true);
    RenderSplit(p, l, q);
    ModeText(m, tail, Render(q));
    Assoc(Render(p), Indent(4), t);
    CaptureAfter(r, Render(p) + Indent(4), t, MatchHere(r, t, true).value);
  }

  // ---- the `run_RApp` call ----

  lemma {:induction false} RenderLined(ls: seq<Line>)
    ensures Lined(Render(ls))
    decreases |ls|
  {
    if 0 < |ls| {
      RenderLined(ls[1..]);
      var t := LineText(ls[0]);
      assert t[|t| - 1] == '\n';
    }
  }

  /** Tidy lines hold no match of the `run_RApp(...)` rule. */
  lemma TidyInert(ls: seq<Line>, S: set<Var>)
    requires TidyLines(ls, S)
    ensures Inert(Attempt(EzrunRule), Render(ls))
  {
    var x := Render(ls);
    if |x| == 0 {
      InertEmpty(Attempt(EzrunRule));
    } else {
      RenderQuiet(ls, S);
      RenderLined(ls);
      assert Lead(EzrunRule) == Call;
      LineInert(EzrunRule, x);
    }
  }

  lemma CommandsText(ez: string, y: string)
    ensures LineText(CommandsLine(ez)) + y == Indent(4) + ("run_RApp('" + ez + "'" + (")" + ("\n" + y)))
  {
    var cs := CommandsLine(ez).chunks;
    assert Body(cs[2..]) == "')" by { assert cs[2..][1..] == []; }
    assert Body(cs[1..]) == ez + "')" by { assert cs[1..][1..] == cs[2..]; }
    assert Body(cs) == "run_RApp('" + (ez + "')");
  }

  /** The first `run_RApp('...'` of the text is the template's call, past tidy lines. */
  lemma EzrunFound(p: seq<Line>, ez: string, q: seq<Line>, S: set<Var>)
    requires TidyLines(p, S) && Literal(ez)
    ensures FirstCapture(EzrunRule, Render(p + [CommandsLine(ez)] + q)) == Some(ez)
  {
    var r := EzrunRule;
    var z := ")" + ("\n" + Render(q));
    var t := "run_RApp('" + ez + "'" + z;
    TidyInert(p, S);
    assert Lead(r) == "run_RApp";
    IndentInert(r, 4);
    InertJoin(Attempt(r), Render(p), Indent(4));
    EzrunHit(ez, z, true);
    RenderSplit(p, CommandsLine(ez), q);
    CommandsText(ez, Render(q));
    Assoc(Render(p), Indent(4), t);
    CaptureAfter(r, Render(p) + Indent(4), t, MatchHere(r, t, true).value);
  }

  // ---- lines that start no match ----

  /** A stretch that starts with `@`, holds no other, and starts no match however it goes
      on, is inert for a rule led by `@`. */
  lemma SigilInert(r: Rule, x: string)
    requires 0 < |Lead(r)| && Lead(r)[0] == '@' && 0 < |x| && '@' !in x[1..]
    requires forall y: string, b: bool :: MatchHere(r, x + y, b).None?
    ensures Inert(Attempt(r), x)
  {
    forall y: string, b: bool ensures Barren(Attempt(r), x, y, b) {
      var s := x + y;
      forall o | 0 <= o < |x| ensures !HitsAt(Attempt(r), s, b, o) {
        if o == 0 {
          assert s[0..] == x + y;
        } else {
          LeadNeeded(r, s[o..], BolAt(s, o, b));
          assert s[o..][0] == x[1..][o - 1] && x[1..][o - 1] in x[1..];
        }
      }
    }
  }

  /** `@v = []` then a line feed. */
  lemma EmptyInert(v: Var)
    ensures Inert(Attempt(ListRule(v)), "@" + Ident(v) + " = []" + "\n")
  {
    var x := "@" + Ident(v) + " = []" + "\n";
    WordShape(v);
    assert x[1..] == Ident(v) + " = []\n";
    NoAt(Ident(v), " = []\n");
    forall y: string, b: bool ensures MatchHere(ListRule(v), x + y, b).None? {
      assert x + y == "@" + Ident(v) + " = []" + ("\n" + y);
      EmptyListMiss(v, "\n" + y, b);
    }
    assert Lead(ListRule(v)) == "@" + Ident(v);
    SigilInert(ListRule(v), x);
  }

  /** The line of an empty list starts no match of the list rule. */
  lemma EmptyLineInert(v: Var)
    ensures Inert(Attempt(ListRule(v)), LineText(ListLine(v, "")))
  {
    AtBody(v, " = [", "", "]");
    assert "@" + Ident(v) + " = [" + "" + "]" == "@" + Ident(v) + " = []";
    assert LineText(ListLine(v, "")) == Indent(4) + ("@" + Ident(v) + " = []" + "\n");
    assert Lead(ListRule(v)) == "@" + Ident(v);
    IndentInert(ListRule(v), 4);
    EmptyInert(v);
    InertJoin(Attempt(ListRule(v)), Indent(4), "@" + Ident(v) + " = []" + "\n");
  }

  /** `@inherit_columns` followed by `)` is no assignment. */
  lemma MergeMiss(z: string, b: bool)
    ensures MatchHere(ListRule(InheritColumns), "@inherit_columns" + ("))" + z), b).None?
  {
    var w := "@inherit_columns";
    var tail: Pattern := [Lit("=")] + ([Spaces] + [Lit("[")]);
    assert "@" + Ident(InheritColumns) == w;
    assert ListRule(InheritColumns).head == [Lit(w)] + ([Spaces] + tail);
    SpanLit(w, [Spaces] + tail, "))" + z);
    assert "" + ("))" + z) == "))" + z;
    assert ("))" + z)[0] == ')';
    ParenNotSpace();
    SpanBlank("", tail, "))" + z);
    SpanLitMiss("=", [Spaces] + [Lit("[")], "))" + z);
  }

  lemma MergeText()
    ensures LineText(MergeLine)
            == Indent(4) + ("}.merge(extract_columns(" + ("colnames: " + ("@inherit_columns" + "))"))) + "\n"
  {
    var cs := MergeLine.chunks;
    assert Body(cs[3..]) == "))" by { assert cs[3..][1..] == []; }
    assert Body(cs[2..]) == "@inherit_columns" + "))" by { assert cs[2..][1..] == cs[3..]; }
    assert Body(cs[1..]) == "colnames: " + ("@inherit_columns" + "))") by { assert cs[1..][1..] == cs[2..]; }
  }

  lemma MergeRegroup(g: string, a: string, b: string, c: string, d: string)
    ensures g + (a + (b + (c + d))) + "\n" == (g + a + b) + (c + (d + "\n"))
  {
  }

  lemma MergeFree()
    ensures '@' !in "}.merge(extract_columns(" && '@' !in "colnames: "
  {
  }

  /** The fixed text before `@inherit_columns` on the `extract_columns` line. */
  lemma MergeLead()
    ensures Inert(Attempt(ListRule(InheritColumns)), Indent(4) + "}.merge(extract_columns(" + "colnames: ")
  {
    var r := ListRule(InheritColumns);
    var a := "}.merge(extract_columns(";
    var b := "colnames: ";
    assert Lead(r) == "@" + Ident(InheritColumns);
    assert '@' !in Indent(4) + a + b by { MergeFree(); NoAt(Indent(4), a); NoAt(Indent(4) + a, b); }
    LeadInert(r, Indent(4) + a + b);
  }

  /** `@inherit_columns))` and the line feed. */
  lemma MergeRead()
    ensures Inert(Attempt(ListRule(InheritColumns)), "@inherit_columns" + ("))" + "\n"))
  {
    var r := ListRule(InheritColumns);
    var x := "@inherit_columns" + ("))" + "\n");
    assert Lead(r) == "@" + Ident(InheritColumns);
    assert "@" + Ident(InheritColumns) == "@inherit_columns";
    assert x[1..] == "inherit_columns" + ("))" + "\n");
    forall y: string, b: bool ensures MatchHere(r, x + y, b).None? {
      assert x + y == "@inherit_columns" + ("))" + ("\n" + y));
      MergeMiss("\n" + y, b);
    }
    SigilInert(r, x);
  }

  /** The `extract_columns` line reads `@inherit_columns` but does not assign it. */
  lemma MergeInert()
    ensures Inert(Attempt(ListRule(InheritColumns)), LineText(MergeLine))
  {
    var a := "}.merge(extract_columns(";
    var b := "colnames: ";
    MergeText();
    MergeRegroup(Indent(4), a, b, "@inherit_columns", "))");
    MergeLead();
    MergeRead();
    InertJoin(Attempt(ListRule(InheritColumns)), Indent(4) + a + b, "@inherit_columns" + ("))" + "\n"));
  }

  // ---- lists the text does not set ----

  /** A list no line assigns reads back empty. */
  lemma ElementsNone(v: Var, ls: seq<Line>, S: set<Var>)
    requires CalmLines(ls, S) && v !in S
    ensures Elements(v, Render(ls)) == []
  {
    assert Lead(ListRule(v)) == "@" + Ident(v);
    LinesInert(ListRule(v), v, ls, S);
    InertNone(ListRule(v), Render(ls));
  }

  /** An empty list literal reads back empty when no other line assigns the list. */
  lemma EmptyFound(v: Var, p: seq<Line>, q: seq<Line>, S: set<Var>)
    requires CalmLines(p, S) && v !in S && Inert(Attempt(ListRule(v)), Render(q))
    ensures Elements(v, Render(p + [ListLine(v, "")] + q)) == []
  {
    var r := ListRule(v);
    assert Lead(r) == "@" + Ident(v);
    LinesInert(r, v, p, S);
    EmptyLineInert(v);
    RenderSplit(p, ListLine(v, ""), q);
    InertJoin(Attempt(r), LineText(ListLine(v, "")), Render(q));
    InertJoin(Attempt(r), Render(p), LineText(ListLine(v, "")) + Render(q));
    InertNone(r, Render(p + [ListLine(v, "")] + q));
  }

  // ---- the modules fallback ----

  lemma DevText()
    ensures "['Dev/R']" == "['Dev/R'" + "]"
    ensures "['Dev/R'" == "[" + QuotedList(["Dev/R"])
    ensures Element("Dev/R") && 0 < |"['Dev/R'"| && ']' !in "['Dev/R'"
    ensures '\'' !in "[" && '"' !in "["
  {
    assert QuotedList(["Dev/R"]) == "'" + "Dev/R" + "'";
  }

  /** The quoted elements of `['Dev/R'` are `Dev/R`. */
  lemma DevScan(b: bool)
    ensures Flatten(Scan(Attempt(ElementRule), "['Dev/R'", b)) == ["Dev/R"]
  {
    DevText();
    QuoteFreeInert("[");
    ScanPast(Attempt(ElementRule), "[", QuotedList(["Dev/R"]), b);
    QuotedOne("Dev/R", BolAt("[" + QuotedList(["Dev/R"]), 1, b));
  }

  lemma DevRegroup(u: string, y: string, z: string)
    requires y == "['Dev/R'" + "]"
    ensures u + y + "]" + z == u + "['Dev/R'" + "]" + ("]" + z)
  {
  }

  /** `@modules = [['Dev/R']]`, the line written for a base without modules, reads back as
      the one module `Dev/R`: the list ends at the first `]`. */
  lemma DevFound(p: seq<Line>, q: seq<Line>, S: set<Var>)
    requires CalmLines(p, S) && Modules !in S
    ensures Elements(Modules, Render(p + [ListLine(Modules, "['Dev/R']")] + q)) == ["Dev/R"]
  {
    var r := ListRule(Modules);
    var x := "['Dev/R'";
    var z := "\n" + Render(q);
    var u := "@" + Ident(Modules) + " = [";
    var t := u + "['Dev/R']" + "]" + z;
    assert Lead(r) == "@" + Ident(Modules);
    LinesInert(r, Modules, p, S);
    IndentInert(r, 4);
    InertJoin(Attempt(r), Render(p), Indent(4));
    DevText();
    DevRegroup(u, "['Dev/R']", z);
    ListHit(Modules, x, "]" + z, true);
    RenderSplit(p, ListLine(Modules, "['Dev/R']"), q);
    ListLineText(Modules, "['Dev/R']", Render(q));
    Assoc(Render(p), Indent(4), t);
    CaptureAfter(r, Render(p) + Indent(4), t, MatchHere(r, t, true).value);
    DevScan(true);
  }
}
