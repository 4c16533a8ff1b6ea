/** How `parse_content` reads the description and the scalar fields: the heredoc form of
    `@description` wins wherever it sits, its value is the text up to the first terminator
    line, stripped, the quoted form is only the fallback, and a scalar field is the first
    assignment whose quotes hold something. */
module DescriptionLemmas {
  import opened Chars
  import opened Text
  import opened Optional
  import opened Patterns
  import opened Search
  import opened Rules
  import opened Ivars
  import opened AppParser
  import opened Reading
  import Marks

  /** `@description = 'q'`, then the rest of the text. */
  function QuotedDescription(q: string, z: string): string {
    "@description = '" + q + "'" + z
  }

  // ---- stretches the rules do not start in ----

  /** `@description = '` followed by text without `@` starts no heredoc: after `= ` comes a
      quote, not `<<`. */
  lemma QuotedNoHeredoc(w: string)
    requires '@' !in w
    ensures Inert(Attempt(HeredocRule), "@description = '" + w)
  {
    var x := "@description = '" + w;
    forall o, z, b | 0 <= o < |x| ensures MatchHere(HeredocRule, x[o..] + z, b).None? {
      QuotedMissAt(w, o, z, b);
    }
    NoMatchInert(HeredocRule, x);
  }

  lemma QuotedMissAt(w: string, o: nat, z: string, b: bool)
    requires '@' !in w && o < |"@description = '" + w|
    ensures MatchHere(HeredocRule, ("@description = '" + w)[o..] + z, b).None?
  {
    if o == 0 {
      HeredocQuoteMiss(w + z, b);
      QuotedStart("@description = '", w, z);
    } else {
      QuotedInside(w, o, z, b);
    }
  }

  lemma QuotedStart(a: string, w: string, z: string)
    ensures (a + w)[0..] + z == a + (w + z)
  {
    assert (a + w)[0..] == a + w;
  }

  /** Past its first character the quoted line holds no `@`, so no heredoc starts there. */
  lemma QuotedInside(w: string, o: nat, z: string, b: bool)
    requires '@' !in w && 0 < o < |"@description = '" + w|
    ensures MatchHere(HeredocRule, ("@description = '" + w)[o..] + z, b).None?
  {
    var x := "@description = '" + w;
    assert Lead(HeredocRule) == "@description";
    assert x[1..] == "description = '" + w;
    assert '@' !in x[1..];
    LeadNeeded(HeredocRule, x[o..] + z, b);
    assert (x[o..] + z)[0] == x[o] == x[1..][o - 1];
  }

  lemma HeredocQuoteMiss(t: string, b: bool)
    ensures MatchHere(HeredocRule, "@description = '" + t, b).None?
  {
    var w := "@" + Ident(Description);
    assert w == "@description";
    assert HeredocRule.head == [Lit(w), Spaces, Lit("="), Spaces] + [Lit("<<")];
    assert "@description = '" + t == w + " = " + ("'" + t);
    AssignSpan(w, [Lit("<<")], "'" + t);
    SpanLitMiss("<<", [], "'" + t);
  }

  /** `@name = ''` assigns no name: the quotes hold nothing. */
  lemma EmptyNameInert()
    ensures Inert(Attempt(ScalarRule(Name)), "@name = ''\n")
  {
    var x := "@name = ''\n";
    var r := ScalarRule(Name);
    assert Lead(r) == "@name";
    forall o, z, b | 0 <= o < |x| ensures MatchHere(r, x[o..] + z, b).None? {
      if o == 0 {
        EmptyQuoteMiss(Name, "\n" + z, b);
        assert x[0..] + z == "@" + Ident(Name) + " = ''" + ("\n" + z);
      } else {
        LeadNeeded(r, x[o..] + z, b);
        assert (x[o..] + z)[0] == x[o];
      }
    }
    NoMatchInert(r, x);
  }

  /** `@v = ''` starts no match of the scalar rule of `v`. */
  lemma EmptyQuoteMiss(v: Var, z: string, b: bool)
    ensures MatchHere(ScalarRule(v), "@" + Ident(v) + " = ''" + z, b).None?
  {
    var u := "@" + Ident(v) + " = '";
    var s := "@" + Ident(v) + " = ''" + z;
    ScalarHead(v, "'" + z);
    assert u + ("'" + z) == s;
    assert s[|u|..] == "'" + z;
    HeadAt(ScalarRule(v), s, b, |u|, "'" + z);
  }

  // ---- the heredoc form ----

  /** A heredoc match after whole lines that start none is the description. */
  lemma HeredocPast(x: string, y: string, h: Hit)
    requires Inert(Attempt(HeredocRule), x)
    requires MatchHere(HeredocRule, y, true) == Some(h)
    ensures DescriptionOf(x + y) == Some(Strip(h.caps[1]))
  {
    var a := Attempt(HeredocRule);
    assert Barren(a, x, y, true);
    FindSkip(a, x, y, true);
    FindBolFree(HeredocRule, y, BolAt(x + y, |x|, true));
    FindFirst(a, y, true);
  }

  /** `@description = <<`, then `-` or nothing, then the token. */
  function HeredocOpener(dash: string, tok: string): string {
    "@description = <<" + dash + tok
  }

  /** An opener as `<<-?(\w+)` reads it: at most one `-`, and a token of word characters. */
  predicate OpenerFit(dash: string, tok: string) {
    (dash == "" || dash == "-") && 0 < |tok| && AllIn(Word, tok)
  }

  /** `^\s*TOKEN` does not hold at the start of `t`: the whitespace there (blank lines
      included) is followed by more of `t`, and that does not start with `tok`. */
  predicate GoesOn(t: string, tok: string) {
    Run(Space, t) < |t| && !(tok <= t[Run(Space, t)..])
  }

  /** A heredoc body for the token `tok`: the rest of the opening line, which no word
      character starts (so the token is `tok` whole), then whole lines ending in a line
      feed, none of which starts with `tok` once its leading whitespace is skipped. */
  predicate BodyFor(body: string, tok: string) {
    && 0 < |body| && !IsWord(body[0]) && body[|body| - 1] == '\n'
    && forall r | 1 <= r < |body| && body[r - 1] == '\n' :: GoesOn(body[r..], tok)
  }

  /** A heredoc with any opener, any body and a terminator line indented by any whitespace
      (blank lines included) is what the description is read from, whatever follows, and
      the description is the body, stripped. */
  lemma HeredocBody(x: string, dash: string, tok: string, body: string,
                    ind: string, z: string)
    requires Inert(Attempt(HeredocRule), x)
    requires OpenerFit(dash, tok) && BodyFor(body, tok) && Blank(ind)
    ensures DescriptionOf(x + (HeredocOpener(dash, tok) + body + ind + tok + z)) == Some(Strip(body))
  {
    var y := HeredocOpener(dash, tok) + body + ind + tok + z;
    HeredocMatch(dash, tok, body, ind, z);
    HeredocPast(x, y, MatchHere(HeredocRule, y, true).value);
  }

  /** So the opener need not start a line: after any text without an `@` (the class line,
      `def initialize` and the indentation before `@description`, say) the heredoc is still
      what the description is read from. */
  lemma HeredocIndented(x: string, dash: string, tok: string, body: string,
                        ind: string, z: string)
    requires '@' !in x
    requires OpenerFit(dash, tok) && BodyFor(body, tok) && Blank(ind)
    ensures DescriptionOf(x + (HeredocOpener(dash, tok) + body + ind + tok + z)) == Some(Strip(body))
  {
    assert Marks.Marked(x, {});
    assert Lead(HeredocRule) == "@" + Ident(Description);
    Marks.MarkedInert(HeredocRule, Description, x, {});
    HeredocBody(x, dash, tok, body, ind, z);
  }

  /** A heredoc whose body is blank gives the empty description, not `nil`: the rest of the
      opening line holds only spaces, and the blank lines below it are taken by the
      terminator's `^\s*`. */
  lemma HeredocBlank(x: string, dash: string, tok: string, g: string,
                     ind: string, z: string)
    requires Inert(Attempt(HeredocRule), x)
    requires OpenerFit(dash, tok) && Blank(g) && '\n' !in g && Blank(ind)
    ensures DescriptionOf(x + (HeredocOpener(dash, tok) + (g + "\n") + ind + tok + z)) == Some("")
  {
    BlankBody(g, tok);
    HeredocBody(x, dash, tok, g + "\n", ind, z);
    StripBlank(g + "\n");
  }

  lemma BlankBody(g: string, tok: string)
    requires Blank(g) && '\n' !in g
    ensures BodyFor(g + "\n", tok)
  {
  }

  lemma StripBlank(s: string)
    requires Blank(s)
    ensures Strip(s) == ""
  {
  }

  /** The one attempt of the heredoc rule at an opener: the token, and the body up to the
      terminator line. */
  lemma HeredocMatch(dash: string, tok: string, body: string, ind: string, z: string)
    requires OpenerFit(dash, tok) && BodyFor(body, tok) && Blank(ind)
    ensures var m := MatchHere(HeredocRule, HeredocOpener(dash, tok) + body + ind + tok + z, true);
            m.Some? && m.value.caps == [tok, body]
  {
    BodyEnd(tok, body, ind, z);
    Regroup4(HeredocOpener(dash, tok) + body, ind, tok, z);
    HeredocAt(dash, tok, body, ind + (tok + z));
  }

  /** The heredoc rule at an opener whose body ends at the first terminator. */
  lemma HeredocAt(dash: string, tok: string, body: string, w: string)
    requires OpenerFit(dash, tok) && 0 < |body| && !IsWord(body[0])
    requires Terminator(tok + (body + w), tok, |tok| + 1) == Some(|tok| + |body|)
    ensures var m := MatchHere(HeredocRule, HeredocOpener(dash, tok) + body + w, true);
            m.Some? && m.value.caps == [tok, body]
  {
    var u := tok + (body + w);
    var y := HeredocOpener(dash, tok) + body + w;
    var m3 := HeredocFrom(u, |tok|);
    var m2 := After(HeredocRule, dash + u);
    var m1 := MatchHere(HeredocRule, y, true);
    assert m3.Some? && m3.value.caps == [tok, body] by {
      BodyFrom(tok, body, w);
    }
    assert m2 == Ahead(|dash|, m3) by {
      TokenAfter(dash, tok, body + w);
    }
    assert m1 == Ahead(17, m2) by {
      Regroup5("@description = <<", dash, tok, body, w);
      OpenerAt(dash, u);
    }
  }

  /** How a heredoc text regroups around the opener. */
  lemma Regroup4(a: string, b: string, c: string, d: string)
    ensures a + b + c + d == a + (b + (c + d))
  {
  }

  lemma Regroup5(a: string, b: string, c: string, d: string, e: string)
    ensures a + b + c + d + e == a + (b + (c + (d + e)))
  {
  }

  lemma BodyFrom(tok: string, body: string, w: string)
    requires 0 < |tok| && AllIn(Word, tok)
    requires Terminator(tok + (body + w), tok, |tok| + 1) == Some(|tok| + |body|)
    ensures var m := HeredocFrom(tok + (body + w), |tok|); m.Some? && m.value.caps == [tok, body]
  {
    var u := tok + (body + w);
    assert u[..|tok|] == tok;
    HeredocFromAt(u, |tok|, tok, |tok| + |body|);
    assert u[|tok|..|tok| + |body|] == body;
  }

  lemma OpenerAt(dash: string, u: string)
    ensures MatchHere(HeredocRule, "@description = <<" + (dash + u), true)
            == Ahead(17, After(HeredocRule, dash + u))
  {
    var y := "@description = <<" + (dash + u);
    assert y[17..] == dash + u;
    HeredocHead(dash + u);
    HeadAt(HeredocRule, y, true, 17, dash + u);
  }

  /** After the head: the optional `-`, then the token, which the greedy `\w+` takes whole. */
  lemma TokenAfter(dash: string, tok: string, rest: string)
    requires (dash == "" || dash == "-") && 0 < |tok| && AllIn(Word, tok)
    requires 0 < |rest| && !IsWord(rest[0])
    ensures After(HeredocRule, dash + (tok + rest)) == Ahead(|dash|, HeredocFrom(tok + rest, |tok|))
  {
    if dash == "-" {
      HeredocAfter(HeredocRule.head, tok, rest);
    } else {
      var t := tok + rest;
      assert dash + t == t && t[0] == tok[0];
      WordIsNotSpace(tok[0]);
      assert t[0] != '-';
      assert t[0..] == t;
      RunOver(Word, tok, rest);
      assert t[..|tok|] == tok;
    }
  }

  /** The first terminator after the token is the line right after the body. */
  lemma BodyEnd(tok: string, body: string, ind: string, z: string)
    requires 0 < |tok| && AllIn(Word, tok) && BodyFor(body, tok) && Blank(ind)
    ensures Terminator(tok + (body + (ind + (tok + z))), tok, |tok| + 1) == Some(|tok| + |body|)
  {
    var w := ind + (tok + z);
    var s := tok + (body + w);
    var e := |tok| + |body|;
    assert s == tok + body + w;
    assert s[e - 1] == '\n' && s[e..] == w;
    NoTermInside(s, tok, body, w);
    TermAfterBody(s, tok, e, ind, z);
    FirstTerm(s, tok, |tok| + 1, e);
  }

  lemma FirstTerm(s: string, tok: string, a: nat, e: nat)
    requires a <= e <= |s| && Terminator(s, tok, e) == Some(e)
    requires forall o | a <= o < e :: !TermAt(s, tok, o)
    ensures Terminator(s, tok, a) == Some(e)
  {
    TerminatorPast(s, tok, a, e - a);
  }

  lemma NoTermInside(s: string, tok: string, body: string, w: string)
    requires s == tok + body + w && 0 < |tok| && AllIn(Word, tok) && BodyFor(body, tok)
    ensures forall o | |tok| + 1 <= o < |tok| + |body| :: !TermAt(s, tok, o)
  {
    forall o | |tok| + 1 <= o < |tok| + |body| ensures !TermAt(s, tok, o) {
      NotTermInBody(s, tok, tok, body, w, o);
    }
  }

  /** Inside the body no line ends the heredoc. */
  lemma NotTermInBody(s: string, tok: string, pre: string, body: string, w: string, o: nat)
    requires s == pre + body + w && 0 < |tok| && AllIn(Word, tok) && BodyFor(body, tok)
    requires |pre| + 1 <= o < |pre| + |body|
    ensures !TermAt(s, tok, o)
  {
    var r := o - |pre|;
    assert s[o - 1] == body[r - 1];
    if body[r - 1] == '\n' {
      var t := body[r..];
      assert GoesOn(t, tok);
      var k := Run(Space, t);
      assert s[o..] == t + w;
      RunStops(Space, t, w);
      assert (t + w)[k..] == t[k..] + w;
      assert t[k..][|t[k..]| - 1] == body[|body| - 1];
      PrefixStop(tok, t[k..], w);
    }
  }

  /** Where the body ends, the whitespace and then the token end the heredoc. */
  lemma TermAfterBody(s: string, tok: string, e: nat, ind: string, z: string)
    requires 0 < e <= |s| && s[e - 1] == '\n' && s[e..] == ind + (tok + z)
    requires 0 < |tok| && AllIn(Word, tok) && Blank(ind)
    ensures Terminator(s, tok, e) == Some(e)
  {
    WordIsNotSpace(tok[0]);
    RunOver(Space, ind, tok + z);
    assert s[e + |ind|..] == tok + z;
  }

  /** A run that stops inside `t` stops there whatever follows `t`. */
  lemma RunStops(k: CharClass, t: string, w: string)
    requires Run(k, t) < |t|
    ensures Run(k, t + w) == Run(k, t)
  {
    var n := Run(k, t);
    assert (t + w)[..n] == t[..n] && (t + w)[n] == t[n];
    RunUnique(k, t + w, n);
  }

  /** A word does not start a text whose first line, up to its line feed, it does not
      start. */
  lemma PrefixStop(tok: string, a: string, w: string)
    requires AllIn(Word, tok) && 0 < |a| && a[|a| - 1] == '\n' && !(tok <= a)
    ensures !(tok <= a + w)
  {
    if |tok| <= |a| {
      assert (a + w)[..|tok|] == a[..|tok|];
    } else if tok <= a + w {
      assert tok[|a| - 1] == (a + w)[|a| - 1] == '\n';
      WordIsNotSpace(tok[|a| - 1]);
    }
  }

  /** `@v = 'q'` at the start of the text is what the quoted rule of `v` finds. */
  lemma ScalarFirst(v: Var, q: string, z: string)
    requires Literal(q)
    ensures Scalar(ScalarRule(v), "@" + Ident(v) + " = '" + q + "'" + z) == Some(q)
  {
    var y := "@" + Ident(v) + " = '" + q + "'" + z;
    ScalarHit(v, q, z, true);
    CaptureHere(ScalarRule(v), y, MatchHere(ScalarRule(v), y, true).value);
  }

  lemma QuotedFirst(q: string, z: string)
    requires Literal(q)
    ensures Scalar(ScalarRule(Description), QuotedDescription(q, z)) == Some(q)
  {
    ScalarFirst(Description, q, z);
    assert "@" + Ident(Description) + " = '" == "@description = '";
  }

  /** The quoted line itself starts no heredoc. */
  lemma QuotedLineInert(q: string, z: string)
    requires '@' !in q && '@' !in z
    ensures Inert(Attempt(HeredocRule), QuotedDescription(q, z))
  {
    assert QuotedDescription(q, z) == "@description = '" + (q + "'" + z);
    assert '@' !in "'";
    QuotedNoHeredoc(q + "'" + z);
  }

  /** The quoted form before a heredoc: `=~` on the quoted rule alone gives `q`, but the
      heredoc wins. */
  lemma QuotedThenHeredoc(q: string, dash: string, tok: string,
                          body: string, ind: string, z: string)
    requires Literal(q) && '@' !in q
    requires OpenerFit(dash, tok) && BodyFor(body, tok) && Blank(ind)
    ensures var t := QuotedDescription(q, "\n") + (HeredocOpener(dash, tok) + body + ind + tok + z);
            && Scalar(ScalarRule(Description), t) == Some(q)
            && DescriptionOf(t) == Some(Strip(body))
  {
    var x := QuotedDescription(q, "\n");
    var hb := HeredocOpener(dash, tok) + body + ind + tok + z;
    assert Scalar(ScalarRule(Description), x + hb) == Some(q) by {
      QuotedFirst(q, "\n" + hb);
      Regroup3("@description = '" + q + "'", "\n", hb);
    }
    assert DescriptionOf(x + hb) == Some(Strip(body)) by {
      QuotedLineInert(q, "\n");
      HeredocBody(x, dash, tok, body, ind, z);
    }
  }

  lemma Regroup3(a: string, b: string, c: string)
    ensures a + b + c == a + (b + c)
  {
  }

  // ---- the quoted form, as the fallback ----

  /** Inert text matches nothing. */
  lemma InertFindNone(a: Matcher, s: string)
    requires Inert(a, s)
    ensures Find(a, s, true).None?
  {
    assert Barren(a, s, "", true);
    FindSkip(a, s, "", true);
    assert s + "" == s;
  }

  /** With no heredoc match anywhere in the text, `@description = 'q'` after lines that
      assign no description gives `q`, whatever follows it. */
  lemma QuotedFallback(x: string, q: string, z: string)
    requires Inert(Attempt(ScalarRule(Description)), x) && Literal(q)
    requires Find(Attempt(HeredocRule), x + QuotedDescription(q, z), true).None?
    ensures DescriptionOf(x + QuotedDescription(q, z)) == Some(q)
  {
    CaptureAfter(ScalarRule(Description), x, QuotedDescription(q, z));
    QuotedFirst(q, z);
  }

  /** One way there is no heredoc: none before the quoted line, and no `@` after it. */
  lemma NoHeredocIn(x: string, q: string, z: string)
    requires Inert(Attempt(HeredocRule), x) && '@' !in q && '@' !in z
    ensures Find(Attempt(HeredocRule), x + QuotedDescription(q, z), true).None?
  {
    QuotedLineInert(q, z);
    InertJoin(Attempt(HeredocRule), x, QuotedDescription(q, z));
    InertFindNone(Attempt(HeredocRule), x + QuotedDescription(q, z));
  }

  // ---- the leftmost match with a value ----

  /** `@name = ''` and then `@name = 'x'`: the empty quotes match nothing, so the name is
      `x`. */
  lemma EmptyNameSkipped(p: string, x: string, z: string)
    requires Inert(Attempt(ScalarRule(Name)), p) && Literal(x)
    ensures Scalar(ScalarRule(Name), p + "@name = ''\n" + "@name = '" + x + "'\n" + z) == Some(x)
  {
    var r := ScalarRule(Name);
    var e := "@name = ''\n";
    var y := "@name = '" + x + "'\n" + z;
    EmptyNameInert();
    InertJoin(Attempt(r), p, e);
    assert p + "@name = ''\n" + "@name = '" + x + "'\n" + z == (p + e) + y;
    CaptureAfter(r, p + e, y);
    NameFirst(x, z);
  }

  lemma NameFirst(x: string, z: string)
    requires Literal(x)
    ensures Scalar(ScalarRule(Name), "@name = '" + x + "'\n" + z) == Some(x)
  {
    ScalarFirst(Name, x, "\n" + z);
    assert "@" + Ident(Name) + " = '" == "@name = '";
    assert "@name = '" + x + "'\n" + z == "@name = '" + x + "'" + ("\n" + z);
  }
}
