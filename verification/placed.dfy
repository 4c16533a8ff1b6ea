/** Reading one line of a rendered file: when a line sits after lines that assign no
    variable it does not name, the field the line writes is what the extractor reads.
    The readers here hold for any such file; the template modules say where the lines
    of each template sit. */
module Placed {
  import opened Optional
  import opened Rules
  import opened Reading
  import opened Ivars
  import opened AppParser
  import opened AppTemplate
  import opened Layout
  import opened Reparse
  import opened LineShapes
  import opened TidyBlocks
  import opened MethodScan

  /** The line `l`, with the lines `p` before it and `q` after it. */
  function Around(p: seq<Line>, l: Line, q: seq<Line>): (ls: seq<Line>)
    ensures |ls| == |p| + 1 + |q| && ls[|p|] == l
  {
    p + [l] + q
  }

  /** `ls` holds the line `l`, and every line before it is tidy for `S`. */
  ghost predicate Follows(ls: seq<Line>, l: Line, S: set<Var>) {
    exists p, q {:trigger Around(p, l, q)} :: ls == Around(p, l, q) && TidyLines(p, S)
  }

  /** As `Follows`, and nothing after `l` starts a match of `r`. */
  ghost predicate Alone(ls: seq<Line>, l: Line, S: set<Var>, r: Rule) {
    exists p, q {:trigger Around(p, l, q)} ::
      ls == Around(p, l, q) && TidyLines(p, S) && Inert(Attempt(r), Render(q))
  }

  lemma PlaceFollows(ls: seq<Line>, p: seq<Line>, l: Line, q: seq<Line>, S: set<Var>)
    requires ls == Around(p, l, q) && TidyLines(p, S)
    ensures Follows(ls, l, S)
  {
  }

  lemma PlaceAlone(ls: seq<Line>, p: seq<Line>, l: Line, q: seq<Line>, S: set<Var>, r: Rule)
    requires ls == Around(p, l, q) && TidyLines(p, S) && Inert(Attempt(r), Render(q))
    ensures Alone(ls, l, S, r)
  {
  }

  /** `@v = 'x'` after lines that leave `v` alone sets the scalar field of `v` to `x`. */
  lemma ScalarRead(ls: seq<Line>, v: Var, x: string, S: set<Var>)
    requires Follows(ls, ScalarLine(v, x), S) && v !in S && Literal(x)
    ensures Scalar(ScalarRule(v), Render(ls)) == Some(x)
  {
    var p, q :| ls == Around(p, ScalarLine(v, x), q) && TidyLines(p, S);
    TidyCalm(p, S);
    ScalarFound(v, p, x, q, S);
  }

  /** `@name = 'x'` after lines that assign nothing sets the name to `x`. */
  lemma NameRead(ls: seq<Line>, x: string)
    requires Follows(ls, NameLine(x), {}) && Literal(x)
    ensures Scalar(ScalarRule(Name), Render(ls)) == Some(x)
  {
    ScalarRead(ls, Name, x, {});
  }

  /** `@analysis_category = 'c'`, after lines that leave the category alone. */
  lemma CategoryRead(ls: seq<Line>, c: string, S: set<Var>)
    requires Follows(ls, CategoryLine(c), S) && AnalysisCategory !in S && Literal(c)
    ensures Scalar(ScalarRule(AnalysisCategory), Render(ls)) == Some(c)
  {
    ScalarRead(ls, AnalysisCategory, c, S);
  }

  /** `@params['process_mode'] = 'm'`, whatever follows the closing quote, sets the mode to `m`. */
  lemma ModeRead(ls: seq<Line>, m: string, tail: string, S: set<Var>)
    requires Follows(ls, ModeLine("'" + m + "'" + tail), S) && Params !in S && Literal(m)
    ensures Scalar(ProcessModeRule, Render(ls)) == Some(m)
  {
    var p, q :| ls == Around(p, ModeLine("'" + m + "'" + tail), q) && TidyLines(p, S);
    TidyCalm(p, S);
    ModeFound(p, m, tail, q, S);
  }

  /** A list line, the only one of its variable, reads back as its list, empty or not. */
  lemma ListRead(ls: seq<Line>, v: Var, xs: seq<string>, S: set<Var>)
    requires Alone(ls, ListLine(v, QuotedList(xs)), S, ListRule(v)) && v !in S && AllElements(xs)
    ensures Elements(v, Render(ls)) == xs
  {
    var p, q :| ls == Around(p, ListLine(v, QuotedList(xs)), q) && TidyLines(p, S)
                && Inert(Attempt(ListRule(v)), Render(q));
    TidyCalm(p, S);
    if xs == [] {
      EmptyFound(v, p, q, S);
    } else {
      ElementsFound(v, p, xs, q, S);
    }
  }

  /** `@modules = [['Dev/R']]` reads back as the one module `Dev/R`. */
  lemma DevRead(ls: seq<Line>, S: set<Var>)
    requires Follows(ls, ListLine(Modules, "['Dev/R']"), S) && Modules !in S
    ensures Elements(Modules, Render(ls)) == ["Dev/R"]
  {
    var p, q :| ls == Around(p, ListLine(Modules, "['Dev/R']"), q) && TidyLines(p, S);
    TidyCalm(p, S);
    DevFound(p, q, S);
  }

  /** The first `run_RApp('...')` names the R function. */
  lemma EzrunRead(ls: seq<Line>, ez: string, S: set<Var>)
    requires Follows(ls, CommandsLine(ez), S) && Literal(ez)
    ensures Scalar(EzrunRule, Render(ls)) == Some(ez)
  {
    var p, q :| ls == Around(p, CommandsLine(ez), q) && TidyLines(p, S);
    EzrunFound(p, ez, q, S);
  }

  // ---- moving lines between the two sides of a field ----

  /** One line moves from the lines before a field to the lines after the previous one. */
  lemma Back1(w: seq<Line>, a: seq<Line>, x: Line, y: Line, b: seq<Line>)
    requires w == a + [x] + [y] + b
    ensures w == a + [x] + ([y] + b)
  {
  }

  /** The same, with a block of lines between the two fields. */
  lemma Back2(w: seq<Line>, a: seq<Line>, x: Line, m: seq<Line>, y: Line, b: seq<Line>)
    requires w == a + [x] + m + [y] + b
    ensures w == a + [x] + (m + [y] + b)
  {
  }

  lemma TidyOne(l: Line, S: set<Var>)
    requires Plain(l, S)
    ensures TidyLines([l], S)
  {
    Plain1(l, S);
    PlainTidy([l], S);
  }

  /** Tidy lines for `S`, then tidy lines for a larger `T`. */
  lemma Grow(a: seq<Line>, b: seq<Line>, S: set<Var>, T: set<Var>)
    requires TidyLines(a, S) && S <= T && TidyLines(b, T)
    ensures TidyLines(a + b, T)
  {
    TidyMore(a, S, T);
    TidyJoin(a, b, T);
  }

  lemma ModeTidy(mode: string, S: set<Var>)
    requires Params in S && Tame(mode)
    ensures TidyLines([ModeLine(mode)], S)
  {
    assert Snake("process_mode");
    AssignTidy(4, "process_mode", mode, S);
  }

  lemma PlainCalm(ls: seq<Line>, S: set<Var>)
    requires PlainLines(ls, S)
    ensures CalmLines(ls, S)
  {
    PlainTidy(ls, S);
    TidyCalm(ls, S);
  }

  /** Calm for `T`, and free of `def` lines the method rule would misread. */
  predicate Sound(ls: seq<Line>, T: set<Var>) {
    CalmLines(ls, T) && ScannableLines(ls)
  }

  lemma SoundJoin(a: seq<Line>, b: seq<Line>, T: set<Var>)
    requires Sound(a, T) && Sound(b, T)
    ensures Sound(a + b, T) && DefNames(a + b) == DefNames(a) + DefNames(b)
  {
    CalmJoin(a, b, T);
    ScannableJoin(a, b);
    DefNamesJoin(a, b);
  }

  lemma TidySound(ls: seq<Line>, T: set<Var>)
    requires TidyLines(ls, T)
    ensures Sound(ls, T)
  {
    TidyCalm(ls, T);
    TidyScannable(ls, T);
  }
}
