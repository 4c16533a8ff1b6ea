/** What the template's lines look like to the rules that do not start with a variable: each
    line is one line of text, none holds `run_RApp` before the call the template ends with,
    and each is empty, a lone `def`, or starts with a character that is neither whitespace
    nor `d`, so that `^\s*def\s+` matches only where the template wrote a `def`. */
module Layout {
  import opened Chars
  import opened Text
  import opened Optional
  import opened Search
  import opened Rules
  import opened Ivars
  import opened AppParser
  import opened Reading
  import opened AppTemplate
  import opened Marks

  /** The leading literal of the `run_RApp(...)` rule. */
  const Call: string := "run_RApp"

  /** Text that does not hold `run_RApp`: it lacks one of `R`, `_` and `A`, or is shown not
      to. */
  predicate Clear(s: string) {
    'R' !in s || '_' !in s || 'A' !in s || !Occurs(Call, s)
  }

  /** Text a user supplies for a template (the class, app, ezRun and category names) that
      the extractor reads back as it was written: no `@`, so it cannot start one of the
      `@name = ...` / `@params[...]` patterns; no line feed, since every pattern stops at the
      end of a line; and no `run_RApp`, which the ezRun pattern looks for. */
  predicate Tame(s: string) {
    '@' !in s && '\n' !in s && !Occurs(Call, s)
  }

  /** The chunk's text stays on one line and does not hold `run_RApp`. */
  predicate Level(c: Chunk) {
    match c
    case Code(s) => '\n' !in s && Clear(s)
    case At(_) => true
    case Assign(k, v) => Snake(k) && '\n' !in v && Clear(v)
    case Tagged(k, t, v) => Snake(k) && Snake(t) && '\n' !in v && Clear(v)
    case Ref(k) => Snake(k)
    case Def(n) => 0 < |n| && Snake(n)
  }

  /** Where two texts meet, one of them has a character foreign to `run_RApp`. */
  predicate Seam(a: string, b: string) {
    (0 < |a| && a[|a| - 1] !in Call) || (0 < |b| && b[0] !in Call)
  }

  predicate DefLine(l: Line) {
    |l.chunks| == 1 && l.chunks[0].Def?
  }

  /** Empty, a lone `def`, or a first character that is neither whitespace nor `d`. */
  predicate Opens(l: Line) {
    || l.chunks == []
    || DefLine(l)
    || (var t := ChunkText(l.chunks[0]); 0 < |t| && !IsSpace(t[0]) && t[0] != 'd')
  }

  /** A line of a template that the scalar and list patterns cannot misread: every `@` on
      it starts one of the instance variables `S` (the ones already written above it, so that
      a pattern searching for a later variable finds nothing here), each chunk stays on one
      line without `run_RApp`, adjacent chunks cannot join into a pattern, and it does not
      start with whitespace followed by `def`. */
  predicate Tidy(l: Line, S: set<Var>) {
    && CalmLine(l, S)
    && (forall j | 0 <= j < |l.chunks| :: Level(l.chunks[j]))
    && (forall j | 0 <= j < |l.chunks| - 1 :: Seam(ChunkText(l.chunks[j]), ChunkText(l.chunks[j + 1])))
    && Opens(l)
  }

  predicate TidyLines(ls: seq<Line>, S: set<Var>) {
    forall i | 0 <= i < |ls| :: Tidy(ls[i], S)
  }

  lemma TidyJoin(a: seq<Line>, b: seq<Line>, S: set<Var>)
    requires TidyLines(a, S) && TidyLines(b, S)
    ensures TidyLines(a + b, S)
  {
    forall i | 0 <= i < |a + b| ensures Tidy((a + b)[i], S) {
      if i < |a| { assert (a + b)[i] == a[i]; } else { assert (a + b)[i] == b[i - |a|]; }
    }
  }

  lemma TidyMore(ls: seq<Line>, S: set<Var>, T: set<Var>)
    requires TidyLines(ls, S) && S <= T
    ensures TidyLines(ls, T)
  {
    forall i | 0 <= i < |ls| ensures Tidy(ls[i], T) {
      assert Tidy(ls[i], S);
      var cs := ls[i].chunks;
      assert forall j | 0 <= j < |cs| :: MarksOf(cs[j]) <= S;
    }
  }

  // ---- one line of text ----

  lemma SnakeFree(x: string)
    requires Snake(x)
    ensures '\n' !in x && 'R' !in x && AllIn(Word, x)
  {
    SnakeShape(x);
    forall i | 0 <= i < |x| ensures x[i] != 'R' {
      assert 'a' <= x[i] <= 'z' || x[i] == '_';
    }
  }

  lemma ChunkFlat(c: Chunk)
    requires Level(c)
    ensures '\n' !in ChunkText(c)
  {
    match c
    case Code(s) =>
    case At(v) => WordShape(v);
    case Assign(k, v) => SnakeFree(k);
    case Tagged(k, t, v) => SnakeFree(k); SnakeFree(t);
    case Ref(k) => SnakeFree(k);
    case Def(n) => SnakeFree(n);
  }

  lemma {:induction false} BodyFlat(cs: seq<Chunk>)
    requires forall j | 0 <= j < |cs| :: Level(cs[j])
    ensures '\n' !in Body(cs)
    decreases |cs|
  {
    if 0 < |cs| {
      ChunkFlat(cs[0]);
      BodyFlat(cs[1..]);
    }
  }

  // ---- no `run_RApp` ----

  /** Text without `R` does not hold `run_RApp`. */
  lemma NoR(s: string)
    requires 'R' !in s
    ensures !Occurs(Call, s)
  {
    MissingChar(Call, s, 4);
  }

  lemma ClearQuiet(s: string)
    requires Clear(s)
    ensures !Occurs(Call, s)
  {
    if 'R' !in s {
      MissingChar(Call, s, 4);
    } else if '_' !in s {
      MissingChar(Call, s, 3);
    } else if 'A' !in s {
      MissingChar(Call, s, 5);
    }
  }

  /** Two texts without `run_RApp` whose seam is foreign to it make one. */
  lemma SeamJoin(a: string, b: string)
    requires !Occurs(Call, a) && !Occurs(Call, b) && Seam(a, b)
    ensures !Occurs(Call, a + b)
  {
    OccursJoin(Call, a, b);
  }

  lemma ChunkQuiet(c: Chunk)
    requires Level(c)
    ensures !Occurs(Call, ChunkText(c))
  {
    match c
    case Code(s) => ClearQuiet(s);
    case At(v) => AtQuiet(v);
    case Assign(k, v) => ClearQuiet(v); AssignQuiet(k, v);
    case Tagged(k, t, v) => ClearQuiet(v); TaggedQuiet(k, t, v);
    case Ref(k) => SnakeFree(k); NoR("@params['" + k + "']");
    case Def(n) => SnakeFree(n); NoR("def " + n);
  }

  lemma AtQuiet(v: Var)
    ensures !Occurs(Call, ChunkText(At(v)))
  {
    WordShape(v);
    SnakeFree(Ident(v));
    NoR("@" + Ident(v));
  }

  lemma AssignQuiet(k: string, v: string)
    requires Snake(k) && !Occurs(Call, v)
    ensures !Occurs(Call, ChunkText(Assign(k, v)))
  {
    var u := "@params['" + k + "'] = ";
    SnakeFree(k);
    NoR(u);
    assert u[|u| - 1] == ' ';
    SeamJoin(u, v);
  }

  lemma TaggedQuiet(k: string, t: string, v: string)
    requires Snake(k) && Snake(t) && !Occurs(Call, v)
    ensures !Occurs(Call, ChunkText(Tagged(k, t, v)))
  {
    var u := "@params['" + k + "', '" + t + "'] = ";
    SnakeFree(k);
    SnakeFree(t);
    NoR(u);
    assert u[|u| - 1] == ' ';
    SeamJoin(u, v);
  }

  lemma {:induction false} BodyQuiet(cs: seq<Chunk>)
    requires forall j | 0 <= j < |cs| :: Level(cs[j])
    requires forall j | 0 <= j < |cs| - 1 :: Seam(ChunkText(cs[j]), ChunkText(cs[j + 1]))
    ensures !Occurs(Call, Body(cs))
    decreases |cs|
  {
    if |cs| == 0 {
      NoR("");
    } else {
      var a := ChunkText(cs[0]);
      var tail := cs[1..];
      assert !Occurs(Call, a) by { ChunkQuiet(cs[0]); }
      assert !Occurs(Call, Body(tail)) by {
        assert forall j | 0 <= j < |tail| :: tail[j] == cs[j + 1];
        BodyQuiet(tail);
      }
      assert Body(cs) == a + Body(tail);
      if a == "" {
        assert Body(cs) == Body(tail);
      } else if |cs| == 1 {
        assert Body(tail) == "";
        assert Body(cs) == a;
      } else {
        assert Seam(a, Body(tail)) by {
          assert Seam(a, ChunkText(cs[1]));
          BodyStart(tail);
        }
        SeamJoin(a, Body(tail));
      }
    }
  }

  /** A body starts with its first chunk's text. */
  lemma BodyStart(cs: seq<Chunk>)
    requires 0 < |cs|
    ensures ChunkText(cs[0]) <= Body(cs)
  {
  }

  lemma LineQuiet(l: Line, S: set<Var>)
    requires Tidy(l, S)
    ensures !Occurs(Call, LineText(l))
  {
    var g := Indent(l.indent);
    var b := Body(l.chunks);
    assert 'R' !in g;
    NoR(g);
    NoR("\n");
    BodyQuiet(l.chunks);
    if 0 < |g| {
      assert g[|g| - 1] == ' ';
      SeamJoin(g, b);
    } else {
      assert g + b == b;
    }
    SeamJoin(g + b, "\n");
  }

  lemma {:induction false} RenderQuiet(ls: seq<Line>, S: set<Var>)
    requires TidyLines(ls, S)
    ensures !Occurs(Call, Render(ls))
    decreases |ls|
  {
    if |ls| == 0 {
      NoR("");
    } else {
      var t := LineText(ls[0]);
      var tail := ls[1..];
      assert !Occurs(Call, t) by { LineQuiet(ls[0], S); }
      assert !Occurs(Call, Render(tail)) by {
        assert forall i | 0 <= i < |tail| :: tail[i] == ls[i + 1];
        RenderQuiet(tail, S);
      }
      assert Seam(t, Render(tail)) by { assert t[|t| - 1] == '\n'; }
      assert Render(ls) == t + Render(tail);
      SeamJoin(t, Render(tail));
    }
  }

  // ---- the method rule ----

  /** A line that is not a `def` adds nothing to what `scan` finds. */
  lemma LineScan(l: Line, S: set<Var>, y: string)
    requires Tidy(l, S) && !DefLine(l)
    ensures Scan(Attempt(MethodRule), LineText(l) + y, true) == Scan(Attempt(MethodRule), y, true)
  {
    var g := Indent(l.indent);
    var b := Body(l.chunks);
    assert Blank(g);
    BodyFlat(l.chunks);
    if l.chunks == [] {
      assert LineText(l) == g + "\n";
      assert Blank(g + "\n");
      BlankLineScan(g + "\n", y);
    } else {
      BodyStart(l.chunks);
      assert b[0] == ChunkText(l.chunks[0])[0];
      assert LineText(l) + y == g + b + "\n" + y;
      PlainLineScan(g, b, y);
    }
  }

  /** A `def` line adds its method's name. */
  lemma DefScan(l: Line, S: set<Var>, y: string)
    requires Tidy(l, S) && DefLine(l)
    ensures Scan(Attempt(MethodRule), LineText(l) + y, true)
            == [[l.chunks[0].name]] + Scan(Attempt(MethodRule), y, true)
  {
    var n := l.chunks[0].name;
    var g := Indent(l.indent);
    assert Blank(g);
    assert Level(l.chunks[0]);
    SnakeFree(n);
    assert Body(l.chunks) == "def " + n by { assert l.chunks[1..] == []; }
    assert LineText(l) + y == g + "def " + n + "\n" + y;
    DefLineScan(g, n, y);
  }

  /** Lines without a `def` add nothing. */
  lemma {:induction false} QuietScan(ls: seq<Line>, S: set<Var>, y: string)
    requires TidyLines(ls, S) && forall i | 0 <= i < |ls| :: !DefLine(ls[i])
    ensures Scan(Attempt(MethodRule), Render(ls) + y, true) == Scan(Attempt(MethodRule), y, true)
    decreases |ls|
  {
    if 0 < |ls| {
      var tail := ls[1..];
      var rest := Render(tail) + y;
      assert Render(ls) + y == LineText(ls[0]) + rest;
      assert Tidy(ls[0], S) && !DefLine(ls[0]);
      LineScan(ls[0], S, rest);
      QuietTail(ls, S);
      QuietScan(tail, S, y);
    } else {
      assert Render(ls) + y == y;
    }
  }

  lemma QuietTail(ls: seq<Line>, S: set<Var>)
    requires 0 < |ls| && TidyLines(ls, S) && forall i | 0 <= i < |ls| :: !DefLine(ls[i])
    ensures TidyLines(ls[1..], S) && forall i | 0 <= i < |ls[1..]| :: !DefLine(ls[1..][i])
  {
    assert forall i | 0 <= i < |ls[1..]| :: ls[1..][i] == ls[i + 1];
  }

}
