/** The kinds of line the two templates are made of, each shown tidy once for any text it
    holds. Fixed text is shown tame by looking at its characters (`Lacks`). */
module LineShapes {
  import opened Chars
  import opened Text
  import opened Ivars
  import opened AppParser
  import opened AppTemplate
  import opened Marks
  import opened Layout

  /** No `@`, no line feed, and not the character `c`. */
  predicate Lacks(s: string, c: char) {
    forall i | 0 <= i < |s| :: s[i] != '@' && s[i] != '\n' && s[i] != c
  }

  /** One of the letters of `run_RApp` that text lacking it cannot hold it without. */
  predicate Key(c: char) {
    c == 'R' || c == '_' || c == 'A'
  }

  lemma SafeTame(s: string, c: char)
    requires Lacks(s, c) && Key(c)
    ensures Tame(s)
  {
    var j := if c == 'R' then 4 else if c == '_' then 3 else 5;
    assert Call[j] == c;
    MissingChar(Call, s, j);
  }

  /** A first character that is neither whitespace nor `d`. */
  predicate Opener(s: string) {
    0 < |s| && !IsSpace(s[0]) && s[0] != 'd'
  }

  /** Text that ends with a character foreign to `run_RApp`. */
  predicate Closed(s: string) {
    0 < |s| && s[|s| - 1] !in Call
  }

  /** Text that starts with a character foreign to `run_RApp`. */
  predicate Guarded(s: string) {
    0 < |s| && s[0] !in Call
  }

  lemma GapTidy(n: nat, S: set<Var>)
    ensures Tidy(Line(n, []), S)
  {
  }

  lemma DefTidy(n: nat, name: string, S: set<Var>)
    requires 0 < |name| && Snake(name)
    ensures Tidy(Line(n, [Def(name)]), S)
  {
    SnakeShape(name);
  }

  lemma Code1Tidy(n: nat, a: string, S: set<Var>)
    requires Tame(a) && Opener(a)
    ensures Tidy(Line(n, [Code(a)]), S)
  {
  }

  lemma Code2Tidy(n: nat, a: string, b: string, S: set<Var>)
    requires Tame(a) && Tame(b) && Opener(a) && (Closed(a) || Guarded(b))
    ensures Tidy(Line(n, [Code(a), Code(b)]), S)
  {
  }

  lemma Code3Tidy(n: nat, a: string, b: string, c: string, S: set<Var>)
    requires Tame(a) && Tame(b) && Tame(c) && Opener(a)
    requires Closed(a) || Guarded(b)
    requires Closed(b) || Guarded(c)
    ensures Tidy(Line(n, [Code(a), Code(b), Code(c)]), S)
  {
    var l := Line(n, [Code(a), Code(b), Code(c)]);
    assert CalmLine(l, S) by {
      assert forall j | 0 <= j < 3 :: Calm(l.chunks[j]) && MarksOf(l.chunks[j]) <= S;
    }
    assert forall j | 0 <= j < |l.chunks| :: Level(l.chunks[j]);
    assert forall j | 0 <= j < |l.chunks| - 1 :: Seam(ChunkText(l.chunks[j]), ChunkText(l.chunks[j + 1]));
    assert Opens(l);
  }

  lemma Code4Tidy(n: nat, a: string, b: string, c: string, d: string, S: set<Var>)
    requires Tame(a) && Tame(b) && Tame(c) && Tame(d) && Opener(a)
    requires Closed(a) || Guarded(b)
    requires Closed(b) || Guarded(c)
    requires Closed(c) || Guarded(d)
    ensures Tidy(Line(n, [Code(a), Code(b), Code(c), Code(d)]), S)
  {
    var l := Line(n, [Code(a), Code(b), Code(c), Code(d)]);
    assert CalmLine(l, S) by {
      assert forall j | 0 <= j < 4 :: Calm(l.chunks[j]) && MarksOf(l.chunks[j]) <= S;
    }
    assert forall j | 0 <= j < |l.chunks| :: Level(l.chunks[j]);
    assert forall j | 0 <= j < |l.chunks| - 1 :: Seam(ChunkText(l.chunks[j]), ChunkText(l.chunks[j + 1]));
    assert Opens(l);
  }

  /** `@v = 'x'` and `@v = [x]`. */
  lemma AtLineTidy(v: Var, open: string, x: string, close: string, S: set<Var>)
    requires v in S && Tame(x) && Tame(open) && Tame(close) && Guarded(open) && Closed(open)
    requires Guarded(close)
    ensures Tidy(Line(4, [At(v), Code(open), Code(x), Code(close)]), S)
  {
    var l := Line(4, [At(v), Code(open), Code(x), Code(close)]);
    assert CalmLine(l, S) by {
      assert forall j | 0 <= j < 4 :: Calm(l.chunks[j]) && MarksOf(l.chunks[j]) <= S;
    }
    assert forall j | 0 <= j < |l.chunks| :: Level(l.chunks[j]);
    assert forall j | 0 <= j < |l.chunks| - 1 :: Seam(ChunkText(l.chunks[j]), ChunkText(l.chunks[j + 1]));
    assert Opens(l);
  }

  lemma ScalarTidy(v: Var, x: string, S: set<Var>)
    requires v in S && Tame(x)
    ensures Tidy(ScalarLine(v, x), S)
  {
    SafeTame(" = '", 'R');
    SafeTame("'", 'R');
    AtLineTidy(v, " = '", x, "'", S);
  }

  lemma ListTidy(v: Var, items: string, S: set<Var>)
    requires v in S && Tame(items)
    ensures Tidy(ListLine(v, items), S)
  {
    SafeTame(" = [", 'R');
    SafeTame("]", 'R');
    AtLineTidy(v, " = [", items, "]", S);
  }

  /** `@v` and fixed text. */
  lemma AtCodeTidy(n: nat, v: Var, a: string, S: set<Var>)
    requires v in S && Tame(a) && Guarded(a)
    ensures Tidy(Line(n, [At(v), Code(a)]), S)
  {
  }

  /** `@params['k'] = v`. */
  lemma AssignTidy(n: nat, k: string, v: string, S: set<Var>)
    requires Params in S && Snake(k) && Tame(v)
    ensures Tidy(Line(n, [Assign(k, v)]), S)
  {
    SnakeShape(k);
  }

  /** `@params['k', 't'] = v`. */
  lemma TaggedTidy(n: nat, k: string, t: string, v: string, S: set<Var>)
    requires Params in S && Snake(k) && Snake(t) && Tame(v)
    ensures Tidy(Line(n, [Tagged(k, t, v)]), S)
  {
    SnakeShape(k);
    SnakeShape(t);
  }

  /** A comment followed by `@params['k'] = v`. */
  lemma CodeAssignTidy(n: nat, a: string, k: string, v: string, S: set<Var>)
    requires Params in S && Tame(a) && Opener(a) && Snake(k) && Tame(v)
    ensures Tidy(Line(n, [Code(a), Assign(k, v)]), S)
  {
    SnakeShape(k);
  }

  /** Fixed text, `@params['k']`, fixed text. */
  lemma RefTidy(n: nat, a: string, k: string, b: string, S: set<Var>)
    requires Params in S && Tame(a) && Opener(a) && Snake(k) && Tame(b) && Guarded(b)
    ensures Tidy(Line(n, [Code(a), Ref(k), Code(b)]), S)
  {
    SnakeShape(k);
    var l := Line(n, [Code(a), Ref(k), Code(b)]);
    assert CalmLine(l, S) by {
      assert forall j | 0 <= j < 3 :: Calm(l.chunks[j]) && MarksOf(l.chunks[j]) <= S;
    }
    assert forall j | 0 <= j < |l.chunks| :: Level(l.chunks[j]);
    assert forall j | 0 <= j < |l.chunks| - 1 :: Seam(ChunkText(l.chunks[j]), ChunkText(l.chunks[j + 1])) by {
      var r := ChunkText(Ref(k));
      assert r[|r| - 1] == ']';
    }
    assert Opens(l);
  }

  /** Fixed text, `@v`, fixed text, `@params['k']`, fixed text. */
  lemma AtRefTidy(n: nat, a: string, v: Var, b: string, k: string, c: string, S: set<Var>)
    requires v in S && Params in S && Snake(k)
    requires Tame(a) && Tame(b) && Tame(c) && Opener(a) && Guarded(b)
    ensures Tidy(Line(n, [Code(a), At(v), Code(b), Ref(k), Code(c)]), S)
  {
    SnakeShape(k);
    var l := Line(n, [Code(a), At(v), Code(b), Ref(k), Code(c)]);
    assert CalmLine(l, S) by {
      assert forall j | 0 <= j < 5 :: Calm(l.chunks[j]) && MarksOf(l.chunks[j]) <= S;
    }
    assert forall j | 0 <= j < |l.chunks| :: Level(l.chunks[j]);
    assert forall j | 0 <= j < |l.chunks| - 1 :: Seam(ChunkText(l.chunks[j]), ChunkText(l.chunks[j + 1])) by {
      var r := ChunkText(Ref(k));
      assert r[|r| - 1] == ']';
    }
    assert Opens(l);
  }

  /** Two pieces of fixed text, `@v`, fixed text. */
  lemma CodeAtTidy(n: nat, a: string, b: string, v: Var, c: string, S: set<Var>)
    requires v in S && Tame(a) && Tame(b) && Tame(c) && Opener(a) && Closed(a) && Guarded(c)
    ensures Tidy(Line(n, [Code(a), Code(b), At(v), Code(c)]), S)
  {
    var l := Line(n, [Code(a), Code(b), At(v), Code(c)]);
    assert CalmLine(l, S) by {
      assert forall j | 0 <= j < 4 :: Calm(l.chunks[j]) && MarksOf(l.chunks[j]) <= S;
    }
    assert forall j | 0 <= j < |l.chunks| :: Level(l.chunks[j]);
    assert forall j | 0 <= j < |l.chunks| - 1 :: Seam(ChunkText(l.chunks[j]), ChunkText(l.chunks[j + 1]));
    assert Opens(l);
  }
}
