/** Where a template's text can hold an `@`: only where a chunk names an instance variable.
    A text whose every `@` starts the name of a variable of some set starts no match of a
    rule led by the name of a variable outside the set. */
module Marks {
  import opened Chars
  import opened Text
  import opened Optional
  import opened Search
  import opened Rules
  import opened Ivars
  import opened AppParser
  import opened Reading
  import opened AppTemplate

  /** Every `@` in `x` starts `@` and the name of a variable in `S`; the text form of
      `CalmLine`, on which `MarkedInert` shows that patterns for other variables find
      nothing. */
  ghost predicate Marked(x: string, S: set<Var>) {
    forall o | 0 <= o < |x| && x[o] == '@' :: exists w | w in S :: "@" + Ident(w) <= x[o..]
  }

  /** A rule led by `@` and the name of a variable outside `S` starts no match in a text
      marked by `S`. */
  lemma MarkedInert(r: Rule, v: Var, x: string, S: set<Var>)
    requires Lead(r) == "@" + Ident(v) && v !in S && Marked(x, S)
    ensures Inert(Attempt(r), x)
  {
    forall y: string, b: bool ensures Barren(Attempt(r), x, y, b) {
      forall o | 0 <= o < |x| ensures !HitsAt(Attempt(r), x + y, b, o) {
        assert x[o] == '@' ==> exists w | w in S :: "@" + Ident(w) <= x[o..];
        MarkedMiss(r, v, x, S, y, b, o);
      }
    }
  }

  lemma MarkedMiss(r: Rule, v: Var, x: string, S: set<Var>, y: string, b: bool, o: nat)
    requires Lead(r) == "@" + Ident(v) && v !in S && o < |x|
    requires x[o] == '@' ==> exists w | w in S :: "@" + Ident(w) <= x[o..]
    ensures !HitsAt(Attempt(r), x + y, b, o)
  {
    assert HitsAt(Attempt(r), x + y, b, o) ==> Lead(r) <= (x + y)[o..] by { AttemptLead(r, x + y, b, o); }
    assert !("@" + Ident(v) <= (x + y)[o..]) by { NotLed(v, x, S, y, o); }
  }

  /** A successful attempt starts with the rule's leading literal. */
  lemma AttemptLead(r: Rule, s: string, b: bool, o: nat)
    requires o <= |s|
    ensures HitsAt(Attempt(r), s, b, o) ==> Lead(r) <= s[o..]
  {
    LeadNeeded(r, s[o..], BolAt(s, o, b));
  }

  lemma NotLed(v: Var, x: string, S: set<Var>, y: string, o: nat)
    requires v !in S && o < |x|
    requires x[o] == '@' ==> exists w | w in S :: "@" + Ident(w) <= x[o..]
    ensures !("@" + Ident(v) <= (x + y)[o..])
  {
    assert (x + y)[o..] == x[o..] + y;
    if x[o] == '@' {
      var w :| w in S && "@" + Ident(w) <= x[o..];
      SigilClash(v, w, x[o..], y);
    } else {
      assert (x + y)[o..][0] == x[o];
    }
  }

  /** A text that starts with the name of one variable does not start with another's. */
  lemma SigilClash(v: Var, w: Var, t: string, y: string)
    requires v != w && "@" + Ident(w) <= t
    ensures !("@" + Ident(v) <= t + y)
  {
    Apart(v, w);
    var k := Split(v, w) + 1;
    var h := "@" + Ident(v);
    var g := "@" + Ident(w);
    assert g[k] == Ident(w)[k - 1] && h[k] == Ident(v)[k - 1];
    assert (t + y)[k] == t[k] == g[k];
  }

  lemma MarkedJoin(x: string, y: string, S: set<Var>, T: set<Var>)
    requires Marked(x, S) && Marked(y, T)
    ensures Marked(x + y, S + T)
  {
    var s := x + y;
    forall o | 0 <= o < |s| && s[o] == '@' ensures exists w | w in S + T :: "@" + Ident(w) <= s[o..] {
      if o < |x| {
        MarkedLeft(x, y, S, o);
      } else {
        MarkedRight(x, y, T, o);
      }
    }
  }

  lemma MarkedLeft(x: string, y: string, S: set<Var>, o: nat)
    requires Marked(x, S) && o < |x| && x[o] == '@'
    ensures exists w | w in S :: "@" + Ident(w) <= (x + y)[o..]
  {
    var w :| w in S && "@" + Ident(w) <= x[o..];
    assert (x + y)[o..] == x[o..] + y;
  }

  lemma MarkedRight(x: string, y: string, T: set<Var>, o: nat)
    requires Marked(y, T) && |x| <= o < |x| + |y| && (x + y)[o] == '@'
    ensures exists w | w in T :: "@" + Ident(w) <= (x + y)[o..]
  {
    assert (x + y)[o..] == y[o - |x|..] && y[o - |x|] == '@';
    var w :| w in T && "@" + Ident(w) <= y[o - |x|..];
  }

  lemma MarkedMore(x: string, S: set<Var>, T: set<Var>)
    requires Marked(x, S) && S <= T
    ensures Marked(x, T)
  {
  }

  /** A text without `@` is marked by nothing. */
  lemma PlainMarked(x: string)
    requires '@' !in x
    ensures Marked(x, {})
  {
    forall o | 0 <= o < |x| ensures x[o] != '@' {
      assert x[o] in x;
    }
  }

  /** `@` and a variable's name, then text without `@`. */
  lemma SigilMarked(w: Var, rest: string)
    requires '@' !in rest
    ensures Marked("@" + Ident(w) + rest, {w})
  {
    var x := "@" + Ident(w) + rest;
    WordShape(w);
    forall o | 1 <= o < |x| ensures x[o] != '@' {
      if o <= |Ident(w)| {
        assert x[o] == Ident(w)[o - 1] && Ident(w)[o - 1] in Ident(w);
      } else {
        assert x[o] == rest[o - 1 - |Ident(w)|] && rest[o - 1 - |Ident(w)|] in rest;
      }
    }
    assert x[0..] == x;
  }

  /** Two texts without `@` make one. */
  lemma NoAt(a: string, b: string)
    requires '@' !in a && '@' !in b
    ensures '@' !in a + b
  {
    forall i | 0 <= i < |a + b| ensures (a + b)[i] != '@' {
      if i < |a| { assert (a + b)[i] == a[i] && a[i] in a; }
      else { assert (a + b)[i] == b[i - |a|] && b[i - |a|] in b; }
    }
  }

  // ---- chunks and lines ----

  /** The variables a chunk names after an `@`. */
  function MarksOf(c: Chunk): set<Var> {
    match c
    case At(v) => {v}
    case Assign(_, _) => {Params}
    case Tagged(_, _, _) => {Params}
    case Ref(_) => {Params}
    case _ => {}
  }

  /** The chunk's text holds no `@` but the one that starts its own instance variable: a
      calm chunk of `@v` text gives the `@...` patterns of the extractor only `@v` to look
      at. */
  predicate Calm(c: Chunk) {
    match c
    case Code(s) => '@' !in s
    case At(_) => true
    case Assign(k, v) => '@' !in k && '@' !in v
    case Tagged(k, t, v) => '@' !in k && '@' !in t && '@' !in v
    case Ref(k) => '@' !in k
    case Def(n) => '@' !in n
  }

  lemma ChunkMarked(c: Chunk)
    requires Calm(c)
    ensures Marked(ChunkText(c), MarksOf(c))
  {
    match c
    case Code(s) => PlainMarked(s);
    case At(v) => AtMarked(v);
    case Assign(k, v) => AssignMarked(k, v);
    case Tagged(k, t, v) => TaggedMarked(k, t, v);
    case Ref(k) => RefMarked(k);
    case Def(n) => DefMarked(n);
  }

  lemma AtMarked(v: Var)
    ensures Marked(ChunkText(At(v)), {v})
  {
    assert ChunkText(At(v)) == "@" + Ident(v) + "";
    SigilMarked(v, "");
  }

  lemma AssignMarked(k: string, v: string)
    requires '@' !in k && '@' !in v
    ensures Marked(ChunkText(Assign(k, v)), {Params})
  {
    var rest := "['" + k + "'] = " + v;
    NoAt("['", k);
    NoAt("['" + k, "'] = ");
    NoAt("['" + k + "'] = ", v);
    assert ChunkText(Assign(k, v)) == "@" + Ident(Params) + rest;
    SigilMarked(Params, rest);
  }

  lemma TaggedMarked(k: string, t: string, v: string)
    requires '@' !in k && '@' !in t && '@' !in v
    ensures Marked(ChunkText(Tagged(k, t, v)), {Params})
  {
    var a1 := "['" + k;
    var a2 := a1 + "', '";
    var a3 := a2 + t;
    var a4 := a3 + "'] = ";
    var rest := a4 + v;
    assert '@' !in rest by {
      NoAt("['", k);
      NoAt(a1, "', '");
      NoAt(a2, t);
      NoAt(a3, "'] = ");
      NoAt(a4, v);
    }
    assert ChunkText(Tagged(k, t, v)) == "@" + Ident(Params) + rest;
    assert Marked("@" + Ident(Params) + rest, {Params}) by { SigilMarked(Params, rest); }
  }

  lemma RefMarked(k: string)
    requires '@' !in k
    ensures Marked(ChunkText(Ref(k)), {Params})
  {
    var rest := "['" + k + "']";
    NoAt("['", k);
    NoAt("['" + k, "']");
    assert ChunkText(Ref(k)) == "@" + Ident(Params) + rest;
    SigilMarked(Params, rest);
  }

  lemma DefMarked(n: string)
    requires '@' !in n
    ensures Marked(ChunkText(Def(n)), {})
  {
    NoAt("def ", n);
    PlainMarked("def " + n);
  }

  /** Every chunk of the line is calm and names only variables of `S`: the extractor's
      pattern for any instance variable outside `S` starts no match on this line. */
  predicate CalmLine(l: Line, S: set<Var>) {
    forall j | 0 <= j < |l.chunks| :: Calm(l.chunks[j]) && MarksOf(l.chunks[j]) <= S
  }

  lemma {:induction false} BodyMarked(cs: seq<Chunk>, S: set<Var>)
    requires forall j | 0 <= j < |cs| :: Calm(cs[j]) && MarksOf(cs[j]) <= S
    ensures Marked(Body(cs), S)
    decreases |cs|
  {
    if |cs| == 0 {
      PlainMarked("");
    } else {
      ChunkMarked(cs[0]);
      BodyMarked(cs[1..], S);
      MarkedJoin(ChunkText(cs[0]), Body(cs[1..]), MarksOf(cs[0]), S);
      assert MarksOf(cs[0]) + S == S;
    }
  }

  lemma LineMarked(l: Line, S: set<Var>)
    requires CalmLine(l, S)
    ensures Marked(LineText(l), S)
  {
    var g := Indent(l.indent);
    assert '@' !in g;
    PlainMarked(g);
    PlainMarked("\n");
    BodyMarked(l.chunks, S);
    MarkedJoin(g, Body(l.chunks), {}, S);
    MarkedJoin(g + Body(l.chunks), "\n", {} + S, {});
    assert {} + S + {} == S;
  }

  lemma {:induction false} RenderMarked(ls: seq<Line>, S: set<Var>)
    requires forall i | 0 <= i < |ls| :: CalmLine(ls[i], S)
    ensures Marked(Render(ls), S)
    decreases |ls|
  {
    if |ls| == 0 {
      PlainMarked("");
    } else {
      LineMarked(ls[0], S);
      RenderMarked(ls[1..], S);
      MarkedJoin(LineText(ls[0]), Render(ls[1..]), S, S);
      assert S + S == S;
    }
  }
}
