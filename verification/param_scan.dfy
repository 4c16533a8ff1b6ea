/** Reading back the `@params['key'] = value` lines of a template. The parameter rule matches
    once on each line that ends in such an assignment, with the key and the value, and
    nowhere else in the template's lines: it passes over `@params['key', 'tag'] = ...` and
    over a `@params['key']` that is followed by other text. */
module ParamScan {
  import opened Chars
  import opened Text
  import opened Optional
  import opened Lists
  import opened Search
  import opened Rules
  import opened Ivars
  import opened AppParser
  import opened Reading
  import opened AppTemplate
  import opened Marks
  import opened Reparse

  /** Text that may follow `@params['key']` without the rule reading an assignment there:
      its first character is neither whitespace nor `=`. */
  predicate RefTail(s: string) {
    0 < |s| && !IsSpace(s[0]) && s[0] != '='
  }

  /** A value the rule's `\s*(.+)$` takes whole: not empty, not led by whitespace, on one
      line. */
  predicate Whole(v: string) {
    0 < |v| && !IsSpace(v[0]) && '\n' !in v
  }

  /** Chunk `j` of a line, as the parameter rule meets it: an assignment ends the line and
      has a word for its key and a whole value; a tagged assignment has a word for its key;
      a reference has a word for its key and is followed by fixed text that opens it; no
      chunk is a bare `@params`. */
  predicate Readable(cs: seq<Chunk>, j: nat)
    requires j < |cs|
  {
    match cs[j]
    case Code(_) => true
    case At(v) => v != Params
    case Assign(k, v) => j == |cs| - 1 && Identifier(k) && Whole(v)
    case Tagged(k, _, _) => Identifier(k)
    case Ref(k) => Identifier(k) && j + 1 < |cs| && cs[j + 1].Code? && RefTail(cs[j + 1].s)
    case Def(_) => true
  }

  predicate ReadableLine(l: Line) {
    forall j | 0 <= j < |l.chunks| :: Readable(l.chunks, j)
  }

  predicate ReadableLines(ls: seq<Line>) {
    forall i | 0 <= i < |ls| :: ReadableLine(ls[i])
  }

  /** The key and the value of the assignment that ends the line, if one does. */
  function LineHits(l: Line): seq<seq<string>> {
    if 0 < |l.chunks| && l.chunks[|l.chunks| - 1].Assign? then
      var c := l.chunks[|l.chunks| - 1];
      [[c.key, c.value]]
    else []
  }

  /** The assignments that end lines, line by line. */
  function Hits(ls: seq<Line>): seq<seq<string>> {
    if |ls| == 0 then [] else LineHits(ls[0]) + Hits(ls[1..])
  }

  lemma {:induction false} HitsJoin(a: seq<Line>, b: seq<Line>)
    ensures Hits(a + b) == Hits(a) + Hits(b)
    decreases |a|
  {
    if |a| == 0 {
      assert a + b == b;
    } else {
      assert (a + b)[0] == a[0] && (a + b)[1..] == a[1..] + b;
      HitsJoin(a[1..], b);
    }
  }

  lemma ReadableJoin(a: seq<Line>, b: seq<Line>)
    requires ReadableLines(a) && ReadableLines(b)
    ensures ReadableLines(a + b)
  {
    forall i | 0 <= i < |a + b| ensures ReadableLine((a + b)[i]) {
      if i < |a| { assert (a + b)[i] == a[i]; } else { assert (a + b)[i] == b[i - |a|]; }
    }
  }

  /** Lines that name no `@params` hold no assignment the rule reads. */
  lemma {:induction false} QuietLines(ls: seq<Line>, S: set<Var>)
    requires CalmLines(ls, S) && Params !in S
    ensures ReadableLines(ls) && Hits(ls) == []
    decreases |ls|
  {
    forall i | 0 <= i < |ls| ensures ReadableLine(ls[i]) {
      var cs := ls[i].chunks;
      forall j | 0 <= j < |cs| ensures Readable(cs, j) {
        assert MarksOf(cs[j]) <= S;
      }
    }
    if |ls| != 0 {
      var cs := ls[0].chunks;
      if 0 < |cs| {
        assert MarksOf(cs[|cs| - 1]) <= S;
      }
      assert CalmLines(ls[1..], S) by {
        forall i | 0 <= i < |ls| - 1 ensures CalmLine(ls[1..][i], S) { assert ls[1..][i] == ls[i + 1]; }
      }
      QuietLines(ls[1..], S);
    }
  }

  // ---- the chunks the rule passes over ----

  /** A stretch on which no attempt can succeed, given that none succeeds at its start
      whatever follows, ahead of an inert stretch. */
  lemma FrontInert(r: Rule, x: string, t: string)
    requires Inert(Attempt(r), t)
    requires forall o, z, b | 0 <= o < |x| :: MatchHere(r, x[o..] + (t + z), b).None?
    ensures Inert(Attempt(r), x + t)
  {
    forall y: string, b: bool ensures Barren(Attempt(r), x + t, y, b) {
      forall o | 0 <= o < |x + t| ensures !HitsAt(Attempt(r), x + t + y, b, o) {
        if o < |x| {
          FrontMiss(r, x, t, y, b, o);
        } else {
          BackMiss(r, x, t, y, b, o);
        }
      }
    }
  }

  /** An attempt inside the front stretch fails. */
  lemma FrontMiss(r: Rule, x: string, t: string, y: string, b: bool, o: nat)
    requires o < |x|
    requires forall o, z, b | 0 <= o < |x| :: MatchHere(r, x[o..] + (t + z), b).None?
    ensures !HitsAt(Attempt(r), x + t + y, b, o)
  {
    var s := x + t + y;
    assert s[o..] == x[o..] + (t + y);
    assert MatchHere(r, x[o..] + (t + y), BolAt(s, o, b)).None?;
  }

  /** An attempt inside the inert stretch fails. */
  lemma BackMiss(r: Rule, x: string, t: string, y: string, b: bool, o: nat)
    requires Inert(Attempt(r), t) && |x| <= o < |x + t|
    ensures !HitsAt(Attempt(r), x + t + y, b, o)
  {
    var s := x + t + y;
    var c := BolAt(s, |x|, b);
    var o2 := o - |x|;
    assert s[|x|..] == t + y;
    if 0 < o2 {
      FoundTail(s, b, |x|, o2);
    }
    assert s[o..] == (t + y)[o2..] && BolAt(s, o, b) == BolAt(t + y, o2, c);
    assert Barren(Attempt(r), t, y, c);
    assert !HitsAt(Attempt(r), t + y, c, o2);
  }

  /** The first character of the rule, `@`, nowhere but at the start. */
  lemma SigilOnce(x: string, w: string, o: nat, z: string, b: bool)
    requires x == "@" + w && '@' !in w && 0 < o < |x|
    ensures MatchHere(ParamRule, x[o..] + z, b).None?
  {
    LeadNeeded(ParamRule, x[o..] + z, b);
    assert (x[o..] + z)[0] == x[o] == w[o - 1];
    assert w[o - 1] in w;
    assert Lead(ParamRule) == "@params";
  }

  /** `@params['k', 't'] = v` starts no match anywhere. */
  lemma TaggedInert(k: string, t: string, v: string)
    requires Identifier(k) && '@' !in k && '@' !in t && '@' !in v
    ensures Inert(Attempt(ParamRule), ChunkText(Tagged(k, t, v)))
  {
    var x := ChunkText(Tagged(k, t, v));
    var w := "params['" + k + "', '" + t + "'] = " + v;
    assert x == "@" + w;
    NoAt("params['", k);
    NoAt("params['" + k, "', '");
    NoAt("params['" + k + "', '", t);
    NoAt("params['" + k + "', '" + t, "'] = ");
    NoAt("params['" + k + "', '" + t + "'] = ", v);
    forall o, z, b | 0 <= o < |x| ensures MatchHere(ParamRule, x[o..] + z, b).None? {
      if o == 0 {
        assert x[0..] + z == "@params['" + k + "', '" + t + "'] = " + v + z;
        TaggedMiss(k, t, v, z, b);
      } else {
        SigilOnce(x, w, o, z, b);
      }
    }
    NoMatchInert(ParamRule, x);
  }

  /** `@params['k']` followed by an inert stretch that opens with neither whitespace nor `=`
      starts no match anywhere. */
  lemma RefInert(k: string, t: string)
    requires Identifier(k) && '@' !in k && Inert(Attempt(ParamRule), t) && RefTail(t)
    ensures Inert(Attempt(ParamRule), ChunkText(Ref(k)) + t)
  {
    var x := ChunkText(Ref(k));
    var w := "params['" + k + "']";
    assert x == "@" + w;
    NoAt("params['", k);
    NoAt("params['" + k, "']");
    forall o, z, b | 0 <= o < |x| ensures MatchHere(ParamRule, x[o..] + (t + z), b).None? {
      if o == 0 {
        assert x[0..] + (t + z) == "@params['" + k + "']" + (t + z);
        assert (t + z)[0] == t[0];
        RefMiss(k, t + z, b);
      } else {
        SigilOnce(x, w, o, t + z, b);
      }
    }
    FrontInert(ParamRule, x, t);
  }

  /** Fixed text, a `def`, another variable or a tagged assignment starts no match. */
  lemma ChunkInert(c: Chunk)
    requires Calm(c) && !c.Assign? && !c.Ref? && (c.At? ==> c.v != Params)
    requires c.Tagged? ==> Identifier(c.key)
    ensures Inert(Attempt(ParamRule), ChunkText(c))
  {
    if c.Tagged? {
      TaggedInert(c.key, c.tag, c.value);
    } else {
      ChunkMarked(c);
      assert Lead(ParamRule) == "@" + Ident(Params);
      MarkedInert(ParamRule, Params, ChunkText(c), MarksOf(c));
    }
  }

  /** Calm chunks, none an assignment, each as the rule meets it. */
  predicate Passive(cs: seq<Chunk>) {
    forall j | 0 <= j < |cs| :: Calm(cs[j]) && Readable(cs, j) && !cs[j].Assign?
  }

  lemma {:induction false} BodyInert(cs: seq<Chunk>)
    requires Passive(cs)
    ensures Inert(Attempt(ParamRule), Body(cs))
    decreases |cs|
  {
    if |cs| == 0 {
      InertEmpty(Attempt(ParamRule));
    } else {
      var rest := cs[1..];
      assert Passive(rest) by {
        forall j | 0 <= j < |rest| ensures Calm(rest[j]) && Readable(rest, j) && !rest[j].Assign? {
          assert rest[j] == cs[j + 1];
          assert Readable(cs, j + 1);
          if j + 1 < |rest| { assert rest[j + 1] == cs[j + 2]; }
        }
      }
      BodyInert(rest);
      assert Readable(cs, 0) && Calm(cs[0]);
      if cs[0].Ref? {
        assert Body(rest) == ChunkText(rest[0]) + Body(rest[1..]);
        assert Body(rest)[0] == cs[1].s[0];
        RefInert(cs[0].key, Body(rest));
      } else {
        ChunkInert(cs[0]);
        InertJoin(Attempt(ParamRule), ChunkText(cs[0]), Body(rest));
      }
    }
  }

  lemma {:induction false} BodySnoc(cs: seq<Chunk>, c: Chunk)
    ensures Body(cs + [c]) == Body(cs) + ChunkText(c)
    decreases |cs|
  {
    if |cs| == 0 {
      assert cs + [c] == [c];
    } else {
      assert (cs + [c])[0] == cs[0] && (cs + [c])[1..] == cs[1..] + [c];
      BodySnoc(cs[1..], c);
    }
  }

  // ---- one line, then many ----

  /** A line feed starts no match, and the scan goes on at the start of a line. */
  lemma NewlineDrop(y: string, b: bool)
    ensures Scan(Attempt(ParamRule), "\n" + y, b) == Scan(Attempt(ParamRule), y, true)
  {
    var s := "\n" + y;
    assert !HitsAt(Attempt(ParamRule), s, b, 0) by {
      assert s[0..] == s && BolAt(s, 0, b) == b;
      LeadNeeded(ParamRule, s, b);
      assert Lead(ParamRule) == "@params" && s[0] == '\n';
    }
    ScanDrop(Attempt(ParamRule), s, b);
    assert s[1..] == y;
  }

  /** The line's text, less its assignment, starts no match. */
  lemma LeadInertLine(l: Line, pre: seq<Chunk>)
    requires (forall j | 0 <= j < |l.chunks| :: Calm(l.chunks[j])) && ReadableLine(l)
    requires 0 < |l.chunks| && l.chunks[|l.chunks| - 1].Assign? && pre == l.chunks[..|l.chunks| - 1]
    ensures Inert(Attempt(ParamRule), Indent(l.indent) + Body(pre))
  {
    var cs := l.chunks;
    assert Passive(pre) by {
      forall j | 0 <= j < |pre| ensures Calm(pre[j]) && Readable(pre, j) && !pre[j].Assign? {
        assert pre[j] == cs[j];
        assert Readable(cs, j);
        if j + 1 < |pre| {
          assert pre[j + 1] == cs[j + 1];
        } else {
          assert cs[j + 1].Assign?;
        }
      }
    }
    BodyInert(pre);
    assert Lead(ParamRule) == "@params";
    IndentInert(ParamRule, l.indent);
    InertJoin(Attempt(ParamRule), Indent(l.indent), Body(pre));
  }

  /** `@params['k'] = v` and a line feed give the key and the value, and the scan goes on
      at the next line. */
  lemma HitLine(k: string, v: string, y: string, bol: bool, w: string)
    requires Identifier(k) && Whole(v) && w == "@params['" + k + "'] = " + v + "\n" + y
    ensures Scan(Attempt(ParamRule), w, bol) == [[k, v]] + Scan(Attempt(ParamRule), y, true)
  {
    var a := Attempt(ParamRule);
    var n := 14 + |k| + |v|;
    HitFirst(k, v, y, bol, w, n);
    HitRest(k, v, y);
    var t := w[n..];
    var c := BolAt(w, n, bol);
    assert t == "\n" + y;
    assert Scan(a, t, c) == Scan(a, y, true) by { NewlineDrop(y, c); }
    assert Scan(a, w, bol) == [[k, v]] + Scan(a, t, c);
  }

  lemma HitFirst(k: string, v: string, y: string, bol: bool, w: string, n: nat)
    requires Identifier(k) && Whole(v)
    requires w == "@params['" + k + "'] = " + v + "\n" + y && n == 14 + |k| + |v|
    ensures n < |w| && Scan(Attempt(ParamRule), w, bol) == [[k, v]] + Scan(Attempt(ParamRule), w[n..], BolAt(w, n, bol))
  {
    var a := Attempt(ParamRule);
    ParamHit(k, v, y, bol);
    var m := MatchHere(ParamRule, w, bol);
    assert a(w, bol) == m && m.value.len == n && n < |w|;
    ScanHit(a, w, bol);
    assert Scan(a, w, bol) == [[k, v]] + Scan(a, w[n..], BolAt(w, n, bol));
  }

  lemma HitRest(k: string, v: string, y: string)
    ensures ("@params['" + k + "'] = " + v + "\n" + y)[14 + |k| + |v|..] == "\n" + y
  {
  }

  /** The text of a line that ends in an assignment, split before the assignment. */
  lemma AssignText(l: Line, y: string)
    requires 0 < |l.chunks| && l.chunks[|l.chunks| - 1].Assign?
    ensures var last := l.chunks[|l.chunks| - 1];
            LineText(l) + y
            == Indent(l.indent) + Body(l.chunks[..|l.chunks| - 1])
               + ("@params['" + last.key + "'] = " + last.value + "\n" + y)
  {
    var cs := l.chunks;
    var last := cs[|cs| - 1];
    var pre := cs[..|cs| - 1];
    assert pre + [last] == cs;
    BodySnoc(pre, last);
  }

  /** A line that ends in an assignment gives its key and value, and the scan goes on at the
      next line. */
  lemma AssignScan(l: Line, y: string)
    requires (forall j | 0 <= j < |l.chunks| :: Calm(l.chunks[j])) && ReadableLine(l)
    requires 0 < |l.chunks| && l.chunks[|l.chunks| - 1].Assign?
    ensures Scan(Attempt(ParamRule), LineText(l) + y, true) == LineHits(l) + Scan(Attempt(ParamRule), y, true)
  {
    var cs := l.chunks;
    var last := cs[|cs| - 1];
    var pre := cs[..|cs| - 1];
    assert Readable(cs, |cs| - 1);
    LeadInertLine(l, pre);
    var x := Indent(l.indent) + Body(pre);
    var w := "@params['" + last.key + "'] = " + last.value + "\n" + y;
    AssignText(l, y);
    ScanPast(Attempt(ParamRule), x, w, true);
    HitLine(last.key, last.value, y, BolAt(x + w, |x|, true), w);
  }

  /** A line without an assignment at its end gives nothing. */
  lemma PassiveScan(l: Line, y: string)
    requires (forall j | 0 <= j < |l.chunks| :: Calm(l.chunks[j])) && ReadableLine(l)
    requires !(0 < |l.chunks| && l.chunks[|l.chunks| - 1].Assign?)
    ensures Scan(Attempt(ParamRule), LineText(l) + y, true) == Scan(Attempt(ParamRule), y, true)
  {
    var a := Attempt(ParamRule);
    var cs := l.chunks;
    assert Passive(cs) by {
      forall j | 0 <= j < |cs| ensures Calm(cs[j]) && Readable(cs, j) && !cs[j].Assign? {
        assert Readable(cs, j);
      }
    }
    BodyInert(cs);
    assert Lead(ParamRule) == "@params";
    IndentInert(ParamRule, l.indent);
    LeadInert(ParamRule, "\n");
    InertJoin(a, Indent(l.indent), Body(cs));
    InertJoin(a, Indent(l.indent) + Body(cs), "\n");
    var t := LineText(l);
    ScanPast(a, t, y, true);
    assert (t + y)[|t| - 1] == '\n';
  }

  /** One line as the rule meets it. */
  lemma ParamLineScan(l: Line, S: set<Var>, y: string)
    requires CalmLine(l, S) && ReadableLine(l)
    ensures Scan(Attempt(ParamRule), LineText(l) + y, true) == LineHits(l) + Scan(Attempt(ParamRule), y, true)
  {
    if 0 < |l.chunks| && l.chunks[|l.chunks| - 1].Assign? {
      AssignScan(l, y);
    } else {
      PassiveScan(l, y);
    }
  }

  /** Each line as the rule meets it: the scan reads the assignments that end lines, in
      order, and nothing else. */
  lemma {:induction false} ParamLinesScan(ls: seq<Line>, S: set<Var>, y: string)
    requires CalmLines(ls, S) && ReadableLines(ls)
    ensures Scan(Attempt(ParamRule), Render(ls) + y, true) == Hits(ls) + Scan(Attempt(ParamRule), y, true)
    decreases |ls|
  {
    var a := Attempt(ParamRule);
    if |ls| == 0 {
      assert Render(ls) + y == y;
    } else {
      var rest := ls[1..];
      var u := Render(rest) + y;
      LinesRest(ls, S);
      ParamLinesScan(rest, S, y);
      ParamLineScan(ls[0], S, u);
      RenderCons(ls, y);
      assert Scan(a, Render(ls) + y, true) == LineHits(ls[0]) + (Hits(rest) + Scan(a, y, true));
      assert Hits(ls) == LineHits(ls[0]) + Hits(rest);
      Assoc(LineHits(ls[0]), Hits(rest), Scan(a, y, true));
    }
  }


  lemma LinesRest(ls: seq<Line>, S: set<Var>)
    requires 0 < |ls| && CalmLines(ls, S) && ReadableLines(ls)
    ensures CalmLine(ls[0], S) && ReadableLine(ls[0]) && CalmLines(ls[1..], S) && ReadableLines(ls[1..])
  {
    var rest := ls[1..];
    forall i | 0 <= i < |rest| ensures CalmLine(rest[i], S) && ReadableLine(rest[i]) { assert rest[i] == ls[i + 1]; }
  }

  lemma RenderCons(ls: seq<Line>, y: string)
    requires 0 < |ls|
    ensures Render(ls) + y == LineText(ls[0]) + (Render(ls[1..]) + y)
  {
  }

  /** `content.scan(...)` over a rendered template is its line-by-line assignments. */
  lemma RenderParams(ls: seq<Line>, S: set<Var>)
    requires CalmLines(ls, S) && ReadableLines(ls)
    ensures Scan(Attempt(ParamRule), Render(ls), true) == Hits(ls)
  {
    ParamLinesScan(ls, S, "");
    assert Render(ls) + "" == Render(ls);
  }

  // ---- from the matches to the hash ----

  /** The matches as hash entries, in order. */
  function Entries(hits: seq<seq<string>>): (ps: Params)
    requires forall i | 0 <= i < |hits| :: |hits[i]| == 2
    ensures |ps| == |hits|
  {
    if |hits| == 0 then [] else [Entry(hits[0][0], hits[0][1])] + Entries(hits[1..])
  }

  /** A key the hash lacks goes last. */
  lemma {:induction false} UpsertFresh(ps: Params, k: string, v: string)
    requires k !in Keys(ps)
    ensures Upsert(ps, k, v) == ps + [Entry(k, v)]
    decreases |ps|
  {
    if |ps| != 0 {
      KeysCons(ps[0], ps[1..]);
      assert [ps[0]] + ps[1..] == ps;
      UpsertFresh(ps[1..], k, v);
      assert [ps[0]] + (ps[1..] + [Entry(k, v)]) == ps + [Entry(k, v)];
    }
  }

  /** Matches each with a key outside `ks` and not repeated, and without a comma. */
  predicate Fresh(ks: seq<string>, hits: seq<seq<string>>)
    decreases |hits|
  {
    || |hits| == 0
    || (&& |hits[0]| == 2 && ',' !in hits[0][0]
        && hits[0][0] !in ks && Fresh(ks + [hits[0][0]], hits[1..]))
  }

  /** Neither end of `s` is a character `strip` removes, so `strip` leaves `s` as it is. */
  predicate Solid(s: string) {
    |s| > 0 ==> !IsStripSpace(s[0]) && !IsStripSpace(s[|s| - 1])
  }

  /** Fresh matches whose values `strip` leaves as they are each add one entry, in order. */
  lemma {:induction false} CollectFresh(ps: Params, hits: seq<seq<string>>)
    requires forall i | 0 <= i < |hits| :: |hits[i]| == 2 && Solid(hits[i][1])
    requires Fresh(Keys(ps), hits)
    ensures CollectParams(ps, hits) == ps + Entries(hits)
    decreases |hits|
  {
    if |hits| == 0 {
      assert ps + [] == ps;
    } else {
      var h := hits[0];
      var e := Entry(h[0], h[1]);
      StripSolid(h[1]);
      UpsertFresh(ps, h[0], h[1]);
      assert AddParam(ps, h) == ps + [e];
      assert CollectParams(ps, hits) == CollectParams(ps + [e], hits[1..]);
      assert Keys(ps + [e]) == Keys(ps) + [h[0]];
      assert forall i | 0 <= i < |hits[1..]| :: |hits[1..][i]| == 2 && Solid(hits[1..][i][1]) by {
        forall i | 0 <= i < |hits[1..]| ensures |hits[1..][i]| == 2 && Solid(hits[1..][i][1]) {
          assert hits[1..][i] == hits[i + 1];
        }
      }
      CollectFresh(ps + [e], hits[1..]);
      EntriesCons(hits);
      Assoc(ps, [e], Entries(hits[1..]));
    }
  }

  lemma EntriesCons(hits: seq<seq<string>>)
    requires 0 < |hits| && forall i | 0 <= i < |hits| :: |hits[i]| == 2
    ensures Entries(hits) == [Entry(hits[0][0], hits[0][1])] + Entries(hits[1..])
  {
  }
}
