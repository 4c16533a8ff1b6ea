/** What `^\s*def\s+(\w+)` finds in a template: the name of every `def` line, in order.
    Every line of a template is tidy, or is a flat line such as the `run_RApp` call, which
    starts with neither whitespace nor `d` and so starts no `def`. */
module MethodScan {
  import opened Chars
  import opened Text
  import opened Search
  import opened Rules
  import opened Ivars
  import opened AppParser
  import opened Reading
  import opened AppTemplate
  import opened Layout
  import opened TidyBlocks

  /** Every instance variable. */
  const AllVars: set<Var> :=
    {Name, Params, AnalysisCategory, Description, RequiredColumns, RequiredParams,
     Modules, InheritColumns, InheritTags, ResultDir}

  /** The names of the `def` lines, in order. */
  function DefNames(ls: seq<Line>): seq<string> {
    if |ls| == 0 then []
    else (if DefLine(ls[0]) then [ls[0].chunks[0].name] else []) + DefNames(ls[1..])
  }

  /** The groups the method rule gives for the names `ns`. */
  function Wrap(ns: seq<string>): (hits: seq<seq<string>>)
    ensures |hits| == |ns| && forall i | 0 <= i < |ns| :: hits[i] == [ns[i]]
  {
    seq(|ns|, i requires 0 <= i < |ns| => [ns[i]])
  }

  /** One line of text, not a `def`, that starts with neither whitespace nor `d`. */
  predicate Flat(l: Line) {
    var b := Body(l.chunks);
    !DefLine(l) && 0 < |b| && !IsSpace(b[0]) && b[0] != 'd' && '\n' !in b
  }

  /** A line the method pattern `^\s*def (\w+)` reads correctly: tidy, or one flat line. */
  predicate Scannable(l: Line) {
    Tidy(l, AllVars) || Flat(l)
  }

  predicate ScannableLines(ls: seq<Line>) {
    forall i | 0 <= i < |ls| :: Scannable(ls[i])
  }

  lemma ScannableJoin(a: seq<Line>, b: seq<Line>)
    requires ScannableLines(a) && ScannableLines(b)
    ensures ScannableLines(a + b)
  {
    forall i | 0 <= i < |a + b| ensures Scannable((a + b)[i]) {
      if i < |a| { assert (a + b)[i] == a[i]; } else { assert (a + b)[i] == b[i - |a|]; }
    }
  }

  lemma TidyScannable(ls: seq<Line>, S: set<Var>)
    requires TidyLines(ls, S)
    ensures ScannableLines(ls)
  {
    forall v | v in S ensures v in AllVars { EveryVar(v); }
    TidyMore(ls, S, AllVars);
  }

  lemma EveryVar(v: Var)
    ensures v in AllVars
  {
  }

  lemma WrapCons(n: seq<string>, d: seq<string>)
    ensures Wrap(n + d) == Wrap(n) + Wrap(d)
  {
  }

  /** A flat line adds no name to the scan. */
  lemma FlatScan(l: Line, y: string)
    requires Flat(l)
    ensures Scan(Attempt(MethodRule), LineText(l) + y, true) == Scan(Attempt(MethodRule), y, true)
  {
    var g := Indent(l.indent);
    var b := Body(l.chunks);
    assert Blank(g);
    assert LineText(l) + y == g + b + "\n" + y;
    PlainLineScan(g, b, y);
  }

  /** One line: its name, if it is a `def`, then the scan of what follows. */
  lemma LineNames(l: Line, y: string)
    requires Scannable(l)
    ensures Scan(Attempt(MethodRule), LineText(l) + y, true)
            == Wrap(DefNames([l])) + Scan(Attempt(MethodRule), y, true)
  {
    OneNames(l);
    if DefLine(l) {
      assert Tidy(l, AllVars);
      DefScan(l, AllVars, y);
    } else if Flat(l) {
      FlatScan(l, y);
    } else {
      LineScan(l, AllVars, y);
    }
  }

  lemma OneNames(l: Line)
    ensures DefLine(l) ==> DefNames([l]) == [l.chunks[0].name]
    ensures !DefLine(l) ==> DefNames([l]) == []
  {
    assert [l][1..] == [];
  }

  /** The scan of scannable lines gives their `def` names, then goes on. */
  lemma {:induction false} LinesScan(ls: seq<Line>, y: string)
    requires ScannableLines(ls)
    ensures Scan(Attempt(MethodRule), Render(ls) + y, true)
            == Wrap(DefNames(ls)) + Scan(Attempt(MethodRule), y, true)
    decreases |ls|
  {
    if |ls| == 0 {
      assert Render(ls) + y == y;
    } else {
      var tail := ls[1..];
      var rest := Render(tail) + y;
      assert Render(ls) + y == LineText(ls[0]) + rest;
      ScannableTail(ls);
      LineNames(ls[0], rest);
      LinesScan(tail, y);
      FirstNames(ls);
      WrapCons(DefNames([ls[0]]), DefNames(tail));
      ScanChain(Scan(Attempt(MethodRule), Render(ls) + y, true), Scan(Attempt(MethodRule), rest, true),
                Scan(Attempt(MethodRule), y, true), Wrap(DefNames([ls[0]])), Wrap(DefNames(tail)),
                Wrap(DefNames(ls)));
    }
  }

  lemma ScanChain(s: seq<seq<string>>, r: seq<seq<string>>, t: seq<seq<string>>,
                  a: seq<seq<string>>, b: seq<seq<string>>, c: seq<seq<string>>)
    requires s == a + r && r == b + t && c == a + b
    ensures s == c + t
  {
  }

  lemma ScannableTail(ls: seq<Line>)
    requires 0 < |ls| && ScannableLines(ls)
    ensures Scannable(ls[0]) && ScannableLines(ls[1..])
  {
    assert forall i | 0 <= i < |ls[1..]| :: ls[1..][i] == ls[i + 1];
  }

  lemma FirstNames(ls: seq<Line>)
    requires 0 < |ls|
    ensures DefNames(ls) == DefNames([ls[0]]) + DefNames(ls[1..])
  {
    assert [ls[0]][1..] == [];
  }

  /** `methods` of the text of scannable lines is their `def` names. */
  lemma MethodsOfLines(ls: seq<Line>)
    requires ScannableLines(ls)
    ensures Methods(Render(ls)) == DefNames(ls)
  {
    LinesScan(ls, "");
    assert Render(ls) + "" == Render(ls);
    assert Scan(Attempt(MethodRule), "", true) == [];
  }

  lemma {:induction false} DefNamesJoin(a: seq<Line>, b: seq<Line>)
    ensures DefNames(a + b) == DefNames(a) + DefNames(b)
    decreases |a|
  {
    if |a| == 0 {
      assert a + b == b;
    } else {
      assert (a + b)[0] == a[0] && (a + b)[1..] == a[1..] + b;
      DefNamesJoin(a[1..], b);
    }
  }

  /** Plain lines hold no `def`. */
  lemma {:induction false} PlainNames(ls: seq<Line>, S: set<Var>)
    requires PlainLines(ls, S)
    ensures DefNames(ls) == []
    decreases |ls|
  {
    if 0 < |ls| {
      assert Plain(ls[0], S);
      assert PlainLines(ls[1..], S) by {
        forall i | 0 <= i < |ls[1..]| ensures Plain(ls[1..][i], S) { assert ls[1..][i] == ls[i + 1]; }
      }
      PlainNames(ls[1..], S);
    }
  }

  /** A method whose body holds no `def` holds one, its own. */
  lemma MethodNames(name: string, body: seq<Line>)
    requires DefNames(body) == []
    ensures DefNames(Method(name, body)) == [name]
  {
    var d := Line(2, [Def(name)]);
    assert DefNames([d]) == [name] by { assert [d][1..] == []; }
    assert DefNames([End2]) == [] by { assert [End2][1..] == []; }
    DefNamesJoin([d], body);
    DefNamesJoin([d] + body, [End2]);
  }
}
