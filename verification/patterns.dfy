/** The fixed, backtracking-free prefixes of the extractor's regular expressions.

    Every rule of the extractor begins with a run of literal words, optional whitespace
    (`\s*`), required whitespace (`\s+`) and quote characters (`['"]`). `Span` matches such a
    prefix greedily, the way Ruby's engine tries it first. `Accepts` is the regular
    expression's own meaning (any split of the whitespace runs). For guarded patterns, where
    every whitespace run is followed by something that cannot be whitespace, the two agree:
    backtracking into a whitespace run can never help, so the greedy match is the only one. */
module Patterns {
  import opened Chars
  import opened Text
  import opened Optional

  /** One piece of a prefix: `Lit` the characters of `w` literally, `Spaces` a `\s*` run,
      `Spaces1` a `\s+` run, and `Quote` one quote character, single or double. */
  datatype Tok =
    | Lit(w: string)
    | Spaces
    | Spaces1
    | Quote

  type Pattern = seq<Tok>

  function Then(k: nat, r: Option<nat>): (s: Option<nat>)
    ensures s.Some? <==> r.Some?
    ensures s.Some? ==> s.value == k + r.value
  {
    match r
    case None => None
    case Some(n) => Some(k + n)
  }

  /** The length of the greedy match of `p` at the start of `t`. */
  function Span(p: Pattern, t: string): (r: Option<nat>)
    ensures r.Some? ==> r.value <= |t|
    decreases |p|
  {
    if |p| == 0 then Some(0)
    else
      match p[0]
      case Lit(w) => if w <= t then Then(|w|, Span(p[1..], t[|w|..])) else None
      case Spaces =>
        var k := Run(Space, t);
        Then(k, Span(p[1..], t[k..]))
      case Spaces1 =>
        var k := Run(Space, t);
        if k == 0 then None else Then(k, Span(p[1..], t[k..]))
      case Quote => if 0 < |t| && IsQuote(t[0]) then Then(1, Span(p[1..], t[1..])) else None
  }

  /** `p` matches exactly the text `u`, whichever way its whitespace runs are split. */
  ghost predicate Accepts(p: Pattern, u: string)
    decreases |p|
  {
    if |p| == 0 then u == []
    else
      match p[0]
      case Lit(w) => w <= u && Accepts(p[1..], u[|w|..])
      case Spaces => exists k | 0 <= k <= |u| :: Blank(u[..k]) && Accepts(p[1..], u[k..])
      case Spaces1 => exists k | 1 <= k <= |u| :: Blank(u[..k]) && Accepts(p[1..], u[k..])
      case Quote => 0 < |u| && IsQuote(u[0]) && Accepts(p[1..], u[1..])
  }

  /** The token can only begin with a character that is not whitespace. */
  predicate Solid(t: Tok) {
    match t
    case Lit(w) => 0 < |w| && !IsSpace(w[0])
    case Quote => true
    case _ => false
  }

  predicate IsSpaceRun(t: Tok) {
    t.Spaces? || t.Spaces1?
  }

  /** Every whitespace run except a final one is followed by a solid token. */
  predicate Guarded(p: Pattern)
    decreases |p|
  {
    |p| <= 1 || ((IsSpaceRun(p[0]) ==> Solid(p[1])) && Guarded(p[1..]))
  }

  /** The pattern ends in a whitespace run, so what follows the match matters. */
  predicate EndsInSpaces(p: Pattern) {
    0 < |p| && IsSpaceRun(p[|p| - 1])
  }

  /** Text accepted by a pattern that starts with a solid token starts with a character
      that is not whitespace. */
  lemma SolidStart(p: Pattern, u: string)
    requires 0 < |p| && Solid(p[0]) && Accepts(p, u)
    ensures 0 < |u| && !IsSpace(u[0])
  {
    match p[0]
    case Lit(w) =>
      assert u[0] == w[0];
    case Quote =>
  }

  /** The greedy match is a match. */
  lemma {:induction false} SpanSound(p: Pattern, t: string)
    requires Span(p, t).Some?
    ensures Accepts(p, t[..Span(p, t).value])
    ensures EndsInSpaces(p) && Span(p, t).value < |t| ==> !IsSpace(t[Span(p, t).value])
    decreases |p|
  {
    if |p| > 0 {
      SpanStep(p, t);
      var k := Step(p[0], t).value;
      SpanSound(p[1..], t[k..]);
      SoundJoin(p, t, k, Span(p[1..], t[k..]).value);
    }
  }

  /** One step of `SpanSound`: a first token stepped greedily, then a tail match. */
  lemma SoundJoin(p: Pattern, t: string, k: nat, m: nat)
    requires 0 < |p| && Step(p[0], t) == Some(k) && k + m <= |t|
    requires Accepts(p[1..], t[k..][..m])
    requires EndsInSpaces(p[1..]) && m < |t| - k ==> !IsSpace(t[k + m])
    ensures Accepts(p, t[..k + m])
    ensures EndsInSpaces(p) && k + m < |t| ==> !IsSpace(t[k + m])
  {
    var u := t[..k + m];
    StepAccepts(p[0], t);
    assert u[k..] == t[k..][..m];
    assert u[..k] == t[..k];
    AcceptsStep(p, u, k);
    if |p| == 1 {
      assert m == 0;
    } else {
      assert EndsInSpaces(p) ==> EndsInSpaces(p[1..]);
    }
  }

  /** How far a single token moves greedily at the start of `t`. */
  function Step(tok: Tok, t: string): (r: Option<nat>)
    ensures r.Some? ==> r.value <= |t|
  {
    match tok
    case Lit(w) => if w <= t then Some(|w|) else None
    case Spaces => Some(Run(Space, t))
    case Spaces1 => var k := Run(Space, t); if k == 0 then None else Some(k)
    case Quote => if 0 < |t| && IsQuote(t[0]) then Some(1) else None
  }

  /** The text a single token matches, taken on its own. */
  predicate TokAccepts(tok: Tok, v: string) {
    match tok
    case Lit(w) => v == w
    case Spaces => Blank(v)
    case Spaces1 => 0 < |v| && Blank(v)
    case Quote => |v| == 1 && IsQuote(v[0])
  }

  /** `Span` is one `Step` followed by the rest of the pattern. */
  lemma SpanStep(p: Pattern, t: string)
    requires 0 < |p|
    ensures Span(p, t).Some? <==> Step(p[0], t).Some? && Span(p[1..], t[Step(p[0], t).value..]).Some?
    ensures Span(p, t).Some? ==>
              Span(p, t).value == Step(p[0], t).value + Span(p[1..], t[Step(p[0], t).value..]).value
  {
  }

  /** What a token steps over, it matches. */
  lemma StepAccepts(tok: Tok, t: string)
    requires Step(tok, t).Some?
    ensures TokAccepts(tok, t[..Step(tok, t).value])
  {
  }

  /** `p` accepts `u` when its first token accepts a prefix of `u` and its tail the rest. */
  lemma AcceptsStep(p: Pattern, u: string, k: nat)
    requires 0 < |p| && k <= |u|
    requires TokAccepts(p[0], u[..k]) && Accepts(p[1..], u[k..])
    ensures Accepts(p, u)
  {
    match p[0]
    case Lit(w) =>
      assert u[..k] + u[k..] == u;
    case Spaces =>
    case Spaces1 =>
    case Quote =>
  }

  /** Every match of a guarded pattern is the greedy one: `Span` finds a match exactly when
      the regular expression has one, and of the same length. */
  lemma {:induction false} SpanComplete(p: Pattern, t: string, n: nat)
    requires Guarded(p) && n <= |t| && Accepts(p, t[..n])
    requires EndsInSpaces(p) && n < |t| ==> !IsSpace(t[n])
    ensures Span(p, t) == Some(n)
    decreases |p|
  {
    if |p| > 0 {
      var k := CompleteSplit(p, t, n);
      SpanComplete(p[1..], t[k..], n - k);
      SpanStep(p, t);
    }
  }

  /** A match of `p` splits into the greedy step of its first token and a match of the
      tail. */
  lemma CompleteSplit(p: Pattern, t: string, n: nat) returns (k: nat)
    requires Guarded(p) && 0 < |p| && n <= |t| && Accepts(p, t[..n])
    requires EndsInSpaces(p) && n < |t| ==> !IsSpace(t[n])
    ensures k <= n && Step(p[0], t) == Some(k)
    ensures Guarded(p[1..]) && Accepts(p[1..], t[k..][..n - k])
    ensures EndsInSpaces(p[1..]) && n - k < |t| - k ==> !IsSpace(t[k..][n - k])
  {
    var u := t[..n];
    k := AcceptsFirst(p, u);
    assert Step(p[0], t) == Some(k) by {
      assert u[..k] == t[..n][..k];
      match p[0]
      case Lit(w) =>
        assert t[..k] == w;
      case Quote =>
        assert t[0] == u[0];
      case Spaces =>
        SpaceRunIsGreedy(p, t, n, k);
      case Spaces1 =>
        SpaceRunIsGreedy(p, t, n, k);
    }
    assert Accepts(p[1..], t[k..][..n - k]) by {
      assert t[k..][..n - k] == u[k..];
    }
    assert EndsInSpaces(p[1..]) && n - k < |t| - k ==> !IsSpace(t[k..][n - k]) by {
      if EndsInSpaces(p[1..]) && n - k < |t| - k {
        assert p[|p| - 1] == p[1..][|p| - 2];
        assert t[k..][n - k] == t[n];
      }
    }
  }

  /** A match of `p` starts with a match of its first token. */
  lemma AcceptsFirst(p: Pattern, u: string) returns (k: nat)
    requires 0 < |p| && Accepts(p, u)
    ensures k <= |u| && TokAccepts(p[0], u[..k]) && Accepts(p[1..], u[k..])
  {
    match p[0]
    case Lit(w) =>
      k := |w|;
    case Quote =>
      k := 1;
    case Spaces =>
      k :| 0 <= k <= |u| && Blank(u[..k]) && Accepts(p[1..], u[k..]);
    case Spaces1 =>
      k :| 1 <= k <= |u| && Blank(u[..k]) && Accepts(p[1..], u[k..]);
  }

  /** In a guarded pattern, a leading whitespace run that leads to a match always covers the
      whole run of whitespace in the text. */
  lemma SpaceRunIsGreedy(p: Pattern, t: string, n: nat, k: nat)
    requires Guarded(p) && 0 < |p| && IsSpaceRun(p[0])
    requires k <= n <= |t| && Blank(t[..n][..k]) && Accepts(p[1..], t[..n][k..])
    requires EndsInSpaces(p) && n < |t| ==> !IsSpace(t[n])
    ensures Run(Space, t) == k
  {
    var u := t[..n];
    assert t[..k] == u[..k];
    if |p| > 1 {
      assert Solid(p[1]);
      SolidStart(p[1..], u[k..]);
      assert t[k] == u[k..][0];
    } else {
      assert u[k..] == [];
    }
    RunUnique(Space, t, k);
  }
}
