/** What `parse_content` promises, stated over the matches of its rules: defaults for a text
    that assigns nothing, Ruby hash semantics for repeated parameters, the dead comma check,
    and the leftmost-match behaviour of the scalar fields. */
module ParserLemmas {
  import opened Chars
  import opened Text
  import opened Optional
  import opened Patterns
  import opened Search
  import opened Rules
  import opened Ivars
  import opened Lists
  import opened AppParser

  /** A text without `@` assigns no instance variable: every field the `@` rules fill keeps
      its starting value. */
  lemma NoAssignments(content: string, className: string, filePath: string)
    requires '@' !in content
    ensures var r := ParseContent(content, className, filePath);
            && r.name.None? && r.analysisCategory.None? && r.description.None? && r.processMode.None?
            && r.requiredColumns == [] && r.requiredParams == [] && r.modules == []
            && r.inheritColumns == [] && r.inheritTags == [] && r.params == []
  {
    ScalarUnset(Name, content);
    ScalarUnset(AnalysisCategory, content);
    ScalarUnset(Description, content);
    LeadMissing(HeredocRule, content, true);
    LeadMissing(ProcessModeRule, content, true);
    ListUnset(RequiredColumns, content);
    ListUnset(RequiredParams, content);
    ListUnset(Modules, content);
    ListUnset(InheritColumns, content);
    ListUnset(InheritTags, content);
    LeadMissing(ParamRule, content, true);
  }

  lemma ScalarUnset(v: Var, s: string)
    requires '@' !in s
    ensures Scalar(ScalarRule(v), s).None?
  {
    assert Lead(ScalarRule(v)) == "@" + Ident(v);
    LeadMissing(ScalarRule(v), s, true);
  }

  lemma ListUnset(v: Var, s: string)
    requires '@' !in s
    ensures Elements(v, s) == []
  {
    assert Lead(ListRule(v)) == "@" + Ident(v);
    LeadMissing(ListRule(v), s, true);
  }

  /** The empty text gives the starting record. */
  lemma EmptyContent(className: string, filePath: string)
    ensures ParseContent("", className, filePath) == Unset(className, filePath)
  {
    NoAssignments("", className, filePath);
    assert Find(Attempt(EzrunRule), "", true).None?;
    assert Scan(Attempt(MethodRule), "", true) == [];
  }

  /** The check that skips keys containing a comma never fires: a key is a `\w+` word. */
  lemma CommaCheckDead(ps: Params, h: seq<string>)
    requires |h| == 2 && Shaped(ParamRule, h)
    ensures AddParam(ps, h) == Upsert(ps, h[0], Strip(h[1]))
  {
  }

  /** The stripped value of the last match with key `k`. */
  function LastFor(hits: seq<seq<string>>, k: string): (v: Option<string>)
    requires forall i | 0 <= i < |hits| :: |hits[i]| == 2
  {
    if |hits| == 0 then None
    else
      var h := hits[|hits| - 1];
      if h[0] == k then Some(Strip(h[1])) else LastFor(hits[..|hits| - 1], k)
  }

  /** Folding in one more match is running its block on the hash built so far. */
  lemma {:induction false} CollectSnoc(ps: Params, hits: seq<seq<string>>, h: seq<string>)
    requires forall i | 0 <= i < |hits| :: |hits[i]| == 2
    requires |h| == 2
    ensures forall i | 0 <= i < |hits + [h]| :: |(hits + [h])[i]| == 2
    ensures CollectParams(ps, hits + [h]) == AddParam(CollectParams(ps, hits), h)
    decreases |hits|
  {
    if |hits| > 0 {
      assert (hits + [h])[1..] == hits[1..] + [h];
      CollectSnoc(AddParam(ps, hits[0]), hits[1..], h);
    }
  }

  /** Ruby hash semantics for `params`: the keys are the distinct keys of the matches, in the
      order they first occur, and each holds the stripped value of its last match. */
  lemma {:induction false} ParamsLastWins(hits: seq<seq<string>>)
    requires forall i | 0 <= i < |hits| :: |hits[i]| == 2 && Shaped(ParamRule, hits[i])
    ensures Keys(CollectParams([], hits)) == Uniq(Heads(hits))
    ensures forall k :: Lookup(CollectParams([], hits), k) == LastFor(hits, k)
    decreases |hits|
  {
    if |hits| == 0 {
      assert Keys([]) == [];
    } else {
      var p := hits[..|hits| - 1];
      var h := hits[|hits| - 1];
      assert hits == p + [h];
      ParamsLastWins(p);
      CollectSnoc([], p, h);
      CommaCheckDead(CollectParams([], p), h);
      UpsertOthers(CollectParams([], p), h[0], Strip(h[1]));
      assert Heads(hits)[..|hits| - 1] == Heads(p);
    }
  }

  /** The same, for the `params` of a parsed text. */
  lemma ParamsMeaning(content: string, className: string, filePath: string)
    ensures var hits := Scan(Attempt(ParamRule), content, true);
            && (forall i | 0 <= i < |hits| :: |hits[i]| == 2)
            && var ps := ParseContent(content, className, filePath).params;
            && Keys(ps) == Uniq(Heads(hits))
            && forall k :: Lookup(ps, k) == LastFor(hits, k)
  {
    ScanShaped(ParamRule, content, true);
    ParamsLastWins(Scan(Attempt(ParamRule), content, true));
  }
}
