/** The extractor: `SushiAppParser#parse_content`, which reads the structure of a SUSHI app
    class out of its Ruby source text with regular expressions, and `parse_app`, which finds
    the class file under the library directory.

    Each field is taken from the leftmost match of one rule (`=~`), or from every match
    (`scan`). Nothing of the class is evaluated: the structure is only what the patterns see. */
module AppParser {
  import opened Chars
  import opened Text
  import opened Optional
  import opened Patterns
  import opened Search
  import opened Rules
  import opened Ivars
  import opened Lists

  /** One `key => value` pair of the `params` hash. */
  datatype Entry = Entry(key: string, value: string)

  /** A Ruby hash with string keys: its pairs in insertion order. */
  type Params = seq<Entry>

  function Keys(ps: Params): seq<string> {
    seq(|ps|, i requires 0 <= i < |ps| => ps[i].key)
  }

  predicate UniqueKeys(ps: Params) {
    NoDup(Keys(ps))
  }

  /** `hash[key]`: the value stored under `key`, if any. */
  function Lookup(ps: Params, k: string): (v: Option<string>)
    ensures v.None? <==> k !in Keys(ps)
  {
    if |ps| == 0 then None
    else if ps[0].key == k then
      assert Keys(ps)[0] == k;
      Some(ps[0].value)
    else
      assert Keys(ps) == [ps[0].key] + Keys(ps[1..]);
      Lookup(ps[1..], k)
  }

  /** `hash[key] = value`: a new key goes last, an existing key keeps its place and takes the
      new value. */
  function Upsert(ps: Params, k: string, v: string): (r: Params)
    ensures Lookup(r, k) == Some(v)
    ensures k in Keys(ps) ==> Keys(r) == Keys(ps)
    ensures k !in Keys(ps) ==> Keys(r) == Keys(ps) + [k]
  {
    if |ps| == 0 then
      KeysCons(Entry(k, v), []);
      [Entry(k, v)]
    else
      KeysCons(ps[0], ps[1..]);
      assert [ps[0]] + ps[1..] == ps;
      if ps[0].key == k then
        KeysCons(Entry(k, v), ps[1..]);
        [Entry(k, v)] + ps[1..]
      else
        var t := Upsert(ps[1..], k, v);
        KeysCons(ps[0], t);
        assert ([ps[0]] + t)[1..] == t;
        [ps[0]] + t
  }

  lemma KeysCons(e: Entry, ps: Params)
    ensures Keys([e] + ps) == [e.key] + Keys(ps)
  {
  }

  /** Storing under `k` leaves every other key's value alone and adds no entry but the new
      one. */
  lemma {:induction false} UpsertOthers(ps: Params, k: string, v: string)
    ensures forall j | j != k :: Lookup(Upsert(ps, k, v), j) == Lookup(ps, j)
    ensures forall e | e in Upsert(ps, k, v) :: e in ps || e == Entry(k, v)
    decreases |ps|
  {
    if |ps| > 0 && ps[0].key != k {
      UpsertOthers(ps[1..], k, v);
      var r := Upsert(ps, k, v);
      assert r == [ps[0]] + Upsert(ps[1..], k, v);
      assert r[1..] == Upsert(ps[1..], k, v);
      forall e | e in r ensures e in ps || e == Entry(k, v) {
        if e != r[0] {
          assert e in r[1..];
          assert e in ps[1..] ==> e in ps;
        }
      }
    }
  }

  /** The record `parse_content` fills in. A field the text never sets stays `nil`, or the
      empty array or hash it starts as. */
  datatype AppStructure = AppStructure(
    name: Option<string>,
    className: string,
    filePath: string,
    analysisCategory: Option<string>,
    description: Option<string>,
    processMode: Option<string>,
    requiredColumns: seq<string>,
    requiredParams: seq<string>,
    params: Params,
    modules: seq<string>,
    inheritColumns: seq<string>,
    inheritTags: seq<string>,
    ezrunApp: Option<string>,
    methods: seq<string>)

  /** The record before any field is extracted. */
  function Unset(className: string, filePath: string): AppStructure {
    AppStructure(None, className, filePath, None, None, None, [], [], [], [], [], [], None, [])
  }

  /** `@v\s*=\s*`. */
  function AssignHead(v: Var): Pattern {
    [Lit("@" + Ident(v)), Spaces, Lit("="), Spaces]
  }

  /** `@v\s*=\s*['"]([^'"]+)['"]`. */
  function ScalarRule(v: Var): Rule {
    Quoted(AssignHead(v) + [Quote])
  }

  /** `@v\s*=\s*\[([^\]]+)\]`. */
  function ListRule(v: Var): Rule {
    Bracketed(AssignHead(v) + [Lit("[")])
  }

  /** `@description\s*=\s*<<-?(\w+)(.+?)^\s*\1` with `.` crossing lines. */
  const HeredocRule: Rule := Heredoc(AssignHead(Description) + [Lit("<<")])

  /** `@params\s*\[\s*['"]`. */
  const KeyOpen: Pattern := [Lit("@params"), Spaces, Lit("["), Spaces, Quote]

  /** `['"]\s*\]\s*=`. */
  const KeyClose: Pattern := [Quote, Spaces, Lit("]"), Spaces, Lit("=")]

  /** `@params\s*\[\s*['"]process_mode['"]\s*\]\s*=\s*['"]([^'"]+)['"]`. */
  const ProcessModeRule: Rule := Quoted(KeyOpen + [Lit("process_mode")] + KeyClose + [Spaces, Quote])

  /** `@params\s*\[\s*['"](\w+)['"]\s*\]\s*=\s*(.+)$`. */
  const ParamRule: Rule := Assignment(KeyOpen, KeyClose)

  /** `run_RApp\s*\(\s*['"]([^'"]+)['"]`. */
  const EzrunRule: Rule := Quoted([Lit("run_RApp"), Spaces, Lit("("), Spaces, Quote])

  /** `^\s*def\s+(\w+)`. */
  const MethodRule: Rule := LineStart([Spaces, Lit("def"), Spaces1])

  /** `['"]([^'"]+)['"]`, scanned over the inside of an array literal. */
  const ElementRule: Rule := Quoted([Quote])

  /** `content =~ rule` followed by `$1`. */
  function FirstCapture(r: Rule, s: string): (x: Option<string>)
    ensures x.None? <==> Find(Attempt(r), s, true).None?
    ensures x.Some? ==> var f := Find(Attempt(r), s, true);
            f.Some? && Shaped(r, f.value.hit.caps) && x.value == f.value.hit.caps[0]
  {
    match Find(Attempt(r), s, true)
    case None => None
    case Some(f) =>
      FoundShaped(r, s);
      Some(f.hit.caps[0])
  }

  /** The groups of the match `=~` finds have the rule's shape. */
  lemma FoundShaped(r: Rule, s: string)
    ensures Find(Attempt(r), s, true).Some? ==> Shaped(r, Find(Attempt(r), s, true).value.hit.caps)
  {
    match Find(Attempt(r), s, true)
    case None =>
    case Some(f) =>
      FindHit(Attempt(r), s, true);
      MatchShaped(r, s[f.at..], BolAt(s, f.at, true));
  }

  /** A quoted literal: `[^'"]+`. */
  predicate Literal(x: string) {
    0 < |x| && AllIn(NonQuote, x)
  }

  predicate MaybeLiteral(x: Option<string>) {
    x.Some? ==> Literal(x.value)
  }

  /** `$1` of the leftmost match of a quoted-literal rule. */
  function Scalar(r: Rule, s: string): (x: Option<string>)
    requires r.Quoted?
    ensures MaybeLiteral(x)
  {
    FirstCapture(r, s)
  }

  /** An element of an array literal: a quoted literal found before the closing `]`. */
  predicate Element(x: string) {
    Literal(x) && AllIn(NonBracket, x)
  }

  predicate AllElements(xs: seq<string>) {
    forall i | 0 <= i < |xs| :: Element(xs[i])
  }

  /** The quoted literals inside the first `@v = [...]` literal, or none: the text up to the
      first `]` is scanned for `['"]([^'"]+)['"]` and the groups flattened. */
  function Elements(v: Var, s: string): (xs: seq<string>)
    ensures AllElements(xs)
  {
    ListField(ListRule(v), s)
  }

  /** The quoted literals inside the first match of a bracketed rule. */
  function ListField(r: Rule, s: string): (xs: seq<string>)
    requires r.Bracketed?
    ensures AllElements(xs)
  {
    match FirstCapture(r, s)
    case None => []
    case Some(inner) =>
      var sc := Scan(Attempt(ElementRule), inner, true);
      InnerElements(inner, sc);
      FlattenSingles(sc);
      Flatten(sc)
  }

  /** The literals scanned inside brackets are elements. */
  lemma InnerElements(inner: string, sc: seq<seq<string>>)
    requires AllIn(NonBracket, inner) && sc == Scan(Attempt(ElementRule), inner, true)
    ensures forall i | 0 <= i < |sc| :: |sc[i]| == 1 && Element(sc[i][0])
  {
    ScanShaped(ElementRule, inner, true);
    ScanInherits([Quote], NonBracket, inner, true);
  }

  /** Flattening one-element groups lists the groups' elements. */
  lemma {:induction false} FlattenSingles(sc: seq<seq<string>>)
    requires forall i | 0 <= i < |sc| :: |sc[i]| == 1 && Element(sc[i][0])
    ensures Flatten(sc) == Heads(sc)
    ensures AllElements(Flatten(sc))
  {
    if |sc| > 0 {
      FlattenSingles(sc[1..]);
      assert Heads(sc) == [sc[0][0]] + Heads(sc[1..]);
    }
  }

  predicate Stripped(x: string) {
    0 < |x| ==> !IsStripSpace(x[0]) && !IsStripSpace(x[|x| - 1])
  }

  /** The heredoc form of `@description` first, stripped; then the quoted form. */
  function DescriptionOf(s: string): (d: Option<string>)
    ensures d.Some? ==> Stripped(d.value) || Literal(d.value)
  {
    match Find(Attempt(HeredocRule), s, true)
    case Some(f) =>
      FoundShaped(HeredocRule, s);
      Some(Strip(f.hit.caps[1]))
    case None => Scalar(ScalarRule(Description), s)
  }

  /** The block run for each `@params[...] = ...` match. */
  function AddParam(ps: Params, hit: seq<string>): (r: Params)
    requires |hit| == 2
    ensures ',' in hit[0] ==> r == ps
    ensures ',' !in hit[0] ==> Lookup(r, hit[0]) == Some(Strip(hit[1]))
    ensures hit[0] in Keys(ps) ==> Keys(r) == Keys(ps)
    ensures hit[0] !in Keys(ps) ==> Keys(r) == Keys(ps) + (if ',' in hit[0] then [] else [hit[0]])
  {
    if ',' in hit[0] then ps else Upsert(ps, hit[0], Strip(hit[1]))
  }

  /** The blocks of all the matches, in order. */
  function CollectParams(ps: Params, hits: seq<seq<string>>): Params
    requires forall i | 0 <= i < |hits| :: |hits[i]| == 2
    decreases |hits|
  {
    if |hits| == 0 then ps else CollectParams(AddParam(ps, hits[0]), hits[1..])
  }

  predicate Identifier(x: string) {
    0 < |x| && AllIn(Word, x)
  }

  /** A hash whose keys are distinct `\w+` words and whose values are stripped rests of a
      line. */
  predicate GoodPairs(ps: Params) {
    && UniqueKeys(ps)
    && forall e | e in ps :: Identifier(e.key) && Stripped(e.value) && '\n' !in e.value
  }

  /** Every `@params['key'] = value` line, folded into a hash. */
  function ParamsOf(s: string): (ps: Params)
    ensures GoodPairs(ps)
  {
    var hits := Scan(Attempt(ParamRule), s, true);
    ScanShaped(ParamRule, s, true);
    assert forall i | 0 <= i < |hits| :: |hits[i]| == 2 && Shaped(ParamRule, hits[i]);
    assert NoDup(Keys([]));
    CollectShaped([], hits);
    CollectParams([], hits)
  }

  lemma {:induction false} CollectShaped(ps: Params, hits: seq<seq<string>>)
    requires GoodPairs(ps)
    requires forall i | 0 <= i < |hits| :: |hits[i]| == 2 && Shaped(ParamRule, hits[i])
    ensures GoodPairs(CollectParams(ps, hits))
    decreases |hits|
  {
    if |hits| > 0 {
      var h := hits[0];
      AddShaped(ps, h);
      CollectShaped(AddParam(ps, h), hits[1..]);
    }
  }

  lemma AddShaped(ps: Params, h: seq<string>)
    requires GoodPairs(ps) && |h| == 2 && Shaped(ParamRule, h)
    ensures GoodPairs(AddParam(ps, h))
  {
    if ',' !in h[0] {
      var v := Strip(h[1]);
      StripKeepsLine(h[1]);
      var r := Upsert(ps, h[0], v);
      UpsertOthers(ps, h[0], v);
      if h[0] !in Keys(ps) {
        NoDupSnoc(Keys(ps), h[0]);
      }
    }
  }

  /** Stripping a string without a line feed leaves none. */
  lemma StripKeepsLine(s: string)
    requires AllIn(NonNewline, s)
    ensures '\n' !in Strip(s)
  {
    var r := Strip(s);
    var a :| 0 <= a <= |s| && Framed(s, a, r);
    forall i | 0 <= i < |r| ensures r[i] != '\n' {
      assert r[i] == s[a + i];
    }
  }

  /** The first group of every match. */
  function Heads(hits: seq<seq<string>>): (names: seq<string>)
    requires forall i | 0 <= i < |hits| :: 0 < |hits[i]|
    ensures |names| == |hits|
  {
    seq(|hits|, i requires 0 <= i < |hits| => hits[i][0])
  }

  /** The name of every `def` at the start of a line, in order, repeats kept. */
  function Methods(s: string): (names: seq<string>)
    ensures forall i | 0 <= i < |names| :: Identifier(names[i])
  {
    var defs := Scan(Attempt(MethodRule), s, true);
    ScanShaped(MethodRule, s, true);
    Heads(defs)
  }

  /** What every extracted structure looks like. */
  predicate WellFormed(r: AppStructure) {
    && MaybeLiteral(r.name) && MaybeLiteral(r.analysisCategory)
    && MaybeLiteral(r.processMode) && MaybeLiteral(r.ezrunApp)
    && (r.description.Some? ==> Stripped(r.description.value) || Literal(r.description.value))
    && AllElements(r.requiredColumns) && AllElements(r.requiredParams) && AllElements(r.modules)
    && AllElements(r.inheritColumns) && AllElements(r.inheritTags)
    && GoodPairs(r.params)
    && (forall i | 0 <= i < |r.methods| :: Identifier(r.methods[i]))
  }

  /** `parse_content`. */
  function ParseContent(content: string, className: string, filePath: string): (r: AppStructure)
    ensures r.className == className && r.filePath == filePath
    ensures WellFormed(r)
  {
    AppStructure(
      name := Scalar(ScalarRule(Name), content),
      className := className,
      filePath := filePath,
      analysisCategory := Scalar(ScalarRule(AnalysisCategory), content),
      description := DescriptionOf(content),
      processMode := Scalar(ProcessModeRule, content),
      requiredColumns := Elements(RequiredColumns, content),
      requiredParams := Elements(RequiredParams, content),
      params := ParamsOf(content),
      modules := Elements(Modules, content),
      inheritColumns := Elements(InheritColumns, content),
      inheritTags := Elements(InheritTags, content),
      ezrunApp := Scalar(EzrunRule, content),
      methods := Methods(content))
  }

  /** `"#{app_name}App"` unless the name already ends in `App` (case-sensitive). */
  function NormalizeClassName(appName: string): (className: string)
    ensures EndsWith(className, "App")
    ensures className == appName || className == appName + "App"
    ensures EndsWith(appName, "App") ==> className == appName
  {
    if EndsWith(appName, "App") then appName
    else
      assert (appName + "App")[|appName|..] == "App";
      appName + "App"
  }

  /** Normalising twice is normalising once. */
  lemma NormalizeIdempotent(appName: string)
    ensures NormalizeClassName(NormalizeClassName(appName)) == NormalizeClassName(appName)
  {
  }

  /** Every character of `s` is `/`. */
  predicate Slashes(s: string) {
    forall i | 0 <= i < |s| :: s[i] == '/'
  }

  predicate EndsInSlash(s: string) {
    0 < |s| && s[|s| - 1] == '/'
  }

  predicate StartsWithSlash(s: string) {
    0 < |s| && s[0] == '/'
  }

  /** `dir` without its trailing run of `/` (where `File.join` cuts a directory off). */
  function ChompSlashes(dir: string): (d: string)
    ensures d <= dir && Slashes(dir[|d|..]) && !EndsInSlash(d)
  {
    if EndsInSlash(dir) then ChompSlashes(dir[..|dir| - 1]) else dir
  }

  /** `File.join(dir, name)` for two strings: a name that starts with `/` replaces the
      directory's trailing `/` run with its own; otherwise a `/` is added unless the
      directory already ends in one (an empty directory gets one too). */
  function JoinPath(dir: string, name: string): (path: string)
    ensures StartsWithSlash(name) ==> path == ChompSlashes(dir) + name
    ensures !StartsWithSlash(name) && EndsInSlash(dir) ==> path == dir + name
    ensures !StartsWithSlash(name) && !EndsInSlash(dir) ==> path == dir + "/" + name
  {
    if StartsWithSlash(name) then ChompSlashes(dir) + name
    else if EndsInSlash(dir) then dir + name
    else dir + "/" + name
  }

  /** The slash run a directory without trailing `/` followed by `ds`, joined to `ns` and a
      name part that does not start with `/`, is the name's run if it has one, else the
      directory's, else a single `/`: the seam always holds exactly one run. */
  lemma JoinSeam(d: string, ds: string, ns: string, n: string)
    requires !EndsInSlash(d) && Slashes(ds) && Slashes(ns) && !StartsWithSlash(n)
    ensures JoinPath(d + ds, ns + n) == d + (if ns != "" then ns else if ds != "" then ds else "/") + n
  {
    ChompRun(d, ds);
    if ns != "" {
      assert (ns + n)[0] == ns[0];
      assert d + (ns + n) == d + ns + n;
    } else {
      assert ns + n == n;
      if ds != "" {
        assert (d + ds)[|d + ds| - 1] == ds[|ds| - 1];
      } else {
        assert d + ds == d;
      }
    }
  }

  /** Chomping removes exactly the trailing run. */
  lemma {:induction false} ChompRun(d: string, ds: string)
    requires !EndsInSlash(d) && Slashes(ds)
    ensures ChompSlashes(d + ds) == d
    decreases |ds|
  {
    if ds == [] {
      assert d + ds == d;
    } else {
      var x := d + ds;
      assert x[|x| - 1] == ds[|ds| - 1];
      assert x[..|x| - 1] == d + ds[..|ds| - 1];
      ChompRun(d, ds[..|ds| - 1]);
    }
  }

  /** `File.join("a//", "/b")` is `"a/b"`. */
  lemma JoinCutsRun()
    ensures JoinPath("a//", "/b") == "a/b"
  {
    assert "a//" == "a" + "//" && "/b" == "/" + "b";
    JoinSeam("a", "//", "/", "b");
    assert "a" + "/" + "b" == "a/b";
  }

  /** `DEFAULT_LIB_PATH`. */
  const DefaultLibPath: string := "/srv/sushi/production/master/lib"

  /** `SushiAppParser.new(lib_path)`: the library directory, or the default one. */
  function LibPath(libPath: Option<string>): string {
    libPath.GetOr(DefaultLibPath)
  }

  /** The class name, and the file the class is looked for in. */
  function AppFile(libPath: string, appName: string): (path: string) {
    JoinPath(libPath, NormalizeClassName(appName) + ".rb")
  }

  /** `parse_app`: `nil` when the class file does not exist, otherwise its parsed content.
      The file system is the map from each existing path to the file's text. */
  function ParseApp(libPath: string, appName: string, files: map<string, string>): (r: Option<AppStructure>)
    ensures r.None? <==> AppFile(libPath, appName) !in files
    ensures r.Some? ==> && r.value.className == NormalizeClassName(appName)
                        && r.value.filePath == AppFile(libPath, appName)
                        && WellFormed(r.value)
    ensures r.Some? ==> var path := AppFile(libPath, appName);
            r.value == ParseContent(files[path], NormalizeClassName(appName), path)
  {
    var path := AppFile(libPath, appName);
    if path !in files then None
    else Some(ParseContent(files[path], NormalizeClassName(appName), path))
  }
}
