/** `SushiAppParser#compare_apps`: the structures of two apps side by side. The category and
    process mode are only paired; required columns, modules, parameter names and methods are
    split into what only one app has and what both have, with Ruby's `-` and `&`. */
module Compare {
  import opened Optional
  import opened Lists
  import opened AppParser

  /** `{ only_in_app1:, only_in_app2:, common: }`. */
  datatype Diff = Diff(onlyIn1: seq<string>, onlyIn2: seq<string>, common: seq<string>)

  /** `[app1.x, app2.x]`. */
  datatype Pair = Pair(first: Option<string>, second: Option<string>)

  /** The hash `compare_apps` returns. */
  datatype Comparison = Comparison(
    app1: string,
    app2: string,
    analysisCategory: Pair,
    processMode: Pair,
    requiredColumns: Diff,
    modules: Diff,
    params: Diff,
    methods: Diff)

  /** `a - b`, `b - a` and `a & b`. */
  function DiffOf(a: seq<string>, b: seq<string>): (d: Diff)
    ensures forall x :: x in d.onlyIn1 <==> x in a && x !in b
    ensures forall x :: x in d.onlyIn2 <==> x in b && x !in a
    ensures forall x :: x in d.common <==> x in a && x in b
    ensures Subseq(d.onlyIn1, a) && Subseq(d.onlyIn2, b) && NoDup(d.common)
  {
    Diff(Minus(a, b), Minus(b, a), Intersect(a, b))
  }

  /** The comparison of two parsed apps: nothing when either is missing. */
  function CompareStructures(name1: string, name2: string, s1: Option<AppStructure>, s2: Option<AppStructure>)
    : (c: Option<Comparison>)
    ensures c.None? <==> s1.None? || s2.None?
    ensures c.Some? ==> c.value.app1 == name1 && c.value.app2 == name2
    ensures c.Some? ==> && c.value.analysisCategory == Pair(s1.value.analysisCategory, s2.value.analysisCategory)
                        && c.value.processMode == Pair(s1.value.processMode, s2.value.processMode)
    ensures c.Some? ==> && c.value.requiredColumns == DiffOf(s1.value.requiredColumns, s2.value.requiredColumns)
                        && c.value.modules == DiffOf(s1.value.modules, s2.value.modules)
                        && c.value.params == DiffOf(Keys(s1.value.params), Keys(s2.value.params))
                        && c.value.methods == DiffOf(s1.value.methods, s2.value.methods)
  {
    if s1.None? || s2.None? then None
    else
      var a := s1.value;
      var b := s2.value;
      Some(Comparison(
        name1, name2,
        Pair(a.analysisCategory, b.analysisCategory),
        Pair(a.processMode, b.processMode),
        DiffOf(a.requiredColumns, b.requiredColumns),
        DiffOf(a.modules, b.modules),
        DiffOf(Keys(a.params), Keys(b.params)),
        DiffOf(a.methods, b.methods)))
  }

  /** `compare_apps`: both apps are parsed from the library, and `nil` is returned when either
      class file is missing. */
  function CompareApps(libPath: string, name1: string, name2: string, files: map<string, string>)
    : (c: Option<Comparison>)
    ensures c.None? <==> AppFile(libPath, name1) !in files || AppFile(libPath, name2) !in files
    ensures c.Some? ==> c.value.app1 == name1 && c.value.app2 == name2
    ensures c.Some? ==>
              var a := ParseApp(libPath, name1, files).value;
              var b := ParseApp(libPath, name2, files).value;
              && c.value.analysisCategory == Pair(a.analysisCategory, b.analysisCategory)
              && c.value.processMode == Pair(a.processMode, b.processMode)
              && c.value.requiredColumns == DiffOf(a.requiredColumns, b.requiredColumns)
              && c.value.modules == DiffOf(a.modules, b.modules)
              && c.value.params == DiffOf(Keys(a.params), Keys(b.params))
              && c.value.methods == DiffOf(a.methods, b.methods)
  {
    CompareStructures(name1, name2, ParseApp(libPath, name1, files), ParseApp(libPath, name2, files))
  }
}
