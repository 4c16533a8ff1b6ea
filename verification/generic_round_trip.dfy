/** Reading back the file `generate_generic_template` writes: the extractor finds in it the
    new name and category, the `DATASET` mode written before its trailing comment, the
    fixed lists of the generic template, the R function and the five methods. */
module GenericRoundTrip {
  import opened Chars
  import opened Text
  import opened Optional
  import opened Search
  import opened Rules
  import opened Ivars
  import opened Reading
  import opened AppParser
  import opened AppTemplate
  import opened Marks
  import opened Layout
  import opened LineShapes
  import opened TidyBlocks
  import opened Reparse
  import opened MethodScan
  import opened TemplateParts
  import opened Fit
  import opened Placed
  import opened ParamScan

  // ---- the lines of the generic `initialize` ----

  const ColumnsNote: Line := Line(4, [Code("# Required input columns "), Code("from dataset")])

  const ParamsNote: Line := Line(4, [Code("# Required parameters "), Code("that must be set")])

  const ResourcesNote: Line := Fixed(4, "# Computational resources")

  const OwnNote: Line := Fixed(4, "# App-specific parameters")

  const ModulesNote: Line := Fixed(4, "# Environment modules to load")

  const InheritNote: Line := Line(4, [Code("# Columns/tags to inherit "), Code("from input dataset")])

  const ColumnsLine: Line := ListLine(RequiredColumns, "'Name', 'Read1'")

  const ParamsLine: Line := ListLine(RequiredParams, "'name'")

  const ModulesLine: Line := ListLine(Modules, "'Dev/R'")

  const InheritLine: Line := ListLine(InheritColumns, "'Order Id'")

  const TagsLine: Line := ListLine(InheritTags, "'Factor', 'B-Fabric'")

  const GenericResources: seq<Line> := Resources("[8, 1, 2, 4, 8, 16]", "[30, 15, 62]", "[100, 50, 200]")

  /** The description, the blank line after it and the comment over the columns. */
  const DescriptionBlock: seq<Line> := AppTemplate.Heredoc(GenericDescription) + [Gap, ColumnsNote]

  /** The indented blank line and the comment between the two lists. */
  const BetweenLists: seq<Line> := [Line(4, []), ParamsNote]

  const InheritBlock: seq<Line> := [Gap, InheritNote]

  /** From the resource comment to the comment over `@modules`. */
  function Middle(an: string): seq<Line> {
    [Gap, ResourcesNote] + GenericResources + [Gap, OwnNote] + ResultParams(an) + [Gap, ModulesNote]
  }

  // ---- the lines before and after each field ----

  function Opening(cn: string): seq<Line> {
    GenericHead(cn) + [DefOf("initialize")]
  }

  function BeforeName(cn: string): seq<Line> {
    Opening(cn) + [Fixed(4, "super")]
  }

  function BeforeMode(cn: string, an: string): seq<Line> {
    BeforeName(cn) + [NameLine(an)]
  }

  function BeforeCategory(cn: string, an: string): seq<Line> {
    BeforeMode(cn, an) + [ModeLine(GenericMode)]
  }

  function BeforeColumns(cn: string, an: string, cat: string): seq<Line> {
    BeforeCategory(cn, an) + [CategoryLine(cat)] + DescriptionBlock
  }

  function BeforeParams(cn: string, an: string, cat: string): seq<Line> {
    BeforeColumns(cn, an, cat) + [ColumnsLine] + BetweenLists
  }

  function BeforeModules(cn: string, an: string, cat: string): seq<Line> {
    BeforeParams(cn, an, cat) + [ParamsLine] + Middle(an)
  }

  function BeforeInherit(cn: string, an: string, cat: string): seq<Line> {
    BeforeModules(cn, an, cat) + [ModulesLine] + InheritBlock
  }

  function BeforeTags(cn: string, an: string, cat: string): seq<Line> {
    BeforeInherit(cn, an, cat) + [InheritLine]
  }

  /** The end of `initialize` and everything after it. */
  function Ending(cn: string, ez: string): seq<Line> {
    [End2] + Trailer(cn, ez)
  }

  function Trailer(cn: string, ez: string): seq<Line> {
    GenericMethods(ez) + GenericCli(cn)
  }

  function AfterInherit(cn: string, ez: string): seq<Line> {
    [TagsLine] + Ending(cn, ez)
  }

  function AfterModules(cn: string, ez: string): seq<Line> {
    InheritBlock + [InheritLine] + AfterInherit(cn, ez)
  }

  function AfterParams(cn: string, an: string, ez: string): seq<Line> {
    Middle(an) + [ModulesLine] + AfterModules(cn, ez)
  }

  function AfterColumns(cn: string, an: string, ez: string): seq<Line> {
    BetweenLists + [ParamsLine] + AfterParams(cn, an, ez)
  }

  function AfterCategory(cn: string, an: string, ez: string): seq<Line> {
    DescriptionBlock + [ColumnsLine] + AfterColumns(cn, an, ez)
  }

  function AfterMode(cn: string, an: string, ez: string, cat: string): seq<Line> {
    [CategoryLine(cat)] + AfterCategory(cn, an, ez)
  }

  function AfterName(cn: string, an: string, ez: string, cat: string): seq<Line> {
    [ModeLine(GenericMode)] + AfterMode(cn, an, ez, cat)
  }

  /** The body of `initialize`, piece by piece. */
  lemma InitShape(an: string, cat: string)
    ensures GenericInit(an, cat)
            == [Fixed(4, "super")] + [NameLine(an)] + [ModeLine(GenericMode)] + [CategoryLine(cat)]
               + DescriptionBlock + [ColumnsLine] + BetweenLists + [ParamsLine] + Middle(an)
               + [ModulesLine] + InheritBlock + [InheritLine] + [TagsLine]
  {
    assert GenericRequired == [Gap, ColumnsNote] + [ColumnsLine] + BetweenLists + [ParamsLine] + [Gap, ResourcesNote];
    assert GenericRest(an) == [Gap, OwnNote] + ResultParams(an) + [Gap, ModulesNote] + [ModulesLine]
                              + InheritBlock + [InheritLine] + [TagsLine];
  }

  /** Regrouping the pieces of the template; only their order matters. */
  lemma Glue(h: seq<Line>, d: Line, su: Line, nl: Line, ml: Line, cl: Line, ds: seq<Line>, rc: Line,
             bl: seq<Line>, rp: Line, mid: seq<Line>, mo: Line, ib: seq<Line>, ic: Line, it: Line, en: Line,
             gm: seq<Line>, cli: seq<Line>, whole: seq<Line>, init: seq<Line>)
    requires init == [su] + [nl] + [ml] + [cl] + ds + [rc] + bl + [rp] + mid + [mo] + ib + [ic] + [it]
    requires whole == h + ([d] + init + [en]) + gm + cli
    ensures whole == h + [d] + [su] + [nl] + [ml] + [cl] + ds + [rc] + bl + [rp] + mid + [mo] + ib + [ic]
                     + [it] + ([en] + (gm + cli))
  {
  }

  /** The lines of the template, field by field. */
  lemma Shape(cn: string, an: string, ez: string, cat: string)
    ensures GenericLines(cn, an, ez, cat) == Around(BeforeTags(cn, an, cat), TagsLine, Ending(cn, ez))
  {
    InitShape(an, cat);
    assert Method("initialize", GenericInit(an, cat)) == [DefOf("initialize")] + GenericInit(an, cat) + [End2];
    Glue(GenericHead(cn), DefOf("initialize"), Fixed(4, "super"), NameLine(an), ModeLine(GenericMode),
         CategoryLine(cat), DescriptionBlock, ColumnsLine, BetweenLists, ParamsLine, Middle(an), ModulesLine,
         InheritBlock, InheritLine, TagsLine, End2, GenericMethods(ez), GenericCli(cn),
         GenericLines(cn, an, ez, cat), GenericInit(an, cat));
  }

  lemma SplitInherit(cn: string, an: string, ez: string, cat: string)
    ensures GenericLines(cn, an, ez, cat) == Around(BeforeInherit(cn, an, cat), InheritLine, AfterInherit(cn, ez))
  {
    Shape(cn, an, ez, cat);
    Back1(GenericLines(cn, an, ez, cat), BeforeInherit(cn, an, cat), InheritLine, TagsLine, Ending(cn, ez));
  }

  lemma SplitModules(cn: string, an: string, ez: string, cat: string)
    ensures GenericLines(cn, an, ez, cat) == Around(BeforeModules(cn, an, cat), ModulesLine, AfterModules(cn, ez))
  {
    SplitInherit(cn, an, ez, cat);
    Back2(GenericLines(cn, an, ez, cat), BeforeModules(cn, an, cat), ModulesLine, InheritBlock, InheritLine,
          AfterInherit(cn, ez));
  }

  lemma SplitParams(cn: string, an: string, ez: string, cat: string)
    ensures GenericLines(cn, an, ez, cat) == Around(BeforeParams(cn, an, cat), ParamsLine, AfterParams(cn, an, ez))
  {
    SplitModules(cn, an, ez, cat);
    Back2(GenericLines(cn, an, ez, cat), BeforeParams(cn, an, cat), ParamsLine, Middle(an), ModulesLine,
          AfterModules(cn, ez));
  }

  lemma SplitColumns(cn: string, an: string, ez: string, cat: string)
    ensures GenericLines(cn, an, ez, cat) == Around(BeforeColumns(cn, an, cat), ColumnsLine, AfterColumns(cn, an, ez))
  {
    SplitParams(cn, an, ez, cat);
    Back2(GenericLines(cn, an, ez, cat), BeforeColumns(cn, an, cat), ColumnsLine, BetweenLists, ParamsLine,
          AfterParams(cn, an, ez));
  }

  lemma SplitCategory(cn: string, an: string, ez: string, cat: string)
    ensures GenericLines(cn, an, ez, cat) == Around(BeforeCategory(cn, an), CategoryLine(cat), AfterCategory(cn, an, ez))
  {
    SplitColumns(cn, an, ez, cat);
    Back2(GenericLines(cn, an, ez, cat), BeforeCategory(cn, an), CategoryLine(cat), DescriptionBlock, ColumnsLine,
          AfterColumns(cn, an, ez));
  }

  lemma SplitMode(cn: string, an: string, ez: string, cat: string)
    ensures GenericLines(cn, an, ez, cat) == Around(BeforeMode(cn, an), ModeLine(GenericMode), AfterMode(cn, an, ez, cat))
  {
    SplitCategory(cn, an, ez, cat);
    Back1(GenericLines(cn, an, ez, cat), BeforeMode(cn, an), ModeLine(GenericMode), CategoryLine(cat),
          AfterCategory(cn, an, ez));
  }

  lemma SplitName(cn: string, an: string, ez: string, cat: string)
    ensures GenericLines(cn, an, ez, cat) == Around(BeforeName(cn), NameLine(an), AfterName(cn, an, ez, cat))
  {
    SplitMode(cn, an, ez, cat);
    Back1(GenericLines(cn, an, ez, cat), BeforeName(cn), NameLine(an), ModeLine(GenericMode),
          AfterMode(cn, an, ez, cat));
  }

  // ---- the plain blocks between the fields ----

  lemma DescriptionBlockPlain(S: set<Var>)
    requires Description in S
    ensures PlainLines(DescriptionBlock, S)
  {
    GenericDescriptionPlain(S);
    HeredocPlain(GenericDescription, S);
    ColumnsText();
    PairPlain(4, "# Required input columns ", "from dataset", '_', '_', S);
    GapPlain(0, S);
    Plain2(Gap, ColumnsNote, S);
    PlainJoin(AppTemplate.Heredoc(GenericDescription), [Gap, ColumnsNote], S);
  }

  lemma BetweenListsPlain(S: set<Var>)
    ensures PlainLines(BetweenLists, S)
  {
    ParamsText();
    GapPlain(4, S);
    PairPlain(4, "# Required parameters ", "that must be set", '_', '_', S);
    Plain2(Line(4, []), ParamsNote, S);
  }

  lemma MiddlePlain(an: string, S: set<Var>)
    requires Params in S && Tame(an)
    ensures PlainLines(Middle(an), S)
  {
    var a := [Gap, ResourcesNote];
    var b := [Gap, OwnNote];
    var c := [Gap, ModulesNote];
    ParamsText();
    GenericRestText();
    GapPlain(0, S);
    FixedPlain(4, "# Computational resources", '_', S);
    FixedPlain(4, "# App-specific parameters", 'R', S);
    FixedPlain(4, "# Environment modules to load", 'R', S);
    Plain2(Gap, ResourcesNote, S);
    Plain2(Gap, OwnNote, S);
    Plain2(Gap, ModulesNote, S);
    ResourceText();
    SafeTame("[8, 1, 2, 4, 8, 16]", 'R');
    SafeTame("[30, 15, 62]", 'R');
    SafeTame("[100, 50, 200]", 'R');
    ResourcesPlain("[8, 1, 2, 4, 8, 16]", "[30, 15, 62]", "[100, 50, 200]", S);
    ResultParamsPlain(an, S);
    PlainJoin(a, GenericResources, S);
    PlainJoin(a + GenericResources, b, S);
    PlainJoin(a + GenericResources + b, ResultParams(an), S);
    PlainJoin(a + GenericResources + b + ResultParams(an), c, S);
  }

  lemma InheritBlockPlain(S: set<Var>)
    ensures PlainLines(InheritBlock, S)
  {
    GenericInheritText();
    GapPlain(0, S);
    PairPlain(4, "# Columns/tags to inherit ", "from input dataset", 'R', 'R', S);
    Plain2(Gap, InheritNote, S);
  }

  /** Each list line is plain once its variable may be assigned. */
  lemma ListsPlain(S: set<Var>)
    ensures RequiredColumns in S ==> PlainLines([ColumnsLine], S)
    ensures RequiredParams in S ==> PlainLines([ParamsLine], S)
    ensures Modules in S ==> PlainLines([ModulesLine], S)
    ensures InheritColumns in S ==> PlainLines([InheritLine], S)
    ensures InheritTags in S ==> PlainLines([TagsLine], S)
  {
    ColumnsText();
    ParamsText();
    GenericRestText();
    GenericInheritText();
    SafeTame("'Name', 'Read1'", '_');
    SafeTame("'name'", '_');
    SafeTame("'Dev/R'", '_');
    SafeTame("'Order Id'", 'R');
    SafeTame("'Factor', 'B-Fabric'", 'R');
    if RequiredColumns in S { ListPlain(RequiredColumns, "'Name', 'Read1'", S); }
    if RequiredParams in S { ListPlain(RequiredParams, "'name'", S); }
    if Modules in S { ListPlain(Modules, "'Dev/R'", S); }
    if InheritColumns in S { ListPlain(InheritColumns, "'Order Id'", S); }
    if InheritTags in S { ListPlain(InheritTags, "'Factor', 'B-Fabric'", S); }
  }

  // ---- no line before a field assigns it ----

  lemma OpeningTidy(cn: string)
    requires Tame(cn)
    ensures TidyLines(BeforeName(cn), {})
  {
    GenericHeadPlain(cn, {});
    PlainTidy(GenericHead(cn), {});
    SnakeNames();
    DefTidyLines("initialize", {});
    TidyJoin(GenericHead(cn), [DefOf("initialize")], {});
    assert Lacks("super", 'R');
    FixedPlain(4, "super", 'R', {});
    TidyOne(Fixed(4, "super"), {});
    TidyJoin(Opening(cn), [Fixed(4, "super")], {});
  }

  lemma BeforeModeTidy(cn: string, an: string)
    requires Tame(cn) && Tame(an)
    ensures TidyLines(BeforeMode(cn, an), {Name})
  {
    OpeningTidy(cn);
    ScalarPlain(Name, an, {Name});
    TidyOne(NameLine(an), {Name});
    Grow(BeforeName(cn), [NameLine(an)], {}, {Name});
  }

  lemma BeforeCategoryTidy(cn: string, an: string)
    requires Tame(cn) && Tame(an)
    ensures TidyLines(BeforeCategory(cn, an), {Name, Params})
  {
    BeforeModeTidy(cn, an);
    GenericModeTame();
    ModeTidy(GenericMode, {Name, Params});
    Grow(BeforeMode(cn, an), [ModeLine(GenericMode)], {Name}, {Name, Params});
  }

  lemma BeforeColumnsTidy(cn: string, an: string, cat: string)
    requires Tame(cn) && Tame(an) && Tame(cat)
    ensures TidyLines(BeforeColumns(cn, an, cat), {Name, Params, AnalysisCategory, Description})
  {
    var S := {Name, Params, AnalysisCategory, Description};
    BeforeCategoryTidy(cn, an);
    ScalarPlain(AnalysisCategory, cat, S);
    TidyOne(CategoryLine(cat), S);
    Grow(BeforeCategory(cn, an), [CategoryLine(cat)], {Name, Params}, S);
    DescriptionBlockPlain(S);
    PlainTidy(DescriptionBlock, S);
    TidyJoin(BeforeCategory(cn, an) + [CategoryLine(cat)], DescriptionBlock, S);
  }

  lemma BeforeParamsTidy(cn: string, an: string, cat: string)
    requires Tame(cn) && Tame(an) && Tame(cat)
    ensures TidyLines(BeforeParams(cn, an, cat), {Name, Params, AnalysisCategory, Description, RequiredColumns})
  {
    var S := {Name, Params, AnalysisCategory, Description, RequiredColumns};
    BeforeColumnsTidy(cn, an, cat);
    ListsPlain(S);
    PlainTidy([ColumnsLine], S);
    Grow(BeforeColumns(cn, an, cat), [ColumnsLine], {Name, Params, AnalysisCategory, Description}, S);
    BetweenListsPlain(S);
    PlainTidy(BetweenLists, S);
    TidyJoin(BeforeColumns(cn, an, cat) + [ColumnsLine], BetweenLists, S);
  }

  lemma BeforeModulesTidy(cn: string, an: string, cat: string)
    requires Tame(cn) && Tame(an) && Tame(cat)
    ensures TidyLines(BeforeModules(cn, an, cat),
                      {Name, Params, AnalysisCategory, Description, RequiredColumns, RequiredParams})
  {
    var S := {Name, Params, AnalysisCategory, Description, RequiredColumns, RequiredParams};
    BeforeParamsTidy(cn, an, cat);
    ListsPlain(S);
    PlainTidy([ParamsLine], S);
    Grow(BeforeParams(cn, an, cat), [ParamsLine], {Name, Params, AnalysisCategory, Description, RequiredColumns}, S);
    MiddlePlain(an, S);
    PlainTidy(Middle(an), S);
    TidyJoin(BeforeParams(cn, an, cat) + [ParamsLine], Middle(an), S);
  }

  lemma BeforeInheritTidy(cn: string, an: string, cat: string)
    requires Tame(cn) && Tame(an) && Tame(cat)
    ensures TidyLines(BeforeInherit(cn, an, cat),
                      {Name, Params, AnalysisCategory, Description, RequiredColumns, RequiredParams, Modules})
  {
    var S := {Name, Params, AnalysisCategory, Description, RequiredColumns, RequiredParams, Modules};
    BeforeModulesTidy(cn, an, cat);
    ListsPlain(S);
    PlainTidy([ModulesLine], S);
    Grow(BeforeModules(cn, an, cat), [ModulesLine],
         {Name, Params, AnalysisCategory, Description, RequiredColumns, RequiredParams}, S);
    InheritBlockPlain(S);
    PlainTidy(InheritBlock, S);
    TidyJoin(BeforeModules(cn, an, cat) + [ModulesLine], InheritBlock, S);
  }

  lemma BeforeTagsTidy(cn: string, an: string, cat: string)
    requires Tame(cn) && Tame(an) && Tame(cat)
    ensures TidyLines(BeforeTags(cn, an, cat),
                      {Name, Params, AnalysisCategory, Description, RequiredColumns, RequiredParams, Modules,
                       InheritColumns})
  {
    var S := {Name, Params, AnalysisCategory, Description, RequiredColumns, RequiredParams, Modules, InheritColumns};
    BeforeInheritTidy(cn, an, cat);
    ListsPlain(S);
    PlainTidy([InheritLine], S);
    Grow(BeforeInherit(cn, an, cat), [InheritLine],
         {Name, Params, AnalysisCategory, Description, RequiredColumns, RequiredParams, Modules}, S);
  }

  // ---- lines after a field that do not assign it ----

  lemma EndingCalm(cn: string, ez: string, T: set<Var>)
    requires Tame(cn) && Tame(ez) && ResultDir in T && Params in T && InheritColumns in T
    ensures CalmLines(Ending(cn, ez), T)
  {
    GenericMethodsFacts(ez, T);
    GenericCliPlain(cn, T);
    PlainCalm(GenericCli(cn), T);
    CalmJoin(GenericMethods(ez), GenericCli(cn), T);
    UsecaseText();
    FixedPlain(2, "end", 'R', T);
    Plain1(End2, T);
    PlainCalm([End2], T);
    CalmJoin([End2], Trailer(cn, ez), T);
  }

  lemma AfterInheritCalm(cn: string, ez: string, T: set<Var>)
    requires Tame(cn) && Tame(ez) && ResultDir in T && Params in T && InheritColumns in T && InheritTags in T
    ensures CalmLines(AfterInherit(cn, ez), T)
  {
    EndingCalm(cn, ez, T);
    ListsPlain(T);
    PlainCalm([TagsLine], T);
    CalmJoin([TagsLine], Ending(cn, ez), T);
  }

  lemma AfterModulesCalm(cn: string, ez: string, T: set<Var>)
    requires Tame(cn) && Tame(ez) && ResultDir in T && Params in T && InheritColumns in T && InheritTags in T
    ensures CalmLines(AfterModules(cn, ez), T)
  {
    AfterInheritCalm(cn, ez, T);
    ListsPlain(T);
    InheritBlockPlain(T);
    PlainJoin(InheritBlock, [InheritLine], T);
    PlainCalm(InheritBlock + [InheritLine], T);
    CalmJoin(InheritBlock + [InheritLine], AfterInherit(cn, ez), T);
  }

  lemma AfterParamsCalm(cn: string, an: string, ez: string, T: set<Var>)
    requires Tame(cn) && Tame(an) && Tame(ez)
    requires ResultDir in T && Params in T && InheritColumns in T && InheritTags in T && Modules in T
    ensures CalmLines(AfterParams(cn, an, ez), T)
  {
    AfterModulesCalm(cn, ez, T);
    ListsPlain(T);
    MiddlePlain(an, T);
    PlainJoin(Middle(an), [ModulesLine], T);
    PlainCalm(Middle(an) + [ModulesLine], T);
    CalmJoin(Middle(an) + [ModulesLine], AfterModules(cn, ez), T);
  }

  lemma AfterColumnsCalm(cn: string, an: string, ez: string, T: set<Var>)
    requires Tame(cn) && Tame(an) && Tame(ez)
    requires ResultDir in T && Params in T && InheritColumns in T && InheritTags in T && Modules in T
    requires RequiredParams in T
    ensures CalmLines(AfterColumns(cn, an, ez), T)
  {
    AfterParamsCalm(cn, an, ez, T);
    ListsPlain(T);
    BetweenListsPlain(T);
    PlainJoin(BetweenLists, [ParamsLine], T);
    PlainCalm(BetweenLists + [ParamsLine], T);
    CalmJoin(BetweenLists + [ParamsLine], AfterParams(cn, an, ez), T);
  }

  /** No line after `@required_columns` assigns it again. */
  lemma ColumnsTailInert(cn: string, an: string, ez: string)
    requires Tame(cn) && Tame(an) && Tame(ez)
    ensures Inert(Attempt(ListRule(RequiredColumns)), Render(AfterColumns(cn, an, ez)))
  {
    var T := AllVars - {RequiredColumns};
    assert Lead(ListRule(RequiredColumns)) == "@" + Ident(RequiredColumns);
    AfterColumnsCalm(cn, an, ez, T);
    LinesInert(ListRule(RequiredColumns), RequiredColumns, AfterColumns(cn, an, ez), T);
  }

  /** No line after `@required_params` assigns it again. */
  lemma ParamsTailInert(cn: string, an: string, ez: string)
    requires Tame(cn) && Tame(an) && Tame(ez)
    ensures Inert(Attempt(ListRule(RequiredParams)), Render(AfterParams(cn, an, ez)))
  {
    var T := AllVars - {RequiredParams};
    assert Lead(ListRule(RequiredParams)) == "@" + Ident(RequiredParams);
    AfterParamsCalm(cn, an, ez, T);
    LinesInert(ListRule(RequiredParams), RequiredParams, AfterParams(cn, an, ez), T);
  }

  /** No line after `@modules` assigns it again. */
  lemma ModulesTailInert(cn: string, ez: string)
    requires Tame(cn) && Tame(ez)
    ensures Inert(Attempt(ListRule(Modules)), Render(AfterModules(cn, ez)))
  {
    var T := AllVars - {Modules};
    assert Lead(ListRule(Modules)) == "@" + Ident(Modules);
    AfterModulesCalm(cn, ez, T);
    LinesInert(ListRule(Modules), Modules, AfterModules(cn, ez), T);
  }

  /** No line after `@inherit_tags` assigns it again. */
  lemma TagsTailInert(cn: string, ez: string)
    requires Tame(cn) && Tame(ez)
    ensures Inert(Attempt(ListRule(InheritTags)), Render(Ending(cn, ez)))
  {
    var T := AllVars - {InheritTags};
    assert Lead(ListRule(InheritTags)) == "@" + Ident(InheritTags);
    EndingCalm(cn, ez, T);
    LinesInert(ListRule(InheritTags), InheritTags, Ending(cn, ez), T);
  }

  /** No line after `@inherit_columns` assigns it again: the `merge` call of `next_dataset`
      names the variable but assigns nothing. */
  lemma InheritTailInert(cn: string, ez: string)
    requires Tame(cn) && Tame(ez)
    ensures Inert(Attempt(ListRule(InheritColumns)), Render(AfterInherit(cn, ez)))
  {
    var a := Attempt(ListRule(InheritColumns));
    InheritTrailerInert(cn, ez);
    InheritLineInert([TagsLine]);
    InheritLineInert([End2]);
    RenderJoin([End2], Trailer(cn, ez));
    InertJoin(a, Render([End2]), Render(Trailer(cn, ez)));
    RenderJoin([TagsLine], Ending(cn, ez));
    InertJoin(a, Render([TagsLine]), Render(Ending(cn, ez)));
  }

  lemma InheritTrailerInert(cn: string, ez: string)
    requires Tame(cn) && Tame(ez)
    ensures Inert(Attempt(ListRule(InheritColumns)), Render(Trailer(cn, ez)))
  {
    var a := Attempt(ListRule(InheritColumns));
    GenericMethodsInert(ez);
    InheritCliInert(cn);
    RenderJoin(GenericMethods(ez), GenericCli(cn));
    InertJoin(a, Render(GenericMethods(ez)), Render(GenericCli(cn)));
  }

  /** `@inherit_tags = [...]` and the `end` of `initialize` leave `@inherit_columns` alone. */
  lemma InheritLineInert(ls: seq<Line>)
    requires ls == [TagsLine] || ls == [End2]
    ensures Inert(Attempt(ListRule(InheritColumns)), Render(ls))
  {
    var T := NoInherit;
    var r := ListRule(InheritColumns);
    assert Lead(r) == "@" + Ident(InheritColumns);
    if ls == [TagsLine] {
      ListsPlain(T);
    } else {
      UsecaseText();
      FixedPlain(2, "end", 'R', T);
      Plain1(End2, T);
    }
    PlainCalm(ls, T);
    LinesInert(r, InheritColumns, ls, T);
  }

  lemma InheritCliInert(cn: string)
    requires Tame(cn)
    ensures Inert(Attempt(ListRule(InheritColumns)), Render(GenericCli(cn)))
  {
    var T := NoInherit;
    var r := ListRule(InheritColumns);
    assert Lead(r) == "@" + Ident(InheritColumns);
    GenericCliPlain(cn, T);
    PlainCalm(GenericCli(cn), T);
    LinesInert(r, InheritColumns, GenericCli(cn), T);
  }

  // ---- where each field's line sits ----

  /** What the template is written for: names that stay on their line, and a category
      that is a quoted literal. */
  predicate GenericFit(cn: string, an: string, ez: string, cat: string) {
    Tame(cn) && Tame(an) && Literal(an) && Tame(ez) && Literal(ez) && Tame(cat) && Literal(cat)
  }

  lemma NameAt(cn: string, an: string, ez: string, cat: string)
    requires GenericFit(cn, an, ez, cat)
    ensures Follows(GenericLines(cn, an, ez, cat), NameLine(an), {})
  {
    SplitName(cn, an, ez, cat);
    OpeningTidy(cn);
    PlaceFollows(GenericLines(cn, an, ez, cat), BeforeName(cn), NameLine(an), AfterName(cn, an, ez, cat), {});
  }

  lemma ModeAt(cn: string, an: string, ez: string, cat: string)
    requires GenericFit(cn, an, ez, cat)
    ensures Follows(GenericLines(cn, an, ez, cat), ModeLine(GenericMode), {Name})
  {
    SplitMode(cn, an, ez, cat);
    BeforeModeTidy(cn, an);
    PlaceFollows(GenericLines(cn, an, ez, cat), BeforeMode(cn, an), ModeLine(GenericMode),
                 AfterMode(cn, an, ez, cat), {Name});
  }

  lemma CategoryAt(cn: string, an: string, ez: string, cat: string)
    requires GenericFit(cn, an, ez, cat)
    ensures Follows(GenericLines(cn, an, ez, cat), CategoryLine(cat), {Name, Params})
  {
    SplitCategory(cn, an, ez, cat);
    BeforeCategoryTidy(cn, an);
    PlaceFollows(GenericLines(cn, an, ez, cat), BeforeCategory(cn, an), CategoryLine(cat),
                 AfterCategory(cn, an, ez), {Name, Params});
  }

  lemma ColumnsAt(cn: string, an: string, ez: string, cat: string)
    requires GenericFit(cn, an, ez, cat)
    ensures Alone(GenericLines(cn, an, ez, cat), ColumnsLine, {Name, Params, AnalysisCategory, Description},
                  ListRule(RequiredColumns))
  {
    SplitColumns(cn, an, ez, cat);
    BeforeColumnsTidy(cn, an, cat);
    ColumnsTailInert(cn, an, ez);
    PlaceAlone(GenericLines(cn, an, ez, cat), BeforeColumns(cn, an, cat), ColumnsLine, AfterColumns(cn, an, ez),
               {Name, Params, AnalysisCategory, Description}, ListRule(RequiredColumns));
  }

  lemma ParamsAt(cn: string, an: string, ez: string, cat: string)
    requires GenericFit(cn, an, ez, cat)
    ensures Alone(GenericLines(cn, an, ez, cat), ParamsLine,
                  {Name, Params, AnalysisCategory, Description, RequiredColumns}, ListRule(RequiredParams))
  {
    SplitParams(cn, an, ez, cat);
    BeforeParamsTidy(cn, an, cat);
    ParamsTailInert(cn, an, ez);
    PlaceAlone(GenericLines(cn, an, ez, cat), BeforeParams(cn, an, cat), ParamsLine, AfterParams(cn, an, ez),
               {Name, Params, AnalysisCategory, Description, RequiredColumns}, ListRule(RequiredParams));
  }

  lemma ModulesAt(cn: string, an: string, ez: string, cat: string)
    requires GenericFit(cn, an, ez, cat)
    ensures Alone(GenericLines(cn, an, ez, cat), ModulesLine,
                  {Name, Params, AnalysisCategory, Description, RequiredColumns, RequiredParams}, ListRule(Modules))
  {
    SplitModules(cn, an, ez, cat);
    BeforeModulesTidy(cn, an, cat);
    ModulesTailInert(cn, ez);
    PlaceAlone(GenericLines(cn, an, ez, cat), BeforeModules(cn, an, cat), ModulesLine, AfterModules(cn, ez),
               {Name, Params, AnalysisCategory, Description, RequiredColumns, RequiredParams}, ListRule(Modules));
  }

  lemma InheritAt(cn: string, an: string, ez: string, cat: string)
    requires GenericFit(cn, an, ez, cat)
    ensures Alone(GenericLines(cn, an, ez, cat), InheritLine,
                  {Name, Params, AnalysisCategory, Description, RequiredColumns, RequiredParams, Modules},
                  ListRule(InheritColumns))
  {
    SplitInherit(cn, an, ez, cat);
    BeforeInheritTidy(cn, an, cat);
    InheritTailInert(cn, ez);
    PlaceAlone(GenericLines(cn, an, ez, cat), BeforeInherit(cn, an, cat), InheritLine, AfterInherit(cn, ez),
               {Name, Params, AnalysisCategory, Description, RequiredColumns, RequiredParams, Modules},
               ListRule(InheritColumns));
  }

  lemma TagsAt(cn: string, an: string, ez: string, cat: string)
    requires GenericFit(cn, an, ez, cat)
    ensures Alone(GenericLines(cn, an, ez, cat), TagsLine,
                  {Name, Params, AnalysisCategory, Description, RequiredColumns, RequiredParams, Modules,
                   InheritColumns}, ListRule(InheritTags))
  {
    Shape(cn, an, ez, cat);
    BeforeTagsTidy(cn, an, cat);
    TagsTailInert(cn, ez);
    PlaceAlone(GenericLines(cn, an, ez, cat), BeforeTags(cn, an, cat), TagsLine, Ending(cn, ez),
               {Name, Params, AnalysisCategory, Description, RequiredColumns, RequiredParams, Modules,
                InheritColumns}, ListRule(InheritTags));
  }

  /** Everything before the `run_RApp` call: the head, `initialize` and the first three
      methods. */
  function BeforeCall(cn: string, an: string, cat: string): seq<Line> {
    GenericHead(cn) + Method("initialize", GenericInit(an, cat)) + GenericBefore
  }

  /** The head of the file and `initialize`. */
  lemma HeadTidy(cn: string, an: string, cat: string, T: set<Var>)
    requires MethodScan.AllVars <= T && Tame(cn) && Tame(an) && Tame(cat)
    ensures TidyLines(GenericHead(cn) + Method("initialize", GenericInit(an, cat)), T)
    ensures DefNames(GenericHead(cn) + Method("initialize", GenericInit(an, cat))) == ["initialize"]
  {
    var h := GenericHead(cn);
    var m := Method("initialize", GenericInit(an, cat));
    forall v | v in MethodScan.AllVars ensures v in T { }
    GenericHeadPlain(cn, T);
    PlainTidy(h, T);
    PlainNames(h, T);
    GenericInitPlain(an, cat, T);
    PlainNames(GenericInit(an, cat), T);
    SnakeNames();
    MethodTidy("initialize", GenericInit(an, cat), T);
    MethodNames("initialize", GenericInit(an, cat));
    TidyJoin(h, m, T);
    DefNamesJoin(h, m);
  }

  lemma BeforeCallTidy(cn: string, an: string, cat: string)
    requires Tame(cn) && Tame(an) && Tame(cat)
    ensures TidyLines(BeforeCall(cn, an, cat), AllVars)
  {
    var hm := GenericHead(cn) + Method("initialize", GenericInit(an, cat));
    HeadTidy(cn, an, cat, AllVars);
    GenericBeforeTidy(AllVars);
    TidyJoin(hm, GenericBefore, AllVars);
  }

  lemma CallRegroup(h: seq<Line>, b: seq<Line>, c: Line, cl: seq<Line>, u: seq<Line>)
    ensures h + (b + [c] + cl) + u == Around(h + b, c, cl + u)
  {
  }

  lemma SplitCall(cn: string, an: string, ez: string, cat: string)
    ensures GenericLines(cn, an, ez, cat)
            == Around(BeforeCall(cn, an, cat), CommandsLine(ez), Closing + GenericCli(cn))
  {
    var hm := GenericHead(cn) + Method("initialize", GenericInit(an, cat));
    GenericMethodsSplit(ez);
    CallRegroup(hm, GenericBefore, CommandsLine(ez), Closing, GenericCli(cn));
  }

  lemma CallAt(cn: string, an: string, ez: string, cat: string)
    requires GenericFit(cn, an, ez, cat)
    ensures Follows(GenericLines(cn, an, ez, cat), CommandsLine(ez), AllVars)
  {
    SplitCall(cn, an, ez, cat);
    BeforeCallTidy(cn, an, cat);
    PlaceFollows(GenericLines(cn, an, ez, cat), BeforeCall(cn, an, cat), CommandsLine(ez),
                 Closing + GenericCli(cn), AllVars);
  }

  /** Every line of the file is calm and scannable, and its `def` lines are the five
      methods. */
  lemma WholeFacts(cn: string, an: string, ez: string, cat: string)
    requires GenericFit(cn, an, ez, cat)
    ensures Sound(GenericLines(cn, an, ez, cat), AllVars)
    ensures DefNames(GenericLines(cn, an, ez, cat)) == ["initialize"] + LaterNames
  {
    var hm := GenericHead(cn) + Method("initialize", GenericInit(an, cat));
    var gm := GenericMethods(ez);
    var cli := GenericCli(cn);
    HeadTidy(cn, an, cat, AllVars);
    TidySound(hm, AllVars);
    GenericMethodsFacts(ez, AllVars);
    GenericCliPlain(cn, AllVars);
    PlainTidy(cli, AllVars);
    TidySound(cli, AllVars);
    PlainNames(cli, AllVars);
    SoundJoin(hm, gm, AllVars);
    SoundJoin(hm + gm, cli, AllVars);
  }

  // ---- reading one field from any file that holds its line ----

  /** The lists the generic template writes, as the quoted lists they render. */
  lemma ColumnsList()
    ensures QuotedList(["Name", "Read1"]) == "'Name', 'Read1'" && AllElements(["Name", "Read1"])
  {
    assert ["Name", "Read1"][1..] == ["Read1"];
    assert Element("Name") && Element("Read1");
  }

  lemma ParamsList()
    ensures QuotedList(["name"]) == "'name'" && AllElements(["name"])
  {
    assert Element("name");
  }

  lemma ModulesList()
    ensures QuotedList(["Dev/R"]) == "'Dev/R'" && AllElements(["Dev/R"])
  {
    assert Element("Dev/R");
  }

  lemma InheritList()
    ensures QuotedList(["Order Id"]) == "'Order Id'" && AllElements(["Order Id"])
  {
    assert Element("Order Id");
  }

  lemma TagsList()
    ensures QuotedList(["Factor", "B-Fabric"]) == "'Factor', 'B-Fabric'" && AllElements(["Factor", "B-Fabric"])
  {
    var xs := ["Factor", "B-Fabric"];
    assert xs[1..] == ["B-Fabric"];
    assert Element(xs[0]) && Element(xs[1]);
  }

  lemma CategoryFrom(ls: seq<Line>, cat: string)
    requires Follows(ls, CategoryLine(cat), {Name, Params}) && Literal(cat)
    ensures Scalar(ScalarRule(AnalysisCategory), Render(ls)) == Some(cat)
  {
    CategoryRead(ls, cat, {Name, Params});
  }

  lemma ModeFrom(ls: seq<Line>)
    requires Follows(ls, ModeLine(GenericMode), {Name})
    ensures Scalar(ProcessModeRule, Render(ls)) == Some("DATASET")
  {
    var tail := "  # or 'SAMPLE'" + " for per-sample processing";
    ModeParts(tail);
    DatasetText();
    ModeRead(ls, "DATASET", tail, {Name});
  }

  /** The generic process mode is the quoted `DATASET` and a comment. */
  lemma ModeParts(tail: string)
    requires tail == "  # or 'SAMPLE'" + " for per-sample processing"
    ensures GenericMode == "'" + "DATASET" + "'" + tail
  {
  }

  lemma ColumnsFrom(ls: seq<Line>)
    requires Alone(ls, ColumnsLine, {Name, Params, AnalysisCategory, Description}, ListRule(RequiredColumns))
    ensures Elements(RequiredColumns, Render(ls)) == ["Name", "Read1"]
  {
    ColumnsList();
    ListRead(ls, RequiredColumns, ["Name", "Read1"], {Name, Params, AnalysisCategory, Description});
  }

  lemma ParamsFrom(ls: seq<Line>)
    requires Alone(ls, ParamsLine, {Name, Params, AnalysisCategory, Description, RequiredColumns},
                   ListRule(RequiredParams))
    ensures Elements(RequiredParams, Render(ls)) == ["name"]
  {
    ParamsList();
    ListRead(ls, RequiredParams, ["name"], {Name, Params, AnalysisCategory, Description, RequiredColumns});
  }

  lemma ModulesFrom(ls: seq<Line>)
    requires Alone(ls, ModulesLine, {Name, Params, AnalysisCategory, Description, RequiredColumns, RequiredParams},
                   ListRule(Modules))
    ensures Elements(Modules, Render(ls)) == ["Dev/R"]
  {
    ModulesList();
    ListRead(ls, Modules, ["Dev/R"], {Name, Params, AnalysisCategory, Description, RequiredColumns, RequiredParams});
  }

  lemma InheritFrom(ls: seq<Line>)
    requires Alone(ls, InheritLine, {Name, Params, AnalysisCategory, Description, RequiredColumns, RequiredParams,
                                     Modules}, ListRule(InheritColumns))
    ensures Elements(InheritColumns, Render(ls)) == ["Order Id"]
  {
    InheritList();
    ListRead(ls, InheritColumns, ["Order Id"],
             {Name, Params, AnalysisCategory, Description, RequiredColumns, RequiredParams, Modules});
  }

  lemma TagsFrom(ls: seq<Line>)
    requires Alone(ls, TagsLine, {Name, Params, AnalysisCategory, Description, RequiredColumns, RequiredParams,
                                  Modules, InheritColumns}, ListRule(InheritTags))
    ensures Elements(InheritTags, Render(ls)) == ["Factor", "B-Fabric"]
  {
    TagsList();
    ListRead(ls, InheritTags, ["Factor", "B-Fabric"],
             {Name, Params, AnalysisCategory, Description, RequiredColumns, RequiredParams, Modules, InheritColumns});
  }

  // ---- each field, read back ----

  lemma NameBack(cn: string, an: string, ez: string, cat: string)
    requires GenericFit(cn, an, ez, cat)
    ensures Scalar(ScalarRule(Name), GenericTemplate(cn, an, ez, cat)) == Some(an)
  {
    NameAt(cn, an, ez, cat);
    NameRead(GenericLines(cn, an, ez, cat), an);
  }

  lemma ModeBack(cn: string, an: string, ez: string, cat: string)
    requires GenericFit(cn, an, ez, cat)
    ensures Scalar(ProcessModeRule, GenericTemplate(cn, an, ez, cat)) == Some("DATASET")
  {
    ModeAt(cn, an, ez, cat);
    ModeFrom(GenericLines(cn, an, ez, cat));
  }

  lemma CategoryBack(cn: string, an: string, ez: string, cat: string)
    requires GenericFit(cn, an, ez, cat)
    ensures Scalar(ScalarRule(AnalysisCategory), GenericTemplate(cn, an, ez, cat)) == Some(cat)
  {
    CategoryAt(cn, an, ez, cat);
    CategoryFrom(GenericLines(cn, an, ez, cat), cat);
  }

  lemma ColumnsBack(cn: string, an: string, ez: string, cat: string)
    requires GenericFit(cn, an, ez, cat)
    ensures Elements(RequiredColumns, GenericTemplate(cn, an, ez, cat)) == ["Name", "Read1"]
  {
    ColumnsAt(cn, an, ez, cat);
    ColumnsFrom(GenericLines(cn, an, ez, cat));
  }

  lemma ParamsBack(cn: string, an: string, ez: string, cat: string)
    requires GenericFit(cn, an, ez, cat)
    ensures Elements(RequiredParams, GenericTemplate(cn, an, ez, cat)) == ["name"]
  {
    ParamsAt(cn, an, ez, cat);
    ParamsFrom(GenericLines(cn, an, ez, cat));
  }

  lemma ModulesBack(cn: string, an: string, ez: string, cat: string)
    requires GenericFit(cn, an, ez, cat)
    ensures Elements(Modules, GenericTemplate(cn, an, ez, cat)) == ["Dev/R"]
  {
    ModulesAt(cn, an, ez, cat);
    ModulesFrom(GenericLines(cn, an, ez, cat));
  }

  lemma InheritBack(cn: string, an: string, ez: string, cat: string)
    requires GenericFit(cn, an, ez, cat)
    ensures Elements(InheritColumns, GenericTemplate(cn, an, ez, cat)) == ["Order Id"]
  {
    InheritAt(cn, an, ez, cat);
    InheritFrom(GenericLines(cn, an, ez, cat));
  }

  lemma TagsBack(cn: string, an: string, ez: string, cat: string)
    requires GenericFit(cn, an, ez, cat)
    ensures Elements(InheritTags, GenericTemplate(cn, an, ez, cat)) == ["Factor", "B-Fabric"]
  {
    TagsAt(cn, an, ez, cat);
    TagsFrom(GenericLines(cn, an, ez, cat));
  }

  lemma EzrunBack(cn: string, an: string, ez: string, cat: string)
    requires GenericFit(cn, an, ez, cat)
    ensures Scalar(EzrunRule, GenericTemplate(cn, an, ez, cat)) == Some(ez)
  {
    CallAt(cn, an, ez, cat);
    EzrunRead(GenericLines(cn, an, ez, cat), ez, AllVars);
  }

  lemma MethodsBack(cn: string, an: string, ez: string, cat: string)
    requires GenericFit(cn, an, ez, cat)
    ensures Methods(GenericTemplate(cn, an, ez, cat))
            == ["initialize", "set_default_parameters", "preprocess", "next_dataset", "commands"]
  {
    WholeFacts(cn, an, ez, cat);
    MethodsOfLines(GenericLines(cn, an, ez, cat));
    FiveNames();
  }

  // ---- the parameters ----

  /** The keys the generic template assigns are words. */
  lemma GenericKeys()
    ensures Identifier("process_mode") && Identifier("cores") && Identifier("ram") && Identifier("scratch")
    ensures Identifier("name") && Identifier("mail") && Identifier("paired")
  {
  }

  /** One line, alone. */
  lemma OneLine(l: Line)
    ensures Hits([l]) == LineHits(l)
    ensures ReadableLine(l) ==> ReadableLines([l])
  {
    assert [l][1..] == [];
  }

  /** Lines of which none ends in an assignment give nothing. */
  lemma {:induction false} HitsQuiet(ls: seq<Line>)
    requires forall i | 0 <= i < |ls| :: LineHits(ls[i]) == []
    ensures Hits(ls) == []
  {
    if 0 < |ls| {
      assert forall i | 0 <= i < |ls[1..]| :: ls[1..][i] == ls[i + 1];
      HitsQuiet(ls[1..]);
    }
  }

  /** A line that ends in an assignment, then lines that give nothing. */
  lemma HitsHead(ls: seq<Line>)
    requires 0 < |ls| && forall i | 1 <= i < |ls| :: LineHits(ls[i]) == []
    ensures Hits(ls) == LineHits(ls[0])
  {
    assert forall i | 0 <= i < |ls[1..]| :: ls[1..][i] == ls[i + 1];
    HitsQuiet(ls[1..]);
  }

  /** Five blocks, joined. */
  lemma HitsFive(a: seq<Line>, b: seq<Line>, c: seq<Line>, d: seq<Line>, e: seq<Line>)
    ensures Hits(a + b + c + d + e) == Hits(a) + Hits(b) + Hits(c) + Hits(d) + Hits(e)
  {
    HitsJoin(a, b);
    HitsJoin(a + b, c);
    HitsJoin(a + b + c, d);
    HitsJoin(a + b + c + d, e);
  }

  lemma ReadableFive(a: seq<Line>, b: seq<Line>, c: seq<Line>, d: seq<Line>, e: seq<Line>)
    requires ReadableLines(a) && ReadableLines(b) && ReadableLines(c) && ReadableLines(d) && ReadableLines(e)
    ensures ReadableLines(a + b + c + d + e)
  {
    ReadableJoin(a, b);
    ReadableJoin(a + b, c);
    ReadableJoin(a + b + c, d);
    ReadableJoin(a + b + c + d, e);
  }

  lemma ModeParams()
    ensures ReadableLines([ModeLine(GenericMode)])
    ensures Hits([ModeLine(GenericMode)]) == [["process_mode", GenericMode]]
  {
    GenericKeys();
    GenericModeTame();
    assert GenericMode[0] == '\'';
    OneLine(ModeLine(GenericMode));
  }

  /** The metadata lines of a resource are readable and assign nothing. */
  lemma TaggedQuiet(key: string, tag: string, v: string)
    requires Identifier(key)
    ensures ReadableLine(Line(4, [Tagged(key, tag, v)])) && LineHits(Line(4, [Tagged(key, tag, v)])) == []
  {
    assert Readable([Tagged(key, tag, v)], 0);
  }

  /** `@params['key'] = value` and its metadata give the key and the value once. */
  lemma ResourceParams(key: string, value: string, inGB: bool)
    requires Identifier(key) && Whole(value)
    ensures ReadableLines(Resource(key, value, inGB)) && Hits(Resource(key, value, inGB)) == [[key, value]]
  {
    var ls := Resource(key, value, inGB);
    var a := Line(4, [Assign(key, value)]);
    assert Readable([Assign(key, value)], 0);
    TaggedQuiet(key, "description", "'GB'");
    TaggedQuiet(key, "context", "'slurm'");
    assert ls[0] == a;
    assert forall i | 1 <= i < |ls| :: ls[i] == Line(4, [Tagged(key, "description", "'GB'")]) || ls[i] == Line(4, [Tagged(key, "context", "'slurm'")]);
    HitsHead(ls);
  }

  /** The three resources give `cores`, `ram` and `scratch`, in that order. */
  lemma ResourcesRead(cores: string, ram: string, scratch: string)
    requires Whole(cores) && Whole(ram) && Whole(scratch)
    ensures ReadableLines(Resources(cores, ram, scratch))
    ensures Hits(Resources(cores, ram, scratch)) == [["cores", cores], ["ram", ram], ["scratch", scratch]]
  {
    GenericKeys();
    var c := Resource("cores", cores, false);
    var r := Resource("ram", ram, true);
    var x := Resource("scratch", scratch, true);
    ResourceParams("cores", cores, false);
    ResourceParams("ram", ram, true);
    ResourceParams("scratch", scratch, true);
    HitsFive(c, r, x, [], []);
    ReadableFive(c, r, x, [], []);
    assert Resources(cores, ram, scratch) == c + r + x + [] + [];
  }

  /** The generic resources give `cores`, `ram` and `scratch`. */
  lemma ResourcesParams()
    ensures ReadableLines(GenericResources)
    ensures Hits(GenericResources) == [["cores", "[8, 1, 2, 4, 8, 16]"], ["ram", "[30, 15, 62]"], ["scratch", "[100, 50, 200]"]]
  {
    assert Whole("[8, 1, 2, 4, 8, 16]") && Whole("[30, 15, 62]") && Whole("[100, 50, 200]");
    ResourcesRead("[8, 1, 2, 4, 8, 16]", "[30, 15, 62]", "[100, 50, 200]");
  }

  /** `@params['name']` and `@params['mail']`. */
  lemma ResultParamsRead(an: string)
    requires Tame(an)
    ensures ReadableLines(ResultParams(an))
    ensures Hits(ResultParams(an)) == [["name", "'" + an + "_Result'"], ["mail", "''"]]
  {
    GenericKeys();
    var ls := ResultParams(an);
    assert '\n' !in "'" + an + "_Result'" by { ResultTame(an); }
    assert Readable(ls[0].chunks, 0) && Readable(ls[1].chunks, 0);
    assert ls[1..] == [ls[1]];
    OneLine(ls[1]);
  }

  /** Two lines without an assignment. */
  lemma TwoQuiet(a: Line, b: Line)
    requires ReadableLine(a) && ReadableLine(b) && LineHits(a) == [] && LineHits(b) == []
    ensures ReadableLines([a, b]) && Hits([a, b]) == []
  {
    HitsQuiet([a, b]);
  }

  /** Three quiet pairs of lines around two blocks give what the two blocks give. */
  lemma Sandwich(a: seq<Line>, r: seq<Line>, b: seq<Line>, p: seq<Line>, c: seq<Line>)
    requires ReadableLines(a) && ReadableLines(r) && ReadableLines(b) && ReadableLines(p) && ReadableLines(c)
    requires Hits(a) == [] && Hits(b) == [] && Hits(c) == []
    ensures ReadableLines(a + r + b + p + c) && Hits(a + r + b + p + c) == Hits(r) + Hits(p)
  {
    HitsFive(a, r, b, p, c);
    ReadableFive(a, r, b, p, c);
  }

  /** The resources, then `name` and `mail`. */
  lemma MiddleParams(an: string)
    requires Tame(an)
    ensures ReadableLines(Middle(an))
    ensures Hits(Middle(an)) == Hits(GenericResources) + Hits(ResultParams(an))
  {
    TwoQuiet(Gap, ResourcesNote);
    TwoQuiet(Gap, OwnNote);
    TwoQuiet(Gap, ModulesNote);
    ResourcesParams();
    ResultParamsRead(an);
    Sandwich([Gap, ResourcesNote], GenericResources, [Gap, OwnNote], ResultParams(an), [Gap, ModulesNote]);
  }

  /** `def`, the body and `end` give what the body gives. */
  lemma MethodParams(name: string, body: seq<Line>)
    requires ReadableLines(body)
    ensures ReadableLines(Method(name, body)) && Hits(Method(name, body)) == Hits(body)
  {
    var d := Line(2, [Def(name)]);
    OneLine(d);
    OneLine(End2);
    HitsFive([d], body, [End2], [], []);
    ReadableFive([d], body, [End2], [], []);
    assert Method(name, body) == [d] + body + [End2] + [] + [];
  }

  /** The commented example in `set_default_parameters` is read as an assignment. */
  lemma DefaultsParams()
    ensures ReadableLines(DefaultsHint)
    ensures Hits(DefaultsHint) == [["paired", "dataset_has_column?('Read2')"]]
  {
    GenericKeys();
    var b := DefaultsHint[1];
    assert Whole("dataset_has_column?('Read2')");
    assert Readable(b.chunks, 1);
    assert DefaultsHint[1..] == [b];
    OneLine(b);
  }

  /** `next_dataset` refers to `@params['name']` twice and assigns nothing. */
  lemma DatasetParams()
    ensures ReadableLines([DatasetHint] + DatasetBody) && Hits([DatasetHint] + DatasetBody) == []
  {
    var e := [OutputHash[2], OutputHash[3], MergeLine];
    DatasetRefs();
    OneLine(DirLine);
    OneLine(OutputHash[1]);
    BareLines([DatasetHint]);
    BareLines([OutputHash[0]]);
    BareLines(e);
    FiveQuiet([DatasetHint], [DirLine], [OutputHash[0]], [OutputHash[1]], e);
    DatasetSplit();
  }

  lemma DatasetSplit()
    ensures [DatasetHint] + DatasetBody
            == [DatasetHint] + [DirLine] + [OutputHash[0]] + [OutputHash[1]] + [OutputHash[2], OutputHash[3], MergeLine]
  {
  }

  /** Five blocks that give nothing. */
  lemma FiveQuiet(a: seq<Line>, b: seq<Line>, c: seq<Line>, d: seq<Line>, e: seq<Line>)
    requires ReadableLines(a) && ReadableLines(b) && ReadableLines(c) && ReadableLines(d) && ReadableLines(e)
    requires Hits(a) == [] && Hits(b) == [] && Hits(c) == [] && Hits(d) == [] && Hits(e) == []
    ensures ReadableLines(a + b + c + d + e) && Hits(a + b + c + d + e) == []
  {
    HitsFive(a, b, c, d, e);
    ReadableFive(a, b, c, d, e);
  }

  /** The two lines that refer to `@params['name']`, each followed by code. */
  lemma DatasetRefs()
    ensures ReadableLine(DirLine) && ReadableLine(OutputHash[1])
  {
    GenericKeys();
    assert Readable(DirLine.chunks, 3);
    assert Readable(OutputHash[1].chunks, 1);
  }

  lemma CommandsParams(ez: string)
    ensures ReadableLines([CommandsHint] + [CommandsLine(ez)]) && Hits([CommandsHint] + [CommandsLine(ez)]) == []
  {
    TwoQuiet(CommandsHint, CommandsLine(ez));
    assert [CommandsHint] + [CommandsLine(ez)] == [CommandsHint, CommandsLine(ez)];
  }

  /** The four method blocks after `initialize`, each behind a blank line. */
  function MethodBlocks(ez: string): seq<seq<Line>> {
    [[Gap] + Method("set_default_parameters", DefaultsHint),
     [Gap] + Method("preprocess", PreprocessHint),
     [Gap] + Method("next_dataset", [DatasetHint] + DatasetBody),
     [Gap] + Method("commands", [CommandsHint] + [CommandsLine(ez)])]
  }

  lemma MethodBlocksSplit(ez: string)
    ensures var m := MethodBlocks(ez);
            GenericMethods(ez) == m[0] + m[1] + m[2] + m[3] + [Fixed(0, "end")]
  {
  }

  lemma BlockParams(name: string, body: seq<Line>)
    requires ReadableLines(body)
    ensures ReadableLines([Gap] + Method(name, body)) && Hits([Gap] + Method(name, body)) == Hits(body)
  {
    MethodParams(name, body);
    OneLine(Gap);
    HitsJoin([Gap], Method(name, body));
    ReadableJoin([Gap], Method(name, body));
  }

  lemma MethodBlocksRead(ez: string)
    ensures var m := MethodBlocks(ez);
            && ReadableLines(m[0]) && ReadableLines(m[1]) && ReadableLines(m[2]) && ReadableLines(m[3])
            && Hits(m[0]) == [["paired", "dataset_has_column?('Read2')"]]
            && Hits(m[1]) == [] && Hits(m[2]) == [] && Hits(m[3]) == []
  {
    DefaultsParams();
    TwoQuiet(PreprocessHint[0], PreprocessHint[1]);
    assert PreprocessHint == [PreprocessHint[0], PreprocessHint[1]];
    DatasetParams();
    CommandsParams(ez);
    BlockParams("set_default_parameters", DefaultsHint);
    BlockParams("preprocess", PreprocessHint);
    BlockParams("next_dataset", [DatasetHint] + DatasetBody);
    BlockParams("commands", [CommandsHint] + [CommandsLine(ez)]);
  }

  /** The four methods after `initialize` give the commented `paired` example. */
  lemma GenericMethodsParams(ez: string)
    ensures ReadableLines(GenericMethods(ez))
    ensures Hits(GenericMethods(ez)) == [["paired", "dataset_has_column?('Read2')"]]
  {
    var m := MethodBlocks(ez);
    var e := Fixed(0, "end");
    MethodBlocksSplit(ez);
    MethodBlocksRead(ez);
    OneLine(e);
    HitsFive(m[0], m[1], m[2], m[3], [e]);
    ReadableFive(m[0], m[1], m[2], m[3], [e]);
  }

  /** A line of plain code and instance variables other than `@params`: the parameter
      rule finds nothing on it. */
  predicate Bare(l: Line) {
    forall j | 0 <= j < |l.chunks| :: l.chunks[j].Code? || (l.chunks[j].At? && l.chunks[j].v != Params)
  }

  lemma {:induction false} BareLines(ls: seq<Line>)
    requires forall i | 0 <= i < |ls| :: Bare(ls[i])
    ensures ReadableLines(ls) && Hits(ls) == []
  {
    forall i | 0 <= i < |ls| ensures ReadableLine(ls[i]) {
      assert Bare(ls[i]);
      forall j | 0 <= j < |ls[i].chunks| ensures Readable(ls[i].chunks, j) {
        assert ls[i].chunks[j].Code? || ls[i].chunks[j].At?;
      }
    }
    HitsQuiet(ls);
  }

  /** The heredoc of the description and the required columns and parameters. */
  lemma DescriptionQuiet()
    ensures ReadableLines(AppTemplate.Heredoc(GenericDescription) + GenericRequired)
    ensures Hits(AppTemplate.Heredoc(GenericDescription) + GenericRequired) == []
  {
    BareLines(AppTemplate.Heredoc(GenericDescription) + GenericRequired);
  }

  lemma HeadQuiet(cn: string)
    ensures ReadableLines(GenericHead(cn)) && Hits(GenericHead(cn)) == []
  {
    BareLines(GenericHead(cn));
  }

  lemma CliQuiet(cn: string)
    ensures ReadableLines(GenericCli(cn)) && Hits(GenericCli(cn)) == []
  {
    BareLines(GenericCli(cn));
  }

  /** Four blocks of which the second gives nothing. */
  lemma SkipSecond(a: seq<Line>, q: seq<Line>, r: seq<Line>, t: seq<Line>)
    requires ReadableLines(a) && ReadableLines(q) && ReadableLines(r) && ReadableLines(t) && Hits(q) == []
    ensures ReadableLines(a + q + r + t + []) && Hits(a + q + r + t + []) == Hits(a) + Hits(r) + Hits(t)
  {
    HitsFive(a, q, r, t, []);
    ReadableFive(a, q, r, t, []);
  }

  /** `super`, the name, the process mode and the category. */
  lemma InitTopParams(an: string, cat: string)
    ensures ReadableLines(InitTop(an, GenericMode, cat))
    ensures Hits(InitTop(an, GenericMode, cat)) == [["process_mode", GenericMode]]
  {
    var ls := InitTop(an, GenericMode, cat);
    ModeParams();
    assert ReadableLine(ModeLine(GenericMode));
    BareLines([ls[0], ls[1]]);
    BareLines([ls[3]]);
    OneLine(ls[2]);
    HitsFive([ls[0], ls[1]], [ls[2]], [ls[3]], [], []);
    ReadableFive([ls[0], ls[1]], [ls[2]], [ls[3]], [], []);
    assert ls == [ls[0], ls[1]] + [ls[2]] + [ls[3]] + [] + [];
  }

  /** The app's own parameters, then the modules and the inherited lists. */
  lemma RestParams(an: string)
    requires Tame(an)
    ensures ReadableLines(GenericRest(an))
    ensures Hits(GenericRest(an)) == Hits(ResultParams(an))
  {
    var a := [Gap, Fixed(4, "# App-specific parameters")];
    var t := RestTail;
    RestSplit(an);
    BareLines(a);
    RestTailQuiet();
    BareLines([]);
    ResultParamsRead(an);
    Sandwich(a, ResultParams(an), t, [], []);
  }

  /** The modules and the inherited lists, after the app's own parameters. */
  const RestTail: seq<Line> :=
    [Gap, Fixed(4, "# Environment modules to load"), ListLine(Modules, "'Dev/R'"),
     Gap, Line(4, [Code("# Columns/tags to inherit "), Code("from input dataset")]),
     ListLine(InheritColumns, "'Order Id'"), ListLine(InheritTags, "'Factor', 'B-Fabric'")]

  lemma RestSplit(an: string)
    ensures GenericRest(an) == [Gap, Fixed(4, "# App-specific parameters")] + ResultParams(an) + RestTail + [] + []
  {
  }

  lemma RestTailQuiet()
    ensures ReadableLines(RestTail) && Hits(RestTail) == []
  {
    BareLines(RestTail);
  }

  /** The body of `initialize` gives the process mode, the resources, `name` and `mail`. */
  lemma InitParams(an: string, cat: string)
    requires Tame(an)
    ensures ReadableLines(GenericInit(an, cat))
    ensures Hits(GenericInit(an, cat)) == [["process_mode", GenericMode]] + Hits(GenericResources) + Hits(ResultParams(an))
  {
    var top := InitTop(an, GenericMode, cat);
    var q := AppTemplate.Heredoc(GenericDescription) + GenericRequired;
    InitTopParams(an, cat);
    DescriptionQuiet();
    ResourcesParams();
    RestParams(an);
    SkipSecond(top, q, GenericResources, GenericRest(an));
    InitSplit(an, cat);
  }

  lemma InitSplit(an: string, cat: string)
    ensures GenericInit(an, cat)
            == InitTop(an, GenericMode, cat) + (AppTemplate.Heredoc(GenericDescription) + GenericRequired)
               + GenericResources + GenericRest(an) + []
  {
  }

  /** Every line of the file is one the parameter rule reads as it is written. */
  lemma LinesRead(cn: string, an: string, ez: string, cat: string)
    requires Tame(an)
    ensures ReadableLines(GenericLines(cn, an, ez, cat))
  {
    var h := GenericHead(cn);
    var m := Method("initialize", GenericInit(an, cat));
    InitParams(an, cat);
    MethodParams("initialize", GenericInit(an, cat));
    HeadQuiet(cn);
    CliQuiet(cn);
    GenericMethodsParams(ez);
    ReadableFive(h, m, GenericMethods(ez), GenericCli(cn), []);
    LinesSplit(cn, an, ez, cat);
  }

  /** The whole file gives the process mode, the resources, `name`, `mail` and the
      commented `paired` example, in the order of their lines. */
  lemma LinesParams(cn: string, an: string, ez: string, cat: string)
    requires Tame(an)
    ensures Hits(GenericLines(cn, an, ez, cat))
            == [["process_mode", GenericMode]] + Hits(GenericResources) + Hits(ResultParams(an))
               + [["paired", "dataset_has_column?('Read2')"]]
  {
    var h := GenericHead(cn);
    var m := Method("initialize", GenericInit(an, cat));
    InitParams(an, cat);
    MethodParams("initialize", GenericInit(an, cat));
    HeadQuiet(cn);
    CliQuiet(cn);
    GenericMethodsParams(ez);
    QuietEnds(h, m, GenericMethods(ez), GenericCli(cn));
    LinesSplit(cn, an, ez, cat);
  }

  /** Four blocks of which the first and the last give nothing. */
  lemma QuietEnds(h: seq<Line>, m: seq<Line>, g: seq<Line>, c: seq<Line>)
    requires Hits(h) == [] && Hits(c) == []
    ensures Hits(h + m + g + c + []) == Hits(m) + Hits(g)
  {
    HitsFive(h, m, g, c, []);
    assert Hits([]) == [];
  }

  lemma LinesSplit(cn: string, an: string, ez: string, cat: string)
    ensures GenericLines(cn, an, ez, cat)
            == GenericHead(cn) + Method("initialize", GenericInit(an, cat)) + GenericMethods(ez) + GenericCli(cn) + []
  {
  }

  /** What the parameter rule finds in the generic template, in the order of its lines. */
  function GenericHits(an: string): seq<seq<string>> {
    [["process_mode", GenericMode], ["cores", "[8, 1, 2, 4, 8, 16]"], ["ram", "[30, 15, 62]"],
     ["scratch", "[100, 50, 200]"], ["name", "'" + an + "_Result'"], ["mail", "''"],
     ["paired", "dataset_has_column?('Read2')"]]
  }

  /** The parameters the extractor reads back from the generic template: the process mode with
      its trailing comment, the three resources, the result name and the mail, and the
      `paired` example from the comment in `set_default_parameters`. */
  function GenericParams(an: string): Params {
    [Entry("process_mode", GenericMode), Entry("cores", "[8, 1, 2, 4, 8, 16]"), Entry("ram", "[30, 15, 62]"),
     Entry("scratch", "[100, 50, 200]"), Entry("name", "'" + an + "_Result'"), Entry("mail", "''"),
     Entry("paired", "dataset_has_column?('Read2')")]
  }

  lemma HitsOfLines(cn: string, an: string, ez: string, cat: string)
    requires Tame(an)
    ensures Hits(GenericLines(cn, an, ez, cat)) == GenericHits(an)
  {
    LinesParams(cn, an, ez, cat);
    ResourcesParams();
    ResultParamsRead(an);
    Spread(["process_mode", GenericMode], Hits(GenericResources), Hits(ResultParams(an)),
           ["paired", "dataset_has_column?('Read2')"], ["cores", "[8, 1, 2, 4, 8, 16]"], ["ram", "[30, 15, 62]"],
           ["scratch", "[100, 50, 200]"], ["name", "'" + an + "_Result'"], ["mail", "''"]);
  }

  lemma Spread<T>(x: T, b: seq<T>, c: seq<T>, y: T, b1: T, b2: T, b3: T, c1: T, c2: T)
    requires b == [b1, b2, b3] && c == [c1, c2]
    ensures [x] + b + c + [y] == [x, b1, b2, b3, c1, c2, y]
  {
  }

  /** The keys of the generic template's parameters are distinct words. */
  lemma KeysFresh(k1: string, k2: string, k3: string, k4: string, k5: string, k6: string, k7: string,
                  h: seq<seq<string>>)
    requires ',' !in k1 && ',' !in k2 && ',' !in k3 && ',' !in k4 && ',' !in k5 && ',' !in k6 && ',' !in k7
    requires k7 !in [k1, k2, k3, k4, k5, k6] && k6 !in [k1, k2, k3, k4, k5] && k5 !in [k1, k2, k3, k4]
    requires k4 !in [k1, k2, k3] && k3 !in [k1, k2] && k2 != k1
    requires |h| == 7 && forall i | 0 <= i < 7 :: |h[i]| == 2
    requires h[0][0] == k1 && h[1][0] == k2 && h[2][0] == k3 && h[3][0] == k4
    requires h[4][0] == k5 && h[5][0] == k6 && h[6][0] == k7
    ensures Fresh([], h)
  {
    assert Fresh([k1, k2, k3, k4, k5, k6], h[6..]) by {
      assert [k1, k2, k3, k4, k5, k6] + [k7] == [k1, k2, k3, k4, k5, k6, k7];
    }
    assert Fresh([k1, k2, k3, k4, k5], h[5..]) by {
      assert h[5..][1..] == h[6..];
      assert [k1, k2, k3, k4, k5] + [k6] == [k1, k2, k3, k4, k5, k6];
    }
    assert Fresh([k1, k2, k3, k4], h[4..]) by {
      assert h[4..][1..] == h[5..];
      assert [k1, k2, k3, k4] + [k5] == [k1, k2, k3, k4, k5];
    }
    assert Fresh([k1, k2, k3], h[3..]) by {
      assert h[3..][1..] == h[4..];
      assert [k1, k2, k3] + [k4] == [k1, k2, k3, k4];
    }
    assert Fresh([k1, k2], h[2..]) by {
      assert h[2..][1..] == h[3..];
      assert [k1, k2] + [k3] == [k1, k2, k3];
    }
    assert Fresh([k1], h[1..]) by {
      assert h[1..][1..] == h[2..];
      assert [k1] + [k2] == [k1, k2];
    }
    assert [] + [k1] == [k1];
  }

  /** Seven matches with distinct keys and values `strip` leaves alone each add one entry,
      in order. */
  lemma CollectSeven(k1: string, k2: string, k3: string, k4: string, k5: string, k6: string, k7: string,
                     v1: string, v2: string, v3: string, v4: string, v5: string, v6: string, v7: string,
                     h: seq<seq<string>>)
    requires h == [[k1, v1], [k2, v2], [k3, v3], [k4, v4], [k5, v5], [k6, v6], [k7, v7]]
    requires Solid(v1) && Solid(v2) && Solid(v3) && Solid(v4) && Solid(v5) && Solid(v6) && Solid(v7)
    requires ',' !in k1 && ',' !in k2 && ',' !in k3 && ',' !in k4 && ',' !in k5 && ',' !in k6 && ',' !in k7
    requires k7 !in [k1, k2, k3, k4, k5, k6] && k6 !in [k1, k2, k3, k4, k5] && k5 !in [k1, k2, k3, k4]
    requires k4 !in [k1, k2, k3] && k3 !in [k1, k2] && k2 != k1
    ensures forall i | 0 <= i < |h| :: |h[i]| == 2
    ensures CollectParams([], h) == Entries(h)
  {
    assert forall i | 0 <= i < |h| :: |h[i]| == 2 && Solid(h[i][1]);
    KeysFresh(k1, k2, k3, k4, k5, k6, k7, h);
    CollectFresh([], h);
    assert [] + Entries(h) == Entries(h);
  }

  /** Each match becomes the entry at its own position. */
  lemma {:induction false} EntriesAt(hits: seq<seq<string>>)
    requires forall i | 0 <= i < |hits| :: |hits[i]| == 2
    ensures forall i | 0 <= i < |hits| :: Entries(hits)[i] == Entry(hits[i][0], hits[i][1])
    decreases |hits|
  {
    if 0 < |hits| {
      var t := hits[1..];
      assert forall i | 0 <= i < |t| :: t[i] == hits[i + 1];
      EntriesAt(t);
      EntriesCons(hits);
    }
  }

  lemma EntriesOfHits(an: string)
    ensures forall i | 0 <= i < |GenericHits(an)| :: |GenericHits(an)[i]| == 2
    ensures Entries(GenericHits(an)) == GenericParams(an)
  {
    EntriesAt(GenericHits(an));
  }

  /** The extractor's parameters are what the rule finds, collected into a hash. */
  lemma ParamsOfScan(s: string, hits: seq<seq<string>>)
    requires Scan(Attempt(ParamRule), s, true) == hits && forall i | 0 <= i < |hits| :: |hits[i]| == 2
    ensures ParamsOf(s) == CollectParams([], hits)
  {
  }

  lemma TemplateHits(cn: string, an: string, ez: string, cat: string)
    requires GenericFit(cn, an, ez, cat)
    ensures Scan(Attempt(ParamRule), GenericTemplate(cn, an, ez, cat), true) == GenericHits(an)
  {
    var ls := GenericLines(cn, an, ez, cat);
    WholeFacts(cn, an, ez, cat);
    LinesRead(cn, an, ez, cat);
    RenderParams(ls, AllVars);
    HitsOfLines(cn, an, ez, cat);
  }

  /** The extractor reads the parameters of the generic template back, in order. */
  lemma ParamsOfTemplate(cn: string, an: string, ez: string, cat: string)
    requires GenericFit(cn, an, ez, cat)
    ensures ParamsOf(GenericTemplate(cn, an, ez, cat)) == GenericParams(an)
  {
    TemplateHits(cn, an, ez, cat);
    CollectGeneric(an);
    ParamsOfScan(GenericTemplate(cn, an, ez, cat), GenericHits(an));
  }

  /** The matches of the generic template, collected into a hash. */
  lemma CollectGeneric(an: string)
    ensures forall i | 0 <= i < |GenericHits(an)| :: |GenericHits(an)[i]| == 2
    ensures CollectParams([], GenericHits(an)) == GenericParams(an)
  {
    CollectHits(an);
    EntriesOfHits(an);
  }

  lemma CollectHits(an: string)
    ensures forall i | 0 <= i < |GenericHits(an)| :: |GenericHits(an)[i]| == 2
    ensures CollectParams([], GenericHits(an)) == Entries(GenericHits(an))
  {
    CollectSeven("process_mode", "cores", "ram", "scratch", "name", "mail", "paired",
                 GenericMode, "[8, 1, 2, 4, 8, 16]", "[30, 15, 62]", "[100, 50, 200]", "'" + an + "_Result'",
                 "''", "dataset_has_column?('Read2')", GenericHits(an));
  }

  /** The `paired` example is the value the hash holds for `paired`. */
  lemma PairedLookup(an: string)
    ensures Lookup(GenericParams(an), "paired") == Some("dataset_has_column?('Read2')")
    ensures Lookup(GenericParams(an), "process_mode") == Some(GenericMode)
  {
    var p := GenericParams(an);
    assert Lookup(p[6..], "paired") == Some("dataset_has_column?('Read2')");
    assert Lookup(p[5..], "paired") == Lookup(p[6..], "paired") by { assert p[5..][1..] == p[6..]; }
    assert Lookup(p[4..], "paired") == Lookup(p[5..], "paired") by { assert p[4..][1..] == p[5..]; }
    assert Lookup(p[3..], "paired") == Lookup(p[4..], "paired") by { assert p[3..][1..] == p[4..]; }
    assert Lookup(p[2..], "paired") == Lookup(p[3..], "paired") by { assert p[2..][1..] == p[3..]; }
    assert Lookup(p[1..], "paired") == Lookup(p[2..], "paired") by { assert p[1..][1..] == p[2..]; }
    assert Lookup(p, "paired") == Lookup(p[1..], "paired");
  }

  // ---- the whole record ----

  /** The fields the extractor reads from a file whose text gives these readings. */
  lemma Collect(t: string, cn: string, path: string, an: string, ez: string, cat: string)
    requires Scalar(ScalarRule(Name), t) == Some(an)
    requires Scalar(ProcessModeRule, t) == Some("DATASET")
    requires Scalar(ScalarRule(AnalysisCategory), t) == Some(cat)
    requires Elements(RequiredColumns, t) == ["Name", "Read1"]
    requires Elements(RequiredParams, t) == ["name"]
    requires Elements(Modules, t) == ["Dev/R"]
    requires Elements(InheritColumns, t) == ["Order Id"]
    requires Elements(InheritTags, t) == ["Factor", "B-Fabric"]
    requires Scalar(EzrunRule, t) == Some(ez)
    requires Methods(t) == ["initialize", "set_default_parameters", "preprocess", "next_dataset", "commands"]
    requires ParamsOf(t) == GenericParams(an)
    ensures var r := ParseContent(t, cn, path);
            && r.name == Some(an) && r.className == cn && r.filePath == path
            && r.processMode == Some("DATASET") && r.analysisCategory == Some(cat)
            && r.requiredColumns == ["Name", "Read1"] && r.requiredParams == ["name"]
            && r.modules == ["Dev/R"] && r.inheritColumns == ["Order Id"]
            && r.inheritTags == ["Factor", "B-Fabric"]
            && r.ezrunApp == Some(ez)
            && r.methods == ["initialize", "set_default_parameters", "preprocess", "next_dataset", "commands"]
            && r.params == GenericParams(an)
  {
  }

  /** Parsing the file `generate_generic_template` writes gives back the new name and
      category, the `DATASET` mode, the template's fixed lists, the R function, the five
      methods and the seven parameters, among them the `paired` example the extractor picks
      up from a comment. */
  lemma GenericTemplateRoundTrip(cn: string, an: string, ez: string, cat: string, path: string)
    requires GenericFit(cn, an, ez, cat)
    ensures var r := ParseContent(GenericTemplate(cn, an, ez, cat), cn, path);
            && r.name == Some(an) && r.className == cn && r.filePath == path
            && r.processMode == Some("DATASET") && r.analysisCategory == Some(cat)
            && r.requiredColumns == ["Name", "Read1"] && r.requiredParams == ["name"]
            && r.modules == ["Dev/R"] && r.inheritColumns == ["Order Id"]
            && r.inheritTags == ["Factor", "B-Fabric"]
            && r.ezrunApp == Some(ez)
            && r.methods == ["initialize", "set_default_parameters", "preprocess", "next_dataset", "commands"]
            && r.params == GenericParams(an)
            && Lookup(r.params, "paired") == Some("dataset_has_column?('Read2')")
  {
    NameBack(cn, an, ez, cat);
    ModeBack(cn, an, ez, cat);
    CategoryBack(cn, an, ez, cat);
    ColumnsBack(cn, an, ez, cat);
    ParamsBack(cn, an, ez, cat);
    ModulesBack(cn, an, ez, cat);
    InheritBack(cn, an, ez, cat);
    TagsBack(cn, an, ez, cat);
    EzrunBack(cn, an, ez, cat);
    MethodsBack(cn, an, ez, cat);
    ParamsOfTemplate(cn, an, ez, cat);
    PairedLookup(an);
    Collect(GenericTemplate(cn, an, ez, cat), cn, path, an, ez, cat);
  }
}
