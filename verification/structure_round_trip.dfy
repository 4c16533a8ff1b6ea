/** Reading back the file `generate_template_from_structure` writes: the extractor finds in
    it the name, process mode, category, lists, R function and methods the template was
    given. Each field is found at its own line, after lines that do not assign it. */
module StructureRoundTrip {
  import opened Chars
  import opened Text
  import opened Optional
  import opened Search
  import opened Rules
  import opened Ivars
  import opened Reading
  import opened AppParser
  import opened AppTemplate
  import opened Marks
  import opened Layout
  import opened LineShapes
  import opened TidyBlocks
  import opened Reparse
  import opened MethodScan
  import opened TemplateParts
  import opened Fit
  import opened Placed

  /** The quoted process mode the template writes. */
  function Mode(base: AppStructure): string {
    "'" + ProcessModeOf(base) + "'"
  }

  function Comment(base: AppStructure): Line {
    Line(4, [Code("# Computational resources (from "), Code(base.className), Code(")")])
  }

  function ColumnsLine(base: AppStructure): Line {
    ListLine(RequiredColumns, QuotedList(base.requiredColumns))
  }

  function ParamsLine(base: AppStructure): Line {
    ListLine(RequiredParams, QuotedList(base.requiredParams))
  }

  function ModulesLine(base: AppStructure): Line {
    ListLine(Modules, ModulesText(base.modules))
  }

  function InheritLine(base: AppStructure): Line {
    ListLine(InheritColumns, QuotedList(base.inheritColumns))
  }

  function Resources(base: AppStructure): seq<Line> {
    AppTemplate.Resources(CoresOf(base), RamOf(base), ScratchOf(base))
  }

  /** The description block and the blank line after it. */
  function DescriptionBlock(an: string, base: AppStructure): seq<Line> {
    AppTemplate.Heredoc(StructureDescription(an, base)) + [Gap]
  }

  /** From the resource comment to the blank line before `@modules`. */
  function Middle(an: string, base: AppStructure): seq<Line> {
    [Gap, Comment(base)] + Resources(base) + [Gap] + ResultParams(an) + [Gap]
  }

  // ---- the lines before and after each field ----

  function Opening(cn: string, base: AppStructure): seq<Line> {
    StructureHead(cn, base) + [DefOf("initialize")]
  }

  function BeforeName(cn: string, base: AppStructure): seq<Line> {
    Opening(cn, base) + [Fixed(4, "super")]
  }

  function BeforeMode(cn: string, an: string, base: AppStructure): seq<Line> {
    BeforeName(cn, base) + [NameLine(an)]
  }

  function BeforeCategory(cn: string, an: string, base: AppStructure): seq<Line> {
    BeforeMode(cn, an, base) + [ModeLine(Mode(base))]
  }

  function BeforeColumns(cn: string, an: string, base: AppStructure): seq<Line> {
    BeforeCategory(cn, an, base) + [CategoryLine(CategoryOf(base))] + DescriptionBlock(an, base)
  }

  function BeforeParams(cn: string, an: string, base: AppStructure): seq<Line> {
    BeforeColumns(cn, an, base) + [ColumnsLine(base)]
  }

  function BeforeModules(cn: string, an: string, base: AppStructure): seq<Line> {
    BeforeParams(cn, an, base) + [ParamsLine(base)] + Middle(an, base)
  }

  function BeforeInherit(cn: string, an: string, base: AppStructure): seq<Line> {
    BeforeModules(cn, an, base) + [ModulesLine(base)]
  }

  /** The end of `initialize` and everything after it. */
  function Ending(cn: string, ez: string): seq<Line> {
    [End2] + Trailer(cn, ez)
  }

  function Trailer(cn: string, ez: string): seq<Line> {
    StructureMethods(ez) + [Gap] + Usecase(cn)
  }

  function AfterModules(cn: string, ez: string, base: AppStructure): seq<Line> {
    [InheritLine(base)] + Ending(cn, ez)
  }

  function AfterParams(cn: string, an: string, ez: string, base: AppStructure): seq<Line> {
    Middle(an, base) + [ModulesLine(base)] + AfterModules(cn, ez, base)
  }

  function AfterColumns(cn: string, an: string, ez: string, base: AppStructure): seq<Line> {
    [ParamsLine(base)] + AfterParams(cn, an, ez, base)
  }

  function AfterCategory(cn: string, an: string, ez: string, base: AppStructure): seq<Line> {
    DescriptionBlock(an, base) + [ColumnsLine(base)] + AfterColumns(cn, an, ez, base)
  }

  function AfterMode(cn: string, an: string, ez: string, base: AppStructure): seq<Line> {
    [CategoryLine(CategoryOf(base))] + AfterCategory(cn, an, ez, base)
  }

  function AfterName(cn: string, an: string, ez: string, base: AppStructure): seq<Line> {
    [ModeLine(Mode(base))] + AfterMode(cn, an, ez, base)
  }

  /** The body of `initialize`, piece by piece. */
  lemma InitShape(an: string, base: AppStructure)
    ensures StructureInit(an, base)
            == [Fixed(4, "super")] + [NameLine(an)] + [ModeLine(Mode(base))] + [CategoryLine(CategoryOf(base))]
               + DescriptionBlock(an, base) + [ColumnsLine(base)] + [ParamsLine(base)] + Middle(an, base)
               + [ModulesLine(base)] + [InheritLine(base)]
  {
    assert StructureRequired(base) == [Gap] + [ColumnsLine(base)] + [ParamsLine(base)] + [Gap, Comment(base)];
    assert StructureRest(an, base) == [Gap] + ResultParams(an) + [Gap] + [ModulesLine(base)] + [InheritLine(base)];
  }

  /** Regrouping the pieces of the template; only their order matters. */
  lemma Glue(h: seq<Line>, d: Line, su: Line, nl: Line, ml: Line, cl: Line, ds: seq<Line>, rc: Line,
             rp: Line, mid: seq<Line>, mo: Line, ic: Line, en: Line, sm: seq<Line>, g: Line, u: seq<Line>,
             whole: seq<Line>, init: seq<Line>)
    requires init == [su] + [nl] + [ml] + [cl] + ds + [rc] + [rp] + mid + [mo] + [ic]
    requires whole == h + ([d] + init + [en]) + sm + [g] + u
    ensures whole == h + [d] + [su] + [nl] + [ml] + [cl] + ds + [rc] + [rp] + mid + [mo] + [ic]
                     + ([en] + (sm + [g] + u))
  {
  }

  /** The lines of the template, field by field. */
  lemma Shape(cn: string, an: string, ez: string, base: AppStructure)
    ensures StructureLines(cn, an, ez, base) == Around(BeforeInherit(cn, an, base), InheritLine(base), Ending(cn, ez))
  {
    InitShape(an, base);
    assert Method("initialize", StructureInit(an, base)) == [DefOf("initialize")] + StructureInit(an, base) + [End2];
    Glue(StructureHead(cn, base), DefOf("initialize"), Fixed(4, "super"), NameLine(an), ModeLine(Mode(base)),
         CategoryLine(CategoryOf(base)), DescriptionBlock(an, base), ColumnsLine(base), ParamsLine(base),
         Middle(an, base), ModulesLine(base), InheritLine(base), End2, StructureMethods(ez), Gap, Usecase(cn),
         StructureLines(cn, an, ez, base),
         StructureInit(an, base));
  }

  lemma SplitModules(cn: string, an: string, ez: string, base: AppStructure)
    ensures StructureLines(cn, an, ez, base) == Around(BeforeModules(cn, an, base), ModulesLine(base), AfterModules(cn, ez, base))
  {
    Shape(cn, an, ez, base);
    Back1(StructureLines(cn, an, ez, base), BeforeModules(cn, an, base), ModulesLine(base), InheritLine(base),
          Ending(cn, ez));
  }

  lemma SplitParams(cn: string, an: string, ez: string, base: AppStructure)
    ensures StructureLines(cn, an, ez, base) == Around(BeforeParams(cn, an, base), ParamsLine(base), AfterParams(cn, an, ez, base))
  {
    SplitModules(cn, an, ez, base);
    Back2(StructureLines(cn, an, ez, base), BeforeParams(cn, an, base), ParamsLine(base), Middle(an, base),
          ModulesLine(base), AfterModules(cn, ez, base));
  }

  lemma SplitColumns(cn: string, an: string, ez: string, base: AppStructure)
    ensures StructureLines(cn, an, ez, base) == Around(BeforeColumns(cn, an, base), ColumnsLine(base), AfterColumns(cn, an, ez, base))
  {
    SplitParams(cn, an, ez, base);
    Back1(StructureLines(cn, an, ez, base), BeforeColumns(cn, an, base), ColumnsLine(base), ParamsLine(base),
          AfterParams(cn, an, ez, base));
  }

  lemma SplitCategory(cn: string, an: string, ez: string, base: AppStructure)
    ensures StructureLines(cn, an, ez, base) == Around(BeforeCategory(cn, an, base), CategoryLine(CategoryOf(base)), AfterCategory(cn, an, ez, base))
  {
    SplitColumns(cn, an, ez, base);
    Back2(StructureLines(cn, an, ez, base), BeforeCategory(cn, an, base), CategoryLine(CategoryOf(base)),
          DescriptionBlock(an, base), ColumnsLine(base), AfterColumns(cn, an, ez, base));
  }

  lemma SplitMode(cn: string, an: string, ez: string, base: AppStructure)
    ensures StructureLines(cn, an, ez, base) == Around(BeforeMode(cn, an, base), ModeLine(Mode(base)), AfterMode(cn, an, ez, base))
  {
    SplitCategory(cn, an, ez, base);
    Back1(StructureLines(cn, an, ez, base), BeforeMode(cn, an, base), ModeLine(Mode(base)),
          CategoryLine(CategoryOf(base)), AfterCategory(cn, an, ez, base));
  }

  lemma SplitName(cn: string, an: string, ez: string, base: AppStructure)
    ensures StructureLines(cn, an, ez, base) == Around(BeforeName(cn, base), NameLine(an), AfterName(cn, an, ez, base))
  {
    SplitMode(cn, an, ez, base);
    Back1(StructureLines(cn, an, ez, base), BeforeName(cn, base), NameLine(an), ModeLine(Mode(base)),
          AfterMode(cn, an, ez, base));
  }

  // ---- no line before a field assigns it ----

  lemma OpeningTidy(cn: string, base: AppStructure)
    requires Tame(cn) && Tame(base.className)
    ensures TidyLines(BeforeName(cn, base), {})
  {
    StructureHeadPlain(cn, base, {});
    PlainTidy(StructureHead(cn, base), {});
    SnakeNames();
    DefTidyLines("initialize", {});
    TidyJoin(StructureHead(cn, base), [DefOf("initialize")], {});
    assert Lacks("super", 'R');
    FixedPlain(4, "super", 'R', {});
    TidyOne(Fixed(4, "super"), {});
    TidyJoin(Opening(cn, base), [Fixed(4, "super")], {});
  }

  lemma BeforeModeTidy(cn: string, an: string, base: AppStructure)
    requires Tame(cn) && Tame(an) && Tame(base.className)
    ensures TidyLines(BeforeMode(cn, an, base), {Name})
  {
    OpeningTidy(cn, base);
    ScalarPlain(Name, an, {Name});
    TidyOne(NameLine(an), {Name});
    Grow(BeforeName(cn, base), [NameLine(an)], {}, {Name});
  }

  lemma BeforeCategoryTidy(cn: string, an: string, base: AppStructure)
    requires Tame(cn) && Tame(an) && BaseFit(base)
    ensures TidyLines(BeforeCategory(cn, an, base), {Name, Params})
  {
    BeforeModeTidy(cn, an, base);
    ModeFit(base);
    ModeTidy(Mode(base), {Name, Params});
    Grow(BeforeMode(cn, an, base), [ModeLine(Mode(base))], {Name}, {Name, Params});
  }

  lemma DescriptionBlockPlain(an: string, base: AppStructure, S: set<Var>)
    requires Description in S && Tame(an) && BaseFit(base)
    ensures PlainLines(DescriptionBlock(an, base), S)
  {
    StructureDescriptionPlain(an, base, S);
    HeredocPlain(StructureDescription(an, base), S);
    GapPlain(0, S);
    Plain1(Gap, S);
    PlainJoin(AppTemplate.Heredoc(StructureDescription(an, base)), [Gap], S);
  }

  lemma BeforeColumnsTidy(cn: string, an: string, base: AppStructure)
    requires Tame(cn) && Tame(an) && BaseFit(base)
    ensures TidyLines(BeforeColumns(cn, an, base), {Name, Params, AnalysisCategory, Description})
  {
    var S := {Name, Params, AnalysisCategory, Description};
    BeforeCategoryTidy(cn, an, base);
    CategoryFit(base);
    ScalarPlain(AnalysisCategory, CategoryOf(base), S);
    TidyOne(CategoryLine(CategoryOf(base)), S);
    Grow(BeforeCategory(cn, an, base), [CategoryLine(CategoryOf(base))], {Name, Params}, S);
    DescriptionBlockPlain(an, base, S);
    PlainTidy(DescriptionBlock(an, base), S);
    TidyJoin(BeforeCategory(cn, an, base) + [CategoryLine(CategoryOf(base))], DescriptionBlock(an, base), S);
  }

  lemma BeforeParamsTidy(cn: string, an: string, base: AppStructure)
    requires Tame(cn) && Tame(an) && BaseFit(base)
    ensures TidyLines(BeforeParams(cn, an, base), {Name, Params, AnalysisCategory, Description, RequiredColumns})
  {
    var S := {Name, Params, AnalysisCategory, Description, RequiredColumns};
    BeforeColumnsTidy(cn, an, base);
    QuotedTame(base.requiredColumns);
    ListPlain(RequiredColumns, QuotedList(base.requiredColumns), S);
    TidyOne(ColumnsLine(base), S);
    Grow(BeforeColumns(cn, an, base), [ColumnsLine(base)], {Name, Params, AnalysisCategory, Description}, S);
  }

  lemma CommentPlain(base: AppStructure, S: set<Var>)
    requires Tame(base.className)
    ensures Plain(Comment(base), S)
  {
    FromText();
    AroundPlain(4, "# Computational resources (from ", base.className, ")", 'R', S);
  }

  lemma MiddlePlain(an: string, base: AppStructure, S: set<Var>)
    requires Params in S && Tame(an) && Tame(base.className)
    requires Tame(CoresOf(base)) && Tame(RamOf(base)) && Tame(ScratchOf(base))
    ensures PlainLines(Middle(an, base), S)
  {
    var c := Comment(base);
    CommentPlain(base, S);
    GapPlain(0, S);
    Plain2(Gap, c, S);
    Plain1(Gap, S);
    ResourcesPlain(CoresOf(base), RamOf(base), ScratchOf(base), S);
    ResultParamsPlain(an, S);
    PlainJoin([Gap, c], Resources(base), S);
    PlainJoin([Gap, c] + Resources(base), [Gap], S);
    PlainJoin([Gap, c] + Resources(base) + [Gap], ResultParams(an), S);
    PlainJoin([Gap, c] + Resources(base) + [Gap] + ResultParams(an), [Gap], S);
  }

  lemma BeforeModulesTidy(cn: string, an: string, base: AppStructure)
    requires Tame(cn) && Tame(an) && BaseFit(base)
    ensures TidyLines(BeforeModules(cn, an, base),
                      {Name, Params, AnalysisCategory, Description, RequiredColumns, RequiredParams})
  {
    var S := {Name, Params, AnalysisCategory, Description, RequiredColumns, RequiredParams};
    BeforeParamsTidy(cn, an, base);
    QuotedTame(base.requiredParams);
    ListPlain(RequiredParams, QuotedList(base.requiredParams), S);
    TidyOne(ParamsLine(base), S);
    Grow(BeforeParams(cn, an, base), [ParamsLine(base)],
         {Name, Params, AnalysisCategory, Description, RequiredColumns}, S);
    MiddlePlain(an, base, S);
    PlainTidy(Middle(an, base), S);
    TidyJoin(BeforeParams(cn, an, base) + [ParamsLine(base)], Middle(an, base), S);
  }

  lemma BeforeInheritTidy(cn: string, an: string, base: AppStructure)
    requires Tame(cn) && Tame(an) && BaseFit(base)
    ensures TidyLines(BeforeInherit(cn, an, base),
                      {Name, Params, AnalysisCategory, Description, RequiredColumns, RequiredParams, Modules})
  {
    var S := {Name, Params, AnalysisCategory, Description, RequiredColumns, RequiredParams, Modules};
    BeforeModulesTidy(cn, an, base);
    ModulesTame(base.modules);
    ListPlain(Modules, ModulesText(base.modules), S);
    TidyOne(ModulesLine(base), S);
    Grow(BeforeModules(cn, an, base), [ModulesLine(base)],
         {Name, Params, AnalysisCategory, Description, RequiredColumns, RequiredParams}, S);
  }

  // ---- lines after a field that do not assign it ----

  lemma TrailerCalm(cn: string, ez: string, T: set<Var>)
    requires Tame(cn) && Tame(ez) && ResultDir in T && Params in T && InheritColumns in T
    ensures CalmLines(Trailer(cn, ez), T)
  {
    StructureMethodsFacts(ez, T);
    GapPlain(0, T);
    Plain1(Gap, T);
    UsecasePlain(cn, T);
    PlainJoin([Gap], Usecase(cn), T);
    PlainCalm([Gap] + Usecase(cn), T);
    CalmJoin(StructureMethods(ez), [Gap] + Usecase(cn), T);
    assert Trailer(cn, ez) == StructureMethods(ez) + ([Gap] + Usecase(cn));
  }

  lemma EndingCalm(cn: string, ez: string, T: set<Var>)
    requires Tame(cn) && Tame(ez) && ResultDir in T && Params in T && InheritColumns in T
    ensures CalmLines(Ending(cn, ez), T)
  {
    TrailerCalm(cn, ez, T);
    assert Lacks("end", 'R');
    FixedPlain(2, "end", 'R', T);
    Plain1(End2, T);
    PlainCalm([End2], T);
    CalmJoin([End2], Trailer(cn, ez), T);
  }

  lemma AfterModulesCalm(cn: string, ez: string, base: AppStructure, T: set<Var>)
    requires Tame(cn) && Tame(ez) && BaseFit(base) && ResultDir in T && Params in T && InheritColumns in T
    ensures CalmLines(AfterModules(cn, ez, base), T)
  {
    EndingCalm(cn, ez, T);
    QuotedTame(base.inheritColumns);
    ListPlain(InheritColumns, QuotedList(base.inheritColumns), T);
    Plain1(InheritLine(base), T);
    PlainCalm([InheritLine(base)], T);
    CalmJoin([InheritLine(base)], Ending(cn, ez), T);
  }

  lemma AfterParamsCalm(cn: string, an: string, ez: string, base: AppStructure, T: set<Var>)
    requires Tame(cn) && Tame(an) && Tame(ez) && BaseFit(base)
    requires ResultDir in T && Params in T && InheritColumns in T && Modules in T
    ensures CalmLines(AfterParams(cn, an, ez, base), T)
  {
    AfterModulesCalm(cn, ez, base, T);
    MiddlePlain(an, base, T);
    ModulesTame(base.modules);
    ListPlain(Modules, ModulesText(base.modules), T);
    Plain1(ModulesLine(base), T);
    PlainJoin(Middle(an, base), [ModulesLine(base)], T);
    PlainCalm(Middle(an, base) + [ModulesLine(base)], T);
    CalmJoin(Middle(an, base) + [ModulesLine(base)], AfterModules(cn, ez, base), T);
  }

  lemma AfterColumnsCalm(cn: string, an: string, ez: string, base: AppStructure, T: set<Var>)
    requires Tame(cn) && Tame(an) && Tame(ez) && BaseFit(base)
    requires ResultDir in T && Params in T && InheritColumns in T && Modules in T && RequiredParams in T
    ensures CalmLines(AfterColumns(cn, an, ez, base), T)
  {
    AfterParamsCalm(cn, an, ez, base, T);
    QuotedTame(base.requiredParams);
    ListPlain(RequiredParams, QuotedList(base.requiredParams), T);
    Plain1(ParamsLine(base), T);
    PlainCalm([ParamsLine(base)], T);
    CalmJoin([ParamsLine(base)], AfterParams(cn, an, ez, base), T);
  }

  lemma CalmInert(ls: seq<Line>)
    requires PlainLines(ls, AllVars - {InheritColumns})
    ensures Inert(Attempt(ListRule(InheritColumns)), Render(ls))
  {
    var r := ListRule(InheritColumns);
    assert Lead(r) == "@" + Ident(InheritColumns);
    PlainCalm(ls, AllVars - {InheritColumns});
    LinesInert(r, InheritColumns, ls, AllVars - {InheritColumns});
  }

  lemma UsecaseInert(cn: string)
    requires Tame(cn)
    ensures Inert(Attempt(ListRule(InheritColumns)), Render([Gap] + Usecase(cn)))
    ensures Inert(Attempt(ListRule(InheritColumns)), Render([End2]))
  {
    var T := AllVars - {InheritColumns};
    GapPlain(0, T);
    Plain1(Gap, T);
    UsecasePlain(cn, T);
    PlainJoin([Gap], Usecase(cn), T);
    CalmInert([Gap] + Usecase(cn));
    assert Lacks("end", 'R');
    FixedPlain(2, "end", 'R', T);
    Plain1(End2, T);
    CalmInert([End2]);
  }

  /** Nothing after the `@inherit_columns` line matches its rule: the `merge` call of
      `next_dataset` names the variable but assigns nothing. */
  lemma EndingInert(cn: string, ez: string)
    requires Tame(cn) && Tame(ez)
    ensures Inert(Attempt(ListRule(InheritColumns)), Render(Ending(cn, ez)))
  {
    var a := Attempt(ListRule(InheritColumns));
    var u := [Gap] + Usecase(cn);
    var m := StructureMethods(ez);
    UsecaseInert(cn);
    StructureMethodsInert(ez);
    assert Ending(cn, ez) == [End2] + (m + u);
    RenderJoin(m, u);
    RenderJoin([End2], m + u);
    InertJoin(a, Render(m), Render(u));
    InertJoin(a, Render([End2]), Render(m + u));
  }

  // ---- the whole file ----

  /** The variables an `initialize` written from a base structure assigns, and the
      result directory of `next_dataset`. */
  predicate Assigned(T: set<Var>) {
    {Name, Params, AnalysisCategory, Description, RequiredColumns, RequiredParams} <= T
    && {Modules, InheritColumns, ResultDir} <= T
  }

  lemma InitPlain(an: string, base: AppStructure, T: set<Var>)
    requires Assigned(T) && Tame(an) && BaseFit(base)
    ensures PlainLines(StructureInit(an, base), T)
  {
    ModeFit(base);
    CategoryFit(base);
    QuotedTame(base.requiredColumns);
    QuotedTame(base.requiredParams);
    QuotedTame(base.inheritColumns);
    ModulesTame(base.modules);
    StructureInitPlain(an, base, T);
  }

  /** The head of the file and `initialize`. */
  lemma HeadTidy(cn: string, an: string, base: AppStructure, T: set<Var>)
    requires Assigned(T) && Tame(cn) && Tame(an) && BaseFit(base)
    ensures TidyLines(StructureHead(cn, base) + Method("initialize", StructureInit(an, base)), T)
    ensures DefNames(StructureHead(cn, base) + Method("initialize", StructureInit(an, base))) == ["initialize"]
  {
    var h := StructureHead(cn, base);
    var m := Method("initialize", StructureInit(an, base));
    StructureHeadPlain(cn, base, T);
    PlainTidy(h, T);
    PlainNames(h, T);
    InitPlain(an, base, T);
    PlainNames(StructureInit(an, base), T);
    SnakeNames();
    MethodTidy("initialize", StructureInit(an, base), T);
    MethodNames("initialize", StructureInit(an, base));
    TidyJoin(h, m, T);
    DefNamesJoin(h, m);
  }

  lemma FootPlain(cn: string, T: set<Var>)
    requires Tame(cn)
    ensures PlainLines([Gap] + Usecase(cn), T)
  {
    GapPlain(0, T);
    Plain1(Gap, T);
    UsecasePlain(cn, T);
    PlainJoin([Gap], Usecase(cn), T);
  }

  /** The file is its head and `initialize`, the other methods, and the closing block. */
  lemma Assemble(ls: seq<Line>, hm: seq<Line>, sm: seq<Line>, g: Line, u: seq<Line>, T: set<Var>)
    requires ls == hm + sm + [g] + u
    requires Sound(hm, T) && Sound(sm, T) && Sound([g] + u, T)
    ensures Sound(ls, T) && DefNames(ls) == DefNames(hm) + DefNames(sm) + DefNames([g] + u)
  {
    assert ls == hm + sm + ([g] + u);
    SoundJoin(hm, sm, T);
    SoundJoin(hm + sm, [g] + u, T);
  }

  /** Every line of the file is calm for the assigned variables and scannable, and its
      `def` lines are the five methods. */
  lemma WholeFacts(cn: string, an: string, ez: string, base: AppStructure, T: set<Var>)
    requires Assigned(T) && NamesFit(cn, an, ez) && BaseFit(base)
    ensures Sound(StructureLines(cn, an, ez, base), T)
    ensures DefNames(StructureLines(cn, an, ez, base)) == ["initialize"] + LaterNames
  {
    var hm := StructureHead(cn, base) + Method("initialize", StructureInit(an, base));
    var f := [Gap] + Usecase(cn);
    HeadTidy(cn, an, base, T);
    TidySound(hm, T);
    StructureMethodsFacts(ez, T);
    FootPlain(cn, T);
    PlainTidy(f, T);
    TidySound(f, T);
    PlainNames(f, T);
    Assemble(StructureLines(cn, an, ez, base), hm, StructureMethods(ez), Gap, Usecase(cn), T);
  }

  // ---- where each field's line sits ----

  lemma NameAt(cn: string, an: string, ez: string, base: AppStructure)
    requires NamesFit(cn, an, ez) && BaseFit(base)
    ensures Follows(StructureLines(cn, an, ez, base), NameLine(an), {})
  {
    SplitName(cn, an, ez, base);
    OpeningTidy(cn, base);
    PlaceFollows(StructureLines(cn, an, ez, base), BeforeName(cn, base), NameLine(an), AfterName(cn, an, ez, base), {});
  }

  lemma ModeAt(cn: string, an: string, ez: string, base: AppStructure)
    requires NamesFit(cn, an, ez) && BaseFit(base)
    ensures Follows(StructureLines(cn, an, ez, base), ModeLine(Mode(base)), {Name})
  {
    SplitMode(cn, an, ez, base);
    BeforeModeTidy(cn, an, base);
    PlaceFollows(StructureLines(cn, an, ez, base), BeforeMode(cn, an, base), ModeLine(Mode(base)),
                 AfterMode(cn, an, ez, base), {Name});
  }

  lemma CategoryAt(cn: string, an: string, ez: string, base: AppStructure)
    requires NamesFit(cn, an, ez) && BaseFit(base)
    ensures Follows(StructureLines(cn, an, ez, base), CategoryLine(CategoryOf(base)), {Name, Params})
  {
    SplitCategory(cn, an, ez, base);
    BeforeCategoryTidy(cn, an, base);
    PlaceFollows(StructureLines(cn, an, ez, base), BeforeCategory(cn, an, base), CategoryLine(CategoryOf(base)),
                 AfterCategory(cn, an, ez, base), {Name, Params});
  }

  lemma ColumnsAt(cn: string, an: string, ez: string, base: AppStructure)
    requires NamesFit(cn, an, ez) && BaseFit(base)
    ensures Alone(StructureLines(cn, an, ez, base), ColumnsLine(base), {Name, Params, AnalysisCategory, Description},
                  ListRule(RequiredColumns))
  {
    SplitColumns(cn, an, ez, base);
    BeforeColumnsTidy(cn, an, base);
    ColumnsTailInert(cn, an, ez, base);
    PlaceAlone(StructureLines(cn, an, ez, base), BeforeColumns(cn, an, base), ColumnsLine(base),
               AfterColumns(cn, an, ez, base), {Name, Params, AnalysisCategory, Description}, ListRule(RequiredColumns));
  }

  /** No line after `@required_columns` assigns it again. */
  lemma ColumnsTailInert(cn: string, an: string, ez: string, base: AppStructure)
    requires NamesFit(cn, an, ez) && BaseFit(base)
    ensures Inert(Attempt(ListRule(RequiredColumns)), Render(AfterColumns(cn, an, ez, base)))
  {
    var T := AllVars - {RequiredColumns};
    assert Lead(ListRule(RequiredColumns)) == "@" + Ident(RequiredColumns);
    AfterColumnsCalm(cn, an, ez, base, T);
    LinesInert(ListRule(RequiredColumns), RequiredColumns, AfterColumns(cn, an, ez, base), T);
  }

  lemma ParamsAt(cn: string, an: string, ez: string, base: AppStructure)
    requires NamesFit(cn, an, ez) && BaseFit(base)
    ensures Alone(StructureLines(cn, an, ez, base), ParamsLine(base),
                  {Name, Params, AnalysisCategory, Description, RequiredColumns}, ListRule(RequiredParams))
  {
    SplitParams(cn, an, ez, base);
    BeforeParamsTidy(cn, an, base);
    ParamsTailInert(cn, an, ez, base);
    PlaceAlone(StructureLines(cn, an, ez, base), BeforeParams(cn, an, base), ParamsLine(base),
               AfterParams(cn, an, ez, base), {Name, Params, AnalysisCategory, Description, RequiredColumns},
               ListRule(RequiredParams));
  }

  /** No line after `@required_params` assigns it again. */
  lemma ParamsTailInert(cn: string, an: string, ez: string, base: AppStructure)
    requires NamesFit(cn, an, ez) && BaseFit(base)
    ensures Inert(Attempt(ListRule(RequiredParams)), Render(AfterParams(cn, an, ez, base)))
  {
    var T := AllVars - {RequiredParams};
    assert Lead(ListRule(RequiredParams)) == "@" + Ident(RequiredParams);
    AfterParamsCalm(cn, an, ez, base, T);
    LinesInert(ListRule(RequiredParams), RequiredParams, AfterParams(cn, an, ez, base), T);
  }

  lemma ModulesAt(cn: string, an: string, ez: string, base: AppStructure)
    requires NamesFit(cn, an, ez) && BaseFit(base)
    ensures Alone(StructureLines(cn, an, ez, base), ModulesLine(base),
                  {Name, Params, AnalysisCategory, Description, RequiredColumns, RequiredParams}, ListRule(Modules))
  {
    SplitModules(cn, an, ez, base);
    BeforeModulesTidy(cn, an, base);
    ModulesTailInert(cn, ez, base);
    PlaceAlone(StructureLines(cn, an, ez, base), BeforeModules(cn, an, base), ModulesLine(base),
               AfterModules(cn, ez, base), {Name, Params, AnalysisCategory, Description, RequiredColumns, RequiredParams},
               ListRule(Modules));
  }

  /** No line after `@modules` assigns it again. */
  lemma ModulesTailInert(cn: string, ez: string, base: AppStructure)
    requires Tame(cn) && Tame(ez) && BaseFit(base)
    ensures Inert(Attempt(ListRule(Modules)), Render(AfterModules(cn, ez, base)))
  {
    var T := AllVars - {Modules};
    assert Lead(ListRule(Modules)) == "@" + Ident(Modules);
    AfterModulesCalm(cn, ez, base, T);
    LinesInert(ListRule(Modules), Modules, AfterModules(cn, ez, base), T);
  }

  lemma InheritAt(cn: string, an: string, ez: string, base: AppStructure)
    requires NamesFit(cn, an, ez) && BaseFit(base)
    ensures Alone(StructureLines(cn, an, ez, base), InheritLine(base),
                  {Name, Params, AnalysisCategory, Description, RequiredColumns, RequiredParams, Modules},
                  ListRule(InheritColumns))
  {
    Shape(cn, an, ez, base);
    BeforeInheritTidy(cn, an, base);
    EndingInert(cn, ez);
    PlaceAlone(StructureLines(cn, an, ez, base), BeforeInherit(cn, an, base), InheritLine(base), Ending(cn, ez),
               {Name, Params, AnalysisCategory, Description, RequiredColumns, RequiredParams, Modules},
               ListRule(InheritColumns));
  }

  /** Everything before the `run_RApp` call: the head, `initialize` and the first
      three methods. */
  function BeforeCall(cn: string, an: string, base: AppStructure): seq<Line> {
    StructureHead(cn, base) + Method("initialize", StructureInit(an, base)) + StructureBefore
  }

  lemma BeforeCallTidy(cn: string, an: string, base: AppStructure)
    requires Tame(cn) && Tame(an) && BaseFit(base)
    ensures TidyLines(BeforeCall(cn, an, base), AllVars)
  {
    var hm := StructureHead(cn, base) + Method("initialize", StructureInit(an, base));
    HeadTidy(cn, an, base, AllVars);
    StructureBeforeTidy(AllVars);
    TidyJoin(hm, StructureBefore, AllVars);
  }

  lemma CallRegroup(h: seq<Line>, b: seq<Line>, c: Line, cl: seq<Line>, g: Line, u: seq<Line>)
    ensures h + (b + [c] + cl) + [g] + u == Around(h + b, c, cl + [g] + u)
  {
  }

  lemma SplitCall(cn: string, an: string, ez: string, base: AppStructure)
    ensures StructureLines(cn, an, ez, base)
            == Around(BeforeCall(cn, an, base), CommandsLine(ez), Closing + [Gap] + Usecase(cn))
  {
    var hm := StructureHead(cn, base) + Method("initialize", StructureInit(an, base));
    StructureMethodsSplit(ez);
    CallRegroup(hm, StructureBefore, CommandsLine(ez), Closing, Gap, Usecase(cn));
  }

  lemma CallAt(cn: string, an: string, ez: string, base: AppStructure)
    requires NamesFit(cn, an, ez) && BaseFit(base)
    ensures Follows(StructureLines(cn, an, ez, base), CommandsLine(ez), AllVars)
  {
    SplitCall(cn, an, ez, base);
    BeforeCallTidy(cn, an, base);
    PlaceFollows(StructureLines(cn, an, ez, base), BeforeCall(cn, an, base), CommandsLine(ez),
                 Closing + [Gap] + Usecase(cn), AllVars);
  }

  // ---- reading one field from any file that holds its line ----

  lemma ModeFrom(ls: seq<Line>, base: AppStructure)
    requires Follows(ls, ModeLine(Mode(base)), {Name}) && BaseFit(base)
    ensures Scalar(ProcessModeRule, Render(ls)) == Some(ProcessModeOf(base))
  {
    assert Mode(base) == "'" + ProcessModeOf(base) + "'" + "";
    ModeFit(base);
    ModeRead(ls, ProcessModeOf(base), "", {Name});
  }

  lemma CategoryFrom(ls: seq<Line>, base: AppStructure)
    requires Follows(ls, CategoryLine(CategoryOf(base)), {Name, Params}) && BaseFit(base)
    ensures Scalar(ScalarRule(AnalysisCategory), Render(ls)) == Some(CategoryOf(base))
  {
    CategoryFit(base);
    CategoryRead(ls, CategoryOf(base), {Name, Params});
  }

  lemma ColumnsFrom(ls: seq<Line>, base: AppStructure)
    requires Alone(ls, ColumnsLine(base), {Name, Params, AnalysisCategory, Description}, ListRule(RequiredColumns))
    requires AllElements(base.requiredColumns)
    ensures Elements(RequiredColumns, Render(ls)) == base.requiredColumns
  {
    ListRead(ls, RequiredColumns, base.requiredColumns, {Name, Params, AnalysisCategory, Description});
  }

  lemma ParamsFrom(ls: seq<Line>, base: AppStructure)
    requires Alone(ls, ParamsLine(base), {Name, Params, AnalysisCategory, Description, RequiredColumns},
                   ListRule(RequiredParams))
    requires AllElements(base.requiredParams)
    ensures Elements(RequiredParams, Render(ls)) == base.requiredParams
  {
    var S := {Name, Params, AnalysisCategory, Description, RequiredColumns};
    assert ParamsLine(base) == ListLine(RequiredParams, QuotedList(base.requiredParams));
    ListRead(ls, RequiredParams, base.requiredParams, S);
  }

  lemma ModulesFrom(ls: seq<Line>, base: AppStructure)
    requires Alone(ls, ModulesLine(base), {Name, Params, AnalysisCategory, Description, RequiredColumns, RequiredParams},
                   ListRule(Modules))
    requires AllElements(base.modules)
    ensures Elements(Modules, Render(ls)) == if base.modules == [] then ["Dev/R"] else base.modules
  {
    var S := {Name, Params, AnalysisCategory, Description, RequiredColumns, RequiredParams};
    if base.modules == [] {
      assert Follows(ls, ListLine(Modules, "['Dev/R']"), S);
      DevRead(ls, S);
    } else {
      ListRead(ls, Modules, base.modules, S);
    }
  }

  lemma InheritFrom(ls: seq<Line>, base: AppStructure)
    requires Alone(ls, InheritLine(base),
                   {Name, Params, AnalysisCategory, Description, RequiredColumns, RequiredParams, Modules},
                   ListRule(InheritColumns))
    requires AllElements(base.inheritColumns)
    ensures Elements(InheritColumns, Render(ls)) == base.inheritColumns
  {
    var S := {Name, Params, AnalysisCategory, Description, RequiredColumns, RequiredParams, Modules};
    assert InheritLine(base) == ListLine(InheritColumns, QuotedList(base.inheritColumns));
    ListRead(ls, InheritColumns, base.inheritColumns, S);
  }

  // ---- each field, read back ----

  lemma NameBack(cn: string, an: string, ez: string, base: AppStructure)
    requires NamesFit(cn, an, ez) && BaseFit(base)
    ensures Scalar(ScalarRule(Name), StructureTemplate(cn, an, ez, base)) == Some(an)
  {
    NameAt(cn, an, ez, base);
    NameRead(StructureLines(cn, an, ez, base), an);
  }

  lemma ModeBack(cn: string, an: string, ez: string, base: AppStructure)
    requires NamesFit(cn, an, ez) && BaseFit(base)
    ensures Scalar(ProcessModeRule, StructureTemplate(cn, an, ez, base)) == Some(ProcessModeOf(base))
  {
    ModeAt(cn, an, ez, base);
    ModeFrom(StructureLines(cn, an, ez, base), base);
  }

  lemma CategoryBack(cn: string, an: string, ez: string, base: AppStructure)
    requires NamesFit(cn, an, ez) && BaseFit(base)
    ensures Scalar(ScalarRule(AnalysisCategory), StructureTemplate(cn, an, ez, base)) == Some(CategoryOf(base))
  {
    CategoryAt(cn, an, ez, base);
    CategoryFrom(StructureLines(cn, an, ez, base), base);
  }

  lemma ColumnsBack(cn: string, an: string, ez: string, base: AppStructure)
    requires NamesFit(cn, an, ez) && BaseFit(base)
    ensures Elements(RequiredColumns, StructureTemplate(cn, an, ez, base)) == base.requiredColumns
  {
    ColumnsAt(cn, an, ez, base);
    ColumnsFrom(StructureLines(cn, an, ez, base), base);
  }

  lemma ParamsBack(cn: string, an: string, ez: string, base: AppStructure)
    requires NamesFit(cn, an, ez) && BaseFit(base)
    ensures Elements(RequiredParams, StructureTemplate(cn, an, ez, base)) == base.requiredParams
  {
    ParamsAt(cn, an, ez, base);
    ParamsFrom(StructureLines(cn, an, ez, base), base);
  }

  lemma ModulesBack(cn: string, an: string, ez: string, base: AppStructure)
    requires NamesFit(cn, an, ez) && BaseFit(base)
    ensures Elements(Modules, StructureTemplate(cn, an, ez, base))
            == if base.modules == [] then ["Dev/R"] else base.modules
  {
    ModulesAt(cn, an, ez, base);
    ModulesFrom(StructureLines(cn, an, ez, base), base);
  }

  lemma InheritBack(cn: string, an: string, ez: string, base: AppStructure)
    requires NamesFit(cn, an, ez) && BaseFit(base)
    ensures Elements(InheritColumns, StructureTemplate(cn, an, ez, base)) == base.inheritColumns
  {
    InheritAt(cn, an, ez, base);
    InheritFrom(StructureLines(cn, an, ez, base), base);
  }

  lemma TagsBack(cn: string, an: string, ez: string, base: AppStructure)
    requires NamesFit(cn, an, ez) && BaseFit(base)
    ensures Elements(InheritTags, StructureTemplate(cn, an, ez, base)) == []
  {
    var T := AllVars - {InheritTags};
    WholeFacts(cn, an, ez, base, T);
    ElementsNone(InheritTags, StructureLines(cn, an, ez, base), T);
  }

  lemma MethodsBack(cn: string, an: string, ez: string, base: AppStructure)
    requires NamesFit(cn, an, ez) && BaseFit(base)
    ensures Methods(StructureTemplate(cn, an, ez, base))
            == ["initialize", "set_default_parameters", "preprocess", "next_dataset", "commands"]
  {
    WholeFacts(cn, an, ez, base, AllVars);
    MethodsOfLines(StructureLines(cn, an, ez, base));
    FiveNames();
  }

  lemma EzrunBack(cn: string, an: string, ez: string, base: AppStructure)
    requires NamesFit(cn, an, ez) && BaseFit(base)
    ensures Scalar(EzrunRule, StructureTemplate(cn, an, ez, base)) == Some(ez)
  {
    CallAt(cn, an, ez, base);
    EzrunRead(StructureLines(cn, an, ez, base), ez, AllVars);
  }

  // ---- the whole record ----

  /** The fields the extractor reads from a file whose text gives these readings. */
  lemma Collect(t: string, cn: string, path: string, an: string, ez: string, base: AppStructure)
    requires Scalar(ScalarRule(Name), t) == Some(an)
    requires Scalar(ProcessModeRule, t) == Some(ProcessModeOf(base))
    requires Scalar(ScalarRule(AnalysisCategory), t) == Some(CategoryOf(base))
    requires Elements(RequiredColumns, t) == base.requiredColumns
    requires Elements(RequiredParams, t) == base.requiredParams
    requires Elements(Modules, t) == if base.modules == [] then ["Dev/R"] else base.modules
    requires Elements(InheritColumns, t) == base.inheritColumns
    requires Elements(InheritTags, t) == []
    requires Scalar(EzrunRule, t) == Some(ez)
    requires Methods(t) == ["initialize", "set_default_parameters", "preprocess", "next_dataset", "commands"]
    ensures var r := ParseContent(t, cn, path);
            && r.name == Some(an) && r.className == cn && r.filePath == path
            && r.processMode == Some(ProcessModeOf(base)) && r.analysisCategory == Some(CategoryOf(base))
            && r.requiredColumns == base.requiredColumns && r.requiredParams == base.requiredParams
            && r.modules == (if base.modules == [] then ["Dev/R"] else base.modules)
            && r.inheritColumns == base.inheritColumns && r.inheritTags == []
            && r.ezrunApp == Some(ez)
            && r.methods == ["initialize", "set_default_parameters", "preprocess", "next_dataset", "commands"]
  {
  }

  /** Parsing the file `generate_template_from_structure` writes gives back the new name,
      the base's lists, its mode and category or their defaults, the R function and the
      five methods. */
  lemma StructureTemplateRoundTrip(cn: string, an: string, ez: string, base: AppStructure, path: string)
    requires NamesFit(cn, an, ez) && BaseFit(base)
    ensures var r := ParseContent(StructureTemplate(cn, an, ez, base), cn, path);
            && r.name == Some(an) && r.className == cn && r.filePath == path
            && r.processMode == Some(ProcessModeOf(base)) && r.analysisCategory == Some(CategoryOf(base))
            && r.requiredColumns == base.requiredColumns && r.requiredParams == base.requiredParams
            && r.modules == (if base.modules == [] then ["Dev/R"] else base.modules)
            && r.inheritColumns == base.inheritColumns && r.inheritTags == []
            && r.ezrunApp == Some(ez)
            && r.methods == ["initialize", "set_default_parameters", "preprocess", "next_dataset", "commands"]
  {
    NameBack(cn, an, ez, base);
    ModeBack(cn, an, ez, base);
    CategoryBack(cn, an, ez, base);
    ColumnsBack(cn, an, ez, base);
    ParamsBack(cn, an, ez, base);
    ModulesBack(cn, an, ez, base);
    InheritBack(cn, an, ez, base);
    TagsBack(cn, an, ez, base);
    EzrunBack(cn, an, ez, base);
    MethodsBack(cn, an, ez, base);
    Collect(StructureTemplate(cn, an, ez, base), cn, path, an, ez, base);
  }
}
