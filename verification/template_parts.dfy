/** Facts about the methods both templates end with: every line is calm, they scan to the
    four method names, the `run_RApp` call comes after tidy lines only, and in the template
    built from a structure the `extract_columns` line is the only other mention of
    `@inherit_columns`. */
module TemplateParts {
  import opened Chars
  import opened Text
  import opened Ivars
  import opened AppParser
  import opened Search
  import opened Rules
  import opened Reading
  import opened AppTemplate
  import opened Marks
  import opened Layout
  import opened LineShapes
  import opened TidyBlocks
  import opened Reparse
  import opened MethodScan

  function DefOf(name: string): Line {
    Line(2, [Def(name)])
  }

  /** The `end` of `commands` and the `end` of the class. */
  const Closing: seq<Line> := [End2, Fixed(0, "end")]

  /** The names of the four methods after `initialize`. */
  const LaterNames: seq<string> := ["set_default_parameters", "preprocess", "next_dataset", "commands"]

  /** `initialize`, then the four later methods. */
  lemma FiveNames()
    ensures ["initialize"] + LaterNames
            == ["initialize", "set_default_parameters", "preprocess", "next_dataset", "commands"]
  {
  }

  lemma SnakeNames()
    ensures Snake("initialize") && Snake("set_default_parameters") && Snake("preprocess")
    ensures Snake("next_dataset") && Snake("commands")
  {
  }

  lemma ClosingTidy(S: set<Var>)
    ensures TidyLines(Closing, S)
  {
    UsecaseText();
    FixedPlain(2, "end", 'R', S);
    FixedPlain(0, "end", 'R', S);
  }

  lemma ClosingNames()
    ensures DefNames(Closing) == []
  {
    OneNames(End2);
    OneNames(Fixed(0, "end"));
    DefNamesJoin([End2], [Fixed(0, "end")]);
    assert [End2] + [Fixed(0, "end")] == Closing;
  }

  lemma DefTidyLines(name: string, S: set<Var>)
    requires 0 < |name| && Snake(name)
    ensures TidyLines([DefOf(name)], S)
    ensures DefNames([DefOf(name)]) == [name]
  {
    DefTidy(2, name, S);
    OneNames(DefOf(name));
  }

  lemma GapNames()
    ensures DefNames([Gap]) == []
  {
    OneNames(Gap);
  }

  // ---- the `run_RApp` call ----

  lemma CommandsBody(ez: string)
    ensures Body(CommandsLine(ez).chunks) == "run_RApp('" + (ez + ("')" + ""))
  {
    var cs := CommandsLine(ez).chunks;
    assert Body(cs[2..]) == "')" + "" by { assert cs[2..][1..] == []; }
    assert Body(cs[1..]) == ez + Body(cs[2..]) by { assert cs[1..][1..] == cs[2..]; }
  }

  /** The call is calm and flat when the name of the R function is tame. */
  lemma CommandsShape(ez: string, S: set<Var>)
    requires Tame(ez)
    ensures CalmLines([CommandsLine(ez)], S) && ScannableLines([CommandsLine(ez)])
    ensures DefNames([CommandsLine(ez)]) == []
  {
    CommandsCalm(ez, S);
    CommandsFlat(ez);
    OneNames(CommandsLine(ez));
  }

  lemma CallText()
    ensures '@' !in "run_RApp('" && '@' !in "')" && '\n' !in "run_RApp('" && '\n' !in "')"
  {
  }

  lemma CommandsCalm(ez: string, S: set<Var>)
    requires Tame(ez)
    ensures CalmLine(CommandsLine(ez), S)
  {
    var l := CommandsLine(ez);
    CallText();
    assert forall j | 0 <= j < |l.chunks| :: Calm(l.chunks[j]) && MarksOf(l.chunks[j]) <= S;
  }

  lemma CommandsFlat(ez: string)
    requires Tame(ez)
    ensures Flat(CommandsLine(ez))
  {
    var l := CommandsLine(ez);
    CallText();
    CommandsBody(ez);
    var b := Body(l.chunks);
    assert b[0] == 'r';
    assert '\n' !in ez + ("')" + "");
  }

  // ---- generate_template_from_structure ----

  /** The methods of the template built from a structure, up to the `run_RApp` call. */
  const StructureBefore: seq<Line> :=
    [Gap] + Method("set_default_parameters", [DefaultsTodo])
    + [Gap] + Method("preprocess", [PreprocessTodo])
    + [Gap] + Method("next_dataset", DatasetBody)
    + [Gap] + [DefOf("commands")]

  lemma StructureMethodsSplit(ez: string)
    ensures StructureMethods(ez) == StructureBefore + [CommandsLine(ez)] + Closing
  {
  }

  lemma StructureBeforeTidy(S: set<Var>)
    requires ResultDir in S && Params in S && InheritColumns in S
    ensures TidyLines(StructureBefore, S)
    ensures DefNames(StructureBefore) == LaterNames
  {
    StructureBeforeParts();
    StructureBeforeJoin(S);
  }

  lemma StructureBeforeParts()
    ensures StructureBefore
            == ([Gap] + Method("set_default_parameters", [DefaultsTodo])) + ([Gap] + Method("preprocess", [PreprocessTodo]))
               + ([Gap] + Method("next_dataset", DatasetBody)) + ([Gap] + [DefOf("commands")])
  {
  }

  lemma StructureBeforeJoin(S: set<Var>)
    requires ResultDir in S && Params in S && InheritColumns in S
    ensures var x := ([Gap] + Method("set_default_parameters", [DefaultsTodo])) + ([Gap] + Method("preprocess", [PreprocessTodo]))
                     + ([Gap] + Method("next_dataset", DatasetBody)) + ([Gap] + [DefOf("commands")]);
            TidyLines(x, S) && DefNames(x) == LaterNames
  {
    var a := [Gap] + Method("set_default_parameters", [DefaultsTodo]);
    var b := [Gap] + Method("preprocess", [PreprocessTodo]);
    var c := [Gap] + Method("next_dataset", DatasetBody);
    var d := [Gap] + [DefOf("commands")];
    PlainMethod("set_default_parameters", [DefaultsTodo], S) by { SnakeNames(); CommentsPlain(S); Plain1(DefaultsTodo, S); }
    PlainMethod("preprocess", [PreprocessTodo], S) by { SnakeNames(); CommentsPlain(S); Plain1(PreprocessTodo, S); }
    PlainMethod("next_dataset", DatasetBody, S) by { SnakeNames(); DatasetBodyPlain(S); }
    GapCommands(S);
    FourMethods(a, b, c, d, S);
  }

  /** An empty line and `def commands`. */
  lemma GapCommands(S: set<Var>)
    ensures TidyLines([Gap] + [DefOf("commands")], S)
    ensures DefNames([Gap] + [DefOf("commands")]) == ["commands"]
  {
    SnakeNames();
    DefTidyLines("commands", S);
    AfterGap([DefOf("commands")], S);
  }

  /** An empty line and a method with a plain body. */
  lemma PlainMethod(name: string, body: seq<Line>, S: set<Var>)
    requires 0 < |name| && Snake(name) && PlainLines(body, S)
    ensures TidyLines([Gap] + Method(name, body), S)
    ensures DefNames([Gap] + Method(name, body)) == [name]
  {
    MethodTidy(name, body, S);
    PlainNames(body, S);
    MethodNames(name, body);
    AfterGap(Method(name, body), S);
  }

  /** An empty line, then lines. */
  lemma AfterGap(a: seq<Line>, S: set<Var>)
    requires TidyLines(a, S)
    ensures TidyLines([Gap] + a, S) && DefNames([Gap] + a) == DefNames(a)
  {
    GapTidy(0, S);
    GapNames();
    TidyJoin([Gap], a, S);
    DefNamesJoin([Gap], a);
  }

  /** Four methods. */
  lemma FourMethods(a: seq<Line>, b: seq<Line>, c: seq<Line>, d: seq<Line>, S: set<Var>)
    requires TidyLines(a, S) && TidyLines(b, S) && TidyLines(c, S) && TidyLines(d, S)
    requires DefNames(a) == [LaterNames[0]] && DefNames(b) == [LaterNames[1]]
    requires DefNames(c) == [LaterNames[2]] && DefNames(d) == [LaterNames[3]]
    ensures TidyLines(a + b + c + d, S)
    ensures DefNames(a + b + c + d) == LaterNames
  {
    TidyJoin(a, b, S);
    TidyJoin(a + b, c, S);
    TidyJoin(a + b + c, d, S);
    DefNamesJoin(a, b);
    DefNamesJoin(a + b, c);
    DefNamesJoin(a + b + c, d);
  }

  /** A tidy stretch, the call, and the closing lines. */
  lemma AroundCall(before: seq<Line>, ez: string, S: set<Var>)
    requires Tame(ez) && TidyLines(before, S) && DefNames(before) == LaterNames
    ensures CalmLines(before + [CommandsLine(ez)] + Closing, S)
    ensures ScannableLines(before + [CommandsLine(ez)] + Closing)
    ensures DefNames(before + [CommandsLine(ez)] + Closing) == LaterNames
  {
    var c := [CommandsLine(ez)];
    CommandsShape(ez, S);
    ClosingTidy(S);
    ClosingNames();
    TidyCalm(before, S);
    TidyCalm(Closing, S);
    CalmJoin(before, c, S);
    CalmJoin(before + c, Closing, S);
    TidyScannable(before, S);
    TidyScannable(Closing, S);
    ScannableJoin(before, c);
    ScannableJoin(before + c, Closing);
    DefNamesJoin(before, c);
    DefNamesJoin(before + c, Closing);
  }

  lemma StructureMethodsFacts(ez: string, S: set<Var>)
    requires Tame(ez) && ResultDir in S && Params in S && InheritColumns in S
    ensures CalmLines(StructureMethods(ez), S) && ScannableLines(StructureMethods(ez))
    ensures DefNames(StructureMethods(ez)) == LaterNames
  {
    StructureMethodsSplit(ez);
    StructureBeforeTidy(S);
    AroundCall(StructureBefore, ez, S);
  }

  /** The lines of the structure template's methods before the `extract_columns` line. */
  const MergeBefore: seq<Line> :=
    [Gap] + Method("set_default_parameters", [DefaultsTodo])
    + [Gap] + Method("preprocess", [PreprocessTodo])
    + [Gap] + [DefOf("next_dataset"), DirLine] + OutputHash

  function MergeAfter(ez: string): seq<Line> {
    [End2] + [Gap] + Method("commands", [CommandsLine(ez)]) + [Fixed(0, "end")]
  }

  lemma StructureMethodsMerge(ez: string)
    ensures StructureMethods(ez) == MergeBefore + [MergeLine] + MergeAfter(ez)
  {
  }

  const NoInherit: set<Var> := AllVars - {InheritColumns}

  lemma MergeBeforeCalm()
    ensures CalmLines(MergeBefore, NoInherit)
  {
    MergeBeforeParts();
    MergeBeforeJoin();
  }

  lemma MergeBeforeParts()
    ensures MergeBefore
            == ([Gap] + Method("set_default_parameters", [DefaultsTodo])) + ([Gap] + Method("preprocess", [PreprocessTodo]))
               + ([Gap] + [DefOf("next_dataset"), DirLine]) + OutputHash
  {
  }

  lemma MergeBeforeJoin()
    ensures CalmLines(([Gap] + Method("set_default_parameters", [DefaultsTodo])) + ([Gap] + Method("preprocess", [PreprocessTodo]))
                      + ([Gap] + [DefOf("next_dataset"), DirLine]) + OutputHash, NoInherit)
  {
    var S := NoInherit;
    var a := [Gap] + Method("set_default_parameters", [DefaultsTodo]);
    var b := [Gap] + Method("preprocess", [PreprocessTodo]);
    var c := [Gap] + [DefOf("next_dataset"), DirLine];
    PlainMethod("set_default_parameters", [DefaultsTodo], S) by { SnakeNames(); CommentsPlain(S); Plain1(DefaultsTodo, S); }
    PlainMethod("preprocess", [PreprocessTodo], S) by { SnakeNames(); CommentsPlain(S); Plain1(PreprocessTodo, S); }
    DatasetHead(S);
    AfterGap([DefOf("next_dataset"), DirLine], S);
    OutputHashPlain(S);
    TidyJoin(a, b, S);
    TidyJoin(a + b, c, S);
    TidyJoin(a + b + c, OutputHash, S);
    TidyCalm(a + b + c + OutputHash, S);
  }

  lemma DatasetHead(S: set<Var>)
    requires ResultDir in S && Params in S
    ensures TidyLines([DefOf("next_dataset"), DirLine], S)
  {
    SnakeNames();
    DefTidyLines("next_dataset", S);
    DirPlain(S);
    TidyJoin([DefOf("next_dataset")], [DirLine], S);
    assert [DefOf("next_dataset")] + [DirLine] == [DefOf("next_dataset"), DirLine];
  }

  lemma MergeAfterCalm(ez: string)
    requires Tame(ez)
    ensures CalmLines(MergeAfter(ez), NoInherit)
  {
    var S := NoInherit;
    UsecaseText();
    SnakeNames();
    FixedPlain(2, "end", 'R', S);
    FixedPlain(0, "end", 'R', S);
    GapPlain(0, S);
    DefTidyLines("commands", S);
    CommandsShape(ez, S);
    var m := Method("commands", [CommandsLine(ez)]);
    assert m == [DefOf("commands")] + [CommandsLine(ez)] + [End2];
    TidyCalm([DefOf("commands")], S);
    TidyCalm([End2], S);
    TidyCalm([End2] + [Gap], S);
    TidyCalm([Fixed(0, "end")], S);
    CalmJoin([DefOf("commands")], [CommandsLine(ez)], S);
    CalmJoin([DefOf("commands")] + [CommandsLine(ez)], [End2], S);
    CalmJoin([End2] + [Gap], m, S);
    CalmJoin([End2] + [Gap] + m, [Fixed(0, "end")], S);
  }

  /** The structure template's methods assign no `@inherit_columns`. */
  lemma StructureMethodsInert(ez: string)
    requires Tame(ez)
    ensures Inert(Attempt(ListRule(InheritColumns)), Render(StructureMethods(ez)))
  {
    var r := ListRule(InheritColumns);
    assert Lead(r) == "@" + Ident(InheritColumns);
    StructureMethodsMerge(ez);
    MergeBeforeCalm();
    MergeAfterCalm(ez);
    LinesInert(r, InheritColumns, MergeBefore, NoInherit);
    LinesInert(r, InheritColumns, MergeAfter(ez), NoInherit);
    MergeInert();
    RenderSplit(MergeBefore, MergeLine, MergeAfter(ez));
    InertJoin(Attempt(r), LineText(MergeLine), Render(MergeAfter(ez)));
    InertJoin(Attempt(r), Render(MergeBefore), LineText(MergeLine) + Render(MergeAfter(ez)));
  }

  // ---- generate_generic_template ----

  /** The methods of the generic template, up to the `run_RApp` call. */
  const GenericBefore: seq<Line> :=
    [Gap] + Method("set_default_parameters", DefaultsHint)
    + [Gap] + Method("preprocess", PreprocessHint)
    + [Gap] + Method("next_dataset", [DatasetHint] + DatasetBody)
    + [Gap] + [DefOf("commands"), CommandsHint]

  lemma GenericMethodsSplit(ez: string)
    ensures GenericMethods(ez) == GenericBefore + [CommandsLine(ez)] + Closing
  {
  }

  lemma GenericBeforeTidy(S: set<Var>)
    requires ResultDir in S && Params in S && InheritColumns in S
    ensures TidyLines(GenericBefore, S)
    ensures DefNames(GenericBefore) == LaterNames
  {
    GenericBeforeParts();
    GenericBeforeJoin(S);
  }

  lemma GenericBeforeParts()
    ensures GenericBefore
            == ([Gap] + Method("set_default_parameters", DefaultsHint)) + ([Gap] + Method("preprocess", PreprocessHint))
               + ([Gap] + Method("next_dataset", [DatasetHint] + DatasetBody)) + ([Gap] + [DefOf("commands"), CommandsHint])
  {
  }

  lemma GenericBeforeJoin(S: set<Var>)
    requires ResultDir in S && Params in S && InheritColumns in S
    ensures var x := ([Gap] + Method("set_default_parameters", DefaultsHint)) + ([Gap] + Method("preprocess", PreprocessHint))
                     + ([Gap] + Method("next_dataset", [DatasetHint] + DatasetBody)) + ([Gap] + [DefOf("commands"), CommandsHint]);
            TidyLines(x, S) && DefNames(x) == LaterNames
  {
    var a := [Gap] + Method("set_default_parameters", DefaultsHint);
    var b := [Gap] + Method("preprocess", PreprocessHint);
    var c := [Gap] + Method("next_dataset", [DatasetHint] + DatasetBody);
    var d := [Gap] + [DefOf("commands"), CommandsHint];
    PlainMethod("set_default_parameters", DefaultsHint, S) by { SnakeNames(); DefaultsHintPlain(S); }
    PlainMethod("preprocess", PreprocessHint, S) by { SnakeNames(); PreprocessHintPlain(S); }
    PlainMethod("next_dataset", [DatasetHint] + DatasetBody, S) by { SnakeNames(); DatasetPlain(S); }
    CommandsHead(S);
    AfterGap([DefOf("commands"), CommandsHint], S);
    FourMethods(a, b, c, d, S);
  }

  lemma DatasetPlain(S: set<Var>)
    requires ResultDir in S && Params in S && InheritColumns in S
    ensures PlainLines([DatasetHint] + DatasetBody, S)
  {
    CommentsPlain(S);
    DatasetBodyPlain(S);
    Plain1(DatasetHint, S);
    PlainJoin([DatasetHint], DatasetBody, S);
  }

  /** `def commands` and its comment. */
  lemma CommandsHead(S: set<Var>)
    ensures TidyLines([DefOf("commands"), CommandsHint], S)
    ensures DefNames([DefOf("commands"), CommandsHint]) == ["commands"]
  {
    SnakeNames();
    DefTidyLines("commands", S);
    CommentsPlain(S);
    Plain1(CommandsHint, S);
    OneNames(CommandsHint);
    TidyJoin([DefOf("commands")], [CommandsHint], S);
    DefNamesJoin([DefOf("commands")], [CommandsHint]);
    assert [DefOf("commands")] + [CommandsHint] == [DefOf("commands"), CommandsHint];
  }

  lemma GenericMethodsFacts(ez: string, S: set<Var>)
    requires Tame(ez) && ResultDir in S && Params in S && InheritColumns in S
    ensures CalmLines(GenericMethods(ez), S) && ScannableLines(GenericMethods(ez))
    ensures DefNames(GenericMethods(ez)) == LaterNames
  {
    GenericMethodsSplit(ez);
    GenericBeforeTidy(S);
    AroundCall(GenericBefore, ez, S);
  }

  /** The generic methods, up to the `merge` call of `next_dataset`. */
  const GenericMergeBefore: seq<Line> :=
    [Gap] + Method("set_default_parameters", DefaultsHint)
    + [Gap] + Method("preprocess", PreprocessHint)
    + [Gap] + [DefOf("next_dataset"), DatasetHint, DirLine] + OutputHash

  function GenericMergeAfter(ez: string): seq<Line> {
    [End2] + [Gap] + Method("commands", [CommandsHint] + [CommandsLine(ez)]) + [Fixed(0, "end")]
  }

  lemma GenericMethodsMerge(ez: string)
    ensures GenericMethods(ez) == GenericMergeBefore + [MergeLine] + GenericMergeAfter(ez)
  {
  }

  lemma GenericMergeBeforeCalm()
    ensures CalmLines(GenericMergeBefore, NoInherit)
  {
    GenericMergeBeforeParts();
    GenericMergeBeforeJoin();
  }

  lemma GenericMergeBeforeParts()
    ensures GenericMergeBefore
            == ([Gap] + Method("set_default_parameters", DefaultsHint)) + ([Gap] + Method("preprocess", PreprocessHint))
               + ([Gap] + [DefOf("next_dataset"), DatasetHint, DirLine]) + OutputHash
  {
  }

  lemma GenericMergeBeforeJoin()
    ensures CalmLines(([Gap] + Method("set_default_parameters", DefaultsHint)) + ([Gap] + Method("preprocess", PreprocessHint))
                      + ([Gap] + [DefOf("next_dataset"), DatasetHint, DirLine]) + OutputHash, NoInherit)
  {
    var S := NoInherit;
    var a := [Gap] + Method("set_default_parameters", DefaultsHint);
    var b := [Gap] + Method("preprocess", PreprocessHint);
    var c := [Gap] + [DefOf("next_dataset"), DatasetHint, DirLine];
    PlainMethod("set_default_parameters", DefaultsHint, S) by { SnakeNames(); DefaultsHintPlain(S); }
    PlainMethod("preprocess", PreprocessHint, S) by { SnakeNames(); PreprocessHintPlain(S); }
    GenericDatasetHead(S);
    AfterGap([DefOf("next_dataset"), DatasetHint, DirLine], S);
    OutputHashPlain(S);
    PlainTidy(OutputHash, S);
    TidyJoin(a, b, S);
    TidyJoin(a + b, c, S);
    TidyJoin(a + b + c, OutputHash, S);
    TidyCalm(a + b + c + OutputHash, S);
  }

  lemma GenericDatasetHead(S: set<Var>)
    requires ResultDir in S && Params in S
    ensures TidyLines([DefOf("next_dataset"), DatasetHint, DirLine], S)
  {
    SnakeNames();
    DefTidyLines("next_dataset", S);
    CommentsPlain(S);
    DirPlain(S);
    Plain1(DatasetHint, S);
    Plain1(DirLine, S);
    PlainJoin([DatasetHint], [DirLine], S);
    PlainTidy([DatasetHint] + [DirLine], S);
    TidyJoin([DefOf("next_dataset")], [DatasetHint] + [DirLine], S);
    assert [DefOf("next_dataset")] + ([DatasetHint] + [DirLine]) == [DefOf("next_dataset"), DatasetHint, DirLine];
  }

  lemma GenericMergeAfterCalm(ez: string)
    requires Tame(ez)
    ensures CalmLines(GenericMergeAfter(ez), NoInherit)
  {
    var S := NoInherit;
    var m := Method("commands", [CommandsHint] + [CommandsLine(ez)]);
    GenericCommandsCalm(ez);
    UsecaseText();
    FixedPlain(2, "end", 'R', S);
    FixedPlain(0, "end", 'R', S);
    GapPlain(0, S);
    TidyCalm([End2] + [Gap], S);
    TidyCalm([Fixed(0, "end")], S);
    CalmJoin([End2] + [Gap], m, S);
    CalmJoin([End2] + [Gap] + m, [Fixed(0, "end")], S);
  }

  /** `def commands`, its comment, the `run_RApp` call and `end`. */
  lemma GenericCommandsCalm(ez: string)
    requires Tame(ez)
    ensures CalmLines(Method("commands", [CommandsHint] + [CommandsLine(ez)]), NoInherit)
  {
    var S := NoInherit;
    var body := [CommandsHint] + [CommandsLine(ez)];
    UsecaseText();
    SnakeNames();
    FixedPlain(2, "end", 'R', S);
    CommentsPlain(S);
    Plain1(CommandsHint, S);
    PlainTidy([CommandsHint], S);
    TidyCalm([CommandsHint], S);
    CommandsShape(ez, S);
    CalmJoin([CommandsHint], [CommandsLine(ez)], S);
    DefTidyLines("commands", S);
    TidyCalm([DefOf("commands")], S);
    TidyCalm([End2], S);
    CalmJoin([DefOf("commands")], body, S);
    CalmJoin([DefOf("commands")] + body, [End2], S);
  }

  /** The generic template's methods assign no `@inherit_columns`. */
  lemma GenericMethodsInert(ez: string)
    requires Tame(ez)
    ensures Inert(Attempt(ListRule(InheritColumns)), Render(GenericMethods(ez)))
  {
    var r := ListRule(InheritColumns);
    assert Lead(r) == "@" + Ident(InheritColumns);
    GenericMethodsMerge(ez);
    GenericMergeBeforeCalm();
    GenericMergeAfterCalm(ez);
    LinesInert(r, InheritColumns, GenericMergeBefore, NoInherit);
    LinesInert(r, InheritColumns, GenericMergeAfter(ez), NoInherit);
    MergeInert();
    RenderSplit(GenericMergeBefore, MergeLine, GenericMergeAfter(ez));
    InertJoin(Attempt(r), LineText(MergeLine), Render(GenericMergeAfter(ez)));
    InertJoin(Attempt(r), Render(GenericMergeBefore), LineText(MergeLine) + Render(GenericMergeAfter(ez)));
  }
}
