/** The app template generator: the new app's names derived from the requested name, the
    rendering of the base app's lists and fallbacks, and the two templates, generic and
    based on a parsed app.

    A template is a sequence of lines, each an indentation and a list of chunks: fixed text,
    interpolated text, an instance variable, a `@params[...]` form, or a `def`. The lines are
    those of the squiggly heredoc after Ruby removes its common four-space indentation. */
module AppTemplate {
  import opened Chars
  import opened Text
  import opened Optional
  import opened Ivars
  import opened AppParser

  /** A piece of a template line: `Code` is text as it stands, `At` an instance variable,
      `Assign` a parameter assignment, `Tagged` the assignment of a parameter's metadata,
      `Ref` a parameter read and `Def` a method header (`ChunkText` gives each one's text). */
  datatype Chunk =
    | Code(s: string)
    | At(v: Var)
    | Assign(key: string, value: string)
    | Tagged(key: string, tag: string, value: string)
    | Ref(key: string)
    | Def(name: string)

  function ChunkText(c: Chunk): string {
    match c
    case Code(s) => s
    case At(v) => "@" + Ident(v)
    case Assign(key, value) => "@params['" + key + "'] = " + value
    case Tagged(key, tag, value) => "@params['" + key + "', '" + tag + "'] = " + value
    case Ref(key) => "@params['" + key + "']"
    case Def(name) => "def " + name
  }

  function Body(cs: seq<Chunk>): string {
    if |cs| == 0 then "" else ChunkText(cs[0]) + Body(cs[1..])
  }

  datatype Line = Line(indent: nat, chunks: seq<Chunk>)

  function Indent(n: nat): (s: string)
    ensures |s| == n && forall i | 0 <= i < n :: s[i] == ' '
  {
    if n == 0 then "" else " " + Indent(n - 1)
  }

  function LineText(l: Line): string {
    Indent(l.indent) + Body(l.chunks) + "\n"
  }

  /** The text of a template: its lines, each ended by a line feed. */
  function Render(ls: seq<Line>): string {
    if |ls| == 0 then "" else LineText(ls[0]) + Render(ls[1..])
  }

  lemma {:induction false} RenderJoin(a: seq<Line>, b: seq<Line>)
    ensures Render(a + b) == Render(a) + Render(b)
    decreases |a|
  {
    if |a| == 0 {
      assert a + b == b;
    } else {
      assert (a + b)[1..] == a[1..] + b;
      RenderJoin(a[1..], b);
    }
  }

  /** A line of fixed text. */
  function Fixed(indent: nat, s: string): Line {
    Line(indent, [Code(s)])
  }

  /** An empty line. */
  const Gap: Line := Line(0, [])

  /** `"abc".gsub(/App$/i, '')`: every `App`, in any case, that ends a line (or the string) is
      removed, scanning from the left. */
  function StripAppSuffix(s: string): (r: string)
    ensures |r| <= |s|
  {
    if |s| == 0 then ""
    else if 3 <= |s| && SameLetter(s[0], 'a') && SameLetter(s[1], 'p') && SameLetter(s[2], 'p')
            && (|s| == 3 || s[3] == '\n') then
      StripAppSuffix(s[3..])
    else [s[0]] + StripAppSuffix(s[1..])
  }

  /** `"#{name}App"`. */
  function ClassName(stem: string): string {
    stem + "App"
  }

  /** `"EzApp#{name}"`. */
  function EzrunName(stem: string): string {
    "EzApp" + stem
  }

  /** `list.map { |x| "'#{x}'" }.join(', ')`. */
  function QuotedList(xs: seq<string>): (r: string)
    ensures xs == [] <==> r == ""
  {
    if |xs| == 0 then ""
    else if |xs| == 1 then "'" + xs[0] + "'"
    else "'" + xs[0] + "', " + QuotedList(xs[1..])
  }

  /** `modules_str`: the base's modules, or the literal `['Dev/R']` when it has none. */
  function ModulesText(modules: seq<string>): (r: string)
    ensures modules == [] ==> r == "['Dev/R']"
    ensures modules != [] ==> r == QuotedList(modules)
    ensures r != ""
  {
    if modules == [] then "['Dev/R']" else QuotedList(modules)
  }

  /** `base.description&.lines&.first&.strip || 'N/A'`: the first line of the description,
      stripped; `N/A` when there is no description or it is empty. A first line of blanks
      gives the empty string, which Ruby does not replace. */
  function DescriptionLine(d: Option<string>): (r: string)
    ensures d.None? || d == Some("") ==> r == "N/A"
    ensures d.Some? && d.value != "" ==> r == Strip(FirstLine(d.value).value) && LeadSlice(d.value, r)
    ensures '\n' !in r
  {
    match d
    case None => "N/A"
    case Some(s) =>
      match FirstLine(s)
      case None => "N/A"
      case Some(first) =>
        StripFirstLine(s, first);
        Strip(first)
  }

  /** `r` sits in `s` after nothing but whitespace. */
  ghost predicate LeadSlice(s: string, r: string)
  {
    exists a | 0 <= a <= |s| - |r| :: s[a..a + |r|] == r && AllStripSpace(s[..a])
  }

  /** The stripped first line is one line: a slice of the text after nothing but
      whitespace. */
  lemma StripFirstLine(s: string, first: string)
    requires FirstLine(s) == Some(first)
    ensures '\n' !in Strip(first) && LeadSlice(s, Strip(first))
  {
    StripOneLine(first);
    var a := StripSlice(s, first);
  }

  /** Stripping a text whose only line feed can be its last character leaves none. */
  lemma StripOneLine(first: string)
    requires 0 < |first| && '\n' !in first[..|first| - 1]
    ensures '\n' !in Strip(first)
  {
    var r := Strip(first);
    var a :| 0 <= a <= |first| && Framed(first, a, r);
    assert IsStripSpace('\n');
    SliceNoFeed(first, a, r);
  }

  /** A slice of `first` whose last character is no line feed has none, when `first`
      has none before its end. */
  lemma SliceNoFeed(first: string, a: nat, r: string)
    requires a + |r| <= |first| && first[a..a + |r|] == r
    requires 0 < |first| && '\n' !in first[..|first| - 1]
    requires 0 < |r| ==> r[|r| - 1] != '\n'
    ensures '\n' !in r
  {
    forall k | 0 <= k < |r| - 1 ensures r[k] != '\n' {
      assert r[k] == first[a + k];
      assert first[a + k] == first[..|first| - 1][a + k];
    }
  }

  lemma StripSlice(s: string, first: string) returns (a: nat)
    requires first <= s
    ensures a + |Strip(first)| <= |s|
    ensures s[a..a + |Strip(first)|] == Strip(first) && AllStripSpace(s[..a])
  {
    var r := Strip(first);
    a :| 0 <= a <= |first| && Framed(first, a, r);
    assert s[a..a + |r|] == r by {
      PrefixSlice(first, s, a, a + |r|);
    }
    assert AllStripSpace(s[..a]) by {
      PrefixSlice(first, s, 0, a);
      assert s[0..a] == s[..a] && first[0..a] == first[..a];
    }
  }

  lemma PrefixSlice(first: string, s: string, i: nat, j: nat)
    requires first <= s && i <= j <= |first|
    ensures s[i..j] == first[i..j]
  {
  }

  /** `base.process_mode || 'DATASET'`. */
  function ProcessModeOf(base: AppStructure): (m: string)
    ensures base.processMode.Some? ==> m == base.processMode.value
    ensures base.processMode.None? ==> m == "DATASET"
  {
    base.processMode.GetOr("DATASET")
  }

  /** `base.analysis_category || 'Other'`. */
  function CategoryOf(base: AppStructure): (c: string)
    ensures base.analysisCategory.Some? ==> c == base.analysisCategory.value
    ensures base.analysisCategory.None? ==> c == "Other"
  {
    base.analysisCategory.GetOr("Other")
  }

  /** `base.params['cores'] || '[8, 1, 2, 4, 8]'`. */
  function CoresOf(base: AppStructure): (v: string)
    ensures "cores" in Keys(base.params) ==> v == Lookup(base.params, "cores").value
    ensures "cores" !in Keys(base.params) ==> v == "[8, 1, 2, 4, 8]"
  {
    Lookup(base.params, "cores").GetOr("[8, 1, 2, 4, 8]")
  }

  /** `base.params['ram'] || '[30, 15, 62]'`. */
  function RamOf(base: AppStructure): (v: string)
    ensures "ram" in Keys(base.params) ==> v == Lookup(base.params, "ram").value
    ensures "ram" !in Keys(base.params) ==> v == "[30, 15, 62]"
  {
    Lookup(base.params, "ram").GetOr("[30, 15, 62]")
  }

  /** `base.params['scratch'] || '[100, 50, 200]'`. */
  function ScratchOf(base: AppStructure): (v: string)
    ensures "scratch" in Keys(base.params) ==> v == Lookup(base.params, "scratch").value
    ensures "scratch" !in Keys(base.params) ==> v == "[100, 50, 200]"
  {
    Lookup(base.params, "scratch").GetOr("[100, 50, 200]")
  }

  // ---- Lines both templates share ----

  const ScriptHead: string := "#!/usr/bin/env ruby\n# encoding: utf-8\n"

  /** A Ruby script as the generator writes it: the interpreter line and the encoding
      comment first, and a line feed after every line, the last included. */
  predicate Script(t: string) {
    ScriptHead <= t && 0 < |t| && t[|t| - 1] == '\n'
  }

  /** `#!/usr/bin/env ruby` and `# encoding: utf-8`. */
  const Shebang: seq<Line> := [Fixed(0, "#!/usr/bin/env ruby"), Fixed(0, "# encoding: utf-8")]

  lemma FixedText(s: string)
    ensures LineText(Fixed(0, s)) == s + "\n"
  {
    assert Body([Code(s)]) == s + Body([]);
  }

  lemma ShebangRender()
    ensures Render(Shebang) == ScriptHead
  {
    FixedText("#!/usr/bin/env ruby");
    FixedText("# encoding: utf-8");
    assert Shebang[1..][1..] == [];
  }

  lemma PrefixCat(a: string, b: string, c: string)
    ensures a + b <= a + (b + c)
  {
    assert (a + (b + c))[..|a + b|] == a + b;
  }

  /** A template that opens with `Shebang` renders to text that opens with its two lines and
      ends in a line feed. */
  lemma RenderOpens(rest: seq<Line>)
    ensures Script(Render(Shebang + rest))
  {
    RenderJoin(Shebang, rest);
    ShebangRender();
    PrefixCat(ScriptHead, "", Render(rest));
    assert ScriptHead + "" == ScriptHead;
    RenderEnds(Shebang + rest);
  }

  /** The last line of a rendered template ends in a line feed. */
  lemma {:induction false} RenderEnds(ls: seq<Line>)
    requires 0 < |ls|
    ensures var t := Render(ls); 0 < |t| && t[|t| - 1] == '\n'
    decreases |ls|
  {
    if 1 < |ls| {
      RenderEnds(ls[1..]);
    }
  }

  /** `# Based on: <class>` as the first line after the shebang. */
  lemma BasedText(cn: string, rest: seq<Line>)
    ensures ScriptHead + "# Based on: " + cn + "\n" <= Render(Shebang + ([Line(0, [Code("# Based on: "), Code(cn)])] + rest))
  {
    var based := Line(0, [Code("# Based on: "), Code(cn)]);
    var b := "# Based on: " + cn + "\n";
    RenderJoin(Shebang, [based] + rest);
    ShebangRender();
    BasedRender(cn, rest);
    PrefixCat(ScriptHead, b, Render(rest));
    Assoc4(ScriptHead, "# Based on: ", cn, "\n");
  }

  lemma BasedRender(cn: string, rest: seq<Line>)
    ensures Render([Line(0, [Code("# Based on: "), Code(cn)])] + rest) == "# Based on: " + cn + "\n" + Render(rest)
  {
    RenderFirst(Line(0, [Code("# Based on: "), Code(cn)]), rest);
    TwoCodes("# Based on: ", cn);
  }

  lemma RenderFirst(l: Line, rest: seq<Line>)
    ensures Render([l] + rest) == LineText(l) + Render(rest)
  {
    assert ([l] + rest)[0] == l && ([l] + rest)[1..] == rest;
  }

  lemma TwoCodes(a: string, b: string)
    ensures LineText(Line(0, [Code(a), Code(b)])) == a + b + "\n"
  {
    assert [Code(a), Code(b)][1..] == [Code(b)];
    assert Body([Code(b)]) == b + Body([]);
  }

  lemma LinesAssoc6(a: seq<Line>, b: seq<Line>, c: seq<Line>, d: seq<Line>, e: seq<Line>, f: seq<Line>)
    ensures a + b + c + d + e + f == a + (b + c + d + e + f)
  {
  }

  lemma LinesAssoc8(a: seq<Line>, b: seq<Line>, c: seq<Line>, d: seq<Line>, e: seq<Line>, f: seq<Line>,
                    g: seq<Line>, h: seq<Line>)
    ensures a + b + c + d + e + f + g + h == a + (b + (c + d + e + f + g + h))
  {
  }

  lemma Assoc4(a: string, b: string, c: string, d: string)
    ensures a + b + c + d == a + (b + c + d)
  {
  }

  /** The three `require`/`include` lines between empty lines. */
  const Requires: seq<Line> :=
    [Gap, Fixed(0, "require 'sushi_fabric'"), Fixed(0, "require_relative 'global_variables'"),
     Fixed(0, "include GlobalVariables"), Gap]

  function ClassLine(className: string): Line {
    Line(0, [Code("class "), Code(className), Code(" < SushiFabric::SushiApp")])
  }

  /** `@v = 'x'`. */
  function ScalarLine(v: Var, x: string): Line {
    Line(4, [At(v), Code(" = '"), Code(x), Code("'")])
  }

  function NameLine(appName: string): Line {
    ScalarLine(Name, appName)
  }

  function CategoryLine(category: string): Line {
    ScalarLine(AnalysisCategory, category)
  }

  /** `@params['process_mode'] = value`. */
  function ModeLine(value: string): Line {
    Line(4, [Assign("process_mode", value)])
  }

  const HeredocLine: Line := Line(4, [At(Description), Code(" = <<-EOS")])

  const EosLine: Line := Fixed(0, "EOS")

  function ListLine(v: Var, items: string): Line {
    Line(4, [At(v), Code(" = ["), Code(items), Code("]")])
  }

  /** `@params['key'] = value`, then its metadata: the unit, when it has one, and the
      scheduler it is meant for. */
  function Resource(key: string, value: string, inGB: bool): seq<Line> {
    [Line(4, [Assign(key, value)])]
    + (if inGB then [Line(4, [Tagged(key, "description", "'GB'")])] else [])
    + [Line(4, [Tagged(key, "context", "'slurm'")])]
  }

  /** The `@params` lines that give the cores, memory and scratch space and their metadata. */
  function Resources(cores: string, ram: string, scratch: string): seq<Line> {
    Resource("cores", cores, false) + Resource("ram", ram, true) + Resource("scratch", scratch, true)
  }

  /** `@params['name'] = '<app>_Result'` and `@params['mail'] = ''`. */
  function ResultParams(appName: string): seq<Line> {
    [Line(4, [Assign("name", "'" + appName + "_Result'")]), Line(4, [Assign("mail", "''")])]
  }

  const End2: Line := Fixed(2, "end")

  /** `def name`, its body, and `end`. */
  function Method(name: string, body: seq<Line>): seq<Line> {
    [Line(2, [Def(name)])] + body + [End2]
  }

  /** `@description = <<-EOS`, the lines of the description, and `EOS`. */
  function Heredoc(body: seq<Line>): seq<Line> {
    [HeredocLine] + body + [EosLine]
  }

  /** The first lines of `initialize`: `super`, the name, the process mode and the category. */
  function InitTop(appName: string, mode: string, category: string): seq<Line> {
    [Fixed(4, "super")] + [NameLine(appName)] + [ModeLine(mode)] + [CategoryLine(category)]
  }

  /** `report_dir = File.join(@result_dir, @params['name'])`. */
  const DirLine: Line :=
    Line(4, [Code("report_dir = File.join("), At(ResultDir), Code(", "), Ref("name"), Code(")")])

  /** The hash `next_dataset` builds, between its braces. */
  const OutputHash: seq<Line> :=
    [Fixed(4, "{"),
     Line(6, [Code("'Name' => "), Ref("name"), Code(",")]),
     Line(6, [Code("'Report [Link]' => "), Code("File.join(report_dir, "), Code("'00index.html'),")]),
     Line(6, [Code("'Result [File]' => "), Code("report_dir")])]

  /** `}.merge(extract_columns(colnames: @inherit_columns))`. */
  const MergeLine: Line :=
    Line(4, [Code("}.merge(extract_columns("), Code("colnames: "), At(InheritColumns), Code("))")])

  /** The body of `next_dataset` after its comment line. */
  const DatasetBody: seq<Line> := [DirLine] + OutputHash + [MergeLine]

  function CommandsLine(ezrunName: string): Line {
    Line(4, [Code("run_RApp('"), Code(ezrunName), Code("')")])
  }

  /** The lines that set up the use case's project, user and dataset. */
  const UsecaseSetup: seq<Line> :=
    [Fixed(2, "usecase.project = 'p1001'"),
     Fixed(2, "usecase.user = 'developer'"),
     Line(2, [Code("usecase.dataset_tsv_file = "), Code("'input_dataset.tsv'")]),
     Fixed(2, "# usecase.run")]

  /** The `if __FILE__ == $0` block. */
  function Usecase(className: string): seq<Line> {
    [Fixed(0, "if __FILE__ == $0"), Line(2, [Code("usecase = "), Code(className), Code(".new")])]
    + UsecaseSetup
    + [Fixed(0, "end")]
  }

  // ---- generate_generic_template ----

  function GenericHead(className: string): seq<Line> {
    Shebang + Requires + [ClassLine(className)]
  }

  /** `@params['process_mode'] = 'DATASET'` and its comment. */
  const GenericMode: string := "'DATASET'  # or 'SAMPLE'" + " for per-sample processing"

  const GenericDescription: seq<Line> :=
    [Line(0, [Code("Description of what "), Code("this app does.<br/>")]),
     Line(0, [Code("Add links to "), Code("documentation if available.")])]

  /** The required columns and parameters. */
  const GenericRequired: seq<Line> :=
    [Gap, Line(4, [Code("# Required input columns "), Code("from dataset")])]
    + [ListLine(RequiredColumns, "'Name', 'Read1'")]
    + [Line(4, []), Line(4, [Code("# Required parameters "), Code("that must be set")])]
    + [ListLine(RequiredParams, "'name'")]
    + [Gap, Fixed(4, "# Computational resources")]

  /** The app's own parameters, modules and inherited columns and tags. */
  function GenericRest(appName: string): seq<Line> {
    [Gap, Fixed(4, "# App-specific parameters")]
    + ResultParams(appName)
    + [Gap, Fixed(4, "# Environment modules to load")] + [ListLine(Modules, "'Dev/R'")]
    + [Gap, Line(4, [Code("# Columns/tags to inherit "), Code("from input dataset")])]
    + [ListLine(InheritColumns, "'Order Id'")] + [ListLine(InheritTags, "'Factor', 'B-Fabric'")]
  }

  /** The body of `initialize`. */
  function GenericInit(appName: string, category: string): seq<Line> {
    InitTop(appName, GenericMode, category) + Heredoc(GenericDescription) + GenericRequired
    + Resources("[8, 1, 2, 4, 8, 16]", "[30, 15, 62]", "[100, 50, 200]")
    + GenericRest(appName)
  }

  /** The comments in the generic `set_default_parameters`. */
  const DefaultsHint: seq<Line> :=
    [Line(4, [Code("# Set defaults based "), Code("on input dataset")]),
     Line(4, [Code("# Example: "), Assign("paired", "dataset_has_column?('Read2')")])]

  /** The comments in the generic `preprocess`. */
  const PreprocessHint: seq<Line> :=
    [Line(4, [Code("# Modify state before "), Code("job submission")]),
     Line(4, [Code("# Example: add Read2 "), Code("to required columns if paired")])]

  const DatasetHint: Line := Line(4, [Code("# Define output dataset "), Code("structure")])

  const CommandsHint: Line := Line(4, [Code("# Return the R command "), Code("to execute")])

  /** The four methods after `initialize`, and the end of the class. */
  function GenericMethods(ezrunName: string): seq<Line> {
    [Gap] + Method("set_default_parameters", DefaultsHint)
    + [Gap] + Method("preprocess", PreprocessHint)
    + [Gap] + Method("next_dataset", [DatasetHint] + DatasetBody)
    + [Gap] + Method("commands", [CommandsHint] + [CommandsLine(ezrunName)])
    + [Fixed(0, "end")]
  }

  function GenericCli(className: string): seq<Line> {
    [Gap, Fixed(0, "# For CLI testing:")] + Usecase(className)
  }

  /** `generate_generic_template(class_name, app_name, ezrun_name, category)`, as lines. */
  function GenericLines(className: string, appName: string, ezrunName: string, category: string): seq<Line> {
    GenericHead(className) + Method("initialize", GenericInit(appName, category))
    + GenericMethods(ezrunName) + GenericCli(className)
  }

  /** The generic template is a Ruby script: it opens with the interpreter line and the
      encoding comment, and every line, the last included, ends in a line feed. */
  function GenericTemplate(className: string, appName: string, ezrunName: string, category: string): (t: string)
    ensures Script(t)
  {
    GenericOpens(className, appName, ezrunName, category);
    Render(GenericLines(className, appName, ezrunName, category))
  }

  lemma GenericOpens(className: string, appName: string, ezrunName: string, category: string)
    ensures Script(Render(GenericLines(className, appName, ezrunName, category)))
  {
    var init := Method("initialize", GenericInit(appName, category));
    var rest := Requires + [ClassLine(className)] + init + GenericMethods(ezrunName) + GenericCli(className);
    assert GenericLines(className, appName, ezrunName, category) == Shebang + rest by {
      LinesAssoc6(Shebang, Requires, [ClassLine(className)], init, GenericMethods(ezrunName), GenericCli(className));
    }
    RenderOpens(rest);
  }

  // ---- generate_template_from_structure ----

  function StructureHead(className: string, base: AppStructure): seq<Line> {
    Shebang + [Line(0, [Code("# Based on: "), Code(base.className)])] + Requires + [ClassLine(className)]
  }

  function StructureDescription(appName: string, base: AppStructure): seq<Line> {
    [Line(0, [Code("TODO: Add description for "), Code(appName)]),
     Line(0, [Code("Based on "), Code(base.className), Code(": "), Code(DescriptionLine(base.description))])]
  }

  function StructureRequired(base: AppStructure): seq<Line> {
    [Gap] + [ListLine(RequiredColumns, QuotedList(base.requiredColumns))]
    + [ListLine(RequiredParams, QuotedList(base.requiredParams))]
    + [Gap, Line(4, [Code("# Computational resources (from "), Code(base.className), Code(")")])]
  }

  function StructureRest(appName: string, base: AppStructure): seq<Line> {
    [Gap] + ResultParams(appName)
    + [Gap] + [ListLine(Modules, ModulesText(base.modules))]
    + [ListLine(InheritColumns, QuotedList(base.inheritColumns))]
  }

  /** The body of `initialize`. */
  function StructureInit(appName: string, base: AppStructure): seq<Line> {
    InitTop(appName, "'" + ProcessModeOf(base) + "'", CategoryOf(base))
    + Heredoc(StructureDescription(appName, base))
    + StructureRequired(base)
    + Resources(CoresOf(base), RamOf(base), ScratchOf(base))
    + StructureRest(appName, base)
  }

  const DefaultsTodo: Line := Line(4, [Code("# TODO: Implement "), Code("based on your needs")])

  const PreprocessTodo: Line := Line(4, [Code("# TODO: Implement "), Code("if needed")])

  function StructureMethods(ezrunName: string): seq<Line> {
    [Gap] + Method("set_default_parameters", [DefaultsTodo])
    + [Gap] + Method("preprocess", [PreprocessTodo])
    + [Gap] + Method("next_dataset", DatasetBody)
    + [Gap] + Method("commands", [CommandsLine(ezrunName)])
    + [Fixed(0, "end")]
  }

  /** `generate_template_from_structure(class_name, app_name, ezrun_name, base)`, as lines. */
  function StructureLines(className: string, appName: string, ezrunName: string, base: AppStructure): seq<Line> {
    StructureHead(className, base) + Method("initialize", StructureInit(appName, base))
    + StructureMethods(ezrunName) + [Gap] + Usecase(className)
  }

  /** The template from a base app opens with the interpreter line, the encoding comment
      and a comment naming the base app's class; every line ends in a line feed. */
  function StructureTemplate(className: string, appName: string, ezrunName: string, base: AppStructure): (t: string)
    ensures Script(t)
    ensures ScriptHead + "# Based on: " + base.className + "\n" <= t
  {
    StructureOpens(className, appName, ezrunName, base);
    Render(StructureLines(className, appName, ezrunName, base))
  }

  lemma StructureOpens(className: string, appName: string, ezrunName: string, base: AppStructure)
    ensures var t := Render(StructureLines(className, appName, ezrunName, base));
            Script(t) && ScriptHead + "# Based on: " + base.className + "\n" <= t
  {
    var based := Line(0, [Code("# Based on: "), Code(base.className)]);
    var init := Method("initialize", StructureInit(appName, base));
    var rest := Requires + [ClassLine(className)] + init + StructureMethods(ezrunName) + [Gap] + Usecase(className);
    assert StructureLines(className, appName, ezrunName, base) == Shebang + ([based] + rest) by {
      LinesAssoc8(Shebang, [based], Requires, [ClassLine(className)], init, StructureMethods(ezrunName), [Gap],
                  Usecase(className));
    }
    RenderOpens([based] + rest);
    BasedText(base.className, rest);
  }
}
