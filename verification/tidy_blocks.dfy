/** The blocks of both templates, each shown to be made of tidy lines: every line but the
    `def`s and the `run_RApp` call is `Plain`. */
module TidyBlocks {
  import opened Chars
  import opened Text
  import opened Ivars
  import opened AppParser
  import opened AppTemplate
  import opened Marks
  import opened Layout
  import opened LineShapes

  /** A tidy line that is not a `def`: the scalar, list and method patterns all step over
      it. */
  predicate Plain(l: Line, S: set<Var>) {
    Tidy(l, S) && !DefLine(l)
  }

  predicate PlainLines(ls: seq<Line>, S: set<Var>) {
    forall i | 0 <= i < |ls| :: Plain(ls[i], S)
  }

  lemma PlainTidy(ls: seq<Line>, S: set<Var>)
    requires PlainLines(ls, S)
    ensures TidyLines(ls, S)
  {
  }

  lemma PlainJoin(a: seq<Line>, b: seq<Line>, S: set<Var>)
    requires PlainLines(a, S) && PlainLines(b, S)
    ensures PlainLines(a + b, S)
  {
    forall i | 0 <= i < |a + b| ensures Plain((a + b)[i], S) {
      if i < |a| { assert (a + b)[i] == a[i]; } else { assert (a + b)[i] == b[i - |a|]; }
    }
  }

  lemma Plain1(a: Line, S: set<Var>)
    requires Plain(a, S)
    ensures PlainLines([a], S)
  {
  }

  lemma Plain2(a: Line, b: Line, S: set<Var>)
    requires Plain(a, S) && Plain(b, S)
    ensures PlainLines([a, b], S)
  {
  }

  lemma Plain3(a: Line, b: Line, c: Line, S: set<Var>)
    requires Plain(a, S) && Plain(b, S) && Plain(c, S)
    ensures PlainLines([a, b, c], S)
  {
  }

  lemma Plain4(a: Line, b: Line, c: Line, d: Line, S: set<Var>)
    requires Plain(a, S) && Plain(b, S) && Plain(c, S) && Plain(d, S)
    ensures PlainLines([a, b, c, d], S)
  {
  }

  // ---- lines of fixed text ----

  lemma FixedPlain(n: nat, s: string, c: char, S: set<Var>)
    requires Lacks(s, c) && Key(c) && Opener(s)
    ensures Plain(Fixed(n, s), S)
  {
    SafeTame(s, c);
    Code1Tidy(n, s, S);
  }

  /** Two pieces of fixed text, the first ending in a character foreign to `run_RApp`. */
  lemma PairPlain(n: nat, a: string, b: string, c: char, d: char, S: set<Var>)
    requires Lacks(a, c) && Lacks(b, d) && Key(c) && Key(d) && Opener(a) && Closed(a)
    ensures Plain(Line(n, [Code(a), Code(b)]), S)
  {
    SafeTame(a, c);
    SafeTame(b, d);
    Code2Tidy(n, a, b, S);
  }

  /** Fixed text, then a user's text. */
  lemma UserPlain(n: nat, a: string, x: string, c: char, S: set<Var>)
    requires Lacks(a, c) && Key(c) && Tame(x) && Opener(a) && Closed(a)
    ensures Plain(Line(n, [Code(a), Code(x)]), S)
  {
    SafeTame(a, c);
    Code2Tidy(n, a, x, S);
  }

  /** Fixed text, a user's text, fixed text. */
  lemma AroundPlain(n: nat, a: string, x: string, b: string, c: char, S: set<Var>)
    requires Lacks(a, c) && Lacks(b, c) && Key(c) && Tame(x) && Opener(a) && Closed(a) && Guarded(b)
    ensures Plain(Line(n, [Code(a), Code(x), Code(b)]), S)
  {
    SafeTame(a, c);
    SafeTame(b, c);
    Code3Tidy(n, a, x, b, S);
  }

  lemma GapPlain(n: nat, S: set<Var>)
    ensures Plain(Line(n, []), S)
  {
    GapTidy(n, S);
  }

  lemma ListPlain(v: Var, items: string, S: set<Var>)
    requires v in S && Tame(items)
    ensures Plain(ListLine(v, items), S)
  {
    ListTidy(v, items, S);
  }

  lemma ScalarPlain(v: Var, x: string, S: set<Var>)
    requires v in S && Tame(x)
    ensures Plain(ScalarLine(v, x), S)
  {
    ScalarTidy(v, x, S);
  }

  /** `'x_Result'` holds no `run_RApp`: the suffix has no `p` to end one. */
  lemma ResultTame(x: string)
    requires Tame(x)
    ensures Tame("'" + x + "_Result'")
  {
    SafeTame("'", 'R');
    SeamJoin("'", x);
    var w := "_Result'";
    forall k | 0 <= k < |w| ensures w[k] != Call[|Call| - 1] {
    }
    TailMiss(Call, "'" + x, w);
  }

  /** `h` does not occur in `x + w` when it does not occur in `x` and `w` lacks the last
      character of `h`. */
  lemma TailMiss(h: string, x: string, w: string)
    requires 0 < |h| && !Occurs(h, x)
    requires forall k | 0 <= k < |w| :: w[k] != h[|h| - 1]
    ensures !Occurs(h, x + w)
  {
    var s := x + w;
    forall i | 0 <= i <= |s| ensures !OccursAt(h, s, i) {
      if i + |h| <= |s| {
        var e := i + |h| - 1;
        if e < |x| {
          assert !OccursAt(h, x, i);
          assert s[i..][..|h|] == x[i..][..|h|];
        } else {
          assert s[i..][|h| - 1] == w[e - |x|];
        }
      }
    }
  }

  // ---- shared blocks ----

  lemma ShebangText()
    ensures Lacks("#!/usr/bin/env ruby", 'R') && Lacks("# encoding: utf-8", 'R')
  {
  }

  lemma ShebangPlain(S: set<Var>)
    ensures PlainLines(Shebang, S)
  {
    ShebangText();
    FixedPlain(0, "#!/usr/bin/env ruby", 'R', S);
    FixedPlain(0, "# encoding: utf-8", 'R', S);
    Plain2(Fixed(0, "#!/usr/bin/env ruby"), Fixed(0, "# encoding: utf-8"), S);
  }

  lemma RequiresText()
    ensures Lacks("require 'sushi_fabric'", 'R')
    ensures Lacks("require_relative 'global_variables'", 'R')
    ensures Lacks("include GlobalVariables", 'R')
  {
  }

  lemma RequiresPlain(S: set<Var>)
    ensures PlainLines(Requires, S)
  {
    var a := Fixed(0, "require 'sushi_fabric'");
    var b := Fixed(0, "require_relative 'global_variables'");
    var c := Fixed(0, "include GlobalVariables");
    RequiresText();
    GapPlain(0, S);
    FixedPlain(0, "require 'sushi_fabric'", 'R', S);
    FixedPlain(0, "require_relative 'global_variables'", 'R', S);
    FixedPlain(0, "include GlobalVariables", 'R', S);
    Plain2(Gap, a, S);
    Plain3(b, c, Gap, S);
    PlainJoin([Gap, a], [b, c, Gap], S);
    assert Requires == [Gap, a] + [b, c, Gap];
  }

  lemma ClassText()
    ensures Lacks("class ", 'R') && Lacks(" < SushiFabric::SushiApp", 'R')
  {
  }

  lemma ClassPlain(className: string, S: set<Var>)
    requires Tame(className)
    ensures Plain(ClassLine(className), S)
  {
    ClassText();
    AroundPlain(0, "class ", className, " < SushiFabric::SushiApp", 'R', S);
  }

  lemma GenericHeadPlain(className: string, S: set<Var>)
    requires Tame(className)
    ensures PlainLines(GenericHead(className), S)
  {
    ShebangPlain(S);
    RequiresPlain(S);
    ClassPlain(className, S);
    PlainJoin(Shebang, Requires, S);
    PlainJoin(Shebang + Requires, [ClassLine(className)], S);
  }

  lemma StructureHeadPlain(className: string, base: AppStructure, S: set<Var>)
    requires Tame(className) && Tame(base.className)
    ensures PlainLines(StructureHead(className, base), S)
  {
    var based := Line(0, [Code("# Based on: "), Code(base.className)]);
    assert Lacks("# Based on: ", 'R');
    UserPlain(0, "# Based on: ", base.className, 'R', S);
    ShebangPlain(S);
    RequiresPlain(S);
    ClassPlain(className, S);
    PlainJoin(Shebang, [based], S);
    PlainJoin(Shebang + [based], Requires, S);
    PlainJoin(Shebang + [based] + Requires, [ClassLine(className)], S);
  }

  /** `super`, the name, the process mode and the category. */
  lemma InitTopPlain(appName: string, mode: string, category: string, S: set<Var>)
    requires Name in S && Params in S && AnalysisCategory in S
    requires Tame(appName) && Tame(mode) && Tame(category)
    ensures PlainLines(InitTop(appName, mode, category), S)
  {
    assert Lacks("super", 'R');
    FixedPlain(4, "super", 'R', S);
    ScalarPlain(Name, appName, S);
    assert Snake("process_mode");
    AssignTidy(4, "process_mode", mode, S);
    ScalarPlain(AnalysisCategory, category, S);
    Plain4(Fixed(4, "super"), NameLine(appName), ModeLine(mode), CategoryLine(category), S);
  }

  lemma HeredocPlain(body: seq<Line>, S: set<Var>)
    requires Description in S && PlainLines(body, S)
    ensures PlainLines(Heredoc(body), S)
  {
    assert Lacks(" = <<-EOS", 'R') && Lacks("EOS", 'R');
    SafeTame(" = <<-EOS", 'R');
    AtCodeTidy(4, Description, " = <<-EOS", S);
    FixedPlain(0, "EOS", 'R', S);
    PlainJoin([HeredocLine], body, S);
    PlainJoin([HeredocLine] + body, [EosLine], S);
  }

  /** One resource's value and metadata. */
  lemma ResourcePlain(key: string, value: string, inGB: bool, S: set<Var>)
    requires Params in S && Snake(key) && Tame(value)
    ensures PlainLines(Resource(key, value, inGB), S)
  {
    assert Snake("description") && Snake("context");
    assert Lacks("'GB'", 'R') && Lacks("'slurm'", 'R');
    SafeTame("'GB'", 'R');
    SafeTame("'slurm'", 'R');
    var a := Line(4, [Assign(key, value)]);
    var b := Line(4, [Tagged(key, "description", "'GB'")]);
    var c := Line(4, [Tagged(key, "context", "'slurm'")]);
    AssignTidy(4, key, value, S);
    TaggedTidy(4, key, "description", "'GB'", S);
    TaggedTidy(4, key, "context", "'slurm'", S);
    if inGB {
      Plain3(a, b, c, S);
      assert Resource(key, value, inGB) == [a, b, c];
    } else {
      Plain2(a, c, S);
      assert Resource(key, value, inGB) == [a, c];
    }
  }

  lemma ResourcesPlain(cores: string, ram: string, scratch: string, S: set<Var>)
    requires Params in S && Tame(cores) && Tame(ram) && Tame(scratch)
    ensures PlainLines(Resources(cores, ram, scratch), S)
  {
    assert Snake("cores") && Snake("ram") && Snake("scratch");
    ResourcePlain("cores", cores, false, S);
    ResourcePlain("ram", ram, true, S);
    ResourcePlain("scratch", scratch, true, S);
    PlainJoin(Resource("cores", cores, false), Resource("ram", ram, true), S);
    PlainJoin(Resource("cores", cores, false) + Resource("ram", ram, true), Resource("scratch", scratch, true), S);
  }

  lemma ResultParamsPlain(appName: string, S: set<Var>)
    requires Params in S && Tame(appName)
    ensures PlainLines(ResultParams(appName), S)
  {
    assert Snake("name") && Snake("mail") && Lacks("''", 'R');
    ResultTame(appName);
    SafeTame("''", 'R');
    AssignTidy(4, "name", "'" + appName + "_Result'", S);
    AssignTidy(4, "mail", "''", S);
  }

  lemma GenericDescriptionText()
    ensures Lacks("Description of what ", 'R') && Lacks("this app does.<br/>", 'R')
    ensures Lacks("Add links to ", 'R') && Lacks("documentation if available.", 'R')
  {
  }

  lemma GenericDescriptionPlain(S: set<Var>)
    ensures PlainLines(GenericDescription, S)
  {
    var a := Line(0, [Code("Description of what "), Code("this app does.<br/>")]);
    var b := Line(0, [Code("Add links to "), Code("documentation if available.")]);
    GenericDescriptionText();
    assert Plain(a, S) by { PairPlain(0, "Description of what ", "this app does.<br/>", 'R', 'R', S); }
    assert Plain(b, S) by { PairPlain(0, "Add links to ", "documentation if available.", 'R', 'R', S); }
    Plain2(a, b, S);
  }

  lemma TodoText()
    ensures Lacks("TODO: Add description for ", 'R')
  {
  }

  lemma BasedOnText()
    ensures Lacks("Based on ", 'R') && Lacks(": ", 'R')
  {
  }

  lemma BasedOnPlain(className: string, description: string, S: set<Var>)
    requires Tame(className) && Tame(description)
    ensures Plain(Line(0, [Code("Based on "), Code(className), Code(": "), Code(description)]), S)
  {
    BasedOnText();
    SafeTame("Based on ", 'R');
    SafeTame(": ", 'R');
    Code4Tidy(0, "Based on ", className, ": ", description, S);
  }

  lemma StructureDescriptionPlain(appName: string, base: AppStructure, S: set<Var>)
    requires Tame(appName) && Tame(base.className) && Tame(DescriptionLine(base.description))
    ensures PlainLines(StructureDescription(appName, base), S)
  {
    var a := Line(0, [Code("TODO: Add description for "), Code(appName)]);
    var b := Line(0, [Code("Based on "), Code(base.className), Code(": "), Code(DescriptionLine(base.description))]);
    assert Plain(a, S) by {
      TodoText();
      UserPlain(0, "TODO: Add description for ", appName, 'R', S);
    }
    BasedOnPlain(base.className, DescriptionLine(base.description), S);
    Plain2(a, b, S);
  }

  lemma ColumnsText()
    ensures Lacks("# Required input columns ", '_') && Lacks("from dataset", '_') && Lacks("'Name', 'Read1'", '_')
  {
  }

  lemma ParamsText()
    ensures Lacks("# Required parameters ", '_') && Lacks("that must be set", '_')
    ensures Lacks("'name'", '_') && Lacks("# Computational resources", '_')
  {
  }

  /** The comment and list of required columns. */
  lemma ColumnsPlain(S: set<Var>)
    requires RequiredColumns in S
    ensures PlainLines([Gap, Line(4, [Code("# Required input columns "), Code("from dataset")]),
                        ListLine(RequiredColumns, "'Name', 'Read1'"), Line(4, [])], S)
  {
    var c1 := Line(4, [Code("# Required input columns "), Code("from dataset")]);
    var rc := ListLine(RequiredColumns, "'Name', 'Read1'");
    ColumnsText();
    assert Plain(c1, S) by { PairPlain(4, "# Required input columns ", "from dataset", '_', '_', S); }
    assert Plain(rc, S) by { SafeTame("'Name', 'Read1'", '_'); ListPlain(RequiredColumns, "'Name', 'Read1'", S); }
    GapPlain(0, S);
    GapPlain(4, S);
    Plain4(Gap, c1, rc, Line(4, []), S);
  }

  /** The comment and list of required parameters, and the heading of the resources. */
  lemma ParamsPlain(S: set<Var>)
    requires RequiredParams in S
    ensures PlainLines([Line(4, [Code("# Required parameters "), Code("that must be set")]),
                        ListLine(RequiredParams, "'name'"), Gap, Fixed(4, "# Computational resources")], S)
  {
    var c2 := Line(4, [Code("# Required parameters "), Code("that must be set")]);
    var rp := ListLine(RequiredParams, "'name'");
    var c3 := Fixed(4, "# Computational resources");
    ParamsText();
    assert Plain(c2, S) by { PairPlain(4, "# Required parameters ", "that must be set", '_', '_', S); }
    assert Plain(rp, S) by { SafeTame("'name'", '_'); ListPlain(RequiredParams, "'name'", S); }
    assert Plain(c3, S) by { FixedPlain(4, "# Computational resources", '_', S); }
    GapPlain(0, S);
    Plain4(c2, rp, Gap, c3, S);
  }

  lemma GenericRequiredPlain(S: set<Var>)
    requires RequiredColumns in S && RequiredParams in S
    ensures PlainLines(GenericRequired, S)
  {
    var top := [Gap, Line(4, [Code("# Required input columns "), Code("from dataset")]),
                ListLine(RequiredColumns, "'Name', 'Read1'"), Line(4, [])];
    var bottom := [Line(4, [Code("# Required parameters "), Code("that must be set")]),
                   ListLine(RequiredParams, "'name'"), Gap, Fixed(4, "# Computational resources")];
    assert GenericRequired == top + bottom;
    ColumnsPlain(S);
    ParamsPlain(S);
    PlainJoin(top, bottom, S);
  }

  lemma FromText()
    ensures Lacks("# Computational resources (from ", 'R') && Lacks(")", 'R')
  {
  }

  lemma StructureRequiredPlain(base: AppStructure, S: set<Var>)
    requires RequiredColumns in S && RequiredParams in S
    requires Tame(QuotedList(base.requiredColumns)) && Tame(QuotedList(base.requiredParams))
    requires Tame(base.className)
    ensures PlainLines(StructureRequired(base), S)
  {
    var rc := ListLine(RequiredColumns, QuotedList(base.requiredColumns));
    var rp := ListLine(RequiredParams, QuotedList(base.requiredParams));
    var c := Line(4, [Code("# Computational resources (from "), Code(base.className), Code(")")]);
    assert Plain(c, S) by {
      FromText();
      AroundPlain(4, "# Computational resources (from ", base.className, ")", 'R', S);
    }
    assert PlainLines([Gap, rc, rp], S) by {
      GapPlain(0, S);
      ListPlain(RequiredColumns, QuotedList(base.requiredColumns), S);
      ListPlain(RequiredParams, QuotedList(base.requiredParams), S);
      Plain3(Gap, rc, rp, S);
    }
    assert PlainLines([Gap, c], S) by { GapPlain(0, S); Plain2(Gap, c, S); }
    assert StructureRequired(base) == [Gap, rc, rp] + [Gap, c];
    PlainJoin([Gap, rc, rp], [Gap, c], S);
  }

  lemma GenericRestText()
    ensures Lacks("# App-specific parameters", 'R') && Lacks("# Environment modules to load", 'R')
    ensures Lacks("'Dev/R'", '_')
  {
  }

  lemma GenericInheritText()
    ensures Lacks("# Columns/tags to inherit ", 'R') && Lacks("from input dataset", 'R')
    ensures Lacks("'Order Id'", 'R') && Lacks("'Factor', 'B-Fabric'", 'R')
  {
  }

  lemma GenericRestPlain(appName: string, S: set<Var>)
    requires Params in S && Modules in S && InheritColumns in S && InheritTags in S
    requires Tame(appName)
    ensures PlainLines(GenericRest(appName), S)
  {
    var c1 := Fixed(4, "# App-specific parameters");
    var c2 := Fixed(4, "# Environment modules to load");
    var ml := ListLine(Modules, "'Dev/R'");
    var c3 := Line(4, [Code("# Columns/tags to inherit "), Code("from input dataset")]);
    var ic := ListLine(InheritColumns, "'Order Id'");
    var it := ListLine(InheritTags, "'Factor', 'B-Fabric'");
    var r := ResultParams(appName);
    assert PlainLines([Gap, c1], S) by {
      GenericRestText();
      GapPlain(0, S);
      FixedPlain(4, "# App-specific parameters", 'R', S);
      Plain2(Gap, c1, S);
    }
    assert PlainLines([Gap, c2, ml], S) by {
      GenericRestText();
      GapPlain(0, S);
      FixedPlain(4, "# Environment modules to load", 'R', S);
      SafeTame("'Dev/R'", '_');
      ListPlain(Modules, "'Dev/R'", S);
      Plain3(Gap, c2, ml, S);
    }
    assert PlainLines([Gap, c3, ic, it], S) by {
      GenericInheritText();
      GapPlain(0, S);
      PairPlain(4, "# Columns/tags to inherit ", "from input dataset", 'R', 'R', S);
      SafeTame("'Order Id'", 'R');
      SafeTame("'Factor', 'B-Fabric'", 'R');
      ListPlain(InheritColumns, "'Order Id'", S);
      ListPlain(InheritTags, "'Factor', 'B-Fabric'", S);
      Plain4(Gap, c3, ic, it, S);
    }
    assert PlainLines(r, S) by { ResultParamsPlain(appName, S); }
    assert GenericRest(appName) == [Gap, c1] + r + [Gap, c2, ml] + [Gap, c3, ic, it];
    PlainJoin([Gap, c1], r, S);
    PlainJoin([Gap, c1] + r, [Gap, c2, ml], S);
    PlainJoin([Gap, c1] + r + [Gap, c2, ml], [Gap, c3, ic, it], S);
  }

  lemma StructureRestPlain(appName: string, base: AppStructure, S: set<Var>)
    requires Params in S && Modules in S && InheritColumns in S
    requires Tame(appName) && Tame(ModulesText(base.modules)) && Tame(QuotedList(base.inheritColumns))
    ensures PlainLines(StructureRest(appName, base), S)
  {
    var ml := ListLine(Modules, ModulesText(base.modules));
    var ic := ListLine(InheritColumns, QuotedList(base.inheritColumns));
    GapPlain(0, S);
    ResultParamsPlain(appName, S);
    ListPlain(Modules, ModulesText(base.modules), S);
    ListPlain(InheritColumns, QuotedList(base.inheritColumns), S);
    Plain3(Gap, ml, ic, S);
    PlainJoin([Gap], ResultParams(appName), S);
    PlainJoin([Gap] + ResultParams(appName), [Gap, ml, ic], S);
    assert StructureRest(appName, base) == [Gap] + ResultParams(appName) + [Gap, ml, ic];
  }

  // ---- methods ----

  /** A method whose body is plain. */
  lemma MethodTidy(name: string, body: seq<Line>, S: set<Var>)
    requires 0 < |name| && Snake(name) && PlainLines(body, S)
    ensures TidyLines(Method(name, body), S)
  {
    assert Lacks("end", 'R');
    assert Tidy(Line(2, [Def(name)]), S) by { DefTidy(2, name, S); }
    assert Plain(End2, S) by { FixedPlain(2, "end", 'R', S); }
    TidyJoin([Line(2, [Def(name)])], body, S);
    TidyJoin([Line(2, [Def(name)])] + body, [End2], S);
  }

  lemma DirText()
    ensures Lacks("report_dir = File.join(", 'R') && Lacks(", ", 'R') && Lacks(")", 'R')
  {
  }

  lemma MergeText()
    ensures Lacks("}.merge(extract_columns(", 'R') && Lacks("colnames: ", 'R') && Lacks("))", 'R')
  {
  }

  lemma NameText()
    ensures Lacks("{", 'R') && Lacks("'Name' => ", 'R') && Lacks(",", 'R')
  {
  }

  lemma ReportText()
    ensures Lacks("'Report [Link]' => ", '_') && Lacks("File.join(report_dir, ", 'R')
    ensures Lacks("'00index.html'),", 'R')
  {
  }

  lemma ResultText()
    ensures Lacks("'Result [File]' => ", '_') && Lacks("report_dir", 'R')
  {
  }

  lemma NameRefPlain(S: set<Var>)
    requires Params in S
    ensures Plain(Line(6, [Code("'Name' => "), Ref("name"), Code(",")]), S)
  {
    NameText();
    assert Snake("name");
    SafeTame("'Name' => ", 'R');
    SafeTame(",", 'R');
    RefTidy(6, "'Name' => ", "name", ",", S);
  }

  lemma ReportPlain(S: set<Var>)
    ensures Plain(Line(6, [Code("'Report [Link]' => "), Code("File.join(report_dir, "), Code("'00index.html'),")]), S)
  {
    ReportText();
    SafeTame("'Report [Link]' => ", '_');
    SafeTame("File.join(report_dir, ", 'R');
    SafeTame("'00index.html'),", 'R');
    Code3Tidy(6, "'Report [Link]' => ", "File.join(report_dir, ", "'00index.html'),", S);
  }

  lemma OutputHashPlain(S: set<Var>)
    requires Params in S
    ensures PlainLines(OutputHash, S)
  {
    var a := Fixed(4, "{");
    var b := Line(6, [Code("'Name' => "), Ref("name"), Code(",")]);
    var c := Line(6, [Code("'Report [Link]' => "), Code("File.join(report_dir, "), Code("'00index.html'),")]);
    var d := Line(6, [Code("'Result [File]' => "), Code("report_dir")]);
    assert Plain(a, S) by { NameText(); FixedPlain(4, "{", 'R', S); }
    NameRefPlain(S);
    ReportPlain(S);
    assert Plain(d, S) by { ResultText(); PairPlain(6, "'Result [File]' => ", "report_dir", '_', 'R', S); }
    Plain4(a, b, c, d, S);
  }

  lemma DirPlain(S: set<Var>)
    requires ResultDir in S && Params in S
    ensures Plain(DirLine, S)
  {
    DirText();
    assert Snake("name");
    SafeTame("report_dir = File.join(", 'R');
    SafeTame(", ", 'R');
    SafeTame(")", 'R');
    AtRefTidy(4, "report_dir = File.join(", ResultDir, ", ", "name", ")", S);
  }

  lemma MergePlain(S: set<Var>)
    requires InheritColumns in S
    ensures Plain(MergeLine, S)
  {
    MergeText();
    SafeTame("}.merge(extract_columns(", 'R');
    SafeTame("colnames: ", 'R');
    SafeTame("))", 'R');
    CodeAtTidy(4, "}.merge(extract_columns(", "colnames: ", InheritColumns, "))", S);
  }

  lemma DatasetBodyPlain(S: set<Var>)
    requires ResultDir in S && Params in S && InheritColumns in S
    ensures PlainLines(DatasetBody, S)
  {
    DirPlain(S);
    MergePlain(S);
    OutputHashPlain(S);
    PlainJoin([DirLine], OutputHash, S);
    PlainJoin([DirLine] + OutputHash, [MergeLine], S);
  }

  lemma HintText()
    ensures Lacks("# Set defaults based ", 'R') && Lacks("on input dataset", 'R') && Lacks("# Example: ", 'R')
    ensures Lacks("dataset_has_column?('Read2')", 'A')
    ensures Lacks("# Modify state before ", 'R') && Lacks("job submission", 'R')
    ensures Lacks("# Example: add Read2 ", '_') && Lacks("to required columns if paired", 'R')
  {
  }

  lemma DefaultsHintPlain(S: set<Var>)
    requires Params in S
    ensures PlainLines(DefaultsHint, S)
  {
    var a := Line(4, [Code("# Set defaults based "), Code("on input dataset")]);
    var b := Line(4, [Code("# Example: "), Assign("paired", "dataset_has_column?('Read2')")]);
    HintText();
    assert Plain(a, S) by { PairPlain(4, "# Set defaults based ", "on input dataset", 'R', 'R', S); }
    assert Plain(b, S) by {
      assert Snake("paired");
      SafeTame("# Example: ", 'R');
      SafeTame("dataset_has_column?('Read2')", 'A');
      CodeAssignTidy(4, "# Example: ", "paired", "dataset_has_column?('Read2')", S);
    }
    Plain2(a, b, S);
  }

  lemma PreprocessHintPlain(S: set<Var>)
    ensures PlainLines(PreprocessHint, S)
  {
    var a := Line(4, [Code("# Modify state before "), Code("job submission")]);
    var b := Line(4, [Code("# Example: add Read2 "), Code("to required columns if paired")]);
    HintText();
    assert Plain(a, S) by { PairPlain(4, "# Modify state before ", "job submission", 'R', 'R', S); }
    assert Plain(b, S) by { PairPlain(4, "# Example: add Read2 ", "to required columns if paired", '_', 'R', S); }
    Plain2(a, b, S);
  }

  lemma CommentText()
    ensures Lacks("# Define output dataset ", 'R') && Lacks("structure", 'R')
    ensures Lacks("# Return the R command ", '_') && Lacks("to execute", 'R')
    ensures Lacks("# TODO: Implement ", 'R') && Lacks("based on your needs", 'R') && Lacks("if needed", 'R')
  {
  }

  /** The one-line comments of the methods. */
  lemma CommentsPlain(S: set<Var>)
    ensures Plain(DatasetHint, S) && Plain(CommandsHint, S)
    ensures Plain(DefaultsTodo, S) && Plain(PreprocessTodo, S)
  {
    CommentText();
    assert Plain(DatasetHint, S) by { PairPlain(4, "# Define output dataset ", "structure", 'R', 'R', S); }
    assert Plain(CommandsHint, S) by { PairPlain(4, "# Return the R command ", "to execute", '_', 'R', S); }
    assert Plain(DefaultsTodo, S) by { PairPlain(4, "# TODO: Implement ", "based on your needs", 'R', 'R', S); }
    assert Plain(PreprocessTodo, S) by { PairPlain(4, "# TODO: Implement ", "if needed", 'R', 'R', S); }
  }

  // ---- the use case ----

  lemma UsecaseText()
    ensures Lacks("if __FILE__ == $0", 'R') && Lacks("usecase = ", 'R') && Lacks(".new", 'R')
    ensures Lacks("end", 'R') && Lacks("# For CLI testing:", 'R')
  {
  }

  lemma SetupText()
    ensures Lacks("usecase.project = 'p1001'", 'R') && Lacks("usecase.user = 'developer'", 'R')
    ensures Lacks("usecase.dataset_tsv_file = ", 'R') && Lacks("'input_dataset.tsv'", 'R')
    ensures Lacks("# usecase.run", 'R')
  {
  }

  lemma UsecaseSetupPlain(S: set<Var>)
    ensures PlainLines(UsecaseSetup, S)
  {
    var a := Fixed(2, "usecase.project = 'p1001'");
    var b := Fixed(2, "usecase.user = 'developer'");
    var c := Line(2, [Code("usecase.dataset_tsv_file = "), Code("'input_dataset.tsv'")]);
    var d := Fixed(2, "# usecase.run");
    SetupText();
    assert Plain(a, S) by { FixedPlain(2, "usecase.project = 'p1001'", 'R', S); }
    assert Plain(b, S) by { FixedPlain(2, "usecase.user = 'developer'", 'R', S); }
    assert Plain(c, S) by { PairPlain(2, "usecase.dataset_tsv_file = ", "'input_dataset.tsv'", 'R', 'R', S); }
    assert Plain(d, S) by { FixedPlain(2, "# usecase.run", 'R', S); }
    Plain4(a, b, c, d, S);
  }

  lemma UsecasePlain(className: string, S: set<Var>)
    requires Tame(className)
    ensures PlainLines(Usecase(className), S)
  {
    var a := Fixed(0, "if __FILE__ == $0");
    var b := Line(2, [Code("usecase = "), Code(className), Code(".new")]);
    var e := Fixed(0, "end");
    UsecaseText();
    assert PlainLines([a, b], S) by {
      FixedPlain(0, "if __FILE__ == $0", 'R', S);
      AroundPlain(2, "usecase = ", className, ".new", 'R', S);
      Plain2(a, b, S);
    }
    assert PlainLines([e], S) by { FixedPlain(0, "end", 'R', S); }
    assert PlainLines(UsecaseSetup, S) by { UsecaseSetupPlain(S); }
    PlainJoin([a, b], UsecaseSetup, S);
    PlainJoin([a, b] + UsecaseSetup, [e], S);
  }

  lemma GenericCliPlain(className: string, S: set<Var>)
    requires Tame(className)
    ensures PlainLines(GenericCli(className), S)
  {
    var c := Fixed(0, "# For CLI testing:");
    UsecaseText();
    assert PlainLines([Gap, c], S) by {
      GapPlain(0, S);
      FixedPlain(0, "# For CLI testing:", 'R', S);
      Plain2(Gap, c, S);
    }
    assert PlainLines(Usecase(className), S) by { UsecasePlain(className, S); }
    PlainJoin([Gap, c], Usecase(className), S);
  }

  // ---- the bodies of `initialize` ----

  lemma GenericInitPlain(appName: string, category: string, S: set<Var>)
    requires {Name, Params, AnalysisCategory, Description, RequiredColumns, RequiredParams} <= S
    requires {Modules, InheritColumns, InheritTags} <= S
    requires Tame(appName) && Tame(category)
    ensures PlainLines(GenericInit(appName, category), S)
  {
    var top := InitTop(appName, GenericMode, category);
    var h := Heredoc(GenericDescription);
    var res := Resources("[8, 1, 2, 4, 8, 16]", "[30, 15, 62]", "[100, 50, 200]");
    assert PlainLines(top, S) by { GenericModeTame(); InitTopPlain(appName, GenericMode, category, S); }
    assert PlainLines(h, S) by { GenericDescriptionPlain(S); HeredocPlain(GenericDescription, S); }
    assert PlainLines(GenericRequired, S) by { GenericRequiredPlain(S); }
    assert PlainLines(res, S) by {
      ResourceText();
      SafeTame("[8, 1, 2, 4, 8, 16]", 'R');
      SafeTame("[30, 15, 62]", 'R');
      SafeTame("[100, 50, 200]", 'R');
      ResourcesPlain("[8, 1, 2, 4, 8, 16]", "[30, 15, 62]", "[100, 50, 200]", S);
    }
    assert PlainLines(GenericRest(appName), S) by { GenericRestPlain(appName, S); }
    PlainJoin(top, h, S);
    PlainJoin(top + h, GenericRequired, S);
    PlainJoin(top + h + GenericRequired, res, S);
    PlainJoin(top + h + GenericRequired + res, GenericRest(appName), S);
  }

  lemma ResourceText()
    ensures Lacks("[8, 1, 2, 4, 8, 16]", 'R') && Lacks("[30, 15, 62]", 'R') && Lacks("[100, 50, 200]", 'R')
  {
  }

  /** The generic process mode and its comment. */
  lemma GenericModeTame()
    ensures Tame(GenericMode)
  {
    var a := "'DATASET'  # or 'SAMPLE'";
    var b := " for per-sample processing";
    assert Lacks(a, 'R') && Lacks(b, 'R');
    SafeTame(a, 'R');
    SafeTame(b, 'R');
    SeamJoin(a, b);
  }

  lemma StructureInitPlain(appName: string, base: AppStructure, S: set<Var>)
    requires {Name, Params, AnalysisCategory, Description, RequiredColumns, RequiredParams} <= S
    requires {Modules, InheritColumns} <= S
    requires Tame(appName) && Tame(base.className) && Tame(DescriptionLine(base.description))
    requires Tame("'" + ProcessModeOf(base) + "'") && Tame(CategoryOf(base))
    requires Tame(QuotedList(base.requiredColumns)) && Tame(QuotedList(base.requiredParams))
    requires Tame(CoresOf(base)) && Tame(RamOf(base)) && Tame(ScratchOf(base))
    requires Tame(ModulesText(base.modules)) && Tame(QuotedList(base.inheritColumns))
    ensures PlainLines(StructureInit(appName, base), S)
  {
    var top := InitTop(appName, "'" + ProcessModeOf(base) + "'", CategoryOf(base));
    var h := Heredoc(StructureDescription(appName, base));
    var req := StructureRequired(base);
    var res := Resources(CoresOf(base), RamOf(base), ScratchOf(base));
    var rest := StructureRest(appName, base);
    assert PlainLines(top, S) by { InitTopPlain(appName, "'" + ProcessModeOf(base) + "'", CategoryOf(base), S); }
    assert PlainLines(h, S) by {
      StructureDescriptionPlain(appName, base, S);
      HeredocPlain(StructureDescription(appName, base), S);
    }
    assert PlainLines(req, S) by { StructureRequiredPlain(base, S); }
    assert PlainLines(res, S) by { ResourcesPlain(CoresOf(base), RamOf(base), ScratchOf(base), S); }
    assert PlainLines(rest, S) by { StructureRestPlain(appName, base, S); }
    PlainJoin(top, h, S);
    PlainJoin(top + h, req, S);
    PlainJoin(top + h + req, res, S);
    PlainJoin(top + h + req + res, rest, S);
  }
}
