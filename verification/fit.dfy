/** What a template's inputs must look like for the generated file to read back as it was
    written: text that stays on its line, holds no `@` and no `run_RApp`, and, where the
    parser reads it as a quoted literal, is one. */
module Fit {
  import opened Chars
  import opened Text
  import opened Optional
  import opened Ivars
  import opened AppParser
  import opened AppTemplate
  import opened Layout
  import opened LineShapes

  predicate AllTame(xs: seq<string>) {
    forall i | 0 <= i < |xs| :: Tame(xs[i])
  }

  predicate TameOption(x: Option<string>) {
    x.Some? ==> Tame(x.value)
  }

  /** The base structure as `generate_template_from_structure` copies it into the new file. */
  predicate BaseFit(base: AppStructure) {
    && WellFormed(base)
    && Tame(base.className) && Tame(DescriptionLine(base.description))
    && TameOption(base.processMode) && TameOption(base.analysisCategory)
    && AllTame(base.requiredColumns) && AllTame(base.requiredParams)
    && AllTame(base.modules) && AllTame(base.inheritColumns)
    && Tame(CoresOf(base)) && Tame(RamOf(base)) && Tame(ScratchOf(base))
  }

  /** The names the template is written for. */
  predicate NamesFit(className: string, appName: string, ezrunName: string) {
    Tame(className) && Tame(appName) && Literal(appName) && Tame(ezrunName) && Literal(ezrunName)
  }

  lemma TameJoin(a: string, b: string)
    requires Tame(a) && Tame(b) && Seam(a, b)
    ensures Tame(a + b)
  {
    SeamJoin(a, b);
  }

  /** `'x'`. */
  lemma QuoteTame(x: string)
    requires Tame(x)
    ensures Tame("'" + x + "'")
  {
    SafeTame("'", 'R');
    TameJoin("'", x);
    TameJoin("'" + x, "'");
  }

  /** The rendering of a list of tame texts is tame. */
  lemma {:induction false} QuotedTame(xs: seq<string>)
    requires AllTame(xs)
    ensures Tame(QuotedList(xs))
    decreases |xs|
  {
    if |xs| == 1 {
      QuoteTame(xs[0]);
    } else if 1 < |xs| {
      var x := xs[0];
      var tail := xs[1..];
      assert Tame(x);
      assert AllTame(tail) by {
        forall i | 0 <= i < |tail| ensures Tame(tail[i]) { assert tail[i] == xs[i + 1]; }
      }
      QuotedTame(tail);
      SafeTame("'", 'R');
      SafeTame("', ", 'R');
      TameJoin("'", x);
      TameJoin("'" + x, "', ");
      TameJoin("'" + x + "', ", QuotedList(tail));
    }
  }

  lemma ModulesTame(modules: seq<string>)
    requires AllTame(modules)
    ensures Tame(ModulesText(modules))
  {
    if modules == [] {
      assert Lacks("['Dev/R']", '_');
      SafeTame("['Dev/R']", '_');
    } else {
      QuotedTame(modules);
    }
  }

  lemma DatasetText()
    ensures Literal("DATASET") && Lacks("DATASET", 'p')
    ensures Literal("Other") && Lacks("Other", 'R')
  {
  }

  /** The process mode written into the new file: the base's, or `DATASET`. */
  lemma ModeFit(base: AppStructure)
    requires WellFormed(base) && TameOption(base.processMode)
    ensures Literal(ProcessModeOf(base)) && Tame("'" + ProcessModeOf(base) + "'")
  {
    DatasetText();
    if base.processMode.None? {
      assert Call[7] == 'p';
      MissingChar(Call, "DATASET", 7);
    }
    QuoteTame(ProcessModeOf(base));
  }

  /** The category written into the new file: the base's, or `Other`. */
  lemma CategoryFit(base: AppStructure)
    requires WellFormed(base) && TameOption(base.analysisCategory)
    ensures Literal(CategoryOf(base)) && Tame(CategoryOf(base))
  {
    DatasetText();
    if base.analysisCategory.None? {
      SafeTame("Other", 'R');
    }
  }
}
