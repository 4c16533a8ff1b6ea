/** `categorize_apps` of the app lister: each app name goes to the first category whose
    pattern it matches, tested in a fixed order, and the categories left empty are dropped.

    The patterns are Ruby regular expressions with the `i` flag. `^` and `$` are line
    anchors, so a name is tested at the start (or end) of each of its lines; for a name
    without a line feed that is a prefix (or suffix) test. Case is folded on ASCII letters. */
module Categorize {
  import opened Chars
  import opened Lists

  datatype Category =
    | SingleCell | QC | Alignment | VariantCalling | DifferentialExpression | Assembly | Other

  /** The key of the category in the returned hash. */
  function Label(c: Category): string {
    match c
    case SingleCell => "Single Cell"
    case QC => "QC"
    case Alignment => "Alignment"
    case VariantCalling => "Variant Calling"
    case DifferentialExpression => "Differential Expression"
    case Assembly => "Assembly"
    case Other => "Other"
  }

  /** The categories in the order the hash lists them and the rules are tried. */
  const Order: seq<Category> :=
    [SingleCell, QC, Alignment, VariantCalling, DifferentialExpression, Assembly, Other]

  /** The alternatives of each rule. */
  const SingleCellWords: seq<string> :=
    ["Sc", "SingleCell", "CellRanger", "Seurat", "Velocyto", "Space", "Xenium", "Visium"]
  const QcWords: seq<string> := ["Qc", "Fastqc", "Stats", "Bias"]
  const AlignmentWords: seq<string> := ["STAR", "BWA", "Bowtie", "Minimap", "Pbmm"]
  const VariantWords: seq<string> := ["Gatk", "Mutect", "Delly", "Haplotype", "Vcf"]
  const ExpressionWords: seq<string> := ["DESeq", "EdgeR", "Limma", "Diff"]
  const AssemblyWords: seq<string> := ["Canu", "Spades", "Hifiasm", "Quast", "Prokka"]

  /** `w` occurs at offset `o` of `s`, ignoring case. */
  predicate SameTextAt(s: string, o: nat, w: string) {
    o + |w| <= |s| && forall i | 0 <= i < |w| :: SameLetter(s[o + i], w[i])
  }

  /** `^` at offset `o`. */
  predicate LineStartAt(s: string, o: nat)
    requires o <= |s|
  {
    o == 0 || s[o - 1] == '\n'
  }

  /** `$` at offset `o`. */
  predicate LineEndAt(s: string, o: nat)
    requires o <= |s|
  {
    o == |s| || s[o] == '\n'
  }

  /** `/^(w1|w2|...)/i`. */
  predicate StartsLine(s: string, ws: seq<string>) {
    exists o, k | 0 <= o <= |s| && 0 <= k < |ws| :: LineStartAt(s, o) && SameTextAt(s, o, ws[k])
  }

  /** `/(w1|w2|...)App$/i`. */
  predicate EndsLineWithApp(s: string, ws: seq<string>) {
    exists o, k | 0 <= o <= |s| && 0 <= k < |ws| ::
      SameTextAt(s, o, ws[k] + "App") && LineEndAt(s, o + |ws[k]| + 3)
  }

  /** `/(w1|w2|...)/i`. */
  predicate Contains(s: string, ws: seq<string>) {
    exists o, k | 0 <= o <= |s| && 0 <= k < |ws| :: SameTextAt(s, o, ws[k])
  }

  /** The `when` pattern of each category on its own (`else` for the last). */
  predicate Matches(c: Category, app: string) {
    match c
    case SingleCell => StartsLine(app, SingleCellWords)
    case QC => EndsLineWithApp(app, QcWords)
    case Alignment => StartsLine(app, AlignmentWords)
    case VariantCalling => Contains(app, VariantWords)
    case DifferentialExpression => StartsLine(app, ExpressionWords)
    case Assembly => StartsLine(app, AssemblyWords)
    case Other => true
  }

  /** The position of a category in `Order`. */
  function Rank(c: Category): (n: nat)
    ensures n < |Order| && Order[n] == c
  {
    match c
    case SingleCell => 0
    case QC => 1
    case Alignment => 2
    case VariantCalling => 3
    case DifferentialExpression => 4
    case Assembly => 5
    case Other => 6
  }

  /** The `case` statement: the first category whose pattern matches. */
  function Classify(app: string): (c: Category)
    ensures Matches(c, app)
  {
    if Matches(SingleCell, app) then SingleCell
    else if Matches(QC, app) then QC
    else if Matches(Alignment, app) then Alignment
    else if Matches(VariantCalling, app) then VariantCalling
    else if Matches(DifferentialExpression, app) then DifferentialExpression
    else if Matches(Assembly, app) then Assembly
    else Other
  }

  /** One entry of the returned hash. */
  datatype Bucket = Bucket(key: string, apps: seq<string>)

  /** The apps of one category, in input order. */
  function InCategory(apps: seq<string>, c: Category): (r: seq<string>)
    ensures forall a :: a in r <==> a in apps && Classify(a) == c
    ensures Subseq(r, apps)
  {
    if |apps| == 0 then []
    else
      var rest := InCategory(apps[1..], c);
      assert apps == [apps[0]] + apps[1..];
      if Classify(apps[0]) == c then [apps[0]] + rest
      else
        SubseqSkip(rest, apps);
        rest
  }

  /** The hash before the empty categories are rejected. */
  function Group(apps: seq<string>): (bs: seq<Bucket>)
    ensures |bs| == |Order|
    ensures forall i | 0 <= i < |bs| :: bs[i] == Bucket(Label(Order[i]), InCategory(apps, Order[i]))
  {
    seq(|Order|, i requires 0 <= i < |Order| => Bucket(Label(Order[i]), InCategory(apps, Order[i])))
  }

  /** `reject { |_, v| v.empty? }`. */
  function NonEmpty(bs: seq<Bucket>): (r: seq<Bucket>)
    ensures forall b :: b in r <==> b in bs && b.apps != []
    ensures Subseq(r, bs)
  {
    if |bs| == 0 then []
    else
      var rest := NonEmpty(bs[1..]);
      assert bs == [bs[0]] + bs[1..];
      if bs[0].apps == [] then
        SubseqSkip(rest, bs);
        rest
      else [bs[0]] + rest
  }

  /** `categorize_apps`. */
  function CategorizeApps(apps: seq<string>): (bs: seq<Bucket>)
    ensures forall b | b in bs :: b.apps != []
  {
    NonEmpty(Group(apps))
  }
}
