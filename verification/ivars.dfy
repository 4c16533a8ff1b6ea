/** The instance variables of a SUSHI app class that the extractor looks for and the
    templates assign or read. */
module Ivars {
  import opened Chars
  import opened Text

  datatype Var =
    | Name | Params | AnalysisCategory | Description | RequiredColumns | RequiredParams
    | Modules | InheritColumns | InheritTags | ResultDir

  /** The variable's name without its `@`. */
  function Ident(v: Var): string {
    match v
    case Name => "name"
    case Params => "params"
    case AnalysisCategory => "analysis_category"
    case Description => "description"
    case RequiredColumns => "required_columns"
    case RequiredParams => "required_params"
    case Modules => "modules"
    case InheritColumns => "inherit_columns"
    case InheritTags => "inherit_tags"
    case ResultDir => "result_dir"
  }

  /** Where the names of two different variables first differ. */
  function Split(v: Var, w: Var): nat {
    if (v.RequiredColumns? && w.RequiredParams?) || (v.RequiredParams? && w.RequiredColumns?) then 9
    else if (v.InheritColumns? && w.InheritTags?) || (v.InheritTags? && w.InheritColumns?) then 8
    else if (v.ResultDir? && (w.RequiredColumns? || w.RequiredParams?))
         || (w.ResultDir? && (v.RequiredColumns? || v.RequiredParams?)) then 2
    else 0
  }

  /** No variable's name is a prefix of another's: they differ at a position both have. */
  lemma Apart(v: Var, w: Var)
    requires v != w
    ensures Split(v, w) < |Ident(v)| && Split(v, w) < |Ident(w)|
    ensures Ident(v)[Split(v, w)] != Ident(w)[Split(v, w)]
  {
  }

  /** A variable name is a non-empty `\w+` word. */
  lemma WordShape(v: Var)
    ensures 0 < |Ident(v)| && AllIn(Word, Ident(v))
    ensures '@' !in Ident(v) && '\n' !in Ident(v) && ' ' !in Ident(v)
    ensures Snake(Ident(v))
  {
    var x := Ident(v);
    assert 0 < |x| && Snake(x) by {
      match v
      case Name =>
      case Params =>
      case AnalysisCategory =>
      case Description =>
      case RequiredColumns =>
      case RequiredParams =>
      case Modules =>
      case InheritColumns =>
      case InheritTags =>
      case ResultDir =>
    }
    SnakeShape(x);
  }

  /** Lower-case letters and underscores only. */
  predicate Snake(x: string) {
    forall i | 0 <= i < |x| :: 'a' <= x[i] <= 'z' || x[i] == '_'
  }

  lemma SnakeShape(x: string)
    requires Snake(x)
    ensures AllIn(Word, x) && '@' !in x && '\n' !in x && ' ' !in x
  {
    forall i | 0 <= i < |x| ensures IsWord(x[i]) && x[i] != '@' && x[i] != '\n' && x[i] != ' ' {
      assert 'a' <= x[i] <= 'z' || x[i] == '_';
    }
  }
}
