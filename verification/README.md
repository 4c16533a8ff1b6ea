# SUSHI app tools, modelled in Dafny

SUSHI apps are Ruby classes, one per file named `<Name>App.rb` in a library directory. Each
class sets its fields in `initialize`: `@name`, `@analysis_category`, `@description`,
`@params[...]`, `@required_columns`, `@modules` and so on. This project models four tools
that read and write such files:

- **The extractor** (`SushiAppParser`). `parse_content` reads an app's fields out of the
  file text with one regular expression per field. `parse_app` adds `App` to the name when
  it is missing and finds the class file. The model builds the regular expressions from
  small matchers (`Patterns`, `Rules`, `Search`), with Ruby's leftmost-match and `scan`
  semantics: `=~` takes the first match from the left, and `scan` restarts after each match.
  `^` and `$` are line anchors, and `\s` includes the line feed.
- **The comparison** (`compare_apps`). It parses two apps. For the required columns, the
  modules, the parameter keys and the methods, it lists what is only in the first app, what
  is only in the second, and what is common. These are Ruby's array `-` and `&`.
- **The categorizer** (`categorize_apps`). It puts each app name into the first of seven
  categories whose pattern matches. It then drops the categories that stay empty.
- **The template generator** (`get_app_template.rb`). It normalises a new app's name. It
  writes either the generic template or a template derived from a parsed base app. Both
  templates are modelled as lists of indented lines, and each line is a list of text chunks.
  The rendered text is the lines joined with line feeds.

The main results are round trips. Parsing a generated template gives back the names, lists,
mode, category, R function, methods and (for the generic template) parameters that went
into it. The extractor's parameter hash is proved to keep the first-seen key order with the
last value written. The categorizer is proved to permute its input into order-preserving
buckets.

Inputs the tools read from the system become parameters. The file system is a map from
each existing path to its text. The library path is a string.

## Model

| member | source | states |
|---|---|---|
| `AppParser.NormalizeClassName` | server/KairosChain_mcp_server/knowledge/sushi/scripts/app_parser.rb:40 | The class name ends in `App`. It is the name itself when the name already ends in `App` (case-sensitive). Otherwise it is the name with `App` appended. |
| `AppParser.NormalizeIdempotent` | server/KairosChain_mcp_server/knowledge/sushi/scripts/app_parser.rb:40 | Normalising an already normalised name changes nothing. |
| `AppParser.JoinPath` | server/KairosChain_mcp_server/knowledge/sushi/scripts/app_parser.rb:42 | `File.join(dir, name)`: a name that starts with `/` follows the directory with all its trailing `/` removed; otherwise a directory ending in `/` is followed directly by the name; otherwise one `/` goes between them, also after an empty directory. |
| `AppParser.ChompSlashes` | server/KairosChain_mcp_server/knowledge/sushi/scripts/app_parser.rb:42 | The directory less its whole trailing run of `/`, and what is left ends in none. |
| `AppParser.JoinSeam` | server/KairosChain_mcp_server/knowledge/sushi/scripts/app_parser.rb:42 | At the seam, the name's leading slashes win, then the directory's trailing ones, else one `/` is added. Slashes elsewhere in either part are kept. |
| `AppParser.JoinCutsRun` | server/KairosChain_mcp_server/knowledge/sushi/scripts/app_parser.rb:42 | `File.join("a//", "/b")` is `a/b`. |
| `AppParser.ParseApp` | server/KairosChain_mcp_server/knowledge/sushi/scripts/app_parser.rb:38-50 | The result is `nil` exactly when the class file is absent. Otherwise it is `parse_content` of that file's text, with the normalised class name and the joined path. |
| `AppParser.ParseContent` | server/KairosChain_mcp_server/knowledge/sushi/scripts/app_parser.rb:52-130 | The class name and path are copied in. Every field holds what its rule can capture: quoted scalars hold no quote, list elements hold no quote, parameter keys are words and values are stripped one-line text, and method names are words. |
| `AppParser.Lookup` | server/KairosChain_mcp_server/knowledge/sushi/scripts/get_app_template.rb:130 | `params[key]` is `nil` exactly when the key was never stored. |
| `AppParser.Upsert` | server/KairosChain_mcp_server/knowledge/sushi/scripts/app_parser.rb:116 | After `params[key] = value`, the key holds the value. A new key goes last, and an existing key keeps its place. |
| `AppParser.UpsertOthers` | server/KairosChain_mcp_server/knowledge/sushi/scripts/app_parser.rb:116 | Storing under one key leaves every other key's value unchanged and adds no other entry. |
| `AppParser.FirstCapture` | server/KairosChain_mcp_server/knowledge/sushi/scripts/app_parser.rb:66-67 | A value is captured exactly when a match exists, and it is that match's first group. |
| `AppParser.Scalar` | server/KairosChain_mcp_server/knowledge/sushi/scripts/app_parser.rb:66-73 | A quoted scalar is a non-empty text with no quote. |
| `AppParser.Elements` | server/KairosChain_mcp_server/knowledge/sushi/scripts/app_parser.rb:88-89 | The elements of a list literal are non-empty texts with no quote. |
| `AppParser.DescriptionOf` | server/KairosChain_mcp_server/knowledge/sushi/scripts/app_parser.rb:76-80 | The description is either a stripped heredoc body or a quoted literal. |
| `AppParser.AddParam` | server/KairosChain_mcp_server/knowledge/sushi/scripts/app_parser.rb:113-117 | One block run: a key with a comma leaves the hash alone; otherwise the key holds the stripped value, an old key keeps its place and a new key goes last. |
| `AppParser.ParamsOf` | server/KairosChain_mcp_server/knowledge/sushi/scripts/app_parser.rb:113-117 | Every key is a word, the keys are distinct, and every value is stripped and on one line. |
| `AppParser.Methods` | server/KairosChain_mcp_server/knowledge/sushi/scripts/app_parser.rb:125-127 | Every method name found is a `\w+` word. |
| `ParserLemmas.NoAssignments` | server/KairosChain_mcp_server/knowledge/sushi/scripts/app_parser.rb:53-110 | A text without `@` leaves unset or empty every field that an `@` pattern fills: the scalars, the lists and the hash. `ezrun_app` and `methods` are read by patterns without `@` and are not covered. |
| `ParserLemmas.EmptyContent` | server/KairosChain_mcp_server/knowledge/sushi/scripts/app_parser.rb:53-63 | The empty file parses to the initial record. |
| `ParserLemmas.CommaCheckDead` | server/KairosChain_mcp_server/knowledge/sushi/scripts/app_parser.rb:113-116 | The comma check never skips a match, because a key captured by `(\w+)` holds no comma. |
| `ParserLemmas.ParamsLastWins` | server/KairosChain_mcp_server/knowledge/sushi/scripts/app_parser.rb:113-117 | The hash's keys are the distinct matched keys in first-seen order. Each key holds the stripped value of its last match, as an independent last-occurrence function defines it. |
| `ParserLemmas.ParamsMeaning` | server/KairosChain_mcp_server/knowledge/sushi/scripts/app_parser.rb:112-117 | The same two facts for the `params` of any parsed text. |
| `DescriptionLemmas.HeredocBody` | server/KairosChain_mcp_server/knowledge/sushi/scripts/app_parser.rb:76-77 | After any text that starts no heredoc, whether or not that text ends a line (so an indented opener counts), `@description = <<TOKEN` or `<<-TOKEN`, for any `\w+` token, gives the body stripped. The body ends at the first later line whose first non-blank text starts with the token, and that terminator may be indented. Body lines may be blank or indented. What follows the terminator does not matter. |
| `DescriptionLemmas.HeredocIndented` | server/KairosChain_mcp_server/knowledge/sushi/scripts/app_parser.rb:76-77 | The heredoc is read wherever its opener sits on a line: any text without `@` may come before `@description = <<TOKEN`, such as a class line, `def initialize` and the indentation. |
| `DescriptionLemmas.HeredocBlank` | server/KairosChain_mcp_server/knowledge/sushi/scripts/app_parser.rb:76-77 | A heredoc with an empty or blank body gives the empty description, not `nil`, whatever the token and the terminator's indent. It holds after any text that starts no heredoc, indented openers included. |
| `DescriptionLemmas.QuotedThenHeredoc` | server/KairosChain_mcp_server/knowledge/sushi/scripts/app_parser.rb:76-79 | When a quoted `@description` comes before a heredoc, the quoted rule alone would give the literal, but the heredoc form wins. |
| `DescriptionLemmas.QuotedFallback` | server/KairosChain_mcp_server/knowledge/sushi/scripts/app_parser.rb:78-79 | Whenever the heredoc pattern finds no match in the whole text, the description is the first quoted literal. The text before it may be anything that starts no quoted match, whether or not it ends a line. |
| `DescriptionLemmas.NoHeredocIn` | server/KairosChain_mcp_server/knowledge/sushi/scripts/app_parser.rb:76-79 | One way to meet `QuotedFallback`'s condition: when nothing before the quoted line starts a heredoc and no `@` follows it, the heredoc pattern finds nothing. |
| `DescriptionLemmas.EmptyNameSkipped` | server/KairosChain_mcp_server/knowledge/sushi/scripts/app_parser.rb:66-68 | `@name = ''` cannot match `[^'"]+`, so a later `@name = 'x'` gives `x`. This holds after any text that starts no name match, indented or not. |
| `Compare.DiffOf` | server/KairosChain_mcp_server/knowledge/sushi/scripts/app_parser.rb:150-154 | Membership in `a - b`, `b - a` and `a & b`, both directions. The one-sided lists keep their input's order. `common` has no repeats. |
| `Compare.CompareStructures` | server/KairosChain_mcp_server/knowledge/sushi/scripts/app_parser.rb:142-171 | The result is `nil` exactly when either app is missing. Otherwise the names, the category and mode pairs, and the four diffs are those of the two records' fields (parameter keys for `params`). |
| `Compare.CompareApps` | server/KairosChain_mcp_server/knowledge/sushi/scripts/app_parser.rb:138-172 | The result is `nil` exactly when either class file is absent. Otherwise every field is stated in terms of the two parsed apps. |
| `CompareLemmas.DiffPartition` | server/KairosChain_mcp_server/knowledge/sushi/scripts/app_parser.rb:150-153 | Every element of an app's list is either only in that app or common, never both. |
| `CompareLemmas.DiffKeepsRepeats` | server/KairosChain_mcp_server/knowledge/sushi/scripts/app_parser.rb:151 | `a - b` keeps every copy of an element absent from `b`. |
| `CompareLemmas.DiffSwap` | server/KairosChain_mcp_server/knowledge/sushi/scripts/app_parser.rb:150-153 | Swapping the apps swaps the one-sided lists and keeps the common elements. |
| `CompareLemmas.DiffSelf` | server/KairosChain_mcp_server/knowledge/sushi/scripts/app_parser.rb:150-153 | A list compared with itself has nothing one-sided, and its common part is the list without repeats. |
| `CompareLemmas.CompareSelf` | server/KairosChain_mcp_server/knowledge/sushi/scripts/app_parser.rb:144-171 | An app compared with itself differs nowhere. |
| `CompareLemmas.ParamsByKey` | server/KairosChain_mcp_server/knowledge/sushi/scripts/app_parser.rb:160-164 | Parameters are compared by key only, whatever the values. |
| `Categorize.Classify` | server/KairosChain_mcp_server/knowledge/sushi/scripts/list_sushi_apps.rb:27-42 | The chosen category's pattern matches the app. |
| `Categorize.InCategory` | server/KairosChain_mcp_server/knowledge/sushi/scripts/list_sushi_apps.rb:26-43 | A category's list holds exactly the apps classified there, in input order. |
| `Categorize.Group` | server/KairosChain_mcp_server/knowledge/sushi/scripts/list_sushi_apps.rb:16-43 | One bucket per category, in the hash literal's order, each holding that category's apps. |
| `Categorize.NonEmpty` | server/KairosChain_mcp_server/knowledge/sushi/scripts/list_sushi_apps.rb:46 | `reject` keeps exactly the non-empty buckets, in order. |
| `Categorize.CategorizeApps` | server/KairosChain_mcp_server/knowledge/sushi/scripts/list_sushi_apps.rb:15-47 | No returned bucket is empty. |
| `CategorizeLemmas.FirstMatchWins` | server/KairosChain_mcp_server/knowledge/sushi/scripts/list_sushi_apps.rb:27-42 | An app goes to a category exactly when that category's pattern matches and no earlier pattern does. |
| `CategorizeLemmas.OtherwiseOther` | server/KairosChain_mcp_server/knowledge/sushi/scripts/list_sushi_apps.rb:40-41 | An app that no named pattern matches is `Other`. |
| `CategorizeLemmas.SingleCellBeforeQc` | server/KairosChain_mcp_server/knowledge/sushi/scripts/list_sushi_apps.rb:28-31 | `ScQcApp` matches both the single-cell and QC patterns and goes to Single Cell. |
| `CategorizeLemmas.StartsLineIsPrefix` | server/KairosChain_mcp_server/knowledge/sushi/scripts/list_sushi_apps.rb:28 | On a one-line name, `^(...)`/i is a case-insensitive prefix test. |
| `CategorizeLemmas.EndsLineIsSuffix` | server/KairosChain_mcp_server/knowledge/sushi/scripts/list_sushi_apps.rb:30 | On a one-line name, `(...)App$`/i is a case-insensitive suffix test. |
| `CategorizeLemmas.ScanFindsAt` | server/KairosChain_mcp_server/knowledge/sushi/scripts/list_sushi_apps.rb:34 | The one-step-at-a-time scan finds a word exactly when it occurs, ignoring case, at some offset. |
| `CategorizeLemmas.ContainsIsScan` | server/KairosChain_mcp_server/knowledge/sushi/scripts/list_sushi_apps.rb:34 | The unanchored `/(Gatk\|Mutect\|...)/i` test holds exactly when the scan finds one of the alternatives. |
| `CategorizeLemmas.Permutation` | server/KairosChain_mcp_server/knowledge/sushi/scripts/list_sushi_apps.rb:26-46 | The buckets together are a permutation of the input. |
| `CategorizeLemmas.BucketContents` | server/KairosChain_mcp_server/knowledge/sushi/scripts/list_sushi_apps.rb:26-46 | A bucket holds exactly the apps whose category has its key, in input order. |
| `CategorizeLemmas.KeyKept` | server/KairosChain_mcp_server/knowledge/sushi/scripts/list_sushi_apps.rb:45-46 | A category's key remains exactly when some app falls in that category. |
| `CategorizeLemmas.KeyOrder` | server/KairosChain_mcp_server/knowledge/sushi/scripts/list_sushi_apps.rb:16-46 | The remaining keys keep the hash literal's order, `Single Cell` through `Other`. |
| `AppTemplate.StripAppSuffix` | server/KairosChain_mcp_server/knowledge/sushi/scripts/get_app_template.rb:186 | `gsub(/App$/i, '')` never lengthens a name. |
| `TemplateLemmas.StripOnce` | server/KairosChain_mcp_server/knowledge/sushi/scripts/get_app_template.rb:186 | On a one-line name, one trailing `App` in any case is removed, and any other name is unchanged. |
| `TemplateLemmas.NamesMeaning` | server/KairosChain_mcp_server/knowledge/sushi/scripts/get_app_template.rb:186-188 | The stem is the name less one `App`. The extractor keeps the class name as written, and normalising the class name gives the stem back. |
| `TemplateLemmas.StemRoundTrip` | server/KairosChain_mcp_server/knowledge/sushi/scripts/get_app_template.rb:186-187 | Stripping the class name gives the stem, even when the stem itself ends in `App`. |
| `AppTemplate.ModulesText` | server/KairosChain_mcp_server/knowledge/sushi/scripts/get_app_template.rb:101 | No modules give `['Dev/R']`; otherwise the modules quoted and joined; never empty. |
| `AppTemplate.ProcessModeOf` | server/KairosChain_mcp_server/knowledge/sushi/scripts/get_app_template.rb:119 | The base's mode when it has one, else `DATASET`. |
| `AppTemplate.CategoryOf` | server/KairosChain_mcp_server/knowledge/sushi/scripts/get_app_template.rb:120 | The base's category when it has one, else `Other`. |
| `AppTemplate.DescriptionLine` | server/KairosChain_mcp_server/knowledge/sushi/scripts/get_app_template.rb:123 | `N/A` when there is no description or it is empty. Otherwise the first line stripped, which holds no line feed and sits in the description after nothing but whitespace. |
| `AppTemplate.CoresOf` | server/KairosChain_mcp_server/knowledge/sushi/scripts/get_app_template.rb:130 | The base's `cores` value when the key is present, else `[8, 1, 2, 4, 8]`. |
| `AppTemplate.RamOf` | server/KairosChain_mcp_server/knowledge/sushi/scripts/get_app_template.rb:132 | The base's `ram` value when the key is present, else `[30, 15, 62]`. |
| `AppTemplate.ScratchOf` | server/KairosChain_mcp_server/knowledge/sushi/scripts/get_app_template.rb:135 | The base's `scratch` value when the key is present, else `[100, 50, 200]`. |
| `AppTemplate.GenericTemplate` | server/KairosChain_mcp_server/knowledge/sushi/scripts/get_app_template.rb:15-98 | The text is a script: it opens with the shebang and encoding lines and ends with a line feed. |
| `AppTemplate.StructureTemplate` | server/KairosChain_mcp_server/knowledge/sushi/scripts/get_app_template.rb:100-176 | The text is a script whose third line is `# Based on:` and the base's class name. |
| `AppTemplate.QuotedList` | server/KairosChain_mcp_server/knowledge/sushi/scripts/get_app_template.rb:102-104 | The rendering is empty exactly when the list is. |
| `TemplateLemmas.QuotedAppend` | server/KairosChain_mcp_server/knowledge/sushi/scripts/get_app_template.rb:102 | Rendering two non-empty lists one after the other puts `, ` between them. |
| `TemplateLemmas.QuotedJoin` | server/KairosChain_mcp_server/knowledge/sushi/scripts/get_app_template.rb:102-104 | The rendering equals an independent definition: each element quoted, then joined by `, `. |
| `TemplateLemmas.DescriptionFirstLine` | server/KairosChain_mcp_server/knowledge/sushi/scripts/get_app_template.rb:123 | Only the description's first line reaches the template: any text after its line feed is dropped, and a first line with no blanks at either end is copied unchanged. |
| `TemplateLemmas.BareBase` | server/KairosChain_mcp_server/knowledge/sushi/scripts/get_app_template.rb:119-143 | For a base file that assigns nothing, the template uses every fallback: `DATASET`, `Other`, `N/A`, the three resource defaults, `Dev/R`, and empty lists. |
| `Text.Strip` | server/KairosChain_mcp_server/knowledge/sushi/scripts/app_parser.rb:116 | `strip`: the result sits in the text with only whitespace or NUL around it, and neither starts nor ends with one. |
| `Search.Find` | server/KairosChain_mcp_server/knowledge/sushi/scripts/app_parser.rb:66 | A reported match is non-empty and lies within the text. |
| `Search.FindHit` | server/KairosChain_mcp_server/knowledge/sushi/scripts/app_parser.rb:66 | What `=~` reports is what the pattern matches at the reported offset. |
| `Search.FindLeftmost` | server/KairosChain_mcp_server/knowledge/sushi/scripts/app_parser.rb:66 | No offset before the reported one matches, and with no report no offset matches. |
| `Search.ScanFind` | server/KairosChain_mcp_server/knowledge/sushi/scripts/app_parser.rb:113 | `scan` is empty exactly when `=~` finds nothing. Otherwise it starts with the groups of `=~`'s match and goes on from that match's end. |
| `ParamScan.RenderParams` | server/KairosChain_mcp_server/knowledge/sushi/scripts/app_parser.rb:113 | On a rendered template, the `@params` scan over the whole text finds the line-by-line assignments. |
| `ParamScan.CollectFresh` | server/KairosChain_mcp_server/knowledge/sushi/scripts/app_parser.rb:113-117 | Matches with new keys and values that `strip` leaves alone each append one entry, in order. |
| `GenericRoundTrip.ParamsOfTemplate` | server/KairosChain_mcp_server/knowledge/sushi/scripts/get_app_template.rb:28-65 | The generic template's parameters read back, in order. They are the mode with its trailing comment, the three resources, the result name, the mail, and `paired` from the line-65 comment. |
| `GenericRoundTrip.PairedLookup` | server/KairosChain_mcp_server/knowledge/sushi/scripts/get_app_template.rb:65 | The hash read back holds `dataset_has_column?('Read2')` under `paired`. |
| `GenericRoundTrip.GenericTemplateRoundTrip` | server/KairosChain_mcp_server/knowledge/sushi/scripts/get_app_template.rb:15-98 | Parsing the generic template gives back the app name, `DATASET`, the category, the four lists, the R function, the five methods and the parameters. |
| `StructureRoundTrip.StructureTemplateRoundTrip` | server/KairosChain_mcp_server/knowledge/sushi/scripts/get_app_template.rb:100-176 | Parsing the template derived from a base gives back the new name, the base's mode and category (or `DATASET`/`Other`), its three lists, its modules (or `Dev/R`), no inherit tags, the R function and the five methods. |

## Left out

- Reading the disk is not modelled. `File.exist?` and `File.read` become a map from each existing path to its text, and `ParseApp` takes that map.
- `AppParser.JoinPath`: models `File.join` for two strings. `File.join` also takes arrays and other argument counts, and those are not modelled.
- `list_apps`, in both the extractor and the categorizer script, is not modelled, because it globs and sorts directory entries. The user filter built with `Regexp.new(filter, Regexp::IGNORECASE)` is also left out, since an arbitrary regular expression is outside the matcher library.
- Printing is not modelled: the command-line blocks, `format_comparison`, `format_structure` and the JSON output.
- Strings are sequences of characters. A file whose bytes are not valid in its encoding would raise in Ruby's `=~` and `scan`, and that error is not modelled.
- `Categorize.Classify`: `/i` is modelled as ASCII case folding. Ruby's `/i` also folds non-ASCII letters.
- The generic template's static lines are rendered as in the source, but only the lines the extractor reads are stated in lemmas. The remaining boilerplate (shebang, `require`, `next_dataset` body, CLI block) is not stated.
- `GenericRoundTrip.GenericTemplateRoundTrip`: does not state the description read back. It also requires the class, app, R function and category names to be one-line text without `@` or `run_RApp`, and the app, R function and category names to be non-empty without quotes. The source accepts any text there.
- `StructureRoundTrip.StructureTemplateRoundTrip`: requires the copied base values (class name, description line, mode, category, list elements, resource values) to hold no `@`, no line feed and no `run_RApp`. The source imposes no such limit, and a description line like `Contact: x@fgcz.ethz.ch` would reparse harmlessly. The lemma also does not state the parameters or the description read back.
- `AppParser.ParseContent`: its own contract states only what each field can hold. The value of each field is stated by the lemmas listed above (parameters, description, name, and the two round trips), not for arbitrary text.
- `DescriptionLemmas.HeredocBody`: the opener is written `@description = <<` with one space on each side of `=`. The pattern's `\s*` allows any whitespace there, including none or a line feed, and that spacing is not covered. It also does not cover the case where the whole token has no terminator and the pattern backs off to a shorter token.
- `DescriptionLemmas.HeredocBlank`: has the same opener restriction as `HeredocBody`.
- `DescriptionLemmas.QuotedThenHeredoc`: the quoted literal holds no `@`, and the opener is spaced as in `HeredocBody`.
- The empty-modules case of the structure template writes `@modules = [['Dev/R']]`, a list nested in a list. The model renders it as written. Parsing it back gives `Dev/R`, because the list rule stops at the first `]`.
