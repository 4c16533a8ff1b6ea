/** What the template generator does with the names and values it is given: the command
    line's name normalisation, the rendering of string lists, and the values it falls back on
    when the base app leaves a field unset. */
module TemplateLemmas {
  import opened Chars
  import opened Text
  import opened Optional
  import opened AppParser
  import opened AppTemplate
  import opened ParserLemmas

  // ---- name normalisation ----

  /** `s` ends in `app`, in any case. */
  predicate EndsInApp(s: string) {
    3 <= |s| && SameLetter(s[|s| - 3], 'a') && SameLetter(s[|s| - 2], 'p') && SameLetter(s[|s| - 1], 'p')
  }

  /** On a one-line name the normalisation removes one trailing `App`, in any case, and
      leaves every other name as it is. */
  lemma {:induction false} StripOnce(s: string)
    requires '\n' !in s
    ensures EndsInApp(s) ==> StripAppSuffix(s) == s[..|s| - 3]
    ensures !EndsInApp(s) ==> StripAppSuffix(s) == s
  {
    if |s| == 0 {
    } else if 3 <= |s| && SameLetter(s[0], 'a') && SameLetter(s[1], 'p') && SameLetter(s[2], 'p')
              && (|s| == 3 || s[3] == '\n') {
      assert |s| == 3 && s[3..] == "";
    } else {
      var t := s[1..];
      assert '\n' !in t by {
        forall i | 0 <= i < |t| ensures t[i] != '\n' { assert t[i] == s[i + 1]; }
      }
      StripOnce(t);
      if 4 <= |s| {
        assert t[|t| - 3] == s[|s| - 3] && t[|t| - 2] == s[|s| - 2] && t[|t| - 1] == s[|s| - 1];
        assert EndsInApp(s) <==> EndsInApp(t);
        if EndsInApp(s) {
          assert s[..|s| - 3] == [s[0]] + t[..|t| - 3];
        } else {
          assert s == [s[0]] + t;
        }
      } else {
        assert !EndsInApp(s) && !EndsInApp(t);
        assert s == [s[0]] + t;
      }
    }
  }

  /** The three names the command line derives from the new app's name. */
  datatype Names = Names(stem: string, className: string, ezrunName: string)

  /** `gsub(/App$/i, '')`, then `"#{n}App"` and `"EzApp#{n}"`. */
  function NamesFor(newAppName: string): (n: Names)
    ensures n.className == ClassName(n.stem) && n.ezrunName == EzrunName(n.stem)
  {
    var stem := StripAppSuffix(newAppName);
    Names(stem, ClassName(stem), EzrunName(stem))
  }

  lemma AppTail(stem: string)
    ensures EndsInApp(stem + "App") && (stem + "App")[..|stem|] == stem
  {
    assert (stem + "App")[|stem|..] == "App";
  }

  /** For a one-line name: the stem is the name less one trailing `App`, in any case; the
      class name ends in `App`, so the extractor's normalisation keeps it; and normalising
      the class name again gives back the stem. */
  lemma NamesMeaning(newAppName: string)
    requires '\n' !in newAppName
    ensures var n := NamesFor(newAppName);
            && (EndsInApp(newAppName) ==> n.stem == newAppName[..|newAppName| - 3])
            && (!EndsInApp(newAppName) ==> n.stem == newAppName)
            && NormalizeClassName(n.className) == n.className
            && NamesFor(n.className).stem == n.stem
  {
    StripOnce(newAppName);
    var n := NamesFor(newAppName);
    assert '\n' !in n.stem by {
      if EndsInApp(newAppName) {
        forall i | 0 <= i < |n.stem| ensures n.stem[i] != '\n' { assert n.stem[i] == newAppName[i]; }
      }
    }
    StemRoundTrip(n.stem);
    assert EndsWith(n.className, "App") by { assert n.className[|n.className| - 3..] == "App"; }
  }

  /** Normalising a class name gives back its stem, and only one `App` goes: the stem
      `FooApp` has the class name `FooAppApp`, which normalises to `FooApp` again. */
  lemma StemRoundTrip(stem: string)
    requires '\n' !in stem
    ensures StripAppSuffix(ClassName(stem)) == stem
  {
    var c := ClassName(stem);
    AppTail(stem);
    assert '\n' !in c by {
      forall i | 0 <= i < |c| ensures c[i] != '\n' {
        if i < |stem| { assert c[i] == stem[i]; }
      }
    }
    StripOnce(c);
  }

  // ---- string lists ----

  /** `"'#{x}'"`. */
  function QuoteOne(x: string): string {
    "'" + x + "'"
  }

  /** `xs.join(', ')`, built from the last element backwards. */
  function JoinComma(xs: seq<string>): string {
    if |xs| == 0 then ""
    else if |xs| == 1 then xs[0]
    else JoinComma(xs[..|xs| - 1]) + ", " + xs[|xs| - 1]
  }

  /** Every element quoted. */
  function QuoteAll(xs: seq<string>): (qs: seq<string>)
    ensures |qs| == |xs| && forall i | 0 <= i < |xs| :: qs[i] == QuoteOne(xs[i])
  {
    if |xs| == 0 then [] else [QuoteOne(xs[0])] + QuoteAll(xs[1..])
  }

  /** Rendering two non-empty lists one after the other puts `, ` between them. */
  lemma {:induction false} QuotedAppend(xs: seq<string>, ys: seq<string>)
    requires xs != [] && ys != []
    ensures QuotedList(xs + ys) == QuotedList(xs) + ", " + QuotedList(ys)
  {
    if |xs| == 1 {
      assert (xs + ys)[0] == xs[0] && (xs + ys)[1..] == ys;
    } else {
      assert (xs + ys)[0] == xs[0] && (xs + ys)[1..] == xs[1..] + ys;
      QuotedAppend(xs[1..], ys);
    }
  }

  /** The rendering is the quoted elements joined by `, `. */
  lemma {:induction false} QuotedJoin(xs: seq<string>)
    ensures QuotedList(xs) == JoinComma(QuoteAll(xs))
  {
    if |xs| >= 2 {
      var init := xs[..|xs| - 1];
      assert xs == init + [xs[|xs| - 1]];
      QuotedAppend(init, [xs[|xs| - 1]]);
      QuotedJoin(init);
      var qs := QuoteAll(xs);
      assert qs[..|qs| - 1] == QuoteAll(init);
    }
  }

  // ---- the fallbacks ----

  /** Only the first line of the description reaches the template: whatever follows its
      line feed is dropped, and a first line with no blanks at either end is copied as it
      is. */
  lemma DescriptionFirstLine(w: string, z: string)
    requires '\n' !in w
    ensures DescriptionLine(Some(w + "\n" + z)) == DescriptionLine(Some(w + "\n"))
    ensures |w| > 0 && !IsStripSpace(w[0]) && !IsStripSpace(w[|w| - 1]) ==>
              DescriptionLine(Some(w + "\n" + z)) == w
  {
    FirstLineOf(w, z);
    FirstLineOf(w, "");
    assert w + "\n" + "" == w + "\n";
    if |w| > 0 && !IsStripSpace(w[0]) && !IsStripSpace(w[|w| - 1]) {
      assert IsStripSpace('\n');
      assert (w + "\n")[..|w|] == w;
      assert RStrip(w + "\n") == RStrip(w);
      assert LStrip(w + "\n") == w + "\n";
    }
  }

  /** The first line of `w + "\n" + z` is `w` and its line feed. */
  lemma FirstLineOf(w: string, z: string)
    requires '\n' !in w
    ensures FirstLine(w + "\n" + z) == Some(w + "\n")
  {
    var s := w + "\n" + z;
    assert s[..|w|] == w;
    assert AllIn(NonNewline, w) by {
      forall i | 0 <= i < |w| ensures InClass(NonNewline, w[i]) { assert w[i] in w; }
    }
    RunUnique(NonNewline, s, |w|);
    assert s[..|w| + 1] == w + "\n";
  }

  /** A base app whose file assigns nothing: the new template falls back to the `DATASET`
      mode, the `Other` category, `N/A` for the description, the three resource defaults,
      the module `Dev/R`, and empty column and parameter lists. */
  lemma BareBase(content: string, className: string, filePath: string)
    requires '@' !in content
    ensures var base := ParseContent(content, className, filePath);
            && ProcessModeOf(base) == "DATASET" && CategoryOf(base) == "Other"
            && DescriptionLine(base.description) == "N/A"
            && CoresOf(base) == "[8, 1, 2, 4, 8]" && RamOf(base) == "[30, 15, 62]"
            && ScratchOf(base) == "[100, 50, 200]"
            && ModulesText(base.modules) == "['Dev/R']"
            && QuotedList(base.requiredColumns) == "" && QuotedList(base.requiredParams) == ""
            && QuotedList(base.inheritColumns) == ""
  {
    NoAssignments(content, className, filePath);
  }
}
