/** Properties of `categorize_apps`: the rules are tried in order and the first match wins;
    every app lands in exactly one bucket, in input order; the buckets together are the input
    rearranged; and the remaining keys keep the fixed order. */
module CategorizeLemmas {
  import opened Chars
  import opened Lists
  import opened Categorize

  /** The first matching rule decides: an app is put in `c` exactly when `c`'s pattern
      matches it and no pattern tried before `c`'s does. */
  lemma FirstMatchWins(app: string, c: Category)
    ensures Classify(app) == c <==> Matches(c, app) && forall d | Rank(d) < Rank(c) :: !Matches(d, app)
  {
  }

  /** An app no earlier rule matches is `Other`. */
  lemma OtherwiseOther(app: string)
    requires forall d | d != Other :: !Matches(d, app)
    ensures Classify(app) == Other
  {
  }

  /** The single-cell rule comes first: `ScQcApp` matches both it and the QC rule and is put
      under Single Cell. */
  lemma SingleCellBeforeQc()
    ensures Matches(SingleCell, "ScQcApp") && Matches(QC, "ScQcApp")
    ensures Classify("ScQcApp") == SingleCell
  {
    assert LineStartAt("ScQcApp", 0) && SameTextAt("ScQcApp", 0, SingleCellWords[0]);
    assert SameTextAt("ScQcApp", 2, QcWords[0] + "App") && LineEndAt("ScQcApp", 7);
  }

  /** For a name on one line, `^(...)` is a prefix test. */
  lemma StartsLineIsPrefix(s: string, ws: seq<string>)
    requires '\n' !in s
    ensures StartsLine(s, ws) <==> exists k | 0 <= k < |ws| :: SameTextAt(s, 0, ws[k])
  {
    if exists k | 0 <= k < |ws| :: SameTextAt(s, 0, ws[k]) {
      var k :| 0 <= k < |ws| && SameTextAt(s, 0, ws[k]);
      assert LineStartAt(s, 0);
    }
  }

  /** For a name on one line, `(...)App$` is a suffix test. */
  lemma EndsLineIsSuffix(s: string, ws: seq<string>)
    requires '\n' !in s
    ensures EndsLineWithApp(s, ws) <==>
              exists k | 0 <= k < |ws| :: |ws[k]| + 3 <= |s| && SameTextAt(s, |s| - |ws[k]| - 3, ws[k] + "App")
  {
    if exists k | 0 <= k < |ws| :: |ws[k]| + 3 <= |s| && SameTextAt(s, |s| - |ws[k]| - 3, ws[k] + "App") {
      var k :| 0 <= k < |ws| && |ws[k]| + 3 <= |s| && SameTextAt(s, |s| - |ws[k]| - 3, ws[k] + "App");
      assert LineEndAt(s, |s|);
    }
  }

  /** An independent reading of an unanchored `/w/i` test: try offset 0, then search on in
      the rest of the name. */
  predicate ScanFinds(s: string, w: string)
    decreases |s|
  {
    |w| <= |s| && (SameTextAt(s, 0, w) || (0 < |s| && ScanFinds(s[1..], w)))
  }

  /** Moving one character into the name moves every offset by one. */
  lemma ShiftAt(s: string, o: nat, w: string)
    requires 0 < |s|
    ensures SameTextAt(s, o + 1, w) <==> SameTextAt(s[1..], o, w)
  {
    if SameTextAt(s[1..], o, w) {
      forall i | 0 <= i < |w| ensures SameLetter(s[o + 1 + i], w[i]) {
        assert s[1..][o + i] == s[o + 1 + i];
      }
    }
  }

  /** The scan finds `w` exactly when `w` occurs at some offset. */
  lemma {:induction false} ScanFindsAt(s: string, w: string)
    ensures ScanFinds(s, w) <==> exists o | 0 <= o <= |s| :: SameTextAt(s, o, w)
    decreases |s|
  {
    if |s| > 0 {
      ScanFindsAt(s[1..], w);
      if o :| 0 <= o <= |s| && SameTextAt(s, o, w) {
        if o > 0 {
          ShiftAt(s, o - 1, w);
          assert SameTextAt(s[1..], o - 1, w);
        }
      }
      if ScanFinds(s[1..], w) && !SameTextAt(s, 0, w) {
        var o :| 0 <= o <= |s[1..]| && SameTextAt(s[1..], o, w);
        ShiftAt(s, o, w);
        assert SameTextAt(s, o + 1, w);
      }
    }
  }

  /** `/(w1|w2|...)/i` holds exactly when the scan finds one of the alternatives. */
  lemma ContainsIsScan(s: string, ws: seq<string>)
    ensures Contains(s, ws) <==> exists k | 0 <= k < |ws| :: ScanFinds(s, ws[k])
  {
    forall k | 0 <= k < |ws| ensures ScanFinds(s, ws[k]) <==> exists o | 0 <= o <= |s| :: SameTextAt(s, o, ws[k]) {
      ScanFindsAt(s, ws[k]);
    }
  }

  /** The apps of a list of buckets, one bucket after another. */
  function AllApps(bs: seq<Bucket>): seq<string> {
    if |bs| == 0 then [] else bs[0].apps + AllApps(bs[1..])
  }

  /** Dropping the empty buckets drops no app. */
  lemma {:induction false} NonEmptyKeepsApps(bs: seq<Bucket>)
    ensures AllApps(NonEmpty(bs)) == AllApps(bs)
    decreases |bs|
  {
    if |bs| > 0 {
      NonEmptyKeepsApps(bs[1..]);
    }
  }

  /** The apps of the seven categories, counted together. */
  function CategoryCount(apps: seq<string>): multiset<string> {
    Total(c => multiset(InCategory(apps, c)))
  }

  /** The sum of one multiset per category. */
  function Total(f: Category -> multiset<string>): multiset<string> {
    f(SingleCell) + f(QC) + f(Alignment) + f(VariantCalling) + f(DifferentialExpression) + f(Assembly) + f(Other)
  }

  /** Adding one element to one category adds it to the sum. */
  lemma TotalStep(k: Category, a: string, before: Category -> multiset<string>, after: Category -> multiset<string>)
    requires forall c :: after(c) == (if k == c then multiset{a} else multiset{}) + before(c)
    ensures Total(after) == Total(before) + multiset{a}
  {
  }

  lemma GroupApps(apps: seq<string>)
    ensures multiset(AllApps(Group(apps))) == CategoryCount(apps)
  {
    var g := Group(apps);
    assert g[7..] == [];
    assert AllApps(g[6..]) == g[6].apps by { assert g[6..][1..] == g[7..]; }
    assert AllApps(g[5..]) == g[5].apps + AllApps(g[6..]) by { assert g[5..][1..] == g[6..]; }
    assert AllApps(g[4..]) == g[4].apps + AllApps(g[5..]) by { assert g[4..][1..] == g[5..]; }
    assert AllApps(g[3..]) == g[3].apps + AllApps(g[4..]) by { assert g[3..][1..] == g[4..]; }
    assert AllApps(g[2..]) == g[2].apps + AllApps(g[3..]) by { assert g[2..][1..] == g[3..]; }
    assert AllApps(g[1..]) == g[1].apps + AllApps(g[2..]) by { assert g[1..][1..] == g[2..]; }
  }

  /** Each app is counted once, in its own category. */
  lemma {:induction false} CountEach(apps: seq<string>)
    ensures CategoryCount(apps) == multiset(apps)
    decreases |apps|
  {
    if |apps| > 0 {
      CountEach(apps[1..]);
      CountStep(apps);
    }
  }

  /** One more app at the front is counted once more, in its own category. */
  lemma CountStep(apps: seq<string>)
    requires 0 < |apps| && CategoryCount(apps[1..]) == multiset(apps[1..])
    ensures CategoryCount(apps) == multiset(apps)
  {
    var t := apps[1..];
    CountCons(apps);
    MultisetCons(apps);
    AddBoth(CategoryCount(apps), CategoryCount(t), multiset(t), multiset(apps), apps[0]);
  }

  lemma MultisetCons(apps: seq<string>)
    requires 0 < |apps|
    ensures multiset(apps) == multiset(apps[1..]) + multiset{apps[0]}
  {
    assert apps == [apps[0]] + apps[1..];
  }

  lemma AddBoth(x: multiset<string>, y: multiset<string>, z: multiset<string>, w: multiset<string>, a: string)
    requires x == y + multiset{a} && y == z && w == z + multiset{a}
    ensures x == w
  {
  }

  lemma CountCons(apps: seq<string>)
    requires 0 < |apps|
    ensures CategoryCount(apps) == CategoryCount(apps[1..]) + multiset{apps[0]}
  {
    var a := apps[0];
    var t := apps[1..];
    var k := Classify(a);
    var before := c => multiset(InCategory(t, c));
    var after := c => multiset(InCategory(apps, c));
    forall c ensures after(c) == (if k == c then multiset{a} else multiset{}) + before(c) {
      InCategoryCons(apps, c);
    }
    TotalStep(k, a, before, after);
  }

  lemma InCategoryCons(apps: seq<string>, c: Category)
    requires 0 < |apps|
    ensures InCategory(apps, c) == (if Classify(apps[0]) == c then [apps[0]] else []) + InCategory(apps[1..], c)
  {
  }

  /** The buckets together are a rearrangement of the input: no app is lost or repeated. */
  lemma Permutation(apps: seq<string>)
    ensures multiset(AllApps(CategorizeApps(apps))) == multiset(apps)
    ensures |AllApps(CategorizeApps(apps))| == |apps|
  {
    NonEmptyKeepsApps(Group(apps));
    GroupApps(apps);
    CountEach(apps);
    assert |multiset(AllApps(CategorizeApps(apps)))| == |multiset(apps)|;
  }

  /** A bucket holds exactly the apps of its category, in input order. */
  lemma BucketContents(apps: seq<string>, b: Bucket)
    requires b in CategorizeApps(apps)
    ensures exists c :: b == Bucket(Label(c), InCategory(apps, c))
    ensures forall a :: a in b.apps <==> a in apps && Label(Classify(a)) == b.key
    ensures Subseq(b.apps, apps)
  {
    var g := Group(apps);
    var i :| 0 <= i < |g| && g[i] == b;
    LabelsDistinct();
  }

  lemma LabelsDistinct()
    ensures forall c, d | c != d :: Label(c) != Label(d)
  {
  }

  /** A category keeps its key exactly when some app falls in it. */
  lemma KeyKept(apps: seq<string>, c: Category)
    ensures (exists b | b in CategorizeApps(apps) :: b.key == Label(c)) <==> exists a | a in apps :: Classify(a) == c
  {
    var g := Group(apps);
    var r := CategorizeApps(apps);
    var mine := Bucket(Label(c), InCategory(apps, c));
    assert g[Rank(c)] == mine;
    if exists b | b in r :: b.key == Label(c) {
      var b :| b in r && b.key == Label(c);
      var i :| 0 <= i < |g| && g[i] == b;
      LabelsDistinct();
      assert Order[i] == c;
      assert b.apps[0] in InCategory(apps, c);
    }
    if exists a | a in apps :: Classify(a) == c {
      var a :| a in apps && Classify(a) == c;
      assert a in mine.apps;
      assert mine in r;
    }
  }

  /** The keys that remain keep the fixed order of the hash literal. */
  lemma KeyOrder(apps: seq<string>)
    ensures Subseq(Keys(CategorizeApps(apps)), Keys(Group(apps)))
    ensures Keys(Group(apps)) == ["Single Cell", "QC", "Alignment", "Variant Calling",
                                  "Differential Expression", "Assembly", "Other"]
  {
    SubseqMap(CategorizeApps(apps), Group(apps));
  }

  function Keys(bs: seq<Bucket>): (ks: seq<string>)
    ensures |ks| == |bs|
  {
    seq(|bs|, i requires 0 <= i < |bs| => bs[i].key)
  }

  lemma {:induction false} SubseqMap(s: seq<Bucket>, t: seq<Bucket>)
    requires Subseq(s, t)
    ensures Subseq(Keys(s), Keys(t))
    decreases |t|
  {
    if |s| > 0 && |t| > 0 {
      assert Keys(t)[1..] == Keys(t[1..]);
      if s[0] == t[0] {
        assert Keys(s)[1..] == Keys(s[1..]);
        SubseqMap(s[1..], t[1..]);
      } else {
        SubseqMap(s, t[1..]);
        SubseqSkip(Keys(s), Keys(t));
      }
    }
  }
}
