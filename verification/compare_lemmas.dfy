/** Properties of the differ: every element of an app lands in exactly one of its two
    buckets, the result does not depend on which app is first except for the order of
    `common`, and an app compared with itself differs in nothing. */
module CompareLemmas {
  import opened Optional
  import opened Lists
  import opened AppParser
  import opened Compare

  /** Every element of the first list is either only in it or common, never both; likewise
      for the second. */
  lemma DiffPartition(a: seq<string>, b: seq<string>, x: string)
    ensures x in a ==> (x in DiffOf(a, b).onlyIn1) != (x in DiffOf(a, b).common)
    ensures x in b ==> (x in DiffOf(a, b).onlyIn2) != (x in DiffOf(a, b).common)
  {
    if x in a {
      Partition(a, b, x);
    }
  }

  /** `a - b` keeps the repeats of what it keeps: as many copies as `a` has. */
  lemma DiffKeepsRepeats(a: seq<string>, b: seq<string>, x: string)
    requires x !in b
    ensures multiset(DiffOf(a, b).onlyIn1)[x] == multiset(a)[x]
  {
  }

  /** Swapping the apps swaps the two one-sided lists, and `common` has the same elements,
      ordered by the other app. */
  lemma DiffSwap(a: seq<string>, b: seq<string>)
    ensures DiffOf(b, a).onlyIn1 == DiffOf(a, b).onlyIn2
    ensures DiffOf(b, a).onlyIn2 == DiffOf(a, b).onlyIn1
    ensures forall x :: x in DiffOf(b, a).common <==> x in DiffOf(a, b).common
  {
  }

  /** `Keep(a, b)` is all of `a` when `b` has every element of `a`. */
  lemma {:induction false} KeepAll(a: seq<string>, b: seq<string>)
    requires forall x | x in a :: x in b
    ensures Keep(a, b) == a
    decreases |a|
  {
    if |a| > 0 {
      KeepAll(a[1..], b);
      assert a == [a[0]] + a[1..];
    }
  }

  /** Nothing is only on one side of a list compared with itself; `common` is the list
      without repeats. */
  lemma DiffSelf(a: seq<string>)
    ensures DiffOf(a, a) == Diff([], [], Uniq(a))
  {
    KeepAll(a, a);
  }

  /** `uniq` leaves a list without repeats as it is. */
  lemma {:induction false} UniqNoDup(s: seq<string>)
    requires NoDup(s)
    ensures Uniq(s) == s
    decreases |s|
  {
    if |s| > 0 {
      var p := s[..|s| - 1];
      assert NoDup(p);
      UniqNoDup(p);
      assert s == p + [s[|s| - 1]];
      assert s[|s| - 1] !in p;
    }
  }

  /** An app compared with itself: every one-sided list is empty, `common` lists its columns,
      modules and methods once each and all of its parameter names, and the pairs hold the
      same value twice. */
  lemma CompareSelf(name: string, s: AppStructure)
    requires WellFormed(s)
    ensures var c := CompareStructures(name, name, Some(s), Some(s)).value;
            && c.requiredColumns == Diff([], [], Uniq(s.requiredColumns))
            && c.modules == Diff([], [], Uniq(s.modules))
            && c.params == Diff([], [], Keys(s.params))
            && c.methods == Diff([], [], Uniq(s.methods))
            && c.analysisCategory.first == c.analysisCategory.second
            && c.processMode.first == c.processMode.second
  {
    DiffSelf(s.requiredColumns);
    DiffSelf(s.modules);
    DiffSelf(Keys(s.params));
    UniqNoDup(Keys(s.params));
    DiffSelf(s.methods);
  }

  /** Parameters are compared by name only: two apps whose parameter hashes have the same
      keys in the same order compare as having the same parameters, whatever the values. */
  lemma ParamsByKey(s1: AppStructure, s2: AppStructure, t2: AppStructure)
    requires Keys(s2.params) == Keys(t2.params)
    ensures CompareStructures("a", "b", Some(s1), Some(s2)).value.params
         == CompareStructures("a", "b", Some(s1), Some(t2)).value.params
  {
  }
}
