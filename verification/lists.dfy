/** The Ruby array operations the extractor and the differ use: one level of `flatten`,
    `a - b`, `a & b` and `uniq`. */
module Lists {

  /** Concatenation regroups freely; stated once so that long chains need not rediscover it. */
  lemma Assoc<T>(a: seq<T>, b: seq<T>, c: seq<T>)
    ensures a + (b + c) == (a + b) + c
  {
  }

  /** `Array#flatten` of an array of arrays. */
  function Flatten<T>(xss: seq<seq<T>>): seq<T> {
    if |xss| == 0 then [] else xss[0] + Flatten(xss[1..])
  }

  lemma {:induction false} FlattenJoin<T>(a: seq<seq<T>>, b: seq<seq<T>>)
    ensures Flatten(a + b) == Flatten(a) + Flatten(b)
    decreases |a|
  {
    if |a| == 0 {
      assert a + b == b;
    } else {
      assert (a + b)[1..] == a[1..] + b;
      FlattenJoin(a[1..], b);
    }
  }

  /** `s` keeps some of the elements of `t`, in `t`'s order. */
  predicate Subseq<T(==, !new)>(s: seq<T>, t: seq<T>)
    decreases |t|
  {
    if |s| == 0 then true
    else if |t| == 0 then false
    else if s[0] == t[0] then Subseq(s[1..], t[1..])
    else Subseq(s, t[1..])
  }

  /** No element occurs twice. */
  predicate NoDup<T(==, !new)>(s: seq<T>) {
    forall i, j | 0 <= i < j < |s| :: s[i] != s[j]
  }

  /** `Array#-`: the elements of `a` that `b` lacks, in order, repeats kept. */
  function Minus<T(==, !new)>(a: seq<T>, b: seq<T>): (r: seq<T>)
    ensures forall x :: x in r <==> x in a && x !in b
    ensures forall x :: multiset(r)[x] == if x in b then 0 else multiset(a)[x]
    ensures Subseq(r, a)
  {
    if |a| == 0 then []
    else
      var rest := Minus(a[1..], b);
      assert a == [a[0]] + a[1..];
      if a[0] in b then
        SubseqSkip(rest, a);
        rest
      else
        [a[0]] + rest
  }

  /** The elements of `a` that `b` has, in order, repeats kept. */
  function Keep<T(==, !new)>(a: seq<T>, b: seq<T>): (r: seq<T>)
    ensures forall x :: x in r <==> x in a && x in b
    ensures Subseq(r, a)
  {
    if |a| == 0 then []
    else
      var rest := Keep(a[1..], b);
      assert a == [a[0]] + a[1..];
      if a[0] in b then
        [a[0]] + rest
      else
        SubseqSkip(rest, a);
        rest
  }

  /** A subsequence of `t[1..]` is one of `t`. */
  lemma {:induction false} SubseqSkip<T(!new)>(s: seq<T>, t: seq<T>)
    requires 0 < |t| && Subseq(s, t[1..])
    ensures Subseq(s, t)
    decreases |t|, 1
  {
    if |s| > 0 && s[0] == t[0] {
      SubseqTail(s, t[1..]);
    }
  }

  /** Dropping the first element of a subsequence leaves a subsequence. */
  lemma {:induction false} SubseqTail<T(!new)>(s: seq<T>, u: seq<T>)
    requires 0 < |s| && Subseq(s, u)
    ensures Subseq(s[1..], u)
    decreases |u|, 2
  {
    if s[0] != u[0] {
      SubseqTail(s, u[1..]);
    }
    SubseqSkip(s[1..], u);
  }

  /** `Array#uniq`: the first occurrence of every element, in order. */
  function Uniq<T(==, !new)>(s: seq<T>): (r: seq<T>)
    ensures forall x :: x in r <==> x in s
    ensures NoDup(r)
    decreases |s|
  {
    if |s| == 0 then []
    else
      var u := Uniq(s[..|s| - 1]);
      var x := s[|s| - 1];
      assert s == s[..|s| - 1] + [x];
      if x in u then u else u + [x]
  }

  /** The position of the first occurrence of `x` in `s`. */
  function IndexOf<T(==, !new)>(s: seq<T>, x: T): (i: nat)
    requires x in s
    ensures i < |s| && s[i] == x && x !in s[..i]
  {
    if s[0] == x then 0
    else
      var i := IndexOf(s[1..], x);
      assert s[1..][..i] == s[1..i + 1];
      1 + i
  }

  /** `Array#&`: the elements `a` shares with `b`, each once, ordered by where they first
      occur in `a`. */
  function Intersect<T(==, !new)>(a: seq<T>, b: seq<T>): (r: seq<T>)
    ensures forall x :: x in r <==> x in a && x in b
    ensures NoDup(r)
  {
    Uniq(Keep(a, b))
  }

  /** `uniq` keeps its survivors in the order of their first occurrences. */
  lemma {:induction false} UniqOrder<T(!new)>(s: seq<T>, i: nat, j: nat)
    requires i < j < |Uniq(s)|
    ensures IndexOf(s, Uniq(s)[i]) < IndexOf(s, Uniq(s)[j])
    decreases |s|
  {
    var p := s[..|s| - 1];
    var u := Uniq(p);
    var x := s[|s| - 1];
    assert s == p + [x];
    var r := Uniq(s);
    assert forall y | y in p :: IndexOf(s, y) == IndexOf(p, y) by {
      forall y | y in p ensures IndexOf(s, y) == IndexOf(p, y) {
        IndexPrefix(p, x, y);
      }
    }
    if x in u {
      UniqOrder(p, i, j);
    } else if j < |u| {
      UniqOrder(p, i, j);
    } else {
      assert r[j] == x && x !in p;
      assert r[i] == u[i] && u[i] in p;
      assert IndexOf(s, x) == |p| by { IndexLast(p, x); }
    }
  }

  /** An element of `p` is first found in `p + [x]` where it is first found in `p`. */
  lemma {:induction false} IndexPrefix<T(!new)>(p: seq<T>, x: T, y: T)
    requires y in p
    ensures IndexOf(p + [x], y) == IndexOf(p, y)
    decreases |p|
  {
    var s := p + [x];
    if p[0] != y {
      assert s[1..] == p[1..] + [x];
      IndexPrefix(p[1..], x, y);
    }
  }

  /** An element missing from `p` is first found in `p + [x]` at the end. */
  lemma {:induction false} IndexLast<T(!new)>(p: seq<T>, x: T)
    requires x !in p
    ensures IndexOf(p + [x], x) == |p|
    decreases |p|
  {
    var s := p + [x];
    if |p| > 0 {
      assert s[1..] == p[1..] + [x];
      assert x !in p[1..];
      IndexLast(p[1..], x);
    }
  }

  /** `a & b` lists the shared elements by their first occurrence in `a`. */
  lemma IntersectOrder<T(!new)>(a: seq<T>, b: seq<T>, i: nat, j: nat)
    requires i < j < |Intersect(a, b)|
    ensures IndexOf(a, Intersect(a, b)[i]) < IndexOf(a, Intersect(a, b)[j])
  {
    var k := Keep(a, b);
    UniqOrder(k, i, j);
    KeepIndex(a, b, Intersect(a, b)[i], Intersect(a, b)[j]);
  }

  /** Dropping the elements `b` lacks keeps the order of first occurrences. */
  lemma {:induction false} KeepIndex<T(!new)>(a: seq<T>, b: seq<T>, x: T, y: T)
    requires x in Keep(a, b) && y in Keep(a, b)
    requires IndexOf(Keep(a, b), x) < IndexOf(Keep(a, b), y)
    ensures IndexOf(a, x) < IndexOf(a, y)
    decreases |a|
  {
    var k := Keep(a, b);
    if a[0] in b {
      assert k == [a[0]] + Keep(a[1..], b);
      if a[0] != x {
        assert a[0] != y;
        assert k[1..] == Keep(a[1..], b);
        KeepIndex(a[1..], b, x, y);
      }
    } else {
      assert k == Keep(a[1..], b);
      assert a[0] != x && a[0] != y;
      KeepIndex(a[1..], b, x, y);
    }
  }

  /** Every element of `a` is either only in `a` or common, never both. */
  lemma Partition<T(!new)>(a: seq<T>, b: seq<T>, x: T)
    requires x in a
    ensures (x in Minus(a, b)) != (x in Intersect(a, b))
  {
  }

  /** Appending an element not yet present keeps a list free of repeats. */
  lemma NoDupSnoc<T(!new)>(s: seq<T>, x: T)
    requires NoDup(s) && x !in s
    ensures NoDup(s + [x])
  {
  }
}
