/** String helpers shared by the extractor and the template generator: maximal character
    runs (the greedy `x*` of a regular expression), Ruby's String#strip, the first line of a
    string, and substring occurrence. */
module Text {
  import opened Chars
  import opened Optional

  /** The character classes a greedy run can range over. */
  datatype CharClass = Space | Word | NonQuote | NonBracket | NonNewline

  predicate InClass(k: CharClass, c: char) {
    match k
    case Space => IsSpace(c)
    case Word => IsWord(c)
    case NonQuote => !IsQuote(c)
    case NonBracket => c != ']'
    case NonNewline => c != '\n'
  }

  predicate AllIn(k: CharClass, s: string) {
    forall i | 0 <= i < |s| :: InClass(k, s[i])
  }

  /** Every slice of an all-`k` string is all `k`. */
  lemma AllInSlice(k: CharClass, s: string, i: nat, j: nat)
    requires AllIn(k, s) && i <= j <= |s|
    ensures AllIn(k, s[i..j])
  {
    assert forall x | 0 <= x < j - i :: s[i..j][x] == s[i + x];
  }

  /** Length of the longest prefix of `t` made of class-`k` characters. */
  function Run(k: CharClass, t: string): (n: nat)
    ensures n <= |t|
    ensures AllIn(k, t[..n])
    ensures n < |t| ==> !InClass(k, t[n])
  {
    if |t| > 0 && InClass(k, t[0]) then 1 + Run(k, t[1..]) else 0
  }

  /** A run is determined by where it stops: any all-`k` prefix that is followed by a
      non-`k` character (or the end) is the run. */
  lemma {:induction false} RunUnique(k: CharClass, t: string, n: nat)
    requires n <= |t| && AllIn(k, t[..n])
    requires n < |t| ==> !InClass(k, t[n])
    ensures Run(k, t) == n
  {
    if n > 0 {
      assert InClass(k, t[..n][0]);
      assert t[1..][..n - 1] == t[..n][1..];
      RunUnique(k, t[1..], n - 1);
    }
  }

  /** The run over `w + x`, when `w` is all class `k` and `x` does not continue it. */
  lemma RunOver(k: CharClass, w: string, x: string)
    requires AllIn(k, w)
    requires |x| > 0 ==> !InClass(k, x[0])
    ensures Run(k, w + x) == |w|
  {
    assert (w + x)[..|w|] == w;
    RunUnique(k, w + x, |w|);
  }

  /** A string made only of spaces. */
  predicate Blank(s: string) {
    AllIn(Space, s)
  }

  /** String#lstrip. */
  function LStrip(s: string): (r: string)
    ensures |r| <= |s| && r == s[|s| - |r|..]
    ensures forall i | 0 <= i < |s| - |r| :: IsStripSpace(s[i])
    ensures |r| > 0 ==> !IsStripSpace(r[0])
  {
    if |s| > 0 && IsStripSpace(s[0]) then LStrip(s[1..]) else s
  }

  /** String#rstrip. */
  function RStrip(s: string): (r: string)
    ensures |r| <= |s| && r == s[..|r|]
    ensures forall i | |r| <= i < |s| :: IsStripSpace(s[i])
    ensures |r| > 0 ==> !IsStripSpace(r[|r| - 1])
  {
    if |s| > 0 && IsStripSpace(s[|s| - 1]) then RStrip(s[..|s| - 1]) else s
  }

  predicate AllStripSpace(s: string) {
    forall i | 0 <= i < |s| :: IsStripSpace(s[i])
  }

  /** `r` sits at offset `a` of `s` with only strip-space around it. */
  predicate Framed(s: string, a: nat, r: string) {
    && a + |r| <= |s| && s[a..a + |r|] == r
    && AllStripSpace(s[..a]) && AllStripSpace(s[a + |r|..])
  }

  /** String#strip: the middle of `s` left once whitespace and NUL are removed from both
      ends. */
  function Strip(s: string): (r: string)
    ensures exists a | 0 <= a <= |s| :: Framed(s, a, r)
    ensures |r| > 0 ==> !IsStripSpace(r[0]) && !IsStripSpace(r[|r| - 1])
  {
    var l := LStrip(s);
    var r := RStrip(l);
    LStripFrame(s);
    RStripFrame(l);
    FramedOf(s, |s| - |l|, l, r);
    r
  }

  lemma LStripFrame(s: string)
    ensures var l := LStrip(s); var a := |s| - |l|; s[a..] == l && AllStripSpace(s[..a])
  {
    var l := LStrip(s);
    var a := |s| - |l|;
    forall i | 0 <= i < a ensures IsStripSpace(s[..a][i]) { assert s[..a][i] == s[i]; }
  }

  lemma RStripFrame(l: string)
    ensures var r := RStrip(l); l[..|r|] == r && AllStripSpace(l[|r|..])
  {
    var r := RStrip(l);
    forall i | 0 <= i < |l| - |r| ensures IsStripSpace(l[|r|..][i]) { assert l[|r|..][i] == l[|r| + i]; }
  }

  lemma FramedOf(s: string, a: nat, l: string, r: string)
    requires a <= |s| && s[a..] == l && |r| <= |l| && l[..|r|] == r
    requires AllStripSpace(s[..a]) && AllStripSpace(l[|r|..])
    ensures Framed(s, a, r)
  {
    assert s[a..a + |r|] == l[..|r|];
    assert s[a + |r|..] == l[|r|..];
  }

  /** Stripping a string with no strip-space at either end changes nothing. */
  lemma StripSolid(s: string)
    requires |s| > 0 ==> !IsStripSpace(s[0]) && !IsStripSpace(s[|s| - 1])
    ensures Strip(s) == s
  {
  }

  /** Length of the first line of `s`, without its line feed. */
  function LineEnd(s: string): (n: nat)
    ensures n <= |s| && '\n' !in s[..n]
    ensures n < |s| ==> s[n] == '\n'
  {
    var n := Run(NonNewline, s);
    assert forall i | 0 <= i < n :: s[..n][i] != '\n';
    n
  }

  /** Ruby's `s.lines.first`: the text up to and including the first line feed, or all of
      `s` when it has none; absent for the empty string. */
  function FirstLine(s: string): (r: Option<string>)
    ensures r.None? <==> s == []
    ensures r.Some? ==> 0 < |r.value| && r.value <= s && '\n' !in r.value[..|r.value| - 1]
    ensures r.Some? && |r.value| < |s| ==> r.value[|r.value| - 1] == '\n'
    ensures r.Some? && |r.value| == |s| ==> '\n' !in s[..|s| - 1]
  {
    if s == [] then None
    else
      var n := LineEnd(s);
      if n < |s| then Some(s[..n + 1]) else Some(s)
  }

  /** String#end_with?. */
  predicate EndsWith(s: string, t: string) {
    |t| <= |s| && s[|s| - |t|..] == t
  }

  /** `h` occurs in `s` starting at position `i`. */
  predicate OccursAt(h: string, s: string, i: nat) {
    i + |h| <= |s| && h <= s[i..]
  }

  /** String#include?. */
  predicate Occurs(h: string, s: string) {
    exists i | 0 <= i <= |s| :: OccursAt(h, s, i)
  }

  /** A string lacking one of the characters of `h` does not contain `h`. */
  lemma MissingChar(h: string, s: string, j: nat)
    requires j < |h| && h[j] !in s
    ensures !Occurs(h, s)
  {
    forall i | 0 <= i <= |s|
      ensures !OccursAt(h, s, i)
    {
      if i + |h| <= |s| {
        assert s[i + j] in s;
        assert s[i..][j] != h[j];
      }
    }
  }

  /** `h` does not occur in `x + y` when it occurs in neither part and no occurrence can
      straddle the seam: the first character of `h` appears in the last `|h| - 1`
      characters of `x` nowhere. */
  lemma NotAcross(h: string, x: string, y: string)
    requires |h| > 0 && !Occurs(h, x) && !Occurs(h, y)
    requires forall i | 0 <= i < |x| && |x| < i + |h| :: x[i] != h[0]
    ensures !Occurs(h, x + y)
  {
    forall i | 0 <= i <= |x + y|
      ensures !OccursAt(h, x + y, i)
    {
      if i + |h| <= |x| {
        assert !OccursAt(h, x, i);
        assert (x + y)[i..][..|h|] == x[i..][..|h|];
      } else if i < |x| {
        assert (x + y)[i..][0] != h[0];
      } else {
        assert (x + y)[i..] == y[i - |x|..];
        assert !OccursAt(h, y, i - |x|);
      }
    }
  }
}
