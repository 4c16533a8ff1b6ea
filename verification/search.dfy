/** Ruby's `=~` and `String#scan`, for any matcher.

    A matcher makes one attempt at the start of a string and reports a `Hit`; `Find` is
    `=~`, the leftmost offset where an attempt succeeds, and `Scan` is `String#scan`, which
    searches again from the end of each match. The `bol` flag says whether the searched
    string starts a line of the whole text: an attempt is told whether `^` holds where it
    starts, which is all the anchors of the extractor need. */
module Search {
  import opened Optional

  /** One successful attempt: how many characters it matched and its capture groups. */
  datatype Hit = Hit(len: nat, caps: seq<string>)

  /** A hit found `at` characters into the searched string. */
  datatype Found = Found(at: nat, hit: Hit)

  /** One attempt at the start of a string, told whether that start begins a line. */
  type Matcher = (string, bool) -> Option<Hit>

  /** `^` at offset `o` of `s`: the start of `s` when `s` starts a line, else just after a
      line feed. */
  predicate BolAt(s: string, o: nat, bol: bool)
    requires o <= |s|
  {
    if o == 0 then bol else s[o - 1] == '\n'
  }

  /** An attempt that matched something, within the string. (An empty match never arises
      from the extractor's rules; it is refused here so that a scan always moves on.) */
  predicate Fits(h: Option<Hit>, s: string) {
    h.Some? && 0 < h.value.len <= |s|
  }

  /** The attempt at offset `o` succeeds. */
  predicate HitsAt(a: Matcher, s: string, bol: bool, o: nat)
    requires o <= |s|
  {
    Fits(a(s[o..], BolAt(s, o, bol)), s[o..])
  }

  function Later(f: Option<Found>, k: nat): (g: Option<Found>)
    ensures g.Some? <==> f.Some?
    ensures g.Some? ==> g.value == Found(f.value.at + k, f.value.hit)
  {
    match f
    case None => None
    case Some(x) => Some(Found(x.at + k, x.hit))
  }

  /** `=~`: the leftmost offset where an attempt succeeds, with its hit. */
  function Find(a: Matcher, s: string, bol: bool): (f: Option<Found>)
    ensures f.Some? ==> 0 < f.value.hit.len && f.value.at + f.value.hit.len <= |s|
    decreases |s|
  {
    if Fits(a(s, bol), s) then Some(Found(0, a(s, bol).value))
    else if |s| == 0 then None
    else Later(Find(a, s[1..], s[0] == '\n'), 1)
  }

  /** What `Find` reports is what the attempt at its offset reports. */
  lemma {:induction false} FindHit(a: Matcher, s: string, bol: bool)
    ensures var f := Find(a, s, bol);
            f.Some? ==> a(s[f.value.at..], BolAt(s, f.value.at, bol)) == Some(f.value.hit)
    decreases |s|
  {
    var f := Find(a, s, bol);
    if Fits(a(s, bol), s) {
      assert s[0..] == s;
    } else if 0 < |s| {
      var g := Find(a, s[1..], s[0] == '\n');
      FindHit(a, s[1..], s[0] == '\n');
      if g.Some? {
        Advance(s, bol, g.value.at + 1);
      }
    }
  }

  /** Moving one character into `s` keeps `^` and the text at every later offset. */
  lemma Advance(s: string, bol: bool, o: nat)
    requires 0 < |s| && 0 < o <= |s|
    ensures s[1..][o - 1..] == s[o..]
    ensures BolAt(s[1..], o - 1, s[0] == '\n') == BolAt(s, o, bol)
  {
  }

  /** `Find` reports the leftmost success: none at any earlier offset, and none at all
      when it reports nothing. */
  lemma {:induction false} FindLeftmost(a: Matcher, s: string, bol: bool, o: nat)
    requires o <= |s|
    requires Find(a, s, bol).Some? ==> o < Find(a, s, bol).value.at
    ensures !HitsAt(a, s, bol, o)
    decreases |s|
  {
    assert s[0..] == s;
    if o > 0 {
      Advance(s, bol, o);
      FindLeftmost(a, s[1..], s[0] == '\n', o - 1);
    }
  }

  /** Conversely, a success at the start is what `Find` reports. */
  lemma FindFirst(a: Matcher, s: string, bol: bool)
    requires Fits(a(s, bol), s)
    ensures Find(a, s, bol) == Some(Found(0, a(s, bol).value))
  {
  }

  /** `String#scan`: the capture groups of every match, searching again from the end of
      each. An attempt that fails moves the search one character on, so the first match
      reported is the leftmost one, as `Find` reports it (`ScanFind`). */
  function Scan(a: Matcher, s: string, bol: bool): (caps: seq<seq<string>>)
    decreases |s|
  {
    var h := a(s, bol);
    if Fits(h, s) then [h.value.caps] + Scan(a, s[h.value.len..], BolAt(s, h.value.len, bol))
    else if |s| == 0 then []
    else Scan(a, s[1..], s[0] == '\n')
  }

  /** No attempt succeeds at any offset of `x` inside `x + y`, for one `y` and one choice of
      line start: the search steps over `x` here (`Inert` asks this for every `y`). */
  ghost predicate Barren(a: Matcher, x: string, y: string, bol: bool) {
    forall o | 0 <= o < |x| :: !HitsAt(a, x + y, bol, o)
  }

  /** A failed attempt at the start sends the search one character on. */
  lemma FindStep(a: Matcher, s: string, bol: bool)
    requires 0 < |s| && !HitsAt(a, s, bol, 0)
    ensures Find(a, s, bol) == Later(Find(a, s[1..], s[0] == '\n'), 1)
  {
    assert s[0..] == s;
  }

  /** A barren stretch stays barren once its first character is dropped. */
  lemma BarrenTail(a: Matcher, x: string, y: string, bol: bool)
    requires 0 < |x| && Barren(a, x, y, bol)
    ensures (x + y)[1..] == x[1..] + y
    ensures Barren(a, x[1..], y, (x + y)[0] == '\n')
  {
    var s := x + y;
    var b := s[0] == '\n';
    assert s[1..] == x[1..] + y;
    forall o | 0 <= o < |x| - 1 ensures !HitsAt(a, x[1..] + y, b, o) {
      Advance(s, bol, o + 1);
      assert !HitsAt(a, s, bol, o + 1);
    }
  }

  lemma LaterLater(f: Option<Found>, j: nat, k: nat)
    ensures Later(Later(f, j), k) == Later(f, j + k)
  {
  }

  /** Searching across a barren stretch is searching what follows it. */
  lemma {:induction false} FindSkip(a: Matcher, x: string, y: string, bol: bool)
    requires Barren(a, x, y, bol)
    ensures Find(a, x + y, bol) == Later(Find(a, y, BolAt(x + y, |x|, bol)), |x|)
    decreases |x|
  {
    if |x| == 0 {
      assert x + y == y;
    } else {
      var b := (x + y)[0] == '\n';
      FindOne(a, x, y, bol);
      FindSkip(a, x[1..], y, b);
      LaterLater(Find(a, y, BolAt(x + y, |x|, bol)), |x| - 1, 1);
    }
  }

  /** One step of `FindSkip`: past the first barren character, with `^` carried along. */
  lemma FindOne(a: Matcher, x: string, y: string, bol: bool)
    requires 0 < |x| && Barren(a, x, y, bol)
    ensures var b := (x + y)[0] == '\n';
            && Find(a, x + y, bol) == Later(Find(a, x[1..] + y, b), 1)
            && Barren(a, x[1..], y, b)
            && BolAt(x[1..] + y, |x| - 1, b) == BolAt(x + y, |x|, bol)
  {
    var s := x + y;
    assert !HitsAt(a, s, bol, 0);
    FindStep(a, s, bol);
    BarrenTail(a, x, y, bol);
    Advance(s, bol, |x|);
  }

  /** A failed attempt at the start sends the scan one character on. */
  lemma ScanDrop(a: Matcher, s: string, bol: bool)
    requires 0 < |s| && !HitsAt(a, s, bol, 0)
    ensures Scan(a, s, bol) == Scan(a, s[1..], s[0] == '\n')
  {
    assert s[0..] == s;
  }

  /** Scanning across a barren stretch is scanning what follows it. */
  lemma {:induction false} ScanSkip(a: Matcher, x: string, y: string, bol: bool)
    requires Barren(a, x, y, bol)
    ensures Scan(a, x + y, bol) == Scan(a, y, BolAt(x + y, |x|, bol))
    decreases |x|
  {
    if |x| == 0 {
      assert x + y == y;
    } else {
      var b := (x + y)[0] == '\n';
      SkipOne(a, x, y, bol);
      ScanSkip(a, x[1..], y, b);
    }
  }

  /** One step of `ScanSkip`: past the first barren character, with `^` carried along. */
  lemma SkipOne(a: Matcher, x: string, y: string, bol: bool)
    requires 0 < |x| && Barren(a, x, y, bol)
    ensures var b := (x + y)[0] == '\n';
            && Scan(a, x + y, bol) == Scan(a, x[1..] + y, b)
            && Barren(a, x[1..], y, b)
            && BolAt(x[1..] + y, |x| - 1, b) == BolAt(x + y, |x|, bol)
  {
    var s := x + y;
    assert !HitsAt(a, s, bol, 0);
    ScanDrop(a, s, bol);
    BarrenTail(a, x, y, bol);
    Advance(s, bol, |x|);
  }

  /** Nothing is found in a string where no attempt succeeds. */
  lemma ScanNone(a: Matcher, s: string, bol: bool)
    requires Barren(a, s, "", bol)
    ensures Scan(a, s, bol) == []
  {
    assert s + "" == s;
    ScanSkip(a, s, "", bol);
  }

  /** A success at the very start is the first match `scan` reports. */
  lemma ScanHit(a: Matcher, s: string, bol: bool)
    requires Fits(a(s, bol), s)
    ensures var h := a(s, bol).value;
            Scan(a, s, bol) == [h.caps] + Scan(a, s[h.len..], BolAt(s, h.len, bol))
  {
  }

  /** The first match `scan` reports is the one `=~` finds, and `scan` goes on from its
      end; when `=~` finds nothing, neither does `scan`. */
  lemma ScanFind(a: Matcher, s: string, bol: bool)
    ensures match Find(a, s, bol)
            case None => Scan(a, s, bol) == []
            case Some(f) =>
              var e := f.at + f.hit.len;
              Scan(a, s, bol) == [f.hit.caps] + Scan(a, s[e..], BolAt(s, e, bol))
  {
    match Find(a, s, bol)
    case None =>
      NothingBarren(a, s, bol);
      ScanNone(a, s, bol);
    case Some(f) =>
      ScanFound(a, s, bol, f);
  }

  /** Where `Find` reports nothing, the whole string is barren. */
  lemma NothingBarren(a: Matcher, s: string, bol: bool)
    requires Find(a, s, bol).None?
    ensures Barren(a, s, "", bol)
  {
    assert s + "" == s;
    forall o | 0 <= o < |s| ensures !HitsAt(a, s + "", bol, o) {
      FindLeftmost(a, s, bol, o);
    }
  }

  lemma ScanFound(a: Matcher, s: string, bol: bool, f: Found)
    requires Find(a, s, bol) == Some(f)
    ensures f.at + f.hit.len <= |s|
    ensures var e := f.at + f.hit.len;
            Scan(a, s, bol) == [f.hit.caps] + Scan(a, s[e..], BolAt(s, e, bol))
  {
    LeftmostBarren(a, s, bol, f);
    ScanSkip(a, s[..f.at], s[f.at..], bol);
    FoundHit(a, s, bol, f);
  }

  /** Everything before the match `Find` reports is barren. */
  lemma LeftmostBarren(a: Matcher, s: string, bol: bool, f: Found)
    requires Find(a, s, bol) == Some(f)
    ensures f.at <= |s| && s[..f.at] + s[f.at..] == s && |s[..f.at]| == f.at
    ensures Barren(a, s[..f.at], s[f.at..], bol)
  {
    var x, y := s[..f.at], s[f.at..];
    assert s == x + y;
    forall o | 0 <= o < |x| ensures !HitsAt(a, x + y, bol, o) {
      FindLeftmost(a, s, bol, o);
    }
  }

  /** Scanning from the match `Find` reports starts with that match. */
  lemma FoundHit(a: Matcher, s: string, bol: bool, f: Found)
    requires Find(a, s, bol) == Some(f)
    ensures var e := f.at + f.hit.len;
            e <= |s| && Scan(a, s[f.at..], BolAt(s, f.at, bol)) == [f.hit.caps] + Scan(a, s[e..], BolAt(s, e, bol))
  {
    FindHit(a, s, bol);
    HitAt(a, s[f.at..], BolAt(s, f.at, bol), f.hit);
    FoundTail(s, bol, f.at, f.hit.len);
  }

  /** `ScanHit` for a known hit. */
  lemma HitAt(a: Matcher, s: string, bol: bool, h: Hit)
    requires a(s, bol) == Some(h) && 0 < h.len <= |s|
    ensures Scan(a, s, bol) == [h.caps] + Scan(a, s[h.len..], BolAt(s, h.len, bol))
  {
  }

  /** `y = s[k..]`, `n` characters further on. */
  lemma FoundTail(s: string, bol: bool, k: nat, n: nat)
    requires 0 < n && k + n <= |s|
    ensures s[k..][n..] == s[k + n..] && BolAt(s[k..], n, BolAt(s, k, bol)) == BolAt(s, k + n, bol)
  {
  }

  /** What holds of the groups of every hit on texts of some kind, where suffixes stay of
      that kind, holds of everything `scan` reports. */
  lemma {:induction false} ScanEvery(a: Matcher, q: string -> bool, p: seq<string> -> bool, s: string, bol: bool)
    requires q(s)
    requires forall t, b | q(t) && a(t, b).Some? :: p(a(t, b).value.caps)
    requires forall t, i {:trigger q(t[i..])} | q(t) && 0 <= i <= |t| :: q(t[i..])
    ensures forall i | 0 <= i < |Scan(a, s, bol)| :: p(Scan(a, s, bol)[i])
    decreases |s|
  {
    var h := a(s, bol);
    if Fits(h, s) {
      var t, c := s[h.value.len..], BolAt(s, h.value.len, bol);
      assert q(s[h.value.len..]);
      ScanEvery(a, q, p, t, c);
      var rest := Scan(a, t, c);
      assert Scan(a, s, bol) == [h.value.caps] + rest;
      forall i | 0 <= i < 1 + |rest| ensures p(([h.value.caps] + rest)[i]) {
        if i > 0 {
          assert ([h.value.caps] + rest)[i] == rest[i - 1];
        }
      }
    } else if 0 < |s| {
      assert q(s[1..]);
      ScanEvery(a, q, p, s[1..], s[0] == '\n');
    }
  }
}
