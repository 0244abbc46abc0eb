/** The string operations of Rust's `str` that the decoders rely on:
    `matches(c).count()`, `split(c)`, `split_once(c)`, `chars().rev()`,
    `trim()`, `lines()` and the ASCII filter of the section matcher.
    Strings are sequences of Unicode scalar values (`char`). */
module Text {
  import opened Results

  /** Number of occurrences of `c` in `s` (`s.matches(c).count()`). */
  function Count(s: string, c: char): (n: nat)
    ensures n <= |s|
    ensures n == 0 <==> c !in s
  {
    if s == [] then 0 else Count(s[1..], c) + (if s[0] == c then 1 else 0)
  }

  lemma {:induction false} CountAppend(a: string, b: string, c: char)
    ensures Count(a + b, c) == Count(a, c) + Count(b, c)
  {
    if a != [] {
      assert (a + b)[0] == a[0];
      assert (a + b)[1..] == a[1..] + b;
      CountAppend(a[1..], b, c);
    } else {
      assert a + b == b;
    }
  }

  /** Index of the first `d` in `s`, if any. */
  function IndexOf(s: string, d: char): (r: Option<nat>)
    ensures r.None? <==> d !in s
    ensures r.Some? ==> r.value < |s| && s[r.value] == d && d !in s[..r.value]
  {
    if s == [] then None
    else if s[0] == d then Some(0)
    else
      match IndexOf(s[1..], d)
      case None => None
      case Some(k) =>
        assert s[..k + 1] == [s[0]] + s[1..][..k];
        Some(k + 1)
  }

  /** The first `d` of `a + [d] + b` is the one after `a`, when `a` has none. */
  lemma {:induction false} IndexOfAt(a: string, b: string, d: char)
    requires d !in a
    ensures IndexOf(a + [d] + b, d) == Some(|a|)
  {
    if a != [] {
      assert (a + [d] + b)[0] == a[0];
      assert (a + [d] + b)[1..] == a[1..] + [d] + b;
      IndexOfAt(a[1..], b, d);
    }
  }

  /** The pieces joined back with `d`: the inverse of `Split`. */
  function Join(pieces: seq<string>, d: char): string
    requires |pieces| >= 1
  {
    if |pieces| == 1 then pieces[0] else pieces[0] + [d] + Join(pieces[1..], d)
  }

  /** `s.split(d)`: the pieces between occurrences of `d`; never empty
      (the facts about its pieces are in `SplitFacts`). */
  function Split(s: string, d: char): (r: seq<string>)
    ensures |r| >= 1
    decreases |s|
  {
    match IndexOf(s, d)
    case None => [s]
    case Some(k) => [s[..k]] + Split(s[k + 1..], d)
  }

  /** One more piece than there are `d`s; the pieces are the maximal
      `d`-free stretches, and joining them with `d` gives `s` back. */
  lemma {:induction false} SplitFacts(s: string, d: char)
    ensures |Split(s, d)| == Count(s, d) + 1
    ensures forall i :: 0 <= i < |Split(s, d)| ==> d !in Split(s, d)[i]
    ensures Join(Split(s, d), d) == s
    decreases |s|
  {
    match SplitOnce(s, d)
    case None =>
      SplitNoDelimiter(s, d);
    case Some((a, b)) =>
      SplitFacts(b, d);
      SplitOnceSplit(s, d);
      PiecesCons(a, Split(b, d), d);
  }

  /** Joining and the delimiter-freedom of pieces, one piece at a time. */
  lemma PiecesCons(a: string, q: seq<string>, d: char)
    requires |q| >= 1 && d !in a
    requires forall i :: 0 <= i < |q| ==> d !in q[i]
    ensures Join([a] + q, d) == a + [d] + Join(q, d)
    ensures forall i :: 0 <= i < |[a] + q| ==> d !in ([a] + q)[i]
  {
    assert ([a] + q)[1..] == q;
  }

  lemma {:induction false} SplitNoDelimiter(s: string, d: char)
    requires d !in s
    ensures Split(s, d) == [s]
  {
  }

  /** Splitting at a first occurrence of `d` peels off the piece before it. */
  lemma {:induction false} SplitAppend(a: string, b: string, d: char)
    requires d !in a
    ensures Split(a + [d] + b, d) == [a] + Split(b, d)
  {
    var s := a + [d] + b;
    IndexOfAt(a, b, d);
    assert s[..|a|] == a;
    assert s[|a| + 1..] == b;
  }

  /** The text of four fields and a tail joined by `d`, as the nested
      concatenation that `SplitStep` peels. */
  lemma Nested(a: string, b: string, c: string, e: string, f: string, d: char)
    ensures a + [d] + b + [d] + c + [d] + e + [d] + f == a + [d] + (b + [d] + (c + [d] + (e + [d] + f)))
    ensures a + [d] + b + [d] + c + [d] + e == a + [d] + (b + [d] + (c + [d] + e))
  {
  }

  /** The pieces of `a + [d] + t` one by one: `a`, then those of `t`. */
  lemma SplitStep(a: string, t: string, d: char)
    requires d !in a
    ensures |Split(a + [d] + t, d)| >= 2
    ensures Split(a + [d] + t, d)[0] == a && Split(a + [d] + t, d)[1..] == Split(t, d)
  {
    SplitAppend(a, t, d);
    Peeled1(Split(a + [d] + t, d), a, Split(t, d));
  }

  /** Joining `d`-free pieces and splitting again gives the pieces back. */
  lemma {:induction false} SplitJoin(pieces: seq<string>, d: char)
    requires |pieces| >= 1
    requires forall i :: 0 <= i < |pieces| ==> d !in pieces[i]
    ensures Split(Join(pieces, d), d) == pieces
  {
    if |pieces| == 1 {
      SplitNoDelimiter(pieces[0], d);
    } else {
      SplitJoin(pieces[1..], d);
      SplitAppend(pieces[0], Join(pieces[1..], d), d);
      assert [pieces[0]] + pieces[1..] == pieces;
    }
  }

  /** Three delimiter-free fields joined by `d` split back into themselves. */
  lemma SplitThree(a: string, b: string, c: string, d: char)
    requires d !in a && d !in b && d !in c
    ensures Split(a + [d] + b + [d] + c, d) == [a, b, c]
  {
    var t2 := b + [d] + c;
    assert a + [d] + b + [d] + c == a + [d] + t2;
    SplitAppend(a, t2, d);
    SplitAppend(b, c, d);
    SplitNoDelimiter(c, d);
    assert [a] + ([b] + [c]) == [a, b, c];
  }

  /** Five delimiter-free fields joined by `d` split back into themselves. */
  lemma SplitFive(a: string, b: string, c: string, e: string, f: string, d: char)
    requires d !in a && d !in b && d !in c && d !in e && d !in f
    ensures Split(a + [d] + b + [d] + c + [d] + e + [d] + f, d) == [a, b, c, e, f]
  {
    var t4 := e + [d] + f;
    var t3 := c + [d] + t4;
    var t2 := b + [d] + t3;
    Nested(a, b, c, e, f, d);
    SplitAppend(a, t2, d);
    SplitAppend(b, t3, d);
    SplitAppend(c, t4, d);
    SplitAppend(e, f, d);
    SplitNoDelimiter(f, d);
    ListFive(a, b, c, e, f);
  }

  lemma ListFive<T>(a: T, b: T, c: T, e: T, f: T)
    ensures [a] + ([b] + ([c] + ([e] + [f]))) == [a, b, c, e, f]
  {
  }

  /** Splitting text joined at a delimiter splits each side. */
  lemma {:induction false} SplitConcat(a: string, b: string, d: char)
    ensures Split(a + [d] + b, d) == Split(a, d) + Split(b, d)
    decreases |a|
  {
    match SplitOnce(a, d)
    case None =>
      SplitNoDelimiter(a, d);
      SplitAppend(a, b, d);
    case Some((a1, a2)) =>
      var b2 := a2 + [d] + b;
      assert a + [d] + b == a1 + [d] + b2;
      SplitAppend(a1, b2, d);
      SplitConcat(a2, b, d);
      SplitOnceSplit(a, d);
      ConsAssoc(a1, Split(a2, d), Split(b, d));
  }

  lemma ConsAssoc<T>(x: T, p: seq<T>, q: seq<T>)
    ensures [x] + (p + q) == [x] + p + q
  {
  }

  /** What is known of a list of pieces once its first ones are known;
      kept generic so that no list of pieces is unfolded on the way. */
  lemma Peeled1<T>(p: seq<T>, a: T, q: seq<T>)
    requires p == [a] + q
    ensures |p| == 1 + |q| && p[0] == a && p[1..] == q
  {
  }

  lemma Peeled2<T>(p: seq<T>, a: T, b: T, q: seq<T>)
    requires p == [a] + ([b] + q)
    ensures |p| == 2 + |q| && p[0] == a && p[1] == b && p[2..] == q
  {
    assert p[2..] == q;
  }

  lemma Peeled3<T>(p: seq<T>, a: T, b: T, c: T, q: seq<T>)
    requires p == [a] + ([b] + ([c] + q))
    ensures |p| == 3 + |q| && p[0] == a && p[1] == b && p[2] == c && p[3..] == q
  {
    assert p[3..] == q;
  }

  lemma Peeled4<T>(p: seq<T>, a: T, b: T, c: T, e: T, q: seq<T>)
    requires p == [a] + ([b] + ([c] + ([e] + q)))
    ensures |p| == 4 + |q| && p[0] == a && p[1] == b && p[2] == c && p[3] == e && p[4..] == q
  {
    assert p[4..] == q;
  }

  /** `s.split_once(d)`: the text before and after the first `d`. */
  function SplitOnce(s: string, d: char): (r: Option<(string, string)>)
    ensures r.None? <==> d !in s
    ensures r.Some? ==> s == r.value.0 + [d] + r.value.1 && d !in r.value.0
  {
    match IndexOf(s, d)
    case None => None
    case Some(k) =>
      assert s == s[..k] + [d] + s[k + 1..];
      Some((s[..k], s[k + 1..]))
  }

  /** `split_once` is determined by its two defining facts. */
  lemma SplitOnceAt(a: string, b: string, d: char)
    requires d !in a
    ensures SplitOnce(a + [d] + b, d) == Some((a, b))
  {
    var s := a + [d] + b;
    IndexOfAt(a, b, d);
    assert s[..|a|] == a;
    assert s[|a| + 1..] == b;
  }

  /** `split_once` agrees with the first piece of `split`. */
  lemma SplitOnceSplit(s: string, d: char)
    requires SplitOnce(s, d).Some?
    ensures Split(s, d) == [SplitOnce(s, d).value.0] + Split(SplitOnce(s, d).value.1, d)
    ensures Count(s, d) == Count(SplitOnce(s, d).value.1, d) + 1
  {
    var (a, b) := SplitOnce(s, d).value;
    SplitAppend(a, b, d);
    CountAppend(a, [d] + b, d);
    CountAppend([d], b, d);
    assert a + [d] + b == a + ([d] + b);
  }

  /** `s.chars().rev().collect()`. */
  function Reverse(s: string): (r: string)
    ensures |r| == |s|
    ensures forall i :: 0 <= i < |s| ==> r[i] == s[|s| - 1 - i]
  {
    if s == [] then [] else Reverse(s[1..]) + [s[0]]
  }

  lemma ReverseReverse(s: string)
    ensures Reverse(Reverse(s)) == s
  {
  }

  lemma ReverseAppend(a: string, b: string)
    ensures Reverse(a + b) == Reverse(b) + Reverse(a)
  {
  }

  lemma ReverseMember(s: string, c: char)
    ensures c in Reverse(s) <==> c in s
  {
    if c in s {
      var i :| 0 <= i < |s| && s[i] == c;
      assert Reverse(s)[|s| - 1 - i] == c;
    }
  }

  /** The characters Rust's `char::is_whitespace` accepts (Unicode White_Space). */
  predicate IsWhitespace(c: char)
  {
    || c == ' ' || c == '\t' || c == '\n' || c == '\r'
    || c == '\U{000B}' || c == '\U{000C}' || c == '\U{0085}' || c == '\U{00A0}'
    || c == '\U{1680}' || ('\U{2000}' <= c <= '\U{200A}') || c == '\U{2028}'
    || c == '\U{2029}' || c == '\U{202F}' || c == '\U{205F}' || c == '\U{3000}'
  }

  function TrimStart(s: string): (r: string)
    ensures |r| <= |s| && r == s[|s| - |r|..]
    ensures r == [] || !IsWhitespace(r[0])
    ensures forall i :: 0 <= i < |s| - |r| ==> IsWhitespace(s[i])
  {
    if s != [] && IsWhitespace(s[0]) then
      var r := TrimStart(s[1..]);
      assert forall i :: 1 <= i < |s| - |r| ==> s[i] == s[1..][i - 1];
      r
    else s
  }

  function TrimEnd(s: string): (r: string)
    ensures |r| <= |s| && r == s[..|r|]
    ensures r == [] || !IsWhitespace(r[|r| - 1])
    ensures forall i :: |r| <= i < |s| ==> IsWhitespace(s[i])
  {
    if s != [] && IsWhitespace(s[|s| - 1]) then
      var r := TrimEnd(s[..|s| - 1]);
      assert forall i :: |r| <= i < |s| - 1 ==> s[i] == s[..|s| - 1][i];
      r
    else s
  }

  /** `s.trim()`: `s` without its leading and trailing whitespace. */
  function Trim(s: string): (r: string)
    ensures r == [] || (!IsWhitespace(r[0]) && !IsWhitespace(r[|r| - 1]))
  {
    TrimEnd(TrimStart(s))
  }

  /** A string that neither starts nor ends with whitespace is its own trim. */
  lemma TrimFixed(s: string)
    requires s == [] || (!IsWhitespace(s[0]) && !IsWhitespace(s[|s| - 1]))
    ensures Trim(s) == s
  {
  }

  lemma TrimIdempotent(s: string)
    ensures Trim(Trim(s)) == Trim(s)
  {
    TrimFixed(Trim(s));
  }

  /** The trimmed, non-empty lines, in order. */
  function NonBlank(raw: seq<string>): (r: seq<string>)
    ensures |r| <= |raw|
    ensures forall i :: 0 <= i < |r| ==> r[i] != [] && Trim(r[i]) == r[i]
  {
    if raw == [] then []
    else
      var t := Trim(raw[0]);
      var rest := NonBlank(raw[1..]);
      if t == [] then rest
      else
        TrimIdempotent(raw[0]);
        [t] + rest
  }

  /** One line is kept, trimmed, exactly when it is not blank. */
  lemma NonBlankOne(x: string)
    ensures NonBlank([x]) == if Trim(x) == [] then [] else [Trim(x)]
  {
  }

  /** The filter keeps the lines of each part in order. */
  lemma {:induction false} NonBlankAppend(a: seq<string>, b: seq<string>)
    ensures NonBlank(a + b) == NonBlank(a) + NonBlank(b)
  {
    if a != [] {
      assert (a + b)[0] == a[0];
      assert (a + b)[1..] == a[1..] + b;
      NonBlankAppend(a[1..], b);
    } else {
      assert a + b == b;
    }
  }

  /** Only leading and trailing whitespace is removed: the trim is the
      stretch of `s` from `k` on that `TrimStart` leaves, and everything
      outside it is whitespace. */
  lemma TrimEnds(s: string)
    ensures var k := |s| - |TrimStart(s)|;
      && k + |Trim(s)| <= |s| && Trim(s) == s[k..k + |Trim(s)|]
      && (forall i :: 0 <= i < k ==> IsWhitespace(s[i]))
      && (forall i :: k + |Trim(s)| <= i < |s| ==> IsWhitespace(s[i]))
  {
    TrimStretch(s);
    TrimAfter(s);
  }

  /** The trim is the first part of what `TrimStart` leaves. */
  lemma TrimStretch(s: string)
    ensures var k := |s| - |TrimStart(s)|;
      k + |Trim(s)| <= |s| && Trim(s) == s[k..k + |Trim(s)|]
  {
    var t := TrimStart(s);
    var u := TrimEnd(t);
    var k := |s| - |t|;
    assert t == s[k..] && u == t[..|u|];
    SliceOfSlice(s, k, |u|);
  }

  lemma SliceOfSlice<T>(s: seq<T>, k: nat, n: nat)
    requires k + n <= |s|
    ensures s[k..][..n] == s[k..k + n]
  {
  }

  /** What follows the trim in `s` is whitespace. */
  lemma TrimAfter(s: string)
    ensures forall i :: |s| - |TrimStart(s)| + |Trim(s)| <= i < |s| ==> IsWhitespace(s[i])
  {
    var t := TrimStart(s);
    var u := TrimEnd(t);
    var k := |s| - |t|;
    forall i | k + |u| <= i < |s|
      ensures IsWhitespace(s[i])
    {
      assert s[i] == t[i - k];
    }
  }

  /** `s.lines().map(|l| l.trim()).filter(|l| !l.is_empty())`.  Rust's
      `lines` also drops a `\r` before each `\n` and a final empty line;
      both disappear in the trim and the filter as well. */
  function Lines(s: string): (r: seq<string>)
    ensures forall i :: 0 <= i < |r| ==> r[i] != [] && Trim(r[i]) == r[i]
  {
    NonBlank(Split(s, '\n'))
  }

  /** The lines of a document are its `\n`-separated pieces, trimmed, with
      the blank ones dropped, in order. */
  lemma LinesOf(pieces: seq<string>)
    requires |pieces| >= 1
    requires forall i :: 0 <= i < |pieces| ==> '\n' !in pieces[i]
    ensures Lines(Join(pieces, '\n')) == NonBlank(pieces)
  {
    SplitJoin(pieces, '\n');
  }

  /** `line.chars().filter(|c| c.is_ascii()).collect()`. */
  function AsciiOnly(s: string): (r: string)
    ensures |r| <= |s|
    ensures forall i :: 0 <= i < |r| ==> r[i] < '\U{0080}'
    ensures (forall i :: 0 <= i < |s| ==> s[i] < '\U{0080}') ==> r == s
  {
    if s == [] then []
    else (if s[0] < '\U{0080}' then [s[0]] else []) + AsciiOnly(s[1..])
  }

  /** One character is kept exactly when it is ASCII. */
  lemma AsciiOnlyOne(c: char)
    ensures AsciiOnly([c]) == if c < '\U{0080}' then [c] else []
  {
  }

  /** The filter keeps the ASCII characters of each part, in order. */
  lemma {:induction false} AsciiOnlyAppend(a: string, b: string)
    ensures AsciiOnly(a + b) == AsciiOnly(a) + AsciiOnly(b)
  {
    if a != [] {
      assert (a + b)[0] == a[0];
      assert (a + b)[1..] == a[1..] + b;
      AsciiOnlyAppend(a[1..], b);
    } else {
      assert a + b == b;
    }
  }

  /** A leading non-ASCII character is dropped. */
  lemma AsciiOnlyDrop(c: char, s: string)
    requires c >= '\U{0080}'
    ensures AsciiOnly([c] + s) == AsciiOnly(s)
  {
    assert ([c] + s)[1..] == s;
  }

  /** The last piece of `s.split(d)` (`next_back()`, which always exists). */
  function LastPiece(s: string, d: char): (r: string)
    ensures d !in r
  {
    var pieces := Split(s, d);
    SplitFacts(s, d);
    pieces[|pieces| - 1]
  }

  /** Peeling off the text before a first `d` keeps the last piece. */
  lemma {:induction false} LastPieceCons(a: string, b: string, d: char)
    requires d !in a
    ensures LastPiece(a + [d] + b, d) == LastPiece(b, d)
  {
    SplitAppend(a, b, d);
    var p, q := Split(a + [d] + b, d), Split(b, d);
    assert p == [a] + q;
    assert p[|p| - 1] == q[|q| - 1];
  }

  /** The last piece is what follows the last delimiter. */
  lemma LastPieceAfter(a: string, b: string, d: char)
    requires d !in b
    ensures LastPiece(a + [d] + b, d) == b
  {
    SplitConcat(a, b, d);
    SplitNoDelimiter(b, d);
  }

  /** The last piece is the text after the last `d`: a `d`-free suffix of
      `s` that is either all of `s` or preceded by a `d`. */
  lemma {:induction false} LastPieceSuffix(s: string, d: char)
    ensures |LastPiece(s, d)| <= |s|
    ensures s[|s| - |LastPiece(s, d)|..] == LastPiece(s, d)
    ensures |LastPiece(s, d)| == |s| || s[|s| - |LastPiece(s, d)| - 1] == d
    decreases |s|
  {
    match SplitOnce(s, d)
    case None =>
      SplitNoDelimiter(s, d);
    case Some((a, b)) =>
      LastPieceCons(a, b, d);
      LastPieceSuffix(b, d);
      SuffixAfter(a, b, d, LastPiece(b, d));
  }

  /** A suffix of `b` that is all of `b` or follows a `d` is a suffix of
      `a + [d] + b` that follows a `d`. */
  lemma SuffixAfter(a: string, b: string, d: char, r: string)
    requires |r| <= |b| && b[|b| - |r|..] == r && (|r| == |b| || b[|b| - |r| - 1] == d)
    ensures var s := a + [d] + b; |r| < |s| && s[|s| - |r|..] == r && s[|s| - |r| - 1] == d
  {
    var s := a + [d] + b;
    assert s[|s| - |r|..] == b[|b| - |r|..];
    assert s[|s| - |r| - 1] == (if |r| == |b| then d else b[|b| - |r| - 1]);
  }
}
