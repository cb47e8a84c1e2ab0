/**
 * The JavaScript string operations the core relies on: `trim`, `startsWith`,
 * `endsWith`, `includes`, `indexOf`, `split` and number-to-decimal formatting.
 */
module Text {

  /** ECMAScript WhiteSpace and LineTerminator code points, which `trim` removes. */
  predicate IsWhitespace(c: char) {
    || c == '\t' || c == '\U{B}' || c == '\U{C}' || c == ' '
    || c == '\U{A0}' || c == '\U{FEFF}' || c == '\U{1680}'
    || ('\U{2000}' <= c <= '\U{200A}')
    || c == '\U{202F}' || c == '\U{205F}' || c == '\U{3000}'
    || c == '\n' || c == '\r' || c == '\U{2028}' || c == '\U{2029}'
  }

  predicate AllWhitespace(s: string) {
    forall k :: 0 <= k < |s| ==> IsWhitespace(s[k])
  }

  /** `r` is `s[i..j]`, and everything of `s` before `i` and from `j` on is whitespace. */
  predicate InfixBetweenWhitespace(s: string, r: string, i: int, j: int) {
    0 <= i <= j <= |s| && r == s[i..j] && AllWhitespace(s[..i]) && AllWhitespace(s[j..])
  }

  /**
   * `s.trim()`, one end character at a time: empty exactly when `s` is all
   * whitespace, otherwise it neither starts nor ends with whitespace;
   * `TrimStripsEdges` shows that it is `s` with only its edges removed.
   */
  function Trim(s: string): (r: string)
    ensures |r| <= |s|
    ensures r == [] <==> AllWhitespace(s)
    ensures r != [] ==> !IsWhitespace(r[0]) && !IsWhitespace(r[|r| - 1])
    decreases |s|
  {
    if s == [] then s
    else if IsWhitespace(s[0]) then
      assert forall k :: 1 <= k < |s| ==> s[1..][k - 1] == s[k];
      Trim(s[1..])
    else if IsWhitespace(s[|s| - 1]) then
      assert forall k :: 0 <= k < |s| - 1 ==> s[..|s| - 1][k] == s[k];
      Trim(s[..|s| - 1])
    else s
  }

  /** The trim is the middle of `s`: what it drops before and after is all whitespace. */
  lemma {:induction false} TrimStripsEdges(s: string)
    ensures exists i, j :: InfixBetweenWhitespace(s, Trim(s), i, j)
    decreases |s|
  {
    if s == [] {
      assert Trim(s) == s;
      assert InfixBetweenWhitespace(s, Trim(s), 0, 0);
    } else if IsWhitespace(s[0]) {
      TrimStripsEdges(s[1..]);
      TrimFront(s, Trim(s[1..]));
      assert Trim(s) == Trim(s[1..]);
    } else if IsWhitespace(s[|s| - 1]) {
      TrimStripsEdges(s[..|s| - 1]);
      TrimBack(s, s[..|s| - 1], Trim(s[..|s| - 1]));
      assert Trim(s) == Trim(s[..|s| - 1]);
    } else {
      assert Trim(s) == s;
      assert s[0..|s|] == s && s[..0] == [] && s[|s|..] == [];
      assert InfixBetweenWhitespace(s, Trim(s), 0, |s|);
    }
  }

  /** Putting a whitespace character in front keeps `r` an edge-trimmed infix. */
  lemma TrimFront(s: string, r: string)
    requires s != [] && IsWhitespace(s[0])
    requires exists i, j :: InfixBetweenWhitespace(s[1..], r, i, j)
    ensures exists i, j :: InfixBetweenWhitespace(s, r, i, j)
  {
    var i, j :| InfixBetweenWhitespace(s[1..], r, i, j);
    assert s[1..][i..j] == s[i + 1..j + 1];
    assert s[1..][j..] == s[j + 1..];
    assert s[..i + 1] == [s[0]] + s[1..][..i];
    assert InfixBetweenWhitespace(s, r, i + 1, j + 1);
  }

  /** Putting a whitespace character at the end keeps `r` an edge-trimmed infix. */
  lemma TrimBack(s: string, t: string, r: string)
    requires s != [] && IsWhitespace(s[|s| - 1]) && t == s[..|s| - 1]
    requires exists i, j :: InfixBetweenWhitespace(t, r, i, j)
    ensures exists i, j :: InfixBetweenWhitespace(s, r, i, j)
  {
    var i, j :| InfixBetweenWhitespace(t, r, i, j);
    assert t[i..j] == s[i..j];
    assert t[..i] == s[..i];
    assert s[j..] == t[j..] + [s[|s| - 1]];
    assert InfixBetweenWhitespace(s, r, i, j);
  }

  /** A string that neither starts nor ends with whitespace is its own trim. */
  lemma TrimOfTrimmed(s: string)
    requires s != [] ==> !IsWhitespace(s[0]) && !IsWhitespace(s[|s| - 1])
    ensures Trim(s) == s
  {
  }

  /** Trimming twice is trimming once. */
  lemma TrimIdempotent(s: string)
    ensures Trim(Trim(s)) == Trim(s)
  {
    TrimOfTrimmed(Trim(s));
  }

  predicate StartsWith(s: string, p: string) {
    |p| <= |s| && s[..|p|] == p
  }

  predicate EndsWith(s: string, p: string) {
    |p| <= |s| && s[|s| - |p|..] == p
  }

  /** `s.includes(t)`: `t` starts at some position of `s`. */
  predicate Contains(s: string, t: string)
    decreases |s|
  {
    StartsWith(s, t) || (s != [] && Contains(s[1..], t))
  }

  /** A string never contains a longer one. */
  lemma {:induction false} ContainsShorter(s: string, t: string)
    requires |s| < |t|
    ensures !Contains(s, t)
    decreases |s|
  {
    if s != [] {
      ContainsShorter(s[1..], t);
    }
  }

  /** Between strings of equal length, `includes` is equality. */
  lemma ContainsSameLength(s: string, t: string)
    requires |s| == |t|
    ensures Contains(s, t) <==> s == t
  {
    if s != [] {
      ContainsShorter(s[1..], t);
    }
  }

  /** `s.indexOf(c)`: the first position of `c`, or -1 when it is absent. */
  function IndexOf(s: string, c: char): (r: int)
    ensures -1 <= r < |s|
    ensures r == -1 <==> c !in s
    ensures r >= 0 ==> s[r] == c && c !in s[..r]
  {
    if s == [] then -1
    else if s[0] == c then 0
    else
      var k := IndexOf(s[1..], c);
      if k == -1 then -1 else k + 1
  }

  /** `s.split(sep)` for a one-character separator. */
  function Split(s: string, sep: char): (pieces: seq<string>)
    ensures |pieces| >= 1
    ensures forall k :: 0 <= k < |pieces| ==> sep !in pieces[k]
    decreases |s|
  {
    var i := IndexOf(s, sep);
    if i == -1 then [s] else [s[..i]] + Split(s[i + 1..], sep)
  }

  /** Joins pieces with a separator between consecutive ones (`pieces.join(sep)`). */
  function Join(pieces: seq<string>, sep: char): string
    requires |pieces| >= 1
  {
    if |pieces| == 1 then pieces[0] else pieces[0] + [sep] + Join(pieces[1..], sep)
  }

  /** Joining a first piece in front of other pieces puts one separator between them. */
  lemma JoinCons(head: string, tail: seq<string>, sep: char)
    requires |tail| >= 1
    ensures Join([head] + tail, sep) == head + [sep] + Join(tail, sep)
  {
    assert ([head] + tail)[1..] == tail;
  }

  /** Splitting loses nothing: joining the pieces back gives the original string. */
  lemma {:induction false} SplitJoin(s: string, sep: char)
    ensures Join(Split(s, sep), sep) == s
    decreases |s|
  {
    var i := IndexOf(s, sep);
    if i != -1 {
      var rest := s[i + 1..];
      var pieces := Split(rest, sep);
      assert Split(s, sep) == [s[..i]] + pieces;
      SplitJoin(rest, sep);
      JoinCons(s[..i], pieces, sep);
      assert s == s[..i] + [sep] + rest;
    }
  }

  /** The first separator after a separator-free piece is the one right after it. */
  lemma IndexOfAfterPiece(p: string, sep: char, rest: string)
    requires sep !in p
    ensures IndexOf(p + [sep] + rest, sep) == |p|
  {
    var s := p + [sep] + rest;
    assert s[..|p|] == p;
    assert s[|p|] == sep;
  }

  /** Splitting a separator-free piece, a separator and a rest splits off exactly that piece. */
  lemma SplitAfterPiece(p: string, sep: char, rest: string)
    requires sep !in p
    ensures Split(p + [sep] + rest, sep) == [p] + Split(rest, sep)
  {
    var s := p + [sep] + rest;
    IndexOfAfterPiece(p, sep, rest);
    assert s[..|p|] == p;
    assert s[|p| + 1..] == rest;
  }

  /** Splitting joined separator-free pieces gives the pieces back. */
  lemma {:induction false} JoinSplit(pieces: seq<string>, sep: char)
    requires |pieces| >= 1
    requires forall k :: 0 <= k < |pieces| ==> sep !in pieces[k]
    ensures Split(Join(pieces, sep), sep) == pieces
    decreases |pieces|
  {
    if |pieces| > 1 {
      var rest := Join(pieces[1..], sep);
      assert Join(pieces, sep) == pieces[0] + [sep] + rest;
      SplitAfterPiece(pieces[0], sep, rest);
      JoinSplit(pieces[1..], sep);
      assert pieces == [pieces[0]] + pieces[1..];
    }
  }

  /** Trimmed, non-empty, separator-free pieces survive join, split, trim and filter unchanged. */
  lemma TrimmedPiecesRoundTrip(pieces: seq<string>, sep: char)
    requires |pieces| >= 1
    requires forall k :: 0 <= k < |pieces| ==> TrimmedNonEmpty(pieces[k]) && sep !in pieces[k]
    ensures NonEmptyTrimmed(Split(Join(pieces, sep), sep)) == pieces
  {
    JoinSplit(pieces, sep);
    NonEmptyTrimmedFixpoint(pieces);
  }

  /** Drops one carriage return at the end of a line. */
  function DropCarriageReturn(line: string): string {
    if line != [] && line[|line| - 1] == '\r' then line[..|line| - 1] else line
  }

  /**
   * `s.split(/\r?\n/)`: the pieces between line feeds, each without the one
   * carriage return that may stand before its line feed; the last piece,
   * which no line feed ends, is kept whole.
   */
  function SplitLines(s: string): (lines: seq<string>)
    ensures |lines| == |Split(s, '\n')|
    ensures forall k :: 0 <= k < |lines| - 1 ==> lines[k] == DropCarriageReturn(Split(s, '\n')[k])
    ensures lines[|lines| - 1] == Split(s, '\n')[|lines| - 1]
    decreases |s|
  {
    var i := IndexOf(s, '\n');
    if i == -1 then [s] else [DropCarriageReturn(s[..i])] + SplitLines(s[i + 1..])
  }

  /** Lines contain no line feed, and without carriage returns splitting lines is `split('\n')`, so joining them gives the text back. */
  lemma {:induction false} SplitLinesWithoutCarriageReturn(s: string)
    ensures forall k :: 0 <= k < |SplitLines(s)| ==> '\n' !in SplitLines(s)[k]
    ensures '\r' !in s ==> SplitLines(s) == Split(s, '\n') && Join(SplitLines(s), '\n') == s
    decreases |s|
  {
    var i := IndexOf(s, '\n');
    if i != -1 {
      SplitLinesWithoutCarriageReturn(s[i + 1..]);
      var lines := SplitLines(s);
      assert lines == [DropCarriageReturn(s[..i])] + SplitLines(s[i + 1..]);
      assert '\n' !in s[..i];
      if '\r' !in s && i > 0 {
        assert s[..i][i - 1] == s[i - 1];
      }
    }
    SplitJoin(s, '\n');
  }

  /** `xs.slice(0, n)`: the first `n` elements, or all of them when there are fewer. */
  function Take<T>(xs: seq<T>, n: nat): (r: seq<T>)
    ensures |r| <= n && |r| <= |xs|
    ensures r == xs[..|r|]
    ensures |xs| >= n ==> |r| == n
    ensures |xs| <= n ==> r == xs
  {
    if |xs| <= n then xs else xs[..n]
  }

  /** A line as it leaves `trim()` with `length > 0` checked. */
  predicate TrimmedNonEmpty(s: string) {
    s != [] && !IsWhitespace(s[0]) && !IsWhitespace(s[|s| - 1])
  }

  /** `xs.map(l => l.trim()).filter(l => l.length > 0)`. */
  function NonEmptyTrimmed(xs: seq<string>): (r: seq<string>)
    ensures |r| <= |xs|
    ensures forall k :: 0 <= k < |r| ==> TrimmedNonEmpty(r[k])
  {
    if xs == [] then []
    else
      var t := Trim(xs[0]);
      (if t == [] then [] else [t]) + NonEmptyTrimmed(xs[1..])
  }

  /** A single line is kept as its trim, unless that trim is empty. */
  lemma NonEmptyTrimmedSingle(x: string)
    ensures NonEmptyTrimmed([x]) == if Trim(x) == [] then [] else [Trim(x)]
  {
    assert [x][1..] == [];
  }

  /** Filtering distributes over concatenation, so the kept lines keep their order. */
  lemma {:induction false} NonEmptyTrimmedAppend(a: seq<string>, b: seq<string>)
    ensures NonEmptyTrimmed(a + b) == NonEmptyTrimmed(a) + NonEmptyTrimmed(b)
  {
    if a == [] {
      assert a + b == b;
    } else {
      assert (a + b)[0] == a[0];
      assert (a + b)[1..] == a[1..] + b;
      NonEmptyTrimmedAppend(a[1..], b);
    }
  }

  /** Lines that are already trimmed and non-empty pass through unchanged. */
  lemma {:induction false} NonEmptyTrimmedFixpoint(xs: seq<string>)
    requires forall k :: 0 <= k < |xs| ==> TrimmedNonEmpty(xs[k])
    ensures NonEmptyTrimmed(xs) == xs
  {
    if xs != [] {
      TrimOfTrimmed(xs[0]);
      NonEmptyTrimmedFixpoint(xs[1..]);
    }
  }

  /** Lines that are all whitespace are all dropped. */
  lemma {:induction false} BlankLinesDropped(xs: seq<string>)
    requires forall k :: 0 <= k < |xs| ==> AllWhitespace(xs[k])
    ensures NonEmptyTrimmed(xs) == []
  {
    if xs != [] {
      BlankLinesDropped(xs[1..]);
    }
  }

  /** The decimal digit for 0..9. */
  function DigitChar(d: nat): (c: char)
    requires d < 10
    ensures '0' <= c <= '9' && c as int - '0' as int == d
  {
    ('0' as int + d) as char
  }

  predicate AllDigits(s: string) {
    forall k :: 0 <= k < |s| ==> '0' <= s[k] <= '9'
  }

  /** The number a string of decimal digits denotes. */
  function DigitsValue(s: string): nat
    requires AllDigits(s)
  {
    if s == [] then 0 else DigitsValue(s[..|s| - 1]) * 10 + (s[|s| - 1] as int - '0' as int)
  }

  /** `String(n)` for a non-negative integer: the digits of `n`, without leading zeros. */
  function Decimal(n: nat): (s: string)
    ensures |s| >= 1 && AllDigits(s)
    ensures DigitsValue(s) == n
    ensures s[0] == '0' ==> n == 0
  {
    if n < 10 then [DigitChar(n)]
    else
      var s := Decimal(n / 10) + [DigitChar(n % 10)];
      assert s[..|s| - 1] == Decimal(n / 10);
      s
  }
}
