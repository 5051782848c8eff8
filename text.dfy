/** The JavaScript string operations the modelled code relies on:
    `String.prototype.trim`, `String.prototype.split` with a one-character
    separator, `String.prototype.includes` (which is plain `in` here) and
    template literals (`Interpolate`). */
module Text {

  /** `p` occurs somewhere in `s` as a contiguous piece. */
  ghost predicate IsInfix(p: string, s: string) {
    exists k :: 0 <= k <= |s| - |p| && OccursAt(p, s, k)
  }

  /** `p` occurs in `s` starting at index `k`. */
  ghost predicate OccursAt(p: string, s: string, k: nat)
    requires k + |p| <= |s|
  {
    s[k..k + |p|] == p
  }

  lemma InfixOfConcat(a: string, p: string, b: string)
    ensures IsInfix(p, a + p + b)
  {
    var s := a + p + b;
    assert OccursAt(p, s, |a|);
  }

  /** A template literal: the fixed pieces with the interpolated values
      between them, `pieces[0] + values[0] + pieces[1] + ...`. */
  function Interpolate(pieces: seq<string>, values: seq<string>): (s: string)
    requires |pieces| == |values| + 1
    ensures |s| >= |pieces[0]| && s[..|pieces[0]|] == pieces[0]
    decreases |values|
  {
    if values == [] then pieces[0]
    else pieces[0] + values[0] + Interpolate(pieces[1..], values[1..])
  }

  lemma InfixOfSuffix(p: string, a: string, b: string)
    requires IsInfix(p, b)
    ensures IsInfix(p, a + b)
  {
    var k :| 0 <= k <= |b| - |p| && OccursAt(p, b, k);
    assert (a + b)[|a| + k..|a| + k + |p|] == b[k..k + |p|];
    assert OccursAt(p, a + b, |a| + k);
  }

  /** Every interpolated value occurs in the text. */
  lemma {:induction false} InterpolatedValue(pieces: seq<string>, values: seq<string>, i: nat)
    requires |pieces| == |values| + 1 && i < |values|
    ensures IsInfix(values[i], Interpolate(pieces, values))
    decreases i
  {
    var rest := Interpolate(pieces[1..], values[1..]);
    assert Interpolate(pieces, values) == pieces[0] + values[0] + rest;
    if i == 0 {
      InfixOfConcat(pieces[0], values[0], rest);
    } else {
      InterpolatedValue(pieces[1..], values[1..], i - 1);
      InfixOfSuffix(values[i], pieces[0] + values[0], rest);
    }
  }

  /** The characters `trim` removes: ECMAScript WhiteSpace (tab, vertical tab,
      form feed, space, no-break space, byte order mark and the Unicode space
      separators) and LineTerminator (LF, CR, line and paragraph separators). */
  predicate IsJsWhitespace(c: char) {
    c in JsWhitespace
  }

  const JsWhitespace: set<char> := {
    '\t', '\n', '\U{000B}', '\U{000C}', '\r', ' ', '\U{00A0}', '\U{1680}',
    '\U{2000}', '\U{2001}', '\U{2002}', '\U{2003}', '\U{2004}', '\U{2005}',
    '\U{2006}', '\U{2007}', '\U{2008}', '\U{2009}', '\U{200A}',
    '\U{2028}', '\U{2029}', '\U{202F}', '\U{205F}', '\U{3000}', '\U{FEFF}'
  }

  /** Number of whitespace characters at the front of `s`. */
  function LeadingSpace(s: string): (k: nat)
    ensures k <= |s|
    ensures forall i :: 0 <= i < k ==> IsJsWhitespace(s[i])
    ensures k < |s| ==> !IsJsWhitespace(s[k])
    decreases |s|
  {
    if s == [] || !IsJsWhitespace(s[0]) then 0 else 1 + LeadingSpace(s[1..])
  }

  /** Number of whitespace characters at the back of `s`. */
  function TrailingSpace(s: string): (k: nat)
    ensures k <= |s|
    ensures forall i :: |s| - k <= i < |s| ==> IsJsWhitespace(s[i])
    ensures k < |s| ==> !IsJsWhitespace(s[|s| - 1 - k])
    decreases |s|
  {
    if s == [] || !IsJsWhitespace(s[|s| - 1]) then 0 else 1 + TrailingSpace(s[..|s| - 1])
  }

  /** `s.trim()`: the result is the piece of `s` left once every leading and
      every trailing whitespace character is removed; it neither starts nor
      ends with whitespace, and it is empty exactly when `s` is all
      whitespace. */
  function Trim(s: string): (r: string)
    ensures |r| <= |s|
    ensures IsInfix(r, s)
    ensures exists k: nat :: TrimmedAt(s, k, r)
    ensures r == [] <==> forall i :: 0 <= i < |s| ==> IsJsWhitespace(s[i])
    ensures r != [] ==> !IsJsWhitespace(r[0]) && !IsJsWhitespace(r[|r| - 1])
  {
    var k := LeadingSpace(s);
    var n := TrailingSpace(s[k..]);
    var e := |s| - n;
    ScanTrimmed(s, k, n);
    TrimmedPiece(s, k, e);
    s[k..e]
  }

  /** What `LeadingSpace` and `TrailingSpace` say about the piece `s[k..e]`
      left between them. */
  ghost predicate Trimmed(s: string, k: nat, e: nat) {
    && k <= e <= |s|
    && (forall i :: 0 <= i < k ==> IsJsWhitespace(s[i]))
    && (k < |s| ==> !IsJsWhitespace(s[k]))
    && (forall i :: e <= i < |s| ==> IsJsWhitespace(s[i]))
    && (k < e ==> !IsJsWhitespace(s[e - 1]))
  }

  /** `r` is `s[k..]` cut where only whitespace follows, with only whitespace
      before `k`: what is left of `s` once trimmed. */
  ghost predicate TrimmedAt(s: string, k: nat, r: string) {
    k + |r| <= |s| && Trimmed(s, k, k + |r|) && s[k..k + |r|] == r
  }

  /** Only one piece of `s` is what is left once trimmed, so `Trim`'s
      contract fixes its result. */
  lemma TrimmedAtUnique(s: string, k1: nat, r1: string, k2: nat, r2: string)
    requires TrimmedAt(s, k1, r1) && TrimmedAt(s, k2, r2)
    ensures r1 == r2
  {
  }

  /** The scans' own guarantees, read back on `s`: `k` leading and `n`
      trailing whitespace characters of `s[k..]`. */
  lemma ScanTrimmed(s: string, k: nat, n: nat)
    requires k <= |s| && (forall i :: 0 <= i < k ==> IsJsWhitespace(s[i]))
    requires k < |s| ==> !IsJsWhitespace(s[k])
    requires n <= |s| - k && (forall j :: |s| - k - n <= j < |s| - k ==> IsJsWhitespace(s[k..][j]))
    requires n < |s| - k ==> !IsJsWhitespace(s[k..][|s| - k - 1 - n])
    ensures Trimmed(s, k, |s| - n)
  {
    assert forall i :: k <= i < |s| ==> s[i] == s[k..][i - k];
  }

  /** Everything `Trim` promises about the piece left by the scans. */
  lemma TrimmedPiece(s: string, k: nat, e: nat)
    requires Trimmed(s, k, e)
    ensures IsInfix(s[k..e], s)
    ensures s[k..e] == [] <==> forall i :: 0 <= i < |s| ==> IsJsWhitespace(s[i])
    ensures var r := s[k..e]; r != [] ==> !IsJsWhitespace(r[0]) && !IsJsWhitespace(r[|r| - 1])
    ensures TrimmedAt(s, k, s[k..e])
  {
    TrimmedInfix(s, k, e);
    TrimmedEmpty(s, k, e);
    TrimmedEnds(s, k, e);
    assert |s[k..e]| == e - k;
  }

  lemma TrimmedInfix(s: string, k: nat, e: nat)
    requires k <= e <= |s|
    ensures IsInfix(s[k..e], s)
  {
    assert s == s[..k] + s[k..e] + s[e..];
    InfixOfConcat(s[..k], s[k..e], s[e..]);
  }

  lemma TrimmedEmpty(s: string, k: nat, e: nat)
    requires Trimmed(s, k, e)
    ensures s[k..e] == [] <==> forall i :: 0 <= i < |s| ==> IsJsWhitespace(s[i])
  {
    assert |s[k..e]| == e - k;
  }

  lemma TrimmedEnds(s: string, k: nat, e: nat)
    requires Trimmed(s, k, e)
    ensures var r := s[k..e]; r != [] ==> !IsJsWhitespace(r[0]) && !IsJsWhitespace(r[|r| - 1])
  {
    var r := s[k..e];
    if r != [] {
      assert r[0] == s[k] && r[|r| - 1] == s[e - 1];
    }
  }

  /** Index of the first `c` in `s`. */
  function IndexOf(s: string, c: char): (i: nat)
    requires c in s
    ensures i < |s| && s[i] == c && c !in s[..i]
  {
    if s[0] == c then 0
    else
      var i := 1 + IndexOf(s[1..], c);
      assert s[..i] == [s[0]] + s[1..][..i - 1];
      i
  }

  /** Any index that holds `c` with no `c` before it is the one `IndexOf` finds. */
  lemma IndexOfUnique(s: string, c: char, j: nat)
    requires j < |s| && s[j] == c && c !in s[..j]
    ensures IndexOf(s, c) == j
  {
    var i := IndexOf(s, c);
    assert forall m :: 0 <= m < j ==> s[..j][m] == s[m];
    assert forall m :: 0 <= m < i ==> s[..i][m] == s[m];
  }

  /** `s.split(sep)` for a one-character separator: the pieces between the
      separators, in order, none of which holds the separator. */
  function Split(s: string, sep: char): (parts: seq<string>)
    ensures |parts| >= 1
    ensures sep in s <==> |parts| >= 2
    ensures forall p :: p in parts ==> sep !in p
    decreases |s|
  {
    if sep !in s then [s]
    else
      var i := IndexOf(s, sep);
      [s[..i]] + Split(s[i + 1..], sep)
  }

  /** `parts.join(sep)`, the inverse of `Split`. */
  function Join(parts: seq<string>, sep: char): string
    requires |parts| >= 1
  {
    if |parts| == 1 then parts[0] else parts[0] + [sep] + Join(parts[1..], sep)
  }

  lemma {:induction false} JoinSplit(s: string, sep: char)
    ensures Join(Split(s, sep), sep) == s
    decreases |s|
  {
    if sep in s {
      var i := IndexOf(s, sep);
      JoinSplit(s[i + 1..], sep);
      assert s == s[..i] + [sep] + s[i + 1..];
    }
  }

  lemma {:induction false} SplitJoin(parts: seq<string>, sep: char)
    requires |parts| >= 1
    requires forall p :: p in parts ==> sep !in p
    ensures Split(Join(parts, sep), sep) == parts
    decreases |parts|
  {
    if |parts| > 1 {
      SplitJoinStep(parts, sep);
      SplitJoin(parts[1..], sep);
      assert parts == [parts[0]] + parts[1..];
    }
  }

  /** Splitting a join peels off its first part. */
  lemma SplitJoinStep(parts: seq<string>, sep: char)
    requires |parts| > 1 && sep !in parts[0]
    ensures Split(Join(parts, sep), sep) == [parts[0]] + Split(Join(parts[1..], sep), sep)
  {
    var s := Join(parts, sep);
    var rest := Join(parts[1..], sep);
    assert s == parts[0] + [sep] + rest;
    assert s[|parts[0]|] == sep;
    assert s[..|parts[0]|] == parts[0];
    IndexOfUnique(s, sep, |parts[0]|);
    assert s[|parts[0]| + 1..] == rest;
  }

  /** The second piece of a split is the text between the first separator
      and the next one, or the end. */
  lemma SplitSecond(s: string, sep: char)
    requires sep in s
    ensures var rest := s[IndexOf(s, sep) + 1..];
      Split(s, sep)[1] == if sep in rest then rest[..IndexOf(rest, sep)] else rest
  {
    var rest := s[IndexOf(s, sep) + 1..];
    assert Split(s, sep)[1] == Split(rest, sep)[0];
    if sep in rest {
      SplitFirst(rest, sep);
    }
  }

  /** The first piece of a split is the text before the first separator. */
  lemma SplitFirst(s: string, sep: char)
    requires sep in s
    ensures Split(s, sep)[0] == s[..IndexOf(s, sep)]
  {
  }
}
