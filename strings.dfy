/** The Kotlin and Java string operations the app relies on, on `seq<char>`:
    whitespace and blank tests, `trim`, `startsWith`/`endsWith`, `indexOf`,
    `split`, `joinToString`, `substringAfter`/`substringAfterLast`,
    `removeSurrounding`, `readLines` and decimal number text. */
module Strings {
  import opened Wrappers
  import opened Seqs

  /** Kotlin `Char.isWhitespace()`: Java's `Character.isWhitespace` or
      `Character.isSpaceChar`. */
  predicate IsWhitespace(c: char) {
    c == ' ' || c == '\t' || c == '\n' || c == '\U{000B}' || c == '\U{000C}' || c == '\r'
    || ('\U{001C}' <= c <= '\U{001F}')
    || c == '\U{00A0}' || c == '\U{1680}' || ('\U{2000}' <= c <= '\U{200A}')
    || c == '\U{2028}' || c == '\U{2029}' || c == '\U{202F}' || c == '\U{205F}' || c == '\U{3000}'
  }

  /** Kotlin `isBlank()`: empty or whitespace only. */
  predicate IsBlank(s: string) {
    forall i :: 0 <= i < |s| ==> IsWhitespace(s[i])
  }

  predicate StartsWith(s: string, prefix: string) {
    prefix <= s
  }

  predicate EndsWith(s: string, suffix: string) {
    |suffix| <= |s| && s[|s| - |suffix|..] == suffix
  }

  /** `s` with its leading whitespace removed. */
  function TrimStart(s: string): (r: string)
    ensures |r| <= |s| && r == s[|s| - |r|..]
    ensures IsBlank(s[..|s| - |r|])
    ensures r == [] || !IsWhitespace(r[0])
  {
    if s != [] && IsWhitespace(s[0]) then TrimStart(s[1..]) else s
  }

  /** `s` with its trailing whitespace removed. */
  function TrimEnd(s: string): (r: string)
    ensures |r| <= |s| && r == s[..|r|]
    ensures IsBlank(s[|r|..])
    ensures r == [] || !IsWhitespace(r[|r| - 1])
  {
    if s != [] && IsWhitespace(s[|s| - 1]) then TrimEnd(s[..|s| - 1]) else s
  }

  /** Kotlin `trim()`. */
  function Trim(s: string): (r: string)
    ensures r == [] || (!IsWhitespace(r[0]) && !IsWhitespace(r[|r| - 1]))
  {
    TrimEnd(TrimStart(s))
  }

  lemma {:induction false} TrimStartBlank(s: string)
    ensures IsBlank(s) <==> TrimStart(s) == []
  {
    if s != [] && IsWhitespace(s[0]) {
      TrimStartBlank(s[1..]);
      assert IsBlank(s) <==> IsBlank(s[1..]);
    }
  }

  /** A string is blank exactly when trimming leaves nothing. */
  lemma BlankIffTrimEmpty(s: string)
    ensures IsBlank(s) <==> Trim(s) == []
  {
    TrimStartBlank(s);
    var t := TrimStart(s);
    assert t != [] ==> IsBlank(t[|TrimEnd(t)|..]);
  }

  /** Trimming a string without outer whitespace gives it back. */
  lemma TrimNoOuterSpace(s: string)
    requires s != [] ==> !IsWhitespace(s[0]) && !IsWhitespace(s[|s| - 1])
    ensures Trim(s) == s
  {
  }

  /** `sub` occurs in `s` at position `j`. */
  predicate OccursAt(s: string, sub: string, j: int) {
    0 <= j && j + |sub| <= |s| && s[j..j + |sub|] == sub
  }

  /** Kotlin `indexOf(sub)`: the first position where `sub` occurs. */
  function IndexOf(s: string, sub: string): (r: Option<nat>)
    ensures r.Some? ==> OccursAt(s, sub, r.value)
    ensures r.Some? ==> forall j :: 0 <= j < r.value ==> !OccursAt(s, sub, j)
    ensures r.None? <==> forall j :: 0 <= j <= |s| ==> !OccursAt(s, sub, j)
  {
    if OccursAt(s, sub, 0) then Some(0)
    else if s == [] then None
    else
      assert forall j :: 1 <= j <= |s| ==> (OccursAt(s, sub, j) <==> OccursAt(s[1..], sub, j - 1));
      match IndexOf(s[1..], sub)
      case None => None
      case Some(k) => Some(k + 1)
  }

  /** Kotlin `sub in s`. */
  predicate Contains(s: string, sub: string) {
    IndexOf(s, sub).Some?
  }

  /** A witness position is enough to show containment. */
  lemma ContainsAt(s: string, sub: string, j: nat)
    requires OccursAt(s, sub, j)
    ensures Contains(s, sub)
  {
  }

  /** `pre + sub + post` contains `sub`. */
  lemma ContainsMiddle(pre: string, sub: string, post: string)
    ensures Contains(pre + sub + post, sub)
  {
    var s := pre + sub + post;
    assert s[|pre|..|pre| + |sub|] == sub;
    ContainsAt(s, sub, |pre|);
  }

  /** A string starts with what it contains at position 0. */
  lemma ContainsFront(sub: string, post: string)
    ensures Contains(sub + post, sub)
  {
    assert (sub + post)[..|sub|] == sub;
    ContainsAt(sub + post, sub, 0);
  }

  /** Every string contains itself. */
  lemma ContainsSelf(s: string)
    ensures Contains(s, s)
  {
    ContainsFront(s, "");
    assert s + "" == s;
  }

  /** Text put in front keeps what a string contains. */
  lemma ContainsWithin(pre: string, s: string, sub: string)
    requires Contains(s, sub)
    ensures Contains(pre + s, sub)
  {
    var j := IndexOf(s, sub).value;
    assert (pre + s)[|pre| + j..|pre| + j + |sub|] == s[j..j + |sub|];
    ContainsAt(pre + s, sub, |pre| + j);
  }

  /** Kotlin `split(d)` with a non-empty delimiter: the pieces between the
      non-overlapping occurrences of `d`, found from the left; empty pieces,
      trailing ones included, are kept. */
  function Split(s: string, d: string): (r: seq<string>)
    requires |d| > 0
    ensures |r| >= 1
    decreases |s|
  {
    match IndexOf(s, d)
    case None => [s]
    case Some(i) => [s[..i]] + Split(s[i + |d|..], d)
  }

  /** A string without the delimiter splits into itself. */
  lemma SplitNone(s: string, d: string)
    requires |d| > 0 && !Contains(s, d)
    ensures Split(s, d) == [s]
  {
  }

  /** `a + d + b` splits at `d` when `d` does not occur earlier. */
  lemma SplitFirst(a: string, d: string, b: string)
    requires |d| > 0
    requires forall j :: 0 <= j <= |a| ==> !OccursAt(a + d + b, d, j) || j == |a|
    ensures Split(a + d + b, d) == [a] + Split(b, d)
  {
    var s := a + d + b;
    assert OccursAt(s, d, |a|) by { assert s[|a|..|a| + |d|] == d; }
    assert IndexOf(s, d) == Some(|a|);
    assert s[..|a|] == a;
    assert s[|a| + |d|..] == b;
  }

  /** A string that splits into exactly two pieces is those pieces around one
      delimiter, and neither piece holds the delimiter. */
  lemma SplitTwo(s: string, d: string)
    requires |d| > 0 && |Split(s, d)| == 2
    ensures s == Split(s, d)[0] + d + Split(s, d)[1]
    ensures !Contains(Split(s, d)[0], d) && !Contains(Split(s, d)[1], d)
  {
    SplitUnfold(s, d);
    var i := IndexOf(s, d).value;
    var rest := s[i + |d|..];
    SplitUnfold(rest, d);
    SplitMore(rest, d);
    Around(s, i, |d|);
    var a := s[..i];
    forall j | 0 <= j <= |a| ensures !OccursAt(a, d, j) {
      assert j < i ==> !OccursAt(s, d, j);
      OccursInPrefix(s, d, i, j);
    }
  }

  /** A string is its prefix, a middle part and its suffix. */
  lemma Around(s: string, i: nat, n: nat)
    requires i + n <= |s|
    ensures s == s[..i] + s[i..i + n] + s[i + n..]
  {
    assert s[..i] + s[i..i + n] == s[..i + n];
  }

  /** An occurrence in a prefix is an occurrence in the whole string. */
  lemma OccursInPrefix(s: string, d: string, i: int, j: int)
    requires 0 <= i <= |s|
    ensures OccursAt(s[..i], d, j) ==> OccursAt(s, d, j)
  {
    if OccursAt(s[..i], d, j) {
      assert s[..i][j..j + |d|] == s[j..j + |d|];
    }
  }

  /** One step of `Split`. */
  lemma SplitUnfold(s: string, d: string)
    requires |d| > 0
    ensures IndexOf(s, d).None? ==> Split(s, d) == [s]
    ensures IndexOf(s, d).Some? ==>
              Split(s, d) == [s[..IndexOf(s, d).value]] + Split(s[IndexOf(s, d).value + |d|..], d)
  {
    match IndexOf(s, d)
    case None =>
    case Some(i) =>
      assert OccursAt(s, d, i);
  }

  /** A string holding the delimiter splits into at least two pieces. */
  lemma SplitMore(s: string, d: string)
    requires |d| > 0
    ensures Contains(s, d) ==> |Split(s, d)| >= 2
  {
  }

  /** Kotlin `joinToString(sep)`. */
  function Join(xs: seq<string>, sep: string): (r: string)
  {
    if xs == [] then [] else if |xs| == 1 then xs[0] else xs[0] + sep + Join(xs[1..], sep)
  }

  /** A joined list contains each of its items. */
  lemma {:induction false} JoinContains(xs: seq<string>, k: nat, sep: string)
    requires k < |xs|
    ensures Contains(Join(xs, sep), xs[k])
  {
    if |xs| == 1 {
      ContainsSelf(xs[0]);
    } else if k == 0 {
      ContainsFront(xs[0], sep + Join(xs[1..], sep));
      assert xs[0] + (sep + Join(xs[1..], sep)) == Join(xs, sep);
    } else {
      JoinContains(xs[1..], k - 1, sep);
      ContainsWithin(xs[0] + sep, Join(xs[1..], sep), xs[k]);
    }
  }

  /** Joining two non-empty lists puts one separator between their joins. */
  lemma {:induction false} JoinAppend(a: seq<string>, b: seq<string>, sep: string)
    requires a != [] && b != []
    ensures Join(a + b, sep) == Join(a, sep) + sep + Join(b, sep)
  {
    if |a| == 1 {
      assert (a + b)[0] == a[0];
      assert (a + b)[1..] == b;
    } else {
      assert (a + b)[0] == a[0];
      assert (a + b)[1..] == a[1..] + b;
      JoinAppend(a[1..], b, sep);
    }
  }

  lemma PrefixOfAppend(a: string, b: string)
    ensures StartsWith(a + b, a)
  {
    assert (a + b)[..|a|] == a;
  }

  lemma SuffixOfAppend(a: string, b: string)
    ensures EndsWith(a + b, b)
  {
    assert (a + b)[|a|..] == b;
  }

  /** Splitting a join at a separator that occurs in no piece gives the pieces back. */
  lemma {:induction false} SplitJoin(xs: seq<string>, c: char)
    requires |xs| > 0
    requires forall i :: 0 <= i < |xs| ==> c !in xs[i]
    ensures Split(Join(xs, [c]), [c]) == xs
  {
    if |xs| == 1 {
      SplitNoChar(xs[0], c);
    } else {
      var rest := Join(xs[1..], [c]);
      var s := xs[0] + [c] + rest;
      forall j | 0 <= j < |xs[0]|
        ensures !OccursAt(s, [c], j)
      {
        assert s[j] == xs[0][j] && xs[0][j] in xs[0];
        assert s[j..j + 1] == [s[j]];
      }
      SplitFirst(xs[0], [c], rest);
      SplitJoin(xs[1..], c);
    }
  }

  lemma SplitNoChar(s: string, c: char)
    requires c !in s
    ensures Split(s, [c]) == [s]
  {
    forall j | 0 <= j < |s| ensures !OccursAt(s, [c], j) {
      assert s[j] in s;
      assert s[j..j + 1] == [s[j]];
    }
  }

  /** No piece of a split at `c` holds `c`. */
  lemma {:induction false} SplitPiecesFree(s: string, c: char)
    ensures forall i :: 0 <= i < |Split(s, [c])| ==> c !in Split(s, [c])[i]
    decreases |s|
  {
    match IndexOf(s, [c]) {
      case None =>
        forall j | 0 <= j < |s| ensures s[j] != c {
          assert !OccursAt(s, [c], j);
          assert s[j..j + 1] == [s[j]];
        }
      case Some(k) =>
        forall j | 0 <= j < k ensures s[j] != c {
          assert !OccursAt(s, [c], j);
          assert s[j..j + 1] == [s[j]];
        }
        assert c !in s[..k];
        SplitPiecesFree(s[k + 1..], c);
    }
  }

  /** Kotlin `substringAfter(d)`: the text after the first `d`, or the whole
      string when `d` does not occur. */
  function SubstringAfter(s: string, d: string): (r: string)
    ensures Contains(s, d) ==> exists i :: OccursAt(s, d, i) && r == s[i + |d|..]
    ensures !Contains(s, d) ==> r == s
  {
    match IndexOf(s, d)
    case None => s
    case Some(i) => s[i + |d|..]
  }

  /** The first `c` of `a + [c] + b`, when `a` holds no `c`, is the one between them. */
  lemma IndexOfSplit(a: string, c: char, b: string)
    requires c !in a
    ensures IndexOf(a + [c] + b, [c]) == Some(|a|)
  {
    var s := a + [c] + b;
    assert s[|a|..|a| + 1] == [c];
    assert OccursAt(s, [c], |a|);
    forall j | 0 <= j < |a| ensures !OccursAt(s, [c], j) {
      assert s[j..j + 1][0] == a[j];
    }
    assert IndexOf(s, [c]).Some?;
  }

  /** The text after the first `c` of `a + [c] + b`, when `a` holds no `c`, is `b`. */
  lemma SubstringAfterSplit(a: string, c: char, b: string)
    requires c !in a
    ensures SubstringAfter(a + [c] + b, [c]) == b
  {
    IndexOfSplit(a, c, b);
    assert (a + [c] + b)[|a| + 1..] == b;
  }

  /** One leading space is trimmed away. */
  lemma TrimLeadingSpace(q: string)
    requires q != [] && !IsWhitespace(q[0]) && !IsWhitespace(q[|q| - 1])
    ensures Trim(" " + q) == q
  {
    assert (" " + q)[1..] == q;
    TrimNoOuterSpace(q);
  }

  /** Position of the last occurrence of `c`. */
  function LastIndexOf(s: string, c: char): (r: Option<nat>)
    ensures r.Some? ==> r.value < |s| && s[r.value] == c && c !in s[r.value + 1..]
    ensures r.None? <==> c !in s
  {
    if s == [] then None
    else if s[|s| - 1] == c then Some(|s| - 1)
    else
      assert s == s[..|s| - 1] + [s[|s| - 1]];
      LastIndexOf(s[..|s| - 1], c)
  }

  /** Kotlin `substringAfterLast(c)` with the whole string as the missing-delimiter
      value: the text after the last `c`. */
  function SubstringAfterLast(s: string, c: char): (r: string)
    ensures c !in r
    ensures EndsWith(s, r)
    ensures c in s ==> |r| < |s| && s[|s| - |r| - 1] == c
    ensures c !in s ==> r == s
  {
    match LastIndexOf(s, c)
    case None => s
    case Some(i) => s[i + 1..]
  }

  /** The last `c` of `a + [c] + b`, when `b` holds no `c`, is the one between them. */
  lemma {:induction false} LastIndexOfSplit(a: string, c: char, b: string)
    requires c !in b
    ensures LastIndexOf(a + [c] + b, c) == Some(|a|)
  {
    var s := a + [c] + b;
    if b == [] {
      assert s[|s| - 1] == c;
    } else {
      var b' := b[..|b| - 1];
      assert s[|s| - 1] == b[|b| - 1] && b[|b| - 1] in b;
      assert s[..|s| - 1] == a + [c] + b';
      assert c !in b' by {
        assert forall j :: 0 <= j < |b'| ==> b'[j] == b[j];
      }
      LastIndexOfSplit(a, c, b');
    }
  }

  /** The text after the last `c` of `a + [c] + b`, when `b` holds no `c`, is `b`. */
  lemma SubstringAfterLastSplit(a: string, c: char, b: string)
    requires c !in b
    ensures SubstringAfterLast(a + [c] + b, c) == b
  {
    LastIndexOfSplit(a, c, b);
    assert (a + [c] + b)[|a| + 1..] == b;
  }

  /** Kotlin `removeSurrounding(d)`: strips `d` from both ends only when the
      string is long enough and starts and ends with it. */
  function RemoveSurrounding(s: string, d: string): (r: string)
    ensures |s| >= 2 * |d| && StartsWith(s, d) && EndsWith(s, d) ==> s == d + r + d
    ensures !(|s| >= 2 * |d| && StartsWith(s, d) && EndsWith(s, d)) ==> r == s
  {
    if |s| >= 2 * |d| && StartsWith(s, d) && EndsWith(s, d) then s[|d|..|s| - |d|] else s
  }

  predicate IsLineBreak(c: char) {
    c == '\n' || c == '\r'
  }

  /** Position of the first line terminator, or `|s|`. */
  function LineEnd(s: string): (k: nat)
    ensures k <= |s| && (k < |s| ==> IsLineBreak(s[k]))
    ensures forall j :: 0 <= j < k ==> !IsLineBreak(s[j])
  {
    if s == [] || IsLineBreak(s[0]) then 0 else 1 + LineEnd(s[1..])
  }

  /** Kotlin `File.readLines()` (Java `BufferedReader.readLine`): lines end at
      "\n", "\r" or "\r\n"; a final terminator does not start another line. */
  function ReadLines(s: string): (r: seq<string>)
    ensures forall i :: 0 <= i < |r| ==> forall j :: 0 <= j < |r[i]| ==> !IsLineBreak(r[i][j])
    decreases |s|
  {
    if s == [] then []
    else
      var k := LineEnd(s);
      if k == |s| then [s]
      else if s[k] == '\r' && k + 1 < |s| && s[k + 1] == '\n' then [s[..k]] + ReadLines(s[k + 2..])
      else [s[..k]] + ReadLines(s[k + 1..])
  }

  predicate NoLineBreak(s: string) {
    forall j :: 0 <= j < |s| ==> !IsLineBreak(s[j])
  }

  /** A concatenation is one line exactly when both parts are. */
  lemma NoLineBreakAppend(a: string, b: string)
    ensures NoLineBreak(a + b) <==> NoLineBreak(a) && NoLineBreak(b)
  {
    assert forall j :: 0 <= j < |a| ==> (a + b)[j] == a[j];
    assert forall j :: 0 <= j < |b| ==> (a + b)[|a| + j] == b[j];
  }

  /** Three pieces holding neither '\n' nor '\r' make one line. */
  lemma NoLineBreakPieces(a: string, b: string, c: string)
    requires '\n' !in a && '\r' !in a && '\n' !in b && '\r' !in b && '\n' !in c && '\r' !in c
    ensures NoLineBreak(a + b + c)
  {
    NoLineBreakChars(a);
    NoLineBreakChars(b);
    NoLineBreakChars(c);
    NoLineBreakAppend(a, b);
    NoLineBreakAppend(a + b, c);
  }

  /** A string holding neither '\n' nor '\r' is one line. */
  lemma NoLineBreakChars(s: string)
    requires '\n' !in s && '\r' !in s
    ensures NoLineBreak(s)
  {
    assert forall j :: 0 <= j < |s| ==> s[j] in s;
  }

  /** A line followed by "\n" is read as that line. */
  lemma ReadLinesCons(line: string, rest: string)
    requires NoLineBreak(line)
    ensures ReadLines(line + "\n" + rest) == [line] + ReadLines(rest)
  {
    var s := line + "\n" + rest;
    assert LineEnd(s) == |line| by { LineEndAt(s, |line|); }
    assert s[..|line|] == line;
    assert s[|line| + 1..] == rest;
  }

  lemma LineEndAt(s: string, k: nat)
    requires k < |s| && IsLineBreak(s[k])
    requires forall j :: 0 <= j < k ==> !IsLineBreak(s[j])
    ensures LineEnd(s) == k
  {
  }

  /** Reading back lines joined by "\n" gives the lines, when none is empty or
      holds a line terminator. */
  lemma {:induction false} ReadLinesJoin(xs: seq<string>)
    requires forall i :: 0 <= i < |xs| ==> xs[i] != [] && NoLineBreak(xs[i])
    ensures ReadLines(Join(xs, "\n")) == xs
  {
    if |xs| == 1 {
      var s := xs[0];
      assert LineEnd(s) == |s|;
    } else if |xs| > 1 {
      ReadLinesCons(xs[0], Join(xs[1..], "\n"));
      ReadLinesJoin(xs[1..]);
    }
  }

  /** Lines joined by "\n" and followed by another "\n" are read back first. */
  lemma {:induction false} ReadLinesPrefix(xs: seq<string>, rest: string)
    requires xs != []
    requires forall i :: 0 <= i < |xs| ==> NoLineBreak(xs[i])
    ensures ReadLines(Join(xs, "\n") + "\n" + rest) == xs + ReadLines(rest)
  {
    if |xs| == 1 {
      ReadLinesPrefixOne(xs, rest);
    } else {
      ReadLinesPrefix(xs[1..], rest);
      ReadLinesPrefixStep(xs, rest);
    }
  }

  lemma ReadLinesPrefixOne(xs: seq<string>, rest: string)
    requires |xs| == 1 && NoLineBreak(xs[0])
    ensures ReadLines(Join(xs, "\n") + "\n" + rest) == xs + ReadLines(rest)
  {
    assert Join(xs, "\n") == xs[0];
    ReadLinesCons(xs[0], rest);
    assert xs == [xs[0]];
  }

  lemma ReadLinesPrefixStep(xs: seq<string>, rest: string)
    requires |xs| > 1 && NoLineBreak(xs[0])
    requires ReadLines(Join(xs[1..], "\n") + "\n" + rest) == xs[1..] + ReadLines(rest)
    ensures ReadLines(Join(xs, "\n") + "\n" + rest) == xs + ReadLines(rest)
  {
    var j, r := Join(xs[1..], "\n"), ReadLines(rest);
    assert Join(xs, "\n") == xs[0] + "\n" + j;
    ReadLinesConsAfter(xs[0], j, rest, xs[1..] + r);
    ConsAppend(xs, r);
  }

  lemma ConsAppend<T>(xs: seq<T>, r: seq<T>)
    requires xs != []
    ensures [xs[0]] + (xs[1..] + r) == xs + r
  {
    assert xs == [xs[0]] + xs[1..];
  }

  lemma ReadLinesConsAfter(line: string, j: string, rest: string, ys: seq<string>)
    requires NoLineBreak(line) && ReadLines(j + "\n" + rest) == ys
    ensures ReadLines(line + "\n" + j + "\n" + rest) == [line] + ys
  {
    assert line + "\n" + j + "\n" + rest == line + "\n" + (j + "\n" + rest);
    ReadLinesCons(line, j + "\n" + rest);
  }

  /** Decimal text of a natural number. */
  function NatToString(n: nat): (r: string)
    ensures |r| >= 1
    ensures forall i :: 0 <= i < |r| ==> '0' <= r[i] <= '9'
    ensures |r| > 1 ==> r[0] != '0'
  {
    if n < 10 then [DigitChar(n)] else NatToString(n / 10) + [DigitChar(n % 10)]
  }

  function DigitChar(d: nat): (c: char)
    requires d < 10
    ensures '0' <= c <= '9' && c as int - '0' as int == d
  {
    ('0' as int + d) as char
  }

  /** Kotlin `Long.toString()`: a minus sign before negative numbers. */
  function IntToString(i: int): (r: string)
    ensures i >= 0 ==> r == NatToString(i)
    ensures i < 0 ==> r == "-" + NatToString(-i)
  {
    if i < 0 then "-" + NatToString(-i) else NatToString(i)
  }

  /** The value of a string of decimal digits. */
  function DigitsValue(s: string): (n: nat)
    requires forall i :: 0 <= i < |s| ==> '0' <= s[i] <= '9'
  {
    if s == [] then 0 else 10 * DigitsValue(s[..|s| - 1]) + (s[|s| - 1] as int - '0' as int)
  }

  /** Decimal text reads back as the number it was written from. */
  lemma {:induction false} NatToStringValue(n: nat)
    ensures DigitsValue(NatToString(n)) == n
  {
    var r := NatToString(n);
    if n >= 10 {
      var p := NatToString(n / 10);
      assert r == p + [DigitChar(n % 10)];
      assert r[..|r| - 1] == p;
      NatToStringValue(n / 10);
      assert DigitsValue(r) == 10 * DigitsValue(p) + n % 10;
    } else {
      assert r == [DigitChar(n)];
      assert r[..0] == [];
    }
  }

  /** ASCII `uppercaseChar` for the first letter. */
  function UpperAscii(c: char): char {
    if 'a' <= c <= 'z' then (c as int - 32) as char else c
  }

  function LowerAscii(c: char): char {
    if 'A' <= c <= 'Z' then (c as int + 32) as char else c
  }

  /** Kotlin `lowercase()`, restricted to ASCII letters. */
  function Lowercase(s: string): (r: string)
    ensures |r| == |s|
    ensures forall i :: 0 <= i < |s| ==> r[i] == LowerAscii(s[i])
  {
    if s == [] then [] else [LowerAscii(s[0])] + Lowercase(s[1..])
  }

  /** Kotlin `replaceFirstChar { it.uppercase() }`, restricted to ASCII letters. */
  function CapitalizeFirst(s: string): (r: string)
    ensures |r| == |s|
    ensures s != [] ==> r[0] == UpperAscii(s[0]) && r[1..] == s[1..]
  {
    if s == [] then [] else [UpperAscii(s[0])] + s[1..]
  }
}
