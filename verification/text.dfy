/**
 * The few JavaScript string operations the core relies on, written out:
 * `trim`, `split` on one character, `toLowerCase`, `includes`, `startsWith`,
 * `replace` with a string pattern (first occurrence only) and the decimal
 * rendering of a non-negative integer inside a template string.
 */
module Text {

  /** JavaScript's WhiteSpace and LineTerminator characters, which `trim` removes. */
  predicate IsJsSpace(c: char) {
    c in {'\t', '\n', '\U{000B}', '\U{000C}', '\r', ' ', '\U{00A0}', '\U{1680}',
          '\U{2000}', '\U{2001}', '\U{2002}', '\U{2003}', '\U{2004}', '\U{2005}',
          '\U{2006}', '\U{2007}', '\U{2008}', '\U{2009}', '\U{200A}',
          '\U{2028}', '\U{2029}', '\U{202F}', '\U{205F}', '\U{3000}', '\U{FEFF}'}
  }

  /** `String.prototype.trim`: white space removed from both ends. */
  function Trim(s: string): (r: string)
    ensures |r| <= |s|
    ensures r == [] || (!IsJsSpace(r[0]) && !IsJsSpace(r[|r| - 1]))
    decreases |s|
  {
    if s != [] && IsJsSpace(s[0]) then Trim(s[1..])
    else if s != [] && IsJsSpace(s[|s| - 1]) then Trim(s[..|s| - 1])
    else s
  }

  /** `s` is `Trim(s)` with only white space before it at `i` and only white space after it. */
  ghost predicate TrimmedAt(s: string, r: string, i: int) {
    0 <= i && i + |r| <= |s| && r == s[i..i + |r|]
    && (forall k :: 0 <= k < i ==> IsJsSpace(s[k]))
    && (forall k :: i + |r| <= k < |s| ==> IsJsSpace(s[k]))
  }

  /** A leading space in front of a trimmed piece moves the piece one place on. */
  lemma TrimmedAtDropFirst(s: string, r: string, i: int)
    requires s != [] && IsJsSpace(s[0]) && TrimmedAt(s[1..], r, i)
    ensures TrimmedAt(s, r, i + 1)
  {
    assert s[i + 1..i + 1 + |r|] == s[1..][i..i + |r|];
    forall k | 0 <= k < i + 1
      ensures IsJsSpace(s[k])
    {
      if k > 0 {
        assert s[k] == s[1..][k - 1];
      }
    }
    forall k | i + 1 + |r| <= k < |s|
      ensures IsJsSpace(s[k])
    {
      assert s[k] == s[1..][k - 1];
    }
  }

  /** A trailing space after a trimmed piece leaves the piece where it was. */
  lemma TrimmedAtDropLast(s: string, r: string, i: int)
    requires s != [] && IsJsSpace(s[|s| - 1]) && TrimmedAt(s[..|s| - 1], r, i)
    ensures TrimmedAt(s, r, i)
  {
    assert s[i..i + |r|] == s[..|s| - 1][i..i + |r|];
    forall k | 0 <= k < i
      ensures IsJsSpace(s[k])
    {
      assert s[k] == s[..|s| - 1][k];
    }
    forall k | i + |r| <= k < |s|
      ensures IsJsSpace(s[k])
    {
      if k < |s| - 1 {
        assert s[k] == s[..|s| - 1][k];
      }
    }
  }

  /** What `Trim` removes is white space, and what it keeps is one contiguous piece of `s`. */
  lemma {:induction false} TrimRemovesOnlySpace(s: string)
    ensures exists i :: TrimmedAt(s, Trim(s), i)
    decreases |s|
  {
    var r := Trim(s);
    if s != [] && IsJsSpace(s[0]) {
      TrimRemovesOnlySpace(s[1..]);
      var i :| TrimmedAt(s[1..], r, i);
      TrimmedAtDropFirst(s, r, i);
    } else if s != [] && IsJsSpace(s[|s| - 1]) {
      TrimRemovesOnlySpace(s[..|s| - 1]);
      var i :| TrimmedAt(s[..|s| - 1], r, i);
      TrimmedAtDropLast(s, r, i);
    } else {
      assert TrimmedAt(s, r, 0);
    }
  }

  /** `s.split(sep)` for a one-character separator: never empty, as in JavaScript. */
  function Split(s: string, sep: char): (parts: seq<string>)
    ensures |parts| >= 1
    ensures forall p :: p in parts ==> sep !in p
  {
    if s == [] then [""]
    else
      var rest := Split(s[1..], sep);
      if s[0] == sep then [""] + rest
      else [[s[0]] + rest[0]] + rest[1..]
  }

  /** `parts.join(sep)`: the inverse of `Split`. */
  function Join(parts: seq<string>, sep: char): string
    requires |parts| >= 1
  {
    if |parts| == 1 then parts[0] else parts[0] + [sep] + Join(parts[1..], sep)
  }

  /** Splitting and joining again gives back the text. */
  lemma {:induction false} JoinSplit(s: string, sep: char)
    ensures Join(Split(s, sep), sep) == s
  {
    if s != [] {
      var rest := Split(s[1..], sep);
      JoinSplit(s[1..], sep);
      if s[0] == sep {
        assert Split(s, sep) == [""] + rest;
        assert Join([""] + rest, sep) == [sep] + Join(rest, sep);
      } else if |rest| == 1 {
        assert Split(s, sep) == [[s[0]] + rest[0]];
      } else {
        assert Split(s, sep) == [[s[0]] + rest[0]] + rest[1..];
        assert Join(rest, sep) == rest[0] + [sep] + Join(rest[1..], sep);
        assert ([[s[0]] + rest[0]] + rest[1..])[1..] == rest[1..];
      }
    }
  }

  /** Joining pieces that do not contain the separator and splitting again gives back the pieces. */
  lemma {:induction false} SplitJoin(parts: seq<string>, sep: char)
    requires |parts| >= 1
    requires forall p :: p in parts ==> sep !in p
    ensures Split(Join(parts, sep), sep) == parts
  {
    if |parts| == 1 {
      SplitPiece(parts[0], sep, []);
      assert parts[0] + [] == parts[0];
      assert Split([], sep) == [""];
    } else {
      SplitJoin(parts[1..], sep);
      SplitPiece(parts[0], sep, [sep] + Join(parts[1..], sep));
      assert parts[0] + [sep] + Join(parts[1..], sep) == parts[0] + ([sep] + Join(parts[1..], sep));
      var t := [sep] + Join(parts[1..], sep);
      assert t[0] == sep && t[1..] == Join(parts[1..], sep);
      assert Split(t, sep) == [""] + parts[1..];
      assert parts[0] + "" == parts[0];
      assert [parts[0]] + parts[1..] == parts;
    }
  }

  /** Splitting `p + t`, where `p` holds no separator, glues `p` to the first piece of `t`. */
  lemma {:induction false} SplitPiece(p: string, sep: char, t: string)
    requires sep !in p
    ensures var r := Split(t, sep); Split(p + t, sep) == [p + r[0]] + r[1..]
  {
    if p != [] {
      SplitPiece(p[1..], sep, t);
      var r := Split(t, sep);
      assert p[0] in p;
      assert (p + t)[1..] == p[1..] + t;
      assert (p + t)[0] == p[0];
      assert [p[0]] + (p[1..] + r[0]) == p + r[0];
    } else {
      assert p + t == t;
      var r := Split(t, sep);
      assert p + r[0] == r[0];
      assert [r[0]] + r[1..] == r;
    }
  }

  /** ASCII upper-case letters become lower-case; every other character is kept. */
  function LowerChar(c: char): char {
    if 'A' <= c <= 'Z' then (c as int + 32) as char else c
  }

  /** `toLowerCase` restricted to ASCII letters. */
  function ToLower(s: string): (r: string)
    ensures |r| == |s|
    ensures forall i :: 0 <= i < |s| ==> r[i] == LowerChar(s[i])
  {
    if s == [] then [] else [LowerChar(s[0])] + ToLower(s[1..])
  }

  /** Lower-casing twice is lower-casing once. */
  lemma ToLowerIdempotent(s: string)
    ensures ToLower(ToLower(s)) == ToLower(s)
  {
    var once := ToLower(s);
    forall i | 0 <= i < |s| ensures ToLower(once)[i] == once[i] {
      assert !('A' <= once[i] <= 'Z');
    }
  }

  predicate StartsWith(s: string, prefix: string) {
    |prefix| <= |s| && s[..|prefix|] == prefix
  }

  /** `s.endsWith(suffix)`. */
  predicate EndsWith(s: string, suffix: string) {
    |suffix| <= |s| && s[|s| - |suffix|..] == suffix
  }

  /** `s.includes(sub)`. */
  predicate Contains(s: string, sub: string)
    decreases |s|
  {
    StartsWith(s, sub) || (s != [] && Contains(s[1..], sub))
  }

  /** `sub` occurs in `s` at position `i`. */
  ghost predicate OccursAt(s: string, sub: string, i: int) {
    0 <= i && i + |sub| <= |s| && s[i..i + |sub|] == sub
  }

  /** `Contains` holds exactly when `sub` occurs somewhere in `s`. */
  lemma {:induction false} ContainsIffOccurs(s: string, sub: string)
    ensures Contains(s, sub) <==> exists i :: OccursAt(s, sub, i)
    decreases |s|
  {
    if StartsWith(s, sub) {
      assert OccursAt(s, sub, 0);
    } else if s == [] {
      assert sub != [];
    } else {
      ContainsIffOccurs(s[1..], sub);
      if exists i :: OccursAt(s, sub, i) {
        var i :| OccursAt(s, sub, i);
        assert i != 0;
        assert s[1..][i - 1..i - 1 + |sub|] == s[i..i + |sub|];
        assert OccursAt(s[1..], sub, i - 1);
      }
      if exists i :: OccursAt(s[1..], sub, i) {
        var i :| OccursAt(s[1..], sub, i);
        assert s[1..][i..i + |sub|] == s[i + 1..i + 1 + |sub|];
        assert OccursAt(s, sub, i + 1);
      }
    }
  }

  /** If `b` occurs in `a` and `c` occurs in `b`, then `c` occurs in `a`. */
  lemma ContainsTransitive(a: string, b: string, c: string)
    requires Contains(a, b) && Contains(b, c)
    ensures Contains(a, c)
  {
    ContainsIffOccurs(a, b);
    ContainsIffOccurs(b, c);
    var i :| OccursAt(a, b, i);
    var j :| OccursAt(b, c, j);
    forall k | 0 <= k < |c| ensures a[i + j..i + j + |c|][k] == c[k] {
      assert a[i + j..i + j + |c|][k] == a[i..i + |b|][j + k];
    }
    assert a[i + j..i + j + |c|] == c;
    assert OccursAt(a, c, i + j);
    ContainsIffOccurs(a, c);
  }

  /** The middle piece of a concatenation occurs in it. */
  lemma InfixContains(a: string, b: string, c: string)
    ensures Contains(a + b + c, b)
  {
    assert (a + b + c)[|a|..|a| + |b|] == b;
    assert OccursAt(a + b + c, b, |a|);
    ContainsIffOccurs(a + b + c, b);
  }

  /** The two parts of a joined string are found again by cutting it where the first ends. */
  lemma JoinParts<T>(a: seq<T>, b: seq<T>)
    ensures (a + b)[..|a|] == a && (a + b)[|a|..] == b
  {
  }

  /** Joining is associative. */
  lemma JoinAssociative<T>(x: seq<T>, y: seq<T>, z: seq<T>)
    ensures (x + y) + z == x + (y + z)
  {
  }

  /** Text added before a string keeps every substring of it. */
  lemma ContainsAppendLeft(a: string, s: string, sub: string)
    requires Contains(s, sub)
    ensures Contains(a + s, sub)
  {
    ContainsIffOccurs(s, sub);
    var i :| OccursAt(s, sub, i);
    assert (a + s)[|a| + i..|a| + i + |sub|] == s[i..i + |sub|];
    assert OccursAt(a + s, sub, |a| + i);
    ContainsIffOccurs(a + s, sub);
  }

  /** Text added after a string keeps every substring of it. */
  lemma ContainsAppendRight(s: string, b: string, sub: string)
    requires Contains(s, sub)
    ensures Contains(s + b, sub)
  {
    ContainsIffOccurs(s, sub);
    var i :| OccursAt(s, sub, i);
    assert (s + b)[i..i + |sub|] == s[i..i + |sub|];
    assert OccursAt(s + b, sub, i);
    ContainsIffOccurs(s + b, sub);
  }

  /** The text each item prints as, one after the other. */
  function ConcatMap<T>(xs: seq<T>, show: T -> string): string {
    if xs == [] then "" else show(xs[0]) + ConcatMap(xs[1..], show)
  }

  /** Printing two sequences in turn is printing them joined. */
  lemma {:induction false} ConcatMapAppend<T>(a: seq<T>, b: seq<T>, show: T -> string)
    ensures ConcatMap(a + b, show) == ConcatMap(a, show) + ConcatMap(b, show)
  {
    if a == [] {
      assert a + b == b;
    } else {
      ConcatMapAppend(a[1..], b, show);
      assert (a + b)[1..] == a[1..] + b;
      JoinAssociative(show(a[0]), ConcatMap(a[1..], show), ConcatMap(b, show));
    }
  }

  /** The printed sequence holds the printed form of each of its items. */
  lemma {:induction false} ConcatMapContains<T>(xs: seq<T>, x: T, show: T -> string)
    requires x in xs
    ensures Contains(ConcatMap(xs, show), show(x))
  {
    var rest := ConcatMap(xs[1..], show);
    if xs[0] == x {
      assert StartsWith(show(x), show(x));
      ContainsAppendRight(show(x), rest, show(x));
    } else {
      assert x in xs[1..];
      ConcatMapContains(xs[1..], x, show);
      ContainsAppendLeft(show(xs[0]), rest, show(x));
    }
  }

  /** `s.replace(pattern, replacement)` with a string pattern: only the first occurrence is replaced. */
  function ReplaceFirst(s: string, pattern: string, replacement: string): (r: string)
    requires pattern != []
    ensures StartsWith(s, pattern) ==> r == replacement + s[|pattern|..]
    ensures !Contains(s, pattern) ==> r == s
    decreases |s|
  {
    if |s| < |pattern| then s
    else if s[..|pattern|] == pattern then replacement + s[|pattern|..]
    else [s[0]] + ReplaceFirst(s[1..], pattern, replacement)
  }

  /** An occurrence at `j + 1` in `s` is one at `j` in its tail. */
  lemma OccursInTail(s: string, sub: string, j: nat)
    requires s != []
    ensures OccursAt(s[1..], sub, j) <==> OccursAt(s, sub, j + 1)
  {
    if j + 1 + |sub| <= |s| {
      assert s[1..][j..j + |sub|] == s[j + 1..j + 1 + |sub|];
    }
  }

  /** No occurrence before `i` in `s` means none before `i - 1` in its tail. */
  lemma NoEarlierOccurrenceInTail(s: string, sub: string, i: nat)
    requires 0 < i && s != []
    requires forall j :: 0 <= j < i ==> !OccursAt(s, sub, j)
    ensures forall j :: 0 <= j < i - 1 ==> !OccursAt(s[1..], sub, j)
  {
    forall j | 0 <= j < i - 1
      ensures !OccursAt(s[1..], sub, j)
    {
      OccursInTail(s, sub, j);
    }
  }

  /** Putting the first character back in front of a split tail gives the split text. */
  lemma PrependToSlices(s: string, i: nat, k: nat, mid: string)
    requires 0 < i <= k <= |s|
    ensures [s[0]] + (s[1..][..i - 1] + mid + s[1..][k - 1..]) == s[..i] + mid + s[k..]
  {
    assert [s[0]] + s[1..][..i - 1] == s[..i];
    assert s[1..][k - 1..] == s[k..];
  }

  /** A text that does not start with the pattern keeps its first character and replaces in the rest. */
  lemma ReplaceFirstStep(s: string, pattern: string, replacement: string)
    requires pattern != [] && |pattern| <= |s| && !OccursAt(s, pattern, 0)
    ensures ReplaceFirst(s, pattern, replacement) == [s[0]] + ReplaceFirst(s[1..], pattern, replacement)
  {
  }

  /**
   * Wherever the first occurrence of the pattern lies, that occurrence and
   * nothing else is replaced: the text before it and after it is kept.
   */
  lemma {:induction false} ReplaceFirstOccurrence(s: string, pattern: string, replacement: string, i: nat)
    requires pattern != [] && OccursAt(s, pattern, i)
    requires forall j :: 0 <= j < i ==> !OccursAt(s, pattern, j)
    ensures ReplaceFirst(s, pattern, replacement) == s[..i] + replacement + s[i + |pattern|..]
  {
    if i == 0 {
      assert StartsWith(s, pattern);
      assert s[..0] == [];
    } else {
      var t := s[1..];
      ReplaceFirstStep(s, pattern, replacement);
      OccursInTail(s, pattern, i - 1);
      NoEarlierOccurrenceInTail(s, pattern, i);
      ReplaceFirstOccurrence(t, pattern, replacement, i - 1);
      PrependToSlices(s, i, i + |pattern|, replacement);
    }
  }

  function DigitChar(d: nat): char
    requires d < 10
  {
    ('0' as int + d) as char
  }

  /** Decimal rendering of `n`, as a template string prints a non-negative integer. */
  function NatToString(n: nat): (r: string)
    ensures r != []
    ensures forall k :: 0 <= k < |r| ==> '0' <= r[k] <= '9'
    ensures |r| > 1 ==> r[0] != '0'
  {
    if n < 10 then [DigitChar(n)] else NatToString(n / 10) + [DigitChar(n % 10)]
  }

  /** The number a string of decimal digits denotes. */
  function DecimalValue(s: string): nat
    requires forall k :: 0 <= k < |s| ==> '0' <= s[k] <= '9'
  {
    if s == [] then 0 else 10 * DecimalValue(s[..|s| - 1]) + (s[|s| - 1] as int - '0' as int)
  }

  /** Reading back the decimal rendering gives the number. */
  lemma {:induction false} DecimalValueOfNatToString(n: nat)
    ensures DecimalValue(NatToString(n)) == n
  {
    if n >= 10 {
      DecimalValueOfNatToString(n / 10);
      var r := NatToString(n);
      assert r[..|r| - 1] == NatToString(n / 10);
    }
  }
}
