/**
 * Shared vocabulary of the model: optional values, results, and the handful of
 * Foundation string operations the app relies on (substring search,
 * `replacingOccurrences(of:with:)`, `trimmingCharacters(in:)`,
 * `components(separatedBy:)`, `joined(separator:)`) and the decimal rendering
 * of `Int` used by string interpolation.
 */
module Common {

  datatype Option<T> = None | Some(value: T) {
    /** Swift's `x ?? default`. */
    function GetOr(default: T): T {
      match this
      case Some(v) => v
      case None => default
    }
  }

  datatype Result<T, E> = Ok(value: T) | Err(error: E)

  /** Swift's `abs`. */
  function Abs(x: real): (r: real)
    ensures r >= 0.0 && (r == x || r == -x)
  {
    if x < 0.0 then -x else x
  }

  /** Foundation's `Date`: seconds on one common time line. */
  type Date = real

  /** `s.filter(keep)`, order preserved. */
  function Filter<T>(s: seq<T>, keep: T -> bool): (r: seq<T>)
    ensures |r| <= |s|
    ensures forall i :: 0 <= i < |r| ==> r[i] in s && keep(r[i])
    ensures forall i :: 0 <= i < |s| && keep(s[i]) ==> s[i] in r
  {
    if s == [] then []
    else Filter(s[..|s| - 1], keep) + (if keep(s[|s| - 1]) then [s[|s| - 1]] else [])
  }

  // ---------------------------------------------------------------------------
  // Character classes of Foundation's CharacterSet
  // ---------------------------------------------------------------------------

  /** `CharacterSet.whitespaces`: Unicode category Zs plus the horizontal tab. */
  const Whitespaces: set<char> := {
    '\t', ' ', '\U{00A0}', '\U{1680}',
    '\U{2000}', '\U{2001}', '\U{2002}', '\U{2003}', '\U{2004}', '\U{2005}',
    '\U{2006}', '\U{2007}', '\U{2008}', '\U{2009}', '\U{200A}',
    '\U{202F}', '\U{205F}', '\U{3000}'
  }

  /** `CharacterSet.newlines`: U+000A..U+000D, U+0085, U+2028, U+2029. */
  const Newlines: set<char> := {
    '\n', '\U{000B}', '\U{000C}', '\r', '\U{0085}', '\U{2028}', '\U{2029}'
  }

  /** `CharacterSet.whitespacesAndNewlines`. */
  const WhitespacesAndNewlines: set<char> := Whitespaces + Newlines

  // ---------------------------------------------------------------------------
  // Substring search
  // ---------------------------------------------------------------------------

  predicate StartsWith(s: string, prefix: string) {
    |prefix| <= |s| && s[..|prefix|] == prefix
  }

  /** `a` is `b` with some elements left out, the rest kept in order. */
  predicate IsSubsequence<T(==)>(a: seq<T>, b: seq<T>)
    decreases |b|
  {
    if a == [] then true
    else if b == [] then false
    else (a[|a| - 1] == b[|b| - 1] && IsSubsequence(a[..|a| - 1], b[..|b| - 1])) || IsSubsequence(a, b[..|b| - 1])
  }

  /** `s.contains(sub)`: `sub` occurs somewhere in `s` as a contiguous block. */
  predicate Contains(s: string, sub: string)
    decreases |s|
  {
    StartsWith(s, sub) || (|s| > 0 && Contains(s[1..], sub))
  }

  /** A one-character pattern occurs exactly where that character does. */
  lemma {:induction false} ContainsChar(s: string, c: char)
    ensures Contains(s, [c]) <==> c in s
    decreases |s|
  {
    if s != [] {
      ContainsChar(s[1..], c);
      assert s == [s[0]] + s[1..];
    }
  }

  lemma {:induction false} ContainsInSuffix(s: string, k: nat, sub: string)
    requires k <= |s|
    requires Contains(s[k..], sub)
    ensures Contains(s, sub)
    decreases k
  {
    if k > 0 {
      assert s[1..][k - 1..] == s[k..];
      ContainsInSuffix(s[1..], k - 1, sub);
    }
  }

  lemma {:induction false} ContainsInPrefix(s: string, k: nat, sub: string)
    requires k <= |s|
    requires Contains(s[..k], sub)
    ensures Contains(s, sub)
    decreases k
  {
    if StartsWith(s[..k], sub) {
      assert s[..|sub|] == s[..k][..|sub|];
    } else {
      assert s[..k][1..] == s[1..][..k - 1];
      ContainsInPrefix(s[1..], k - 1, sub);
    }
  }

  /** A text that contains a string also contains every prefix of that string. */
  lemma {:induction false} ContainsPrefixOfPattern(s: string, sub: string, p: string)
    requires StartsWith(sub, p)
    requires Contains(s, sub)
    ensures Contains(s, p)
    decreases |s|
  {
    if StartsWith(s, sub) {
      assert s[..|p|] == s[..|sub|][..|p|];
    } else {
      ContainsPrefixOfPattern(s[1..], sub, p);
    }
  }

  // ---------------------------------------------------------------------------
  // replacingOccurrences(of:with:)
  // ---------------------------------------------------------------------------

  /**
   * `s.replacingOccurrences(of: pattern, with: replacement)`: a left-to-right
   * scan that replaces every non-overlapping occurrence; an empty pattern
   * leaves the text unchanged.
   */
  function ReplaceAll(s: string, pattern: string, replacement: string): string
    decreases |s|
  {
    if |pattern| == 0 || s == [] then s
    else if StartsWith(s, pattern) then replacement + ReplaceAll(s[|pattern|..], pattern, replacement)
    else [s[0]] + ReplaceAll(s[1..], pattern, replacement)
  }

  /** Replacing a pattern that does not occur changes nothing. */
  lemma {:induction false} ReplaceAllAbsent(s: string, pattern: string, replacement: string)
    requires !Contains(s, pattern)
    ensures ReplaceAll(s, pattern, replacement) == s
    decreases |s|
  {
    if |pattern| != 0 && s != [] {
      ReplaceAllAbsent(s[1..], pattern, replacement);
      assert [s[0]] + s[1..] == s;
    }
  }

  /** Removing a single character never leaves that character behind. */
  lemma {:induction false} RemoveCharAbsent(s: string, c: char)
    ensures c !in ReplaceAll(s, [c], "")
    decreases |s|
  {
    if s != [] {
      RemoveCharAbsent(s[1..], c);
    }
  }

  // ---------------------------------------------------------------------------
  // trimmingCharacters(in:)
  // ---------------------------------------------------------------------------

  function TrimStart(s: string, chars: set<char>): (r: string)
    ensures |r| <= |s| && r == s[|s| - |r|..]
    ensures r == [] || r[0] !in chars
    decreases |s|
  {
    if |s| > 0 && s[0] in chars then TrimStart(s[1..], chars) else s
  }

  function TrimEnd(s: string, chars: set<char>): (r: string)
    ensures |r| <= |s| && r == s[..|r|]
    ensures r == [] || r[|r| - 1] !in chars
    decreases |s|
  {
    if |s| > 0 && s[|s| - 1] in chars then TrimEnd(s[..|s| - 1], chars) else s
  }

  /** `s.trimmingCharacters(in: chars)`: drop leading and trailing members of `chars`. */
  function Trim(s: string, chars: set<char>): string {
    TrimEnd(TrimStart(s, chars), chars)
  }

  /** The trimmed text neither starts nor ends with a trimmed character. */
  lemma TrimShape(s: string, chars: set<char>)
    ensures var r := Trim(s, chars);
      r == [] || (r[0] !in chars && r[|r| - 1] !in chars)
  {
    var t := TrimStart(s, chars);
    var r := TrimEnd(t, chars);
    assert r == [] || r[0] == t[0];
  }

  lemma {:induction false} TrimStartNoop(s: string, chars: set<char>)
    requires s == [] || s[0] !in chars
    ensures TrimStart(s, chars) == s
  {
  }

  lemma {:induction false} TrimEndNoop(s: string, chars: set<char>)
    requires s == [] || s[|s| - 1] !in chars
    ensures TrimEnd(s, chars) == s
  {
  }

  /** Trimming twice is trimming once. */
  lemma TrimIdempotent(s: string, chars: set<char>)
    ensures Trim(Trim(s, chars), chars) == Trim(s, chars)
  {
    var r := Trim(s, chars);
    TrimShape(s, chars);
    TrimStartNoop(r, chars);
    TrimEndNoop(r, chars);
  }

  /** Trimming cannot create an occurrence of a pattern. */
  lemma TrimKeepsAbsence(s: string, chars: set<char>, sub: string)
    requires !Contains(s, sub)
    ensures !Contains(Trim(s, chars), sub)
  {
    var t := TrimStart(s, chars);
    var r := TrimEnd(t, chars);
    if Contains(r, sub) {
      ContainsInPrefix(t, |r|, sub);
      ContainsInSuffix(s, |s| - |t|, sub);
    }
  }

  // ---------------------------------------------------------------------------
  // components(separatedBy:) and joined(separator:)
  // ---------------------------------------------------------------------------

  /**
   * `s.components(separatedBy: seps)`: cut at every character of `seps`;
   * `n` separators give `n + 1` pieces (some possibly empty).
   */
  function Split(s: string, seps: set<char>): (r: seq<string>)
    ensures |r| >= 1
    decreases |s|
  {
    if s == [] then [""]
    else if s[0] in seps then [""] + Split(s[1..], seps)
    else var rest := Split(s[1..], seps); [[s[0]] + rest[0]] + rest[1..]
  }

  /** `parts.joined(separator: sep)`. */
  function Join(parts: seq<string>, sep: string): string
    decreases |parts|
  {
    if |parts| == 0 then ""
    else if |parts| == 1 then parts[0]
    else parts[0] + sep + Join(parts[1..], sep)
  }

  predicate NoneContain(parts: seq<string>, c: char) {
    forall i :: 0 <= i < |parts| ==> c !in parts[i]
  }

  /** Splitting at a separator that does not occur in `a` yields `a` and the pieces of the rest. */
  lemma {:induction false} SplitAfterFirst(a: string, c: char, b: string, seps: set<char>)
    requires c in seps
    requires forall i :: 0 <= i < |a| ==> a[i] !in seps
    ensures Split(a + [c] + b, seps) == [a] + Split(b, seps)
    decreases |a|
  {
    if a != [] {
      assert (a + [c] + b)[1..] == a[1..] + [c] + b;
      SplitAfterFirst(a[1..], c, b, seps);
      assert [a[0]] + a[1..] == a;
    }
  }

  lemma {:induction false} SplitWithout(a: string, seps: set<char>)
    requires forall i :: 0 <= i < |a| ==> a[i] !in seps
    ensures Split(a, seps) == [a]
    decreases |a|
  {
    if a != [] {
      SplitWithout(a[1..], seps);
      assert [a[0]] + a[1..] == a;
    }
  }

  /** Splitting a joined list gives the list back when no piece holds the separator. */
  lemma {:induction false} SplitJoin(parts: seq<string>, c: char)
    requires |parts| >= 1
    requires NoneContain(parts, c)
    ensures Split(Join(parts, [c]), {c}) == parts
    decreases |parts|
  {
    if |parts| == 1 {
      SplitWithout(parts[0], {c});
    } else {
      SplitJoin(parts[1..], c);
      SplitAfterFirst(parts[0], c, Join(parts[1..], [c]), {c});
      assert [parts[0]] + parts[1..] == parts;
    }
  }

  /** Every piece of `Split` with a single separator is free of that separator. */
  lemma {:induction false} SplitPiecesClean(s: string, c: char)
    ensures NoneContain(Split(s, {c}), c)
    decreases |s|
  {
    if s != [] {
      SplitPiecesClean(s[1..], c);
    }
  }

  /** Joining the pieces restores the text. */
  lemma {:induction false} JoinSplit(s: string, c: char)
    ensures Join(Split(s, {c}), [c]) == s
    decreases |s|
  {
    if s != [] {
      var rest := Split(s[1..], {c});
      JoinSplit(s[1..], c);
      if s[0] == c {
        assert Split(s, {c}) == [""] + rest;
        assert s == [c] + s[1..];
      } else {
        var r := Split(s, {c});
        assert r == [[s[0]] + rest[0]] + rest[1..];
        if |rest| == 1 {
          assert Join(rest, [c]) == rest[0];
        } else {
          assert Join(rest, [c]) == rest[0] + [c] + Join(rest[1..], [c]);
          assert r[1..] == rest[1..];
        }
      }
    }
  }

  /** A join of non-empty pieces is non-empty. */
  lemma JoinNonEmpty(parts: seq<string>, sep: string)
    requires |parts| >= 1 && |parts[0]| >= 1
    ensures |Join(parts, sep)| >= 1
  {
  }

  // ---------------------------------------------------------------------------
  // Decimal rendering of integers ("\(n)")
  // ---------------------------------------------------------------------------

  predicate IsDigit(c: char) {
    '0' <= c <= '9'
  }

  predicate AllDigits(s: string) {
    forall i :: 0 <= i < |s| ==> IsDigit(s[i])
  }

  function DigitChar(d: nat): (c: char)
    requires d < 10
    ensures IsDigit(c)
  {
    (48 + d) as char
  }

  function DigitValue(c: char): (d: nat)
    requires IsDigit(c)
    ensures d < 10
  {
    (c as int) - 48
  }

  /** The decimal digits of `n`, most significant first, without leading zeros. */
  function NatToString(n: nat): (r: string)
    ensures |r| >= 1 && AllDigits(r)
  {
    if n < 10 then [DigitChar(n)] else NatToString(n / 10) + [DigitChar(n % 10)]
  }

  /** Swift's `"\(i)"` for an `Int`. */
  function IntToString(i: int): (r: string)
    ensures |r| >= 1 && (r[0] == '-' <==> i < 0)
  {
    if i < 0 then "-" + NatToString(-i) else NatToString(i)
  }

  /** `Int(s)` on a string of ASCII digits: its decimal value. */
  function DigitsValue(s: string): nat
    requires AllDigits(s)
  {
    if s == [] then 0 else DigitsValue(s[..|s| - 1]) * 10 + DigitValue(s[|s| - 1])
  }

  lemma {:induction false} NatToStringRoundTrip(n: nat)
    ensures DigitsValue(NatToString(n)) == n
  {
    if n >= 10 {
      NatToStringRoundTrip(n / 10);
      var r := NatToString(n);
      assert r[..|r| - 1] == NatToString(n / 10);
    }
  }

  /** Different integers render differently. */
  lemma IntToStringInjective(a: int, b: int)
    requires IntToString(a) == IntToString(b)
    ensures a == b
  {
    var s := IntToString(a);
    if a < 0 && b < 0 {
      assert s[1..] == NatToString(-a) == NatToString(-b);
      NatToStringRoundTrip(-a);
      NatToStringRoundTrip(-b);
    } else if a >= 0 && b >= 0 {
      NatToStringRoundTrip(a);
      NatToStringRoundTrip(b);
    }
  }

  /** A rendered integer contains no character other than digits and a leading '-'. */
  lemma IntToStringChars(i: int, c: char)
    requires c != '-' && !IsDigit(c)
    ensures c !in IntToString(i)
  {
  }

  lemma HeadOfCut(a: string, c: char, r: string)
    ensures (a + [c] + r)[0] == if a == [] then c else a[0]
  {
  }

  /** Two strings cut at the first occurrence of a marker that neither head contains agree piecewise. */
  lemma {:induction false} CutAtMarker(a1: string, r1: string, a2: string, r2: string, c: char)
    requires c !in a1 && c !in a2
    requires a1 + [c] + r1 == a2 + [c] + r2
    ensures a1 == a2 && r1 == r2
    decreases |a1|
  {
    HeadOfCut(a1, c, r1);
    HeadOfCut(a2, c, r2);
    if a1 == [] && a2 == [] {
      assert r1 == (a1 + [c] + r1)[1..];
    } else if a1 != [] && a2 != [] {
      assert (a1 + [c] + r1)[0] == a1[0] && (a2 + [c] + r2)[0] == a2[0];
      assert (a1 + [c] + r1)[1..] == a1[1..] + [c] + r1;
      assert (a2 + [c] + r2)[1..] == a2[1..] + [c] + r2;
      CutAtMarker(a1[1..], r1, a2[1..], r2, c);
      assert a1 == [a1[0]] + a1[1..];
      assert a2 == [a2[0]] + a2[1..];
    }
  }
}
