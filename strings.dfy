/** The JavaScript string primitives the models rely on, each characterised by its
    contract: startsWith/endsWith/includes, indexOf/lastIndexOf, substring,
    split/join, an ASCII toLowerCase, the regular-expression character classes
    `\s`, `\d`, `\w` and `.`, and String(number) for integers. */
module Strings {

  predicate StartsWith(s: string, p: string)
  {
    |p| <= |s| && s[..|p|] == p
  }

  predicate EndsWith(s: string, p: string)
  {
    |p| <= |s| && s[|s| - |p|..] == p
  }

  /** `p` occurs in `s` starting at index `k`. */
  predicate OccursAt(s: string, p: string, k: int)
  {
    0 <= k && k + |p| <= |s| && s[k..k + |p|] == p
  }

  /** `s.includes(p)` */
  predicate Contains(s: string, p: string)
  {
    exists k | 0 <= k <= |s| - |p| :: OccursAt(s, p, k)
  }

  /** `s.indexOf(p, from)` for a non-empty pattern: the first occurrence at or after
      `from`, or -1. */
  function IndexOfFrom(s: string, p: string, from: nat): (r: int)
    ensures r == -1 || (from <= r && OccursAt(s, p, r))
    ensures forall k :: from <= k && (r == -1 || k < r) ==> !OccursAt(s, p, k)
    decreases |s| - from
  {
    if |s| < from + |p| then -1
    else if OccursAt(s, p, from) then from
    else IndexOfFrom(s, p, from + 1)
  }

  /** `s.lastIndexOf(p, pos)`: the last occurrence starting at or before `pos`, or -1. */
  function LastIndexOfAtMost(s: string, p: string, pos: nat): (r: int)
    ensures r == -1 || (0 <= r <= pos && OccursAt(s, p, r))
    ensures forall k :: r < k <= pos ==> !OccursAt(s, p, k)
    decreases pos
  {
    if OccursAt(s, p, pos) then pos
    else if pos == 0 then -1
    else LastIndexOfAtMost(s, p, pos - 1)
  }

  function Clamp(i: int, n: nat): (r: nat)
  {
    if i < 0 then 0 else if i > n then n else i
  }

  /** `s.substring(start, end)`: both bounds are clamped to [0, |s|] and swapped
      when `start > end`. */
  function JsSubstring(s: string, start: int, end: int): (r: string)
  {
    var a := Clamp(start, |s|);
    var b := Clamp(end, |s|);
    if a <= b then s[a..b] else s[b..a]
  }

  /** `parts.join(sep)` */
  function Join(parts: seq<string>, sep: string): (r: string)
  {
    if |parts| == 0 then ""
    else if |parts| == 1 then parts[0]
    else Join(parts[..|parts| - 1], sep) + sep + parts[|parts| - 1]
  }

  /** Joining one more part adds the separator and the part. */
  lemma JoinSnoc(parts: seq<string>, x: string, sep: string)
    requires |parts| >= 1
    ensures Join(parts + [x], sep) == Join(parts, sep) + sep + x
  {
    assert (parts + [x])[..|parts|] == parts;
  }

  function LastIndexOfChar(s: string, c: char): (r: int)
    ensures -1 <= r < |s|
    ensures r >= 0 ==> s[r] == c && forall k :: r < k < |s| ==> s[k] != c
    ensures r == -1 ==> c !in s
  {
    if |s| == 0 then -1
    else if s[|s| - 1] == c then |s| - 1
    else LastIndexOfChar(s[..|s| - 1], c)
  }

  /** `s.split(c)`: never empty, no piece contains `c`, and joining the pieces with
      `c` gives `s` back (SplitIsUnique shows these three facts determine it). */
  function Split(s: string, c: char): (r: seq<string>)
    ensures |r| >= 1
    ensures forall i :: 0 <= i < |r| ==> c !in r[i]
    ensures Join(r, [c]) == s
    decreases |s|
  {
    var k := LastIndexOfChar(s, c);
    if k < 0 then [s]
    else
      var front := Split(s[..k], c);
      assert (front + [s[k + 1..]])[..|front|] == front;
      assert s == s[..k] + [c] + s[k + 1..];
      front + [s[k + 1..]]
  }

  lemma {:induction false} JoinContainsSeparator(a: seq<string>, c: char)
    requires |a| >= 1
    requires forall i :: 0 <= i < |a| ==> c !in a[i]
    ensures c in Join(a, [c]) <==> |a| >= 2
  {
    if |a| >= 2 {
      var front := Join(a[..|a| - 1], [c]);
      assert Join(a, [c])[|front|] == c;
    }
  }

  lemma LastSeparatorSplits(s: string, x: string, y: string, c: char)
    requires s == x + [c] + y && c !in y
    ensures LastIndexOfChar(s, c) == |x|
  {
    var r := LastIndexOfChar(s, c);
    assert s[|x|] == c;
  }

  /** A string has only one decomposition into separator-free pieces. */
  lemma {:induction false} SplitIsUnique(a: seq<string>, b: seq<string>, c: char)
    requires |a| >= 1 && |b| >= 1
    requires forall i :: 0 <= i < |a| ==> c !in a[i]
    requires forall i :: 0 <= i < |b| ==> c !in b[i]
    requires Join(a, [c]) == Join(b, [c])
    ensures a == b
    decreases |a|
  {
    JoinContainsSeparator(a, c);
    JoinContainsSeparator(b, c);
    if |a| == 1 || |b| == 1 {
      assert |a| == 1 && |b| == 1;
    } else {
      var s := Join(a, [c]);
      var x, y := Join(a[..|a| - 1], [c]), a[|a| - 1];
      var x', y' := Join(b[..|b| - 1], [c]), b[|b| - 1];
      assert s == x + [c] + y && s == x' + [c] + y';
      LastSeparatorSplits(s, x, y, c);
      LastSeparatorSplits(s, x', y', c);
      assert y == s[|s| - |y|..] == y';
      assert x == s[..|s| - |y| - 1] == x';
      SplitIsUnique(a[..|a| - 1], b[..|b| - 1], c);
      assert a == a[..|a| - 1] + [y];
      assert b == b[..|b| - 1] + [y'];
    }
  }

  /** `/\s/` in JavaScript: ASCII white space, line terminators and the Unicode
      space separators. */
  predicate IsSpace(c: char)
  {
    c == ' ' || c == '\t' || c == '\n' || c == '\r' || c == '\U{B}' || c == '\U{C}'
    || c == '\U{A0}' || c == '\U{1680}' || ('\U{2000}' <= c <= '\U{200A}')
    || c == '\U{2028}' || c == '\U{2029}' || c == '\U{202F}' || c == '\U{205F}'
    || c == '\U{3000}' || c == '\U{FEFF}'
  }

  /** The characters `.` does not match in a JavaScript regular expression. */
  predicate IsLineTerminator(c: char)
  {
    c == '\n' || c == '\r' || c == '\U{2028}' || c == '\U{2029}'
  }

  /** `/\d/` */
  predicate IsDigit(c: char)
  {
    '0' <= c <= '9'
  }

  /** `/\w/` */
  predicate IsWordChar(c: char)
  {
    ('a' <= c <= 'z') || ('A' <= c <= 'Z') || IsDigit(c) || c == '_'
  }

  predicate AllDigits(s: string)
  {
    forall i :: 0 <= i < |s| ==> IsDigit(s[i])
  }

  predicate IsLowerAscii(c: char)
  {
    'a' <= c <= 'z'
  }

  predicate IsUpperAscii(c: char)
  {
    'A' <= c <= 'Z'
  }

  function LowerChar(c: char): char
  {
    if IsUpperAscii(c) then (c as int + 32) as char else c
  }

  function UpperChar(c: char): char
  {
    if IsLowerAscii(c) then (c as int - 32) as char else c
  }

  /** `s.toLowerCase()` restricted to ASCII letters. */
  function Lower(s: string): string
  {
    seq(|s|, i requires 0 <= i < |s| => LowerChar(s[i]))
  }

  function DigitChar(d: nat): char
    requires d < 10
  {
    ('0' as int + d) as char
  }

  function DigitValue(c: char): nat
    requires IsDigit(c)
  {
    c as int - '0' as int
  }

  /** `String(n)` for a natural number: decimal digits without leading zeros. */
  function NatToString(n: nat): string
    decreases n
  {
    if n < 10 then [DigitChar(n)] else NatToString(n / 10) + [DigitChar(n % 10)]
  }

  /** `String(i)` for an integer. */
  function IntToString(i: int): string
  {
    if i < 0 then "-" + NatToString(-i) else NatToString(i)
  }

  /** The value of a string of decimal digits. */
  function ParseNat(s: string): nat
    requires AllDigits(s)
  {
    if |s| == 0 then 0 else 10 * ParseNat(s[..|s| - 1]) + DigitValue(s[|s| - 1])
  }

  predicate IsIntText(s: string)
  {
    (|s| >= 1 && AllDigits(s)) || (|s| >= 2 && s[0] == '-' && AllDigits(s[1..]))
  }

  function ParseInt(s: string): int
    requires IsIntText(s)
  {
    if s[0] == '-' then 0 - ParseNat(s[1..]) else ParseNat(s)
  }

  lemma {:induction false} NatToStringRoundTrip(n: nat)
    ensures |NatToString(n)| >= 1 && AllDigits(NatToString(n))
    ensures ParseNat(NatToString(n)) == n
    decreases n
  {
    if n >= 10 {
      NatToStringRoundTrip(n / 10);
      var s := NatToString(n);
      assert s[..|s| - 1] == NatToString(n / 10);
    }
  }

  /** Reading back the text of `String(i)` gives `i`. */
  lemma IntToStringRoundTrip(i: int)
    ensures IsIntText(IntToString(i))
    ensures ParseInt(IntToString(i)) == i
    ensures i < 0 <==> IntToString(i)[0] == '-'
  {
    var t := IntToString(i);
    if i < 0 {
      NatToStringRoundTrip(-i);
      assert t[1..] == NatToString(-i);
      assert ParseInt(t) == 0 - ParseNat(NatToString(-i));
    } else {
      NatToStringRoundTrip(i);
      assert IsDigit(t[0]);
      assert ParseInt(t) == ParseNat(NatToString(i));
    }
  }
}
