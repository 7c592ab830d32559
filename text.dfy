/** Python `str` operations the framework relies on, over `string` (a sequence of
    Unicode scalar values). Case mapping covers ASCII letters only. */
module Text {

  /** Python's `str.isspace()` for one character: the characters that `strip`,
      `lstrip` and `rstrip` remove when called without arguments. */
  predicate IsSpace(c: char) {
    var n := c as int;
    (9 <= n <= 13) || (28 <= n <= 32) || n == 0x85 || n == 0xA0 || n == 0x1680
    || (0x2000 <= n <= 0x200A) || n == 0x2028 || n == 0x2029 || n == 0x202F
    || n == 0x205F || n == 0x3000
  }

  predicate AllSpace(s: string) {
    forall i :: 0 <= i < |s| ==> IsSpace(s[i])
  }

  /** `s.lstrip()`: drops the leading whitespace. */
  function LStrip(s: string): (r: string)
    ensures |r| <= |s| && r == s[|s| - |r|..]
    ensures AllSpace(s[..|s| - |r|])
    ensures r == [] || !IsSpace(r[0])
  {
    if s == [] || !IsSpace(s[0]) then s
    else
      var r := LStrip(s[1..]);
      assert s[1..][..|s| - 1 - |r|] == s[1..|s| - |r|];
      r
  }

  /** `s.rstrip()`: drops the trailing whitespace. */
  function RStrip(s: string): (r: string)
    ensures |r| <= |s| && r == s[..|r|]
    ensures AllSpace(s[|r|..])
    ensures r == [] || !IsSpace(r[|r| - 1])
  {
    if s == [] || !IsSpace(s[|s| - 1]) then s
    else
      var r := RStrip(s[..|s| - 1]);
      assert s[..|s| - 1][|r|..] == s[|r|..|s| - 1];
      r
  }

  /** `s.strip()`: the text between the leading and the trailing whitespace. */
  function Strip(s: string): (r: string)
    ensures |r| <= |s|
    ensures r == [] || (!IsSpace(r[0]) && !IsSpace(r[|r| - 1]))
    ensures r == [] <==> AllSpace(s)
  {
    var l := LStrip(s);
    assert l == [] ==> s == s[..|s| - |l|];
    assert AllSpace(s) ==> l == [];
    RStrip(l)
  }

  /** `len(line) - len(line.lstrip())`: the number of leading whitespace characters. */
  function Indentation(s: string): (n: nat)
    ensures n <= |s| && AllSpace(s[..n])
    ensures n == |s| || !IsSpace(s[n])
  {
    |s| - |LStrip(s)|
  }

  /** `s.startswith(p)`. */
  predicate StartsWith(s: string, p: string) {
    |p| <= |s| && s[..|p|] == p
  }

  /** `sub` occurs in `s` at index `i`. */
  predicate OccursAt(s: string, sub: string, i: int) {
    0 <= i && i + |sub| <= |s| && s[i..i + |sub|] == sub
  }

  /** `sub in s`. */
  predicate Contains(s: string, sub: string) {
    exists i | 0 <= i <= |s| - |sub| :: OccursAt(s, sub, i)
  }

  /** `s.find(sub)`: the first index at which `sub` occurs, or -1. */
  function Find(s: string, sub: string): (r: int)
    ensures r == -1 <==> !Contains(s, sub)
    ensures r != -1 ==> OccursAt(s, sub, r) && forall j :: 0 <= j < r ==> !OccursAt(s, sub, j)
  {
    FindFrom(s, sub, 0)
  }

  function FindFrom(s: string, sub: string, k: nat): (r: int)
    requires forall j :: 0 <= j < k ==> !OccursAt(s, sub, j)
    ensures r == -1 <==> !Contains(s, sub)
    ensures r != -1 ==> k <= r && OccursAt(s, sub, r) && forall j :: 0 <= j < r ==> !OccursAt(s, sub, j)
    decreases |s| - k
  {
    if k + |sub| > |s| then
      assert forall j :: OccursAt(s, sub, j) ==> j < k;
      -1
    else if s[k..k + |sub|] == sub then
      assert OccursAt(s, sub, k);
      k
    else FindFrom(s, sub, k + 1)
  }

  /** `s.rfind(sub)`: the last index at which `sub` occurs, or -1. */
  function RFind(s: string, sub: string): (r: int)
    ensures r == -1 <==> !Contains(s, sub)
    ensures r != -1 ==> OccursAt(s, sub, r) && forall j :: r < j ==> !OccursAt(s, sub, j)
  {
    if |sub| > |s| then -1 else RFindFrom(s, sub, |s| - |sub|)
  }

  function RFindFrom(s: string, sub: string, k: int): (r: int)
    requires k + |sub| <= |s|
    requires forall j :: k < j ==> !OccursAt(s, sub, j)
    ensures r == -1 <==> !Contains(s, sub)
    ensures r != -1 ==> r <= k && OccursAt(s, sub, r) && forall j :: r < j ==> !OccursAt(s, sub, j)
    decreases k + 1
  {
    if k < 0 then -1
    else if s[k..k + |sub|] == sub then
      assert OccursAt(s, sub, k);
      k
    else RFindFrom(s, sub, k - 1)
  }

  /** `s.count(sub)` for a non-empty `sub`: non-overlapping occurrences, scanning left to right. */
  function Count(s: string, sub: string): (n: nat)
    requires sub != []
    ensures n == 0 <==> !Contains(s, sub)
    ensures n * |sub| <= |s|
    decreases |s|
  {
    if |s| < |sub| then
      assert !Contains(s, sub);
      0
    else if s[..|sub|] == sub then
      assert OccursAt(s, sub, 0);
      1 + Count(s[|sub|..], sub)
    else
      var n := Count(s[1..], sub);
      assert !OccursAt(s, sub, 0);
      ContainsShift(s, sub);
      n
  }

  lemma ContainsShift(s: string, sub: string)
    requires s != [] && !OccursAt(s, sub, 0)
    ensures Contains(s, sub) <==> Contains(s[1..], sub)
  {
    var t := s[1..];
    if Contains(s, sub) {
      var i :| 0 <= i <= |s| - |sub| && OccursAt(s, sub, i);
      assert i > 0;
      assert t[i - 1..i - 1 + |sub|] == s[i..i + |sub|];
      assert OccursAt(t, sub, i - 1);
    }
    if Contains(t, sub) {
      var i :| 0 <= i <= |t| - |sub| && OccursAt(t, sub, i);
      assert t[i..i + |sub|] == s[i + 1..i + 1 + |sub|];
      assert OccursAt(s, sub, i + 1);
    }
  }

  function UpperChar(c: char): char {
    if 'a' <= c <= 'z' then (c as int - 32) as char else c
  }

  function LowerChar(c: char): char {
    if 'A' <= c <= 'Z' then (c as int + 32) as char else c
  }

  /** `s.upper()` (ASCII letters). */
  function Upper(s: string): (r: string)
    ensures |r| == |s| && forall i :: 0 <= i < |s| ==> r[i] == UpperChar(s[i])
  {
    seq(|s|, i requires 0 <= i < |s| => UpperChar(s[i]))
  }

  /** `s.lower()` (ASCII letters). */
  function Lower(s: string): (r: string)
    ensures |r| == |s| && forall i :: 0 <= i < |s| ==> r[i] == LowerChar(s[i])
  {
    seq(|s|, i requires 0 <= i < |s| => LowerChar(s[i]))
  }

  /** `n` spaces: `' ' * n`. */
  function Spaces(n: nat): (r: string)
    ensures |r| == n && forall i :: 0 <= i < n ==> r[i] == ' '
  {
    seq(n, i => ' ')
  }

  /** `s.split(sep)` for a one-character separator: the pieces between separators,
      so `k` separators give `k + 1` pieces. */
  function Split(s: string, sep: char): (r: seq<string>)
    ensures |r| >= 1
    ensures forall i :: 0 <= i < |r| ==> sep !in r[i]
    ensures Join(r, [sep]) == s
  {
    if sep !in s then [s]
    else
      var k := FirstIndex(s, sep);
      var rest := Split(s[k + 1..], sep);
      assert s == s[..k] + [sep] + s[k + 1..];
      [s[..k]] + rest
  }

  function FirstIndex(s: string, c: char): (k: nat)
    requires c in s
    ensures k < |s| && s[k] == c && c !in s[..k]
  {
    if s[0] == c then 0 else FirstIndex(s[1..], c) + 1
  }

  /** `sep.join(parts)`. */
  function Join(parts: seq<string>, sep: string): string {
    if parts == [] then []
    else if |parts| == 1 then parts[0]
    else parts[0] + sep + Join(parts[1..], sep)
  }

  /** Decimal rendering of an integer, as `str(i)` / an f-string gives it. */
  function IntToString(i: int): (r: string)
    ensures r != []
    ensures i < 0 <==> r[0] == '-'
  {
    if i < 0 then "-" + NatToString(-i) else NatToString(i)
  }

  function NatToString(n: nat): (r: string)
    ensures r != [] && r[0] != '-'
    ensures forall k :: 0 <= k < |r| ==> '0' <= r[k] <= '9'
  {
    if n < 10 then [Digit(n)] else NatToString(n / 10) + [Digit(n % 10)]
  }

  /** Different numbers render differently. */
  lemma {:induction false} NatToStringInjective(n: nat, m: nat)
    requires NatToString(n) == NatToString(m)
    ensures n == m
    decreases n
  {
    var r := NatToString(n);
    if n < 10 && m < 10 {
      assert Digit(n) == r[0] == Digit(m);
    } else if n >= 10 && m >= 10 {
      var p, q := NatToString(n / 10), NatToString(m / 10);
      assert r == p + [Digit(n % 10)] && r == q + [Digit(m % 10)];
      assert Digit(n % 10) == r[|r| - 1] == Digit(m % 10);
      assert p == r[..|r| - 1] == q;
      NatToStringInjective(n / 10, m / 10);
    }
  }

  function Digit(d: nat): (c: char)
    requires d < 10
    ensures '0' <= c <= '9'
  {
    ('0' as int + d) as char
  }
}
