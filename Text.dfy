/** The string operations the scripts perform with Python's built-ins:
    `str()` of an integer, the `{:02d}` format, `str.lower` (ASCII only),
    `str.replace` of one character, `str.split` on one character,
    `str.join`, and substring search. */
module Text {

  predicate IsDigit(c: char) {
    '0' <= c <= '9'
  }

  predicate AllDigits(s: string) {
    forall i :: 0 <= i < |s| ==> IsDigit(s[i])
  }

  /** The character of a decimal digit. */
  function DigitChar(d: nat): (c: char)
    requires d < 10
    ensures IsDigit(c) && (c as int) - ('0' as int) == d
  {
    (('0' as int) + d) as char
  }

  function DigitValue(c: char): (d: nat)
    requires IsDigit(c)
    ensures d < 10
  {
    (c as int) - ('0' as int)
  }

  /** Python's `str(n)` for a non-negative integer: decimal, no leading zero. */
  function NatToString(n: nat): (s: string)
    ensures AllDigits(s)
    ensures |s| >= 1 && (n >= 10 <==> |s| >= 2)
  {
    if n < 10 then [DigitChar(n)] else NatToString(n / 10) + [DigitChar(n % 10)]
  }

  /** Python's `str(n)` for any integer. */
  function IntToString(n: int): (s: string) {
    if n < 0 then "-" + NatToString(-n) else NatToString(n)
  }

  /** The value of a string of decimal digits; the inverse of NatToString. */
  function ParseNat(s: string): (n: nat)
    requires AllDigits(s)
  {
    if s == [] then 0 else 10 * ParseNat(s[..|s| - 1]) + DigitValue(s[|s| - 1])
  }

  /** Decimal rendering loses nothing: parsing it back gives the number. */
  lemma {:induction false} ParseNatToString(n: nat)
    ensures ParseNat(NatToString(n)) == n
  {
    if n >= 10 {
      var s := NatToString(n);
      assert s[..|s| - 1] == NatToString(n / 10);
      ParseNatToString(n / 10);
    }
  }

  /** A run of digits followed by a non-digit is read back unambiguously. */
  lemma DigitsPrefixUnique(x: string, rest: string, x': string, rest': string)
    requires AllDigits(x) && AllDigits(x')
    requires rest != [] && !IsDigit(rest[0]) && rest' != [] && !IsDigit(rest'[0])
    requires x + rest == x' + rest'
    ensures x == x' && rest == rest'
  {
    assert x == (x + rest)[..|x|] == (x' + rest')[..|x'|] == x';
  }

  /** NatToString is injective. */
  lemma NatToStringInjective(m: nat, n: nat)
    requires NatToString(m) == NatToString(n)
    ensures m == n
  {
    ParseNatToString(m);
    ParseNatToString(n);
  }

  /** Python's `f"{n:02d}"` for a non-negative integer: at least two digits,
      padded on the left with zeros, and it still denotes n. */
  function Pad2(n: nat): (s: string)
    ensures AllDigits(s) && |s| >= 2
    ensures ParseNat(s) == n
    ensures n < 10 ==> s == ['0', DigitChar(n)]
    ensures n >= 10 ==> s == NatToString(n)
  {
    ParseNatToString(n);
    if n < 10 then "0" + NatToString(n) else NatToString(n)
  }

  function LowerChar(c: char): (r: char) {
    if 'A' <= c <= 'Z' then ((c as int) + 32) as char else c
  }

  /** `str.lower`, restricted to ASCII letters. */
  function Lower(s: string): (r: string)
    ensures |r| == |s|
    ensures forall i :: 0 <= i < |s| ==> r[i] == LowerChar(s[i])
    ensures forall i :: 0 <= i < |s| ==> !('A' <= r[i] <= 'Z')
  {
    if s == [] then [] else [LowerChar(s[0])] + Lower(s[1..])
  }

  /** `str.replace(a, b)` for one-character strings a and b. */
  function ReplaceChar(s: string, a: char, b: char): (r: string)
    ensures |r| == |s|
    ensures forall i :: 0 <= i < |s| ==> r[i] == if s[i] == a then b else s[i]
    ensures a != b ==> a !in r
  {
    if s == [] then [] else [if s[0] == a then b else s[0]] + ReplaceChar(s[1..], a, b)
  }

  /** The position of the first occurrence of c in s. */
  function FirstIndex(s: string, c: char): (i: nat)
    requires c in s
    ensures i < |s| && s[i] == c && c !in s[..i]
  {
    if s[0] == c then 0 else 1 + FirstIndex(s[1..], c)
  }

  /** `s.split(sep)` for a one-character separator: the maximal pieces
      between separators, empty pieces included. */
  function Split(s: string, sep: char): (parts: seq<string>)
    ensures |parts| >= 1
    ensures sep in s <==> |parts| >= 2
    ensures forall k :: 0 <= k < |parts| ==> sep !in parts[k]
    decreases |s|
  {
    if sep !in s then [s]
    else
      var i := FirstIndex(s, sep);
      [s[..i]] + Split(s[i + 1..], sep)
  }

  /** `sep.join(parts)`. */
  function Join(parts: seq<string>, sep: string): (s: string) {
    if |parts| == 0 then ""
    else if |parts| == 1 then parts[0]
    else parts[0] + sep + Join(parts[1..], sep)
  }

  /** Splitting and joining with the same separator gives the text back. */
  lemma {:induction false} JoinSplit(s: string, sep: char)
    ensures Join(Split(s, sep), [sep]) == s
    decreases |s|
  {
    if sep in s {
      var i := FirstIndex(s, sep);
      var rest := Split(s[i + 1..], sep);
      assert Split(s, sep) == [s[..i]] + rest;
      assert ([s[..i]] + rest)[1..] == rest;
      JoinSplit(s[i + 1..], sep);
      assert s == s[..i] + [sep] + s[i + 1..];
    }
  }

  /** The piece before the first separator is the longest separator-free prefix. */
  lemma SplitFirst(s: string, sep: char)
    ensures var p := Split(s, sep)[0];
      && p <= s
      && sep !in p
      && (|p| == |s| || s[|p|] == sep)
  {
    if sep in s {
      var i := FirstIndex(s, sep);
      assert Split(s, sep)[0] == s[..i];
    }
  }

  /** The second piece, when there is a separator, is the separator-free
      text that follows the first one, up to the next separator or the end. */
  lemma SplitSecond(s: string, sep: char)
    requires sep in s
    ensures var p0 := Split(s, sep)[0];
      var p1 := Split(s, sep)[1];
      && |p0| < |s| && s[|p0|] == sep
      && p1 <= s[|p0| + 1..]
      && sep !in p1
      && (|p0| + 1 + |p1| == |s| || s[|p0| + 1 + |p1|] == sep)
  {
    var i := FirstIndex(s, sep);
    var t := s[i + 1..];
    assert Split(s, sep) == [s[..i]] + Split(t, sep);
    assert Split(s, sep)[0] == s[..i] && Split(s, sep)[1] == Split(t, sep)[0];
    SplitFirst(t, sep);
    var p1 := Split(t, sep)[0];
    assert |p1| < |t| ==> s[i + 1 + |p1|] == t[|p1|];
  }

  predicate OccursAt(pat: string, text: string, i: int) {
    0 <= i && i + |pat| <= |text| && text[i..i + |pat|] == pat
  }

  /** pat is a substring of text. */
  ghost predicate Contains(text: string, pat: string) {
    exists i :: OccursAt(pat, text, i)
  }

  /** Concatenation regrouped. */
  lemma ConcatAssoc(x: string, y: string, z: string)
    ensures x + y + z == x + (y + z)
  {
  }

  /** b occurs in a + (b + c) right after a. */
  lemma OccursAtMiddle(a: string, b: string, c: string)
    ensures OccursAt(b, a + (b + c), |a|)
  {
    assert (a + (b + c))[|a|..|a| + |b|] == b;
  }

  /** What occurs in s occurs at the same place in s + t. */
  lemma OccursAtExtend(pat: string, s: string, t: string, i: int)
    requires OccursAt(pat, s, i)
    ensures OccursAt(pat, s + t, i)
  {
    assert (s + t)[i..i + |pat|] == s[i..i + |pat|];
  }

  lemma ContainsMiddle(a: string, b: string, c: string)
    ensures Contains(a + (b + c), b)
  {
    OccursAtMiddle(a, b, c);
  }

  /** A substring of s is a substring of a + s. */
  lemma ContainsExtend(a: string, s: string, pat: string)
    requires Contains(s, pat)
    ensures Contains(a + s, pat)
  {
    var i :| OccursAt(pat, s, i);
    assert (a + s)[|a| + i..|a| + i + |pat|] == s[i..i + |pat|];
    assert OccursAt(pat, a + s, |a| + i);
  }

  /** s ends with t. */
  predicate EndsWith(s: string, t: string) {
    |t| <= |s| && s[|s| - |t|..] == t
  }

  /** text holds a, and ends with b after a has ended. */
  ghost predicate ThenEndsWith(text: string, a: string, b: string) {
    EndsWith(text, b) && exists i :: OccursAt(a, text, i) && i + |a| <= |text| - |b|
  }

  /** h + b + f starts with h and ends with f. */
  lemma Framed(h: string, b: string, f: string)
    ensures OccursAt(h, h + b + f, 0)
    ensures EndsWith(h + b + f, f)
  {
    var s := h + b + f;
    assert s[0..|h|] == h;
    assert s[|s| - |f|..] == f;
  }

  /** An ending of s is an ending of a + s. */
  lemma EndsWithExtend(a: string, s: string, t: string)
    requires EndsWith(s, t)
    ensures EndsWith(a + s, t)
  {
    assert (a + s)[|a + s| - |t|..] == s[|s| - |t|..];
  }
}
