/** ASCII text helpers shared by the payroll model: the small part of Python's
  * `str` behaviour (case mapping, stripping, prefix and substring tests,
  * replacement, digit and letter tests, integer formatting) the services use.
  */
module Strings {

  datatype Option<T> = None | Some(value: T)

  // ---------------------------------------------------------------- characters

  predicate IsDigitChar(c: char) { '0' <= c <= '9' }

  predicate IsUpperChar(c: char) { 'A' <= c <= 'Z' }

  predicate IsLowerChar(c: char) { 'a' <= c <= 'z' }

  predicate IsAlphaChar(c: char) { IsUpperChar(c) || IsLowerChar(c) }

  /** Python's whitespace characters for `str.strip()` (the ASCII and Latin-1 ones). */
  predicate IsSpaceChar(c: char)
  {
    var n := c as int;
    n == 32 || 9 <= n <= 13 || 28 <= n <= 31 || n == 0x85 || n == 0xA0
  }

  function LowerChar(c: char): (r: char)
    ensures !IsUpperChar(r)
    ensures IsUpperChar(c) ==> r as int == c as int + 32
    ensures !IsUpperChar(c) ==> r == c
  {
    if IsUpperChar(c) then (c as int + 32) as char else c
  }

  function UpperChar(c: char): (r: char)
    ensures !IsLowerChar(r)
    ensures IsLowerChar(c) ==> r as int == c as int - 32
    ensures !IsLowerChar(c) ==> r == c
  {
    if IsLowerChar(c) then (c as int - 32) as char else c
  }

  // ----------------------------------------------------------------- strings

  /** `s.lower()` on ASCII letters. */
  function Lower(s: string): (r: string)
    ensures |r| == |s|
    ensures forall i :: 0 <= i < |s| ==> r[i] == LowerChar(s[i])
  {
    seq(|s|, i requires 0 <= i < |s| => LowerChar(s[i]))
  }

  /** A string without upper-case letters is its own lower-case form. */
  lemma LowerOfLowerCase(s: string)
    requires forall i :: 0 <= i < |s| ==> !IsUpperChar(s[i])
    ensures Lower(s) == s
  {
  }

  /** `s.upper()` on ASCII letters. */
  function Upper(s: string): (r: string)
    ensures |r| == |s|
    ensures forall i :: 0 <= i < |s| ==> r[i] == UpperChar(s[i])
  {
    seq(|s|, i requires 0 <= i < |s| => UpperChar(s[i]))
  }

  /** `s.isdigit()`: non-empty and every character a decimal digit. */
  predicate AllDigits(s: string)
  {
    |s| > 0 && forall i :: 0 <= i < |s| ==> IsDigitChar(s[i])
  }

  /** `s.isalpha()`: non-empty and every character a letter. */
  predicate AllAlpha(s: string)
  {
    |s| > 0 && forall i :: 0 <= i < |s| ==> IsAlphaChar(s[i])
  }

  predicate StartsWith(s: string, prefix: string)
  {
    |prefix| <= |s| && s[..|prefix|] == prefix
  }

  predicate EndsWith(s: string, suffix: string)
  {
    |suffix| <= |s| && s[|s| - |suffix|..] == suffix
  }

  /** `sub in s`: `sub` occurs in `s` as a contiguous substring. */
  predicate Contains(s: string, sub: string)
    decreases |s|
  {
    StartsWith(s, sub) || (|s| > 0 && Contains(s[1..], sub))
  }

  predicate ContainsChar(s: string, c: char)
  {
    exists i :: 0 <= i < |s| && s[i] == c
  }

  /** `sub` occurs in `s` starting at index `k`. */
  predicate OccursAt(s: string, sub: string, k: int)
  {
    0 <= k && k + |sub| <= |s| && s[k..k + |sub|] == sub
  }

  lemma {:induction false} ContainsIffOccurs(s: string, sub: string)
    ensures Contains(s, sub) <==> exists k :: OccursAt(s, sub, k)
    decreases |s|
  {
    if StartsWith(s, sub) {
      assert OccursAt(s, sub, 0);
    } else if |s| == 0 {
    } else {
      ContainsIffOccurs(s[1..], sub);
      if Contains(s[1..], sub) {
        var k :| OccursAt(s[1..], sub, k);
        assert s[k + 1..k + 1 + |sub|] == s[1..][k..k + |sub|];
        assert OccursAt(s, sub, k + 1);
      }
      if exists k :: OccursAt(s, sub, k) {
        var k :| OccursAt(s, sub, k);
        assert k != 0;
        assert s[1..][k - 1..k - 1 + |sub|] == s[k..k + |sub|];
        assert OccursAt(s[1..], sub, k - 1);
      }
    }
  }

  /** A one-character substring test is the character-membership test. */
  lemma ContainsSingleChar(s: string, c: char)
    ensures Contains(s, [c]) <==> ContainsChar(s, c)
  {
    ContainsIffOccurs(s, [c]);
    if ContainsChar(s, c) {
      var i :| 0 <= i < |s| && s[i] == c;
      assert OccursAt(s, [c], i);
    }
    if Contains(s, [c]) {
      var k :| OccursAt(s, [c], k);
      assert s[k] == c;
    }
  }

  /** A string in which one character of `sub` never appears does not
      contain `sub`. */
  lemma MissingCharNotContained(s: string, sub: string, k: nat)
    requires k < |sub| && forall i :: 0 <= i < |s| ==> s[i] != sub[k]
    ensures !Contains(s, sub)
  {
    forall m
      ensures !OccursAt(s, sub, m)
    {
      if 0 <= m && m + |sub| <= |s| {
        assert s[m..m + |sub|][k] == s[m + k];
      }
    }
    ContainsIffOccurs(s, sub);
  }

  /** Whatever occurs in `s` occurs in any string that has `s` as a piece. */
  lemma ContainsInConcat(a: string, s: string, b: string, sub: string)
    requires Contains(s, sub)
    ensures Contains(a + s + b, sub)
  {
    ContainsIffOccurs(s, sub);
    var k :| OccursAt(s, sub, k);
    var t := a + s + b;
    assert t[|a| + k..|a| + k + |sub|] == s[k..k + |sub|];
    assert OccursAt(t, sub, |a| + k);
    ContainsIffOccurs(t, sub);
  }

  /** A string ending with `sub` contains it. */
  lemma ContainsAtEnd(a: string, sub: string)
    ensures Contains(a + sub, sub)
  {
    assert (a + sub)[|a|..|a| + |sub|] == sub;
    assert OccursAt(a + sub, sub, |a|);
    ContainsIffOccurs(a + sub, sub);
  }

  /** Prepending to a string keeps what it contains. */
  lemma ContainsInSuffix(a: string, s: string, sub: string)
    requires Contains(s, sub)
    ensures Contains(a + s, sub)
  {
    ContainsInConcat(a, s, "", sub);
    assert a + s + "" == a + s;
  }

  /** Lower-casing works character by character, so it distributes over concatenation. */
  lemma LowerConcat(a: string, b: string)
    ensures Lower(a + b) == Lower(a) + Lower(b)
  {
  }

  /** Appending to a string keeps what it contains. */
  lemma ContainsExtended(s: string, t: string, sub: string)
    requires Contains(s, sub)
    ensures Contains(s + t, sub)
  {
    ContainsIffOccurs(s, sub);
    var k :| OccursAt(s, sub, k);
    assert (s + t)[k..k + |sub|] == s[k..k + |sub|];
    assert OccursAt(s + t, sub, k);
    ContainsIffOccurs(s + t, sub);
  }

  /** The number of whitespace characters `s` starts with. */
  function LeadingSpaces(s: string): (n: nat)
    ensures n <= |s|
    decreases |s|
  {
    if |s| > 0 && IsSpaceChar(s[0]) then 1 + LeadingSpaces(s[1..]) else 0
  }

  /** The number of whitespace characters `s` ends with. */
  function TrailingSpaces(s: string): (n: nat)
    ensures n <= |s|
    decreases |s|
  {
    if |s| > 0 && IsSpaceChar(s[|s| - 1]) then 1 + TrailingSpaces(s[..|s| - 1]) else 0
  }

  /** A piece that starts with `sub` puts `sub` at the piece's offset in any concatenation. */
  lemma OccursInConcat(a: string, b: string, c: string, sub: string)
    requires StartsWith(b, sub)
    ensures OccursAt(a + b + c, sub, |a|)
  {
    var t := a + b + c;
    assert t[|a|..|a| + |sub|] == b[..|sub|];
  }

  /** `s.lstrip()`. */
  function TrimLeft(s: string): string
  {
    s[LeadingSpaces(s)..]
  }

  /** `s.rstrip()`. */
  function TrimRight(s: string): string
  {
    s[..|s| - TrailingSpaces(s)]
  }

  /** `s.strip()`. */
  function Strip(s: string): string
  {
    TrimRight(TrimLeft(s))
  }

  /** The leading-space count stops exactly at the first character that is not whitespace. */
  lemma {:induction false} LeadingSpacesSpec(s: string)
    ensures forall i :: 0 <= i < LeadingSpaces(s) ==> IsSpaceChar(s[i])
    ensures LeadingSpaces(s) < |s| ==> !IsSpaceChar(s[LeadingSpaces(s)])
    decreases |s|
  {
    if |s| > 0 && IsSpaceChar(s[0]) {
      LeadingSpacesSpec(s[1..]);
      forall i | 0 <= i < LeadingSpaces(s)
        ensures IsSpaceChar(s[i])
      {
        if i > 0 {
          assert s[i] == s[1..][i - 1];
        }
      }
    }
  }

  /** The trailing-space count stops exactly at the last character that is not whitespace. */
  lemma {:induction false} TrailingSpacesSpec(s: string)
    ensures forall i :: |s| - TrailingSpaces(s) <= i < |s| ==> IsSpaceChar(s[i])
    ensures TrailingSpaces(s) < |s| ==> !IsSpaceChar(s[|s| - TrailingSpaces(s) - 1])
    decreases |s|
  {
    if |s| > 0 && IsSpaceChar(s[|s| - 1]) {
      var init := s[..|s| - 1];
      TrailingSpacesSpec(init);
      forall i | |s| - TrailingSpaces(s) <= i < |s|
        ensures IsSpaceChar(s[i])
      {
        if i < |s| - 1 {
          assert s[i] == init[i];
        }
      }
      if TrailingSpaces(s) < |s| {
        assert s[|s| - TrailingSpaces(s) - 1] == init[|init| - TrailingSpaces(init) - 1];
      }
    }
  }

  /** A stripped string neither starts nor ends with whitespace. */
  lemma StripEnds(s: string)
    ensures var r := Strip(s);
      |r| > 0 ==> !IsSpaceChar(r[0]) && !IsSpaceChar(r[|r| - 1])
  {
    var l := TrimLeft(s);
    LeadingSpacesSpec(s);
    TrailingSpacesSpec(l);
    var r := Strip(s);
    if |r| > 0 {
      assert r[0] == l[0] == s[LeadingSpaces(s)];
      assert r[|r| - 1] == l[|l| - TrailingSpaces(l) - 1];
    }
  }

  /** Stripping twice strips nothing more. */
  lemma StripIdempotent(s: string)
    ensures Strip(Strip(s)) == Strip(s)
  {
    var r := Strip(s);
    StripEnds(s);
    if |r| > 0 {
      assert LeadingSpaces(r) == 0;
      assert TrimLeft(r) == r;
      assert TrailingSpaces(r) == 0;
    } else {
      assert r == [];
    }
  }

  /** `s.replace(" ", "")`. */
  function RemoveChar(s: string, c: char): (r: string)
    ensures |r| <= |s|
    ensures forall i :: 0 <= i < |r| ==> r[i] != c
  {
    if |s| == 0 then []
    else if s[0] == c then RemoveChar(s[1..], c)
    else [s[0]] + RemoveChar(s[1..], c)
  }

  /** `s.replace(pattern, replacement)` for a non-empty pattern, left to right. */
  function ReplaceAll(s: string, pattern: string, replacement: string): (r: string)
    requires |pattern| > 0
    ensures !Contains(s, pattern) ==> r == s
    decreases |s|
  {
    if |s| < |pattern| then s
    else if s[..|pattern|] == pattern then replacement + ReplaceAll(s[|pattern|..], pattern, replacement)
    else [s[0]] + ReplaceAll(s[1..], pattern, replacement)
  }

  function Repeat(c: char, n: nat): (r: string)
    ensures |r| == n
    ensures forall i :: 0 <= i < n ==> r[i] == c
  {
    seq(n, _ => c)
  }

  function DigitChar(d: nat): (c: char)
    requires d < 10
    ensures IsDigitChar(c) && c as int - '0' as int == d
  {
    ('0' as int + d) as char
  }

  function DigitValue(c: char): (d: nat)
    requires IsDigitChar(c)
    ensures d < 10 && DigitChar(d) == c
  {
    c as int - '0' as int
  }

  /** `str(n)` for a natural number: decimal digits, no leading zero. */
  function NatToString(n: nat): (r: string)
    ensures AllDigits(r)
    ensures |r| > 1 ==> r[0] != '0'
    decreases n
  {
    if n < 10 then [DigitChar(n)] else NatToString(n / 10) + [DigitChar(n % 10)]
  }

  /** `int(s)` for a string of decimal digits. */
  function ParseNat(s: string): (n: nat)
    requires forall i :: 0 <= i < |s| ==> IsDigitChar(s[i])
    decreases |s|
  {
    if |s| == 0 then 0 else 10 * ParseNat(s[..|s| - 1]) + DigitValue(s[|s| - 1])
  }

  lemma {:induction false} ParseNatToString(n: nat)
    ensures ParseNat(NatToString(n)) == n
    decreases n
  {
    var r := NatToString(n);
    if n >= 10 {
      ParseNatToString(n / 10);
      assert r[..|r| - 1] == NatToString(n / 10);
    }
  }

  /** `str(n)` is one-to-one, so formatted numbers can be told apart. */
  lemma NatToStringInjective(m: nat, n: nat)
    requires NatToString(m) == NatToString(n)
    ensures m == n
  {
    ParseNatToString(m);
    ParseNatToString(n);
  }

  /** Right-aligns `s` in a field of `width` characters padded with zeros. */
  function ZeroPad(s: string, width: nat): (r: string)
    ensures |r| == if |s| < width then width else |s|
    ensures EndsWith(r, s)
    ensures forall i :: 0 <= i < |r| - |s| ==> r[i] == '0'
  {
    if |s| < width then Repeat('0', width - |s|) + s else s
  }

  /** Python's `f"{n:0{width}d}"`: the sign, if any, counts towards the width. */
  function FormatInt(n: int, width: nat): (r: string)
    ensures n >= 0 ==> r == ZeroPad(NatToString(n), width)
    ensures n < 0 ==> |r| > 0 && r[0] == '-' && r[1..] == ZeroPad(NatToString(-n), if width > 0 then width - 1 else 0)
    ensures |r| >= width
  {
    if n >= 0 then ZeroPad(NatToString(n), width)
    else "-" + ZeroPad(NatToString(-n), if width > 0 then width - 1 else 0)
  }

  /** Python's `f"{s:<{width}}"`: `s` followed by spaces up to `width`. */
  function LeftJustify(s: string, width: nat): (r: string)
    ensures |r| == if |s| < width then width else |s|
    ensures StartsWith(r, s)
    ensures forall i :: |s| <= i < |r| ==> r[i] == ' '
  {
    if |s| < width then s + Repeat(' ', width - |s|) else s
  }

  /** `s[:n]` (Python slicing clamps at the end of the string). */
  function Take(s: string, n: nat): (r: string)
    ensures |r| == if n < |s| then n else |s|
    ensures StartsWith(s, r)
  {
    if n < |s| then s[..n] else s
  }

  function Pow10(k: nat): (r: nat)
    ensures r >= 1
  {
    if k == 0 then 1 else 10 * Pow10(k - 1)
  }

  /** A number below 10^w takes at most `w` digits. */
  lemma {:induction false} NatToStringLength(n: nat, w: nat)
    requires 1 <= w && n < Pow10(w)
    ensures |NatToString(n)| <= w
    decreases n
  {
    if n >= 10 && w > 1 {
      assert n < 10 * Pow10(w - 1);
      assert n / 10 < Pow10(w - 1);
      NatToStringLength(n / 10, w - 1);
    }
  }

  /** Reading the digits of `a + b` is reading `a`, shifted by the width of `b`, plus `b`. */
  lemma {:induction false} ParseNatConcat(a: string, b: string)
    requires forall i :: 0 <= i < |a| ==> IsDigitChar(a[i])
    requires forall i :: 0 <= i < |b| ==> IsDigitChar(b[i])
    ensures ParseNat(a + b) == ParseNat(a) * Pow10(|b|) + ParseNat(b)
    decreases |b|
  {
    if |b| == 0 {
      assert a + b == a;
    } else {
      var b', last := b[..|b| - 1], b[|b| - 1];
      var ab := a + b;
      assert ab[..|ab| - 1] == a + b' && ab[|ab| - 1] == last;
      ParseNatConcat(a, b');
      assert ParseNat(ab) == 10 * ParseNat(a + b') + DigitValue(last);
      assert ParseNat(b) == 10 * ParseNat(b') + DigitValue(last);
      assert Pow10(|b|) == 10 * Pow10(|b'|);
      ShiftDigit(ParseNat(a), Pow10(|b'|), ParseNat(b'), DigitValue(last));
    }
  }

  lemma ShiftDigit(x: int, y: int, z: int, d: int)
    ensures 10 * (x * y + z) + d == x * (10 * y) + (10 * z + d)
  {
  }

  lemma {:induction false} ParseNatZeros(k: nat)
    ensures ParseNat(Repeat('0', k)) == 0
  {
    if k > 0 {
      assert Repeat('0', k)[..k - 1] == Repeat('0', k - 1);
      ParseNatZeros(k - 1);
    }
  }

  /** Zero padding does not change the number a digit string denotes, so a
    * formatted non-negative number reads back as itself. */
  lemma ParseFormatInt(n: nat, width: nat)
    ensures AllDigits(FormatInt(n, width))
    ensures ParseNat(FormatInt(n, width)) == n
  {
    var s := NatToString(n);
    ParseNatToString(n);
    assert FormatInt(n, width) == ZeroPad(s, width);
    if |s| < width {
      var zeros := Repeat('0', width - |s|);
      assert ZeroPad(s, width) == zeros + s;
      ParseNatConcat(zeros, s);
      ParseNatZeros(width - |s|);
      assert ParseNat(zeros + s) == 0 * Pow10(|s|) + n;
    }
  }

  /** A non-negative number below 10^w is formatted in exactly `w` characters. */
  lemma FormatIntWidth(n: nat, width: nat)
    requires 1 <= width && n < Pow10(width)
    ensures |FormatInt(n, width)| == width
  {
    NatToStringLength(n, width);
  }

  /** Stripping leaves a prefix in place when its first and last characters are not whitespace. */
  lemma StripKeepsPrefix(s: string, prefix: string)
    requires |prefix| > 0 && StartsWith(s, prefix)
    requires !IsSpaceChar(prefix[0]) && !IsSpaceChar(prefix[|prefix| - 1])
    ensures StartsWith(Strip(s), prefix)
  {
    assert s[0] == prefix[0];
    assert LeadingSpaces(s) == 0;
    assert TrimLeft(s) == s;
    TrailingSpacesSpec(s);
    assert s[|prefix| - 1] == prefix[|prefix| - 1];
    var r := Strip(s);
    assert |r| >= |prefix|;
    assert r[..|prefix|] == s[..|prefix|];
  }
}
