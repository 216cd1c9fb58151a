/** Strings as the pipeline builds and compares them: decimal rendering of
    integers (for checkpoint keys and factor names), ASCII case conversion,
    prefixes and the lexicographic order Python uses on `str`. */
module Text {

  predicate IsDigit(c: char) {
    '0' <= c <= '9'
  }

  predicate AllDigits(s: string) {
    forall i :: 0 <= i < |s| ==> IsDigit(s[i])
  }

  function DigitChar(d: nat): (c: char)
    requires d < 10
    ensures IsDigit(c)
  {
    ['0', '1', '2', '3', '4', '5', '6', '7', '8', '9'][d]
  }

  function DigitValue(c: char): (d: nat)
    requires IsDigit(c)
    ensures d < 10
  {
    (c as int - '0' as int) as nat
  }

  lemma {:induction false} DigitRoundTrip(d: nat)
    requires d < 10
    ensures DigitValue(DigitChar(d)) == d
  {
    assert ['0', '1', '2', '3', '4', '5', '6', '7', '8', '9'][d] as int == '0' as int + d;
  }

  /** `str(n)` for a non-negative integer: its decimal digits, no leading zero. */
  function Decimal(n: nat): (s: string)
    ensures |s| > 0 && AllDigits(s)
  {
    if n < 10 then [DigitChar(n)] else Decimal(n / 10) + [DigitChar(n % 10)]
  }

  /** `int(s)` for a string of decimal digits. */
  function ParseDecimal(s: string): nat
    requires AllDigits(s)
  {
    if s == [] then 0 else ParseDecimal(s[..|s| - 1]) * 10 + DigitValue(s[|s| - 1])
  }

  /** Reading back a rendered number gives the number. */
  lemma {:induction false} DecimalRoundTrip(n: nat)
    ensures ParseDecimal(Decimal(n)) == n
  {
    if n < 10 {
      DigitRoundTrip(n);
      assert Decimal(n)[..0] == [];
    } else {
      DecimalRoundTrip(n / 10);
      DigitRoundTrip(n % 10);
      var s := Decimal(n);
      assert s[..|s| - 1] == Decimal(n / 10);
    }
  }

  /** Distinct numbers render as distinct strings. */
  lemma {:induction false} DecimalInjective(a: nat, b: nat)
    requires Decimal(a) == Decimal(b)
    ensures a == b
  {
    DecimalRoundTrip(a);
    DecimalRoundTrip(b);
  }

  /** `s` has no occurrence of `c`. */
  predicate Free(s: string, c: char) {
    forall i :: 0 <= i < |s| ==> s[i] != c
  }

  /** A field that does not contain the separator is recovered unambiguously
      from `p + x + [sep] + y`: this is why colon-separated keys built from
      numbers never collide. */
  lemma {:induction false} SplitAtSeparator(p: string, x: string, y: string, x': string, y': string, sep: char)
    requires Free(x, sep) && Free(x', sep)
    requires p + x + [sep] + y == p + x' + [sep] + y'
    ensures x == x' && y == y'
  {
    var l := p + x + [sep] + y;
    var r := p + x' + [sep] + y';
    if |x| < |x'| {
      ShorterFieldDiffers(p, x, y, x', y', sep);
      assert false;
    } else if |x'| < |x| {
      ShorterFieldDiffers(p, x', y', x, y, sep);
      assert false;
    }
    assert x == l[|p|..|p| + |x|] == r[|p|..|p| + |x'|] == x';
    assert y == l[|p| + |x| + 1..] == r[|p| + |x'| + 1..] == y';
  }

  /** A shorter first field puts the separator where the other string still
      has a character of its own field. */
  lemma {:induction false} ShorterFieldDiffers(p: string, x: string, y: string, x': string, y': string, sep: char)
    requires Free(x', sep) && |x| < |x'|
    ensures p + x + [sep] + y != p + x' + [sep] + y'
  {
    assert (p + x + [sep] + y)[|p| + |x|] == sep;
    assert (p + x' + [sep] + y')[|p| + |x|] == x'[|x|];
  }

  lemma {:induction false} DecimalHasNo(n: nat, c: char)
    requires !IsDigit(c)
    ensures Free(Decimal(n), c)
  {
  }

  /** Cancelling a common suffix. */
  lemma {:induction false} SuffixCancel(a: string, b: string, t: string)
    requires a + t == b + t
    ensures a == b
  {
    assert a == (a + t)[..|a|];
    assert b == (b + t)[..|b|];
  }

  // ------------------------------------------------------------------
  // ASCII helpers
  // ------------------------------------------------------------------

  predicate IsUpperLetter(c: char) {
    'A' <= c <= 'Z'
  }

  predicate IsLowerLetter(c: char) {
    'a' <= c <= 'z'
  }

  /** `c.upper()` on ASCII letters; other characters are unchanged. */
  function UpperChar(c: char): (u: char)
    ensures IsLowerLetter(c) ==> IsUpperLetter(u) && u as int == c as int - 32
    ensures !IsLowerLetter(c) ==> u == c
  {
    if IsLowerLetter(c) then (c as int - 32) as char else c
  }

  /** `s.upper()`, restricted to ASCII case mapping. */
  function Upper(s: string): (u: string)
    ensures |u| == |s| && forall i :: 0 <= i < |s| ==> u[i] == UpperChar(s[i])
  {
    if s == [] then [] else Upper(s[..|s| - 1]) + [UpperChar(s[|s| - 1])]
  }

  /** The characters `str.isspace()` accepts, which `str.strip()` removes:
      tab to carriage return, the separators 0x1C-0x1F, space, NEL, NBSP and
      the Unicode spaces. */
  predicate IsSpace(c: char) {
    ('\t' <= c <= '\r') || ('\U{001C}' <= c <= '\U{001F}') || c == ' ' || c == '\U{0085}' || c == '\U{00A0}'
    || c == '\U{1680}' || ('\U{2000}' <= c <= '\U{200A}') || c == '\U{2028}' || c == '\U{2029}'
    || c == '\U{202F}' || c == '\U{205F}' || c == '\U{3000}'
  }

  /** `s.strip()`: leading and trailing whitespace removed. */
  function Strip(s: string): (t: string)
    ensures |t| <= |s|
    ensures t == [] || (!IsSpace(t[0]) && !IsSpace(t[|t| - 1]))
    decreases |s|
  {
    if s == [] then []
    else if IsSpace(s[0]) then Strip(s[1..])
    else if IsSpace(s[|s| - 1]) then Strip(s[..|s| - 1])
    else s
  }

  /** `t` is the slice `s[i..j]`, and everything outside it is whitespace. */
  predicate TrimmedAt(s: string, t: string, i: int, j: int) {
    0 <= i <= j <= |s| && t == s[i..j]
    && (forall k :: 0 <= k < i ==> IsSpace(s[k]))
    && (forall k :: j <= k < |s| ==> IsSpace(s[k]))
  }

  /** `Strip(s)` is a slice of `s` that drops only whitespace at the two
      ends; with `Strip`'s own ensures (no whitespace left at either end)
      this fixes it as the maximal such trim. */
  lemma {:induction false} StripSpec(s: string)
    ensures exists i, j :: TrimmedAt(s, Strip(s), i, j)
    decreases |s|
  {
    if s == [] {
      assert TrimmedAt(s, Strip(s), 0, 0);
    } else if IsSpace(s[0]) {
      StripSpec(s[1..]);
      var i, j :| TrimmedAt(s[1..], Strip(s[1..]), i, j);
      TrimmedAfterSpace(s, Strip(s), i, j);
    } else if IsSpace(s[|s| - 1]) {
      StripSpec(s[..|s| - 1]);
      var i, j :| TrimmedAt(s[..|s| - 1], Strip(s[..|s| - 1]), i, j);
      TrimmedBeforeSpace(s, Strip(s), i, j);
    } else {
      assert TrimmedAt(s, Strip(s), 0, |s|);
    }
  }

  /** A trim of `s[1..]` is one of `s` when `s` starts with whitespace. */
  lemma {:induction false} TrimmedAfterSpace(s: string, t: string, i: int, j: int)
    requires s != [] && IsSpace(s[0]) && TrimmedAt(s[1..], t, i, j)
    ensures TrimmedAt(s, t, i + 1, j + 1)
  {
    assert s[1..][i..j] == s[i + 1..j + 1];
    forall k | 0 <= k < i + 1 ensures IsSpace(s[k]) {
      if k > 0 { assert s[k] == s[1..][k - 1]; }
    }
    forall k | j + 1 <= k < |s| ensures IsSpace(s[k]) {
      assert s[k] == s[1..][k - 1];
    }
  }

  /** A trim of `s[..|s| - 1]` is one of `s` when `s` ends with whitespace. */
  lemma {:induction false} TrimmedBeforeSpace(s: string, t: string, i: int, j: int)
    requires s != [] && IsSpace(s[|s| - 1]) && TrimmedAt(s[..|s| - 1], t, i, j)
    ensures TrimmedAt(s, t, i, j)
  {
    var n := |s|;
    assert s[..n - 1][i..j] == s[i..j];
    forall k | 0 <= k < i ensures IsSpace(s[k]) {
      assert s[k] == s[..n - 1][k];
    }
    forall k | j <= k < n ensures IsSpace(s[k]) {
      if k < n - 1 { assert s[k] == s[..n - 1][k]; }
    }
  }

  predicate StartsWith(s: string, prefix: string) {
    |prefix| <= |s| && s[..|prefix|] == prefix
  }

  /** `sub in s`: `sub` occurs somewhere in `s`. */
  predicate Contains(s: string, sub: string)
    decreases |s|
  {
    StartsWith(s, sub) || (s != [] && Contains(s[1..], sub))
  }

  /** `sub` sits at offset `i` of `s`. */
  predicate OccursAt(s: string, sub: string, i: int) {
    0 <= i <= |s| - |sub| && s[i..i + |sub|] == sub
  }

  /** `sub in s` holds exactly when `sub` sits at some offset of `s`. */
  lemma {:induction false} ContainsAt(s: string, sub: string)
    ensures Contains(s, sub) <==> exists i :: OccursAt(s, sub, i)
    decreases |s|
  {
    if s != [] {
      ContainsAt(s[1..], sub);
      if Contains(s[1..], sub) {
        var i :| OccursAt(s[1..], sub, i);
        assert s[i + 1..i + 1 + |sub|] == s[1..][i..i + |sub|];
        assert OccursAt(s, sub, i + 1);
      }
      if StartsWith(s, sub) {
        assert OccursAt(s, sub, 0);
      }
      if exists i :: OccursAt(s, sub, i) {
        var i :| OccursAt(s, sub, i);
        if i > 0 {
          assert s[1..][i - 1..i - 1 + |sub|] == s[i..i + |sub|];
          assert OccursAt(s[1..], sub, i - 1);
        }
      }
    } else {
      if exists i :: OccursAt(s, sub, i) {
        var i :| OccursAt(s, sub, i);
        assert |sub| == 0 && s[..0] == sub;
      }
      if StartsWith(s, sub) {
        assert OccursAt(s, sub, 0);
      }
    }
  }

  /** `s[:n]`: Python slicing clamps at the end of the string. */
  function Take(s: string, n: nat): (t: string)
    ensures |t| == if n <= |s| then n else |s|
    ensures forall i :: 0 <= i < |t| ==> t[i] == s[i]
  {
    if n <= |s| then s[..n] else s
  }

  /** Leading zeros do not change the number a string of digits denotes. */
  lemma {:induction false} ParseLeadingZeros(z: string, s: string)
    requires forall i :: 0 <= i < |z| ==> z[i] == '0'
    requires AllDigits(s)
    ensures AllDigits(z + s) && ParseDecimal(z + s) == ParseDecimal(s)
    decreases |z| + |s|
  {
    if s == [] {
      assert z + s == z;
      if z != [] {
        ParseLeadingZeros(z[..|z| - 1], s);
        assert z[..|z| - 1] + s == z[..|z| - 1];
      }
    } else {
      var n := |s|;
      assert (z + s)[..|z + s| - 1] == z + s[..n - 1];
      assert (z + s)[|z + s| - 1] == s[n - 1];
      ParseLeadingZeros(z, s[..n - 1]);
    }
  }

  /** `s.replace(a, b)` for single characters. */
  function ReplaceChar(s: string, a: char, b: char): (t: string)
    ensures |t| == |s|
    ensures forall i :: 0 <= i < |s| ==> t[i] == (if s[i] == a then b else s[i])
  {
    if s == [] then [] else ReplaceChar(s[..|s| - 1], a, b) + [if s[|s| - 1] == a then b else s[|s| - 1]]
  }

  /** `s.zfill(width)` for a string of digits: zeros on the left up to `width`. */
  function ZFill(s: string, width: nat): (t: string)
    ensures |t| == if |s| < width then width else |s|
    ensures t[|t| - |s|..] == s
    ensures forall i :: 0 <= i < |t| - |s| ==> t[i] == '0'
  {
    var pad: seq<char> := seq(if |s| < width then width - |s| else 0, _ => '0');
    assert (pad + s)[|pad|..] == s;
    pad + s
  }

  // ------------------------------------------------------------------
  // Lexicographic order of strings (Python's `<` on `str`)
  // ------------------------------------------------------------------

  /** `a < b` as Python compares strings: by code point, a proper prefix first. */
  predicate Less(a: string, b: string)
    decreases |a|
  {
    if a == [] then b != []
    else if b == [] then false
    else if a[0] != b[0] then a[0] < b[0]
    else Less(a[1..], b[1..])
  }

  /** Strings that agree up to position `k` and differ there are ordered by
      their characters at `k`. */
  lemma {:induction false} LessAt(a: string, b: string, k: nat)
    requires k < |a| && k < |b| && a[..k] == b[..k] && a[k] < b[k]
    ensures Less(a, b)
    decreases k
  {
    if k > 0 {
      assert a[0] == a[..k][0] && b[0] == b[..k][0];
      assert a[1..][..k - 1] == a[..k][1..] && b[1..][..k - 1] == b[..k][1..];
      LessAt(a[1..], b[1..], k - 1);
    }
  }

  lemma {:induction false} LessIrreflexive(a: string)
    ensures !Less(a, a)
    decreases |a|
  {
    if a != [] {
      LessIrreflexive(a[1..]);
    }
  }

  /** Exactly one of `a < b`, `a == b`, `b < a`. */
  lemma {:induction false} LessTrichotomy(a: string, b: string)
    ensures Less(a, b) || a == b || Less(b, a)
    ensures !(Less(a, b) && Less(b, a))
    decreases |a|
  {
    if a != [] && b != [] && a[0] == b[0] {
      LessTrichotomy(a[1..], b[1..]);
      if a[1..] == b[1..] {
        assert a == [a[0]] + a[1..] && b == [b[0]] + b[1..];
      }
    }
  }

  lemma {:induction false} LessTransitive(a: string, b: string, c: string)
    requires Less(a, b) && Less(b, c)
    ensures Less(a, c)
    decreases |a|
  {
    if a != [] && b != [] && c != [] && a[0] == b[0] && b[0] == c[0] {
      LessTransitive(a[1..], b[1..], c[1..]);
    }
  }
}
