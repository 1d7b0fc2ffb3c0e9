/**
 * The JavaScript string primitives the analysis engine relies on:
 * `toLowerCase`, `includes`, `trim`, `Array.prototype.join` and the
 * decimal rendering of an integer inside a template literal.
 */
module Text {

  /** `toLowerCase` on one character, restricted to the ASCII letters. */
  function LowerChar(c: char): char
  {
    if 'A' <= c <= 'Z' then (c as int + 32) as char else c
  }

  /**
   * `s.toLowerCase()`, ASCII case-folding character by character: no
   * capital is left, every other character is kept, and each capital
   * becomes the letter 32 code points above it.
   */
  function Lower(s: string): (r: string)
    ensures |r| == |s|
    ensures forall i :: 0 <= i < |r| ==> !('A' <= r[i] <= 'Z')
    ensures forall i :: 0 <= i < |s| && !('A' <= s[i] <= 'Z') ==> r[i] == s[i]
    ensures forall i :: 0 <= i < |s| && 'A' <= s[i] <= 'Z' ==> r[i] as int == s[i] as int + 32
  {
    seq(|s|, i requires 0 <= i < |s| => LowerChar(s[i]))
  }

  /** `xs.map(x => x.toLowerCase())`. */
  function LowerAll(xs: seq<string>): (r: seq<string>)
    ensures |r| == |xs|
    ensures forall i :: 0 <= i < |r| ==> r[i] == Lower(xs[i])
  {
    seq(|xs|, i requires 0 <= i < |xs| => Lower(xs[i]))
  }

  /** `k` occurs in `s` starting at offset `i`. */
  ghost predicate OccursAt(s: string, k: string, i: int)
  {
    0 <= i && i + |k| <= |s| && s[i..i + |k|] == k
  }

  /** `s.includes(k)`: the key matches at the start of `s` or somewhere further on. */
  function Includes(s: string, k: string): bool
    decreases |s|
  {
    if |k| > |s| then false
    else if s[..|k|] == k then true
    else Includes(s[1..], k)
  }

  /** `includes` finds the key exactly when some offset of `s` starts a copy of it. */
  lemma {:induction false} IncludesSpec(s: string, k: string)
    ensures Includes(s, k) <==> exists i :: OccursAt(s, k, i)
    decreases |s|
  {
    if |k| > |s| {
    } else if s[..|k|] == k {
      assert OccursAt(s, k, 0);
    } else {
      IncludesSpec(s[1..], k);
      assert forall i :: OccursAt(s[1..], k, i) <==> OccursAt(s, k, i + 1) by {
        forall i ensures OccursAt(s[1..], k, i) <==> OccursAt(s, k, i + 1) {
          if 0 <= i && i + |k| <= |s| - 1 {
            assert s[1..][i..i + |k|] == s[i + 1..i + 1 + |k|];
          }
        }
      }
      assert !OccursAt(s, k, 0);
      if exists i :: OccursAt(s, k, i) {
        var i :| OccursAt(s, k, i);
        assert OccursAt(s[1..], k, i - 1);
      }
    }
  }

  /** Every string includes itself (and the empty string). */
  lemma IncludesSelf(s: string)
    ensures Includes(s, s) && Includes(s, [])
  {
    assert s[..|s|] == s;
    assert s[..0] == [];
  }

  /** A key longer than the string cannot occur in it. */
  lemma IncludesTooLong(s: string, k: string)
    requires |k| > |s|
    ensures !Includes(s, k)
  {
  }

  /** A key found at offset `i` is included. */
  lemma IncludesAt(s: string, k: string, i: nat)
    requires OccursAt(s, k, i)
    ensures Includes(s, k)
  {
    IncludesSpec(s, k);
  }

  /**
   * A key cannot occur in `s` when its `j`-th character is missing from
   * every position of `s` where an occurrence would put it.
   */
  lemma IncludesNeedsCharAt(s: string, k: string, j: nat)
    requires j < |k| <= |s| && k[j] !in s[j..|s| - |k| + j + 1]
    ensures !Includes(s, k)
  {
    IncludesSpec(s, k);
    forall i | 0 <= i && i + |k| <= |s| ensures !OccursAt(s, k, i) {
      assert s[i..i + |k|][j] == s[j..|s| - |k| + j + 1][i];
    }
  }

  /**
   * The same test split at offset `m`: occurrences starting before `m` are
   * ruled out by the key's `j1`-th character, the others by its `j2`-th.
   */
  lemma IncludesNeedsCharsAt(s: string, k: string, m: nat, j1: nat, j2: nat)
    requires j1 < |k| && j2 < |k| && m <= |s| - |k| + 1
    requires k[j1] !in s[j1..m + j1]
    requires k[j2] !in s[m + j2..|s| - |k| + j2 + 1]
    ensures !Includes(s, k)
  {
    IncludesSpec(s, k);
    forall i | 0 <= i && i + |k| <= |s| ensures !OccursAt(s, k, i) {
      if i < m {
        assert s[i..i + |k|][j1] == s[j1..m + j1][i];
      } else {
        assert s[i..i + |k|][j2] == s[m + j2..|s| - |k| + j2 + 1][i - m];
      }
    }
  }

  /**
   * The characters `String.prototype.trim` removes: ECMAScript WhiteSpace
   * (tab, vertical tab, form feed, space, no-break space, byte order mark
   * and the Unicode space separators) and LineTerminator.
   */
  predicate IsSpace(c: char)
  {
    var n := c as int;
    n == 9 || n == 10 || n == 11 || n == 12 || n == 13 || n == 32 || n == 0xA0
    || n == 0x1680 || (0x2000 <= n <= 0x200A) || n == 0x2028 || n == 0x2029
    || n == 0x202F || n == 0x205F || n == 0x3000 || n == 0xFEFF
  }

  /** Neither end of `s` is a trimmable character. */
  predicate IsTrimmed(s: string)
  {
    s == [] || (!IsSpace(s[0]) && !IsSpace(s[|s| - 1]))
  }

  predicate AllSpace(s: string)
  {
    forall i :: 0 <= i < |s| ==> IsSpace(s[i])
  }

  /** Number of trimmable characters at the start of `s`. */
  function LeadingSpaces(s: string): (n: nat)
    ensures n <= |s|
    ensures forall i :: 0 <= i < n ==> IsSpace(s[i])
    ensures n < |s| ==> !IsSpace(s[n])
  {
    if s == [] || !IsSpace(s[0]) then 0
    else 1 + LeadingSpaces(s[1..])
  }

  /** Number of trimmable characters at the end of `s`. */
  function TrailingSpaces(s: string): (n: nat)
    ensures n <= |s|
    ensures forall i :: |s| - n <= i < |s| ==> IsSpace(s[i])
    ensures n < |s| ==> !IsSpace(s[|s| - n - 1])
  {
    if s == [] || !IsSpace(s[|s| - 1]) then 0
    else 1 + TrailingSpaces(s[..|s| - 1])
  }

  /** `s.trim()`: `s` without the trimmable characters at either end. */
  function Trim(s: string): string
  {
    var t := s[LeadingSpaces(s)..];
    t[..|t| - TrailingSpaces(t)]
  }

  /**
   * What `trim` leaves is a slice `s[a..b]` with no trimmable character at
   * either end, and everything cut off was trimmable; it is empty exactly
   * when `s` is all white space.
   */
  lemma TrimSlice(s: string)
    ensures IsTrimmed(Trim(s))
    ensures exists a, b :: 0 <= a <= b <= |s| && Trim(s) == s[a..b]
                           && AllSpace(s[..a]) && AllSpace(s[b..])
    ensures Trim(s) == [] <==> AllSpace(s)
  {
    var a := LeadingSpaces(s);
    var t := s[a..];
    var n := TrailingSpaces(t);
    var b := |s| - n;
    assert Trim(s) == s[a..b] by { assert t[..|t| - n] == s[a..b]; }
    assert AllSpace(s[..a]);
    assert AllSpace(s[b..]) by {
      forall i | 0 <= i < |s| - b ensures IsSpace(s[b..][i]) { assert s[b..][i] == t[|t| - n + i]; }
    }
    if a < |s| {
      assert t[0] == s[a];
      assert a < b;
      assert Trim(s)[0] == s[a];
      assert Trim(s)[|Trim(s)| - 1] == t[|t| - n - 1];
      assert !AllSpace(s) by { assert !IsSpace(s[a]); }
    } else {
      assert s[..a] == s;
    }
  }

  /** `xs.join(sep)`. */
  function Join(xs: seq<string>, sep: string): (r: string)
    ensures xs == [] ==> r == []
    ensures |xs| == 1 ==> r == xs[0]
    ensures xs != [] ==> |xs[0]| <= |r| && r[..|xs[0]|] == xs[0]
  {
    if xs == [] then []
    else if |xs| == 1 then xs[0]
    else xs[0] + sep + Join(xs[1..], sep)
  }

  /** One decimal digit. */
  function DigitChar(d: nat): (c: char)
    requires d < 10
    ensures IsDigit(c) && DigitValue(c) == d
  {
    ('0' as int + d) as char
  }

  function DigitValue(c: char): int
  {
    c as int - '0' as int
  }

  predicate IsDigit(c: char)
  {
    '0' <= c <= '9'
  }

  /** The decimal rendering of a natural number, most significant digit first. */
  function NatToDecimal(n: nat): (r: string)
    ensures |r| >= 1 && forall i :: 0 <= i < |r| ==> IsDigit(r[i])
    ensures |r| > 1 ==> r[0] != '0'
    decreases n
  {
    if n < 10 then [DigitChar(n)]
    else NatToDecimal(n / 10) + [DigitChar(n % 10)]
  }

  /** The number a string of decimal digits denotes. */
  function DecimalValue(s: string): int
  {
    if s == [] then 0 else 10 * DecimalValue(s[..|s| - 1]) + DigitValue(s[|s| - 1])
  }

  /** Rendering a number in decimal and reading it back gives the number. */
  lemma {:induction false} DecimalRoundTrip(n: nat)
    ensures DecimalValue(NatToDecimal(n)) == n
  {
    if n >= 10 {
      DecimalRoundTrip(n / 10);
      var s := NatToDecimal(n);
      assert s == NatToDecimal(n / 10) + [DigitChar(n % 10)];
      assert s[..|s| - 1] == NatToDecimal(n / 10);
      assert DigitValue(s[|s| - 1]) == n % 10;
    }
  }

  /** `${n}` for an integer `n`: a minus sign for negatives, then the digits. */
  function IntToString(n: int): string
  {
    if n < 0 then "-" + NatToDecimal(-n) else NatToDecimal(n)
  }
}
