/** The string operations the handlers rely on, as JavaScript defines them:
    decimal rendering of a number, `padStart`, `includes`, `<` on strings,
    `toLowerCase` and `length`. */
module Strings {

  import opened Common

  // ---------------------------------------------------------------------------
  // Decimal digits

  predicate IsDigit(c: char)
  {
    '0' <= c <= '9'
  }

  predicate AllDigits(s: string)
  {
    forall i | 0 <= i < |s| :: IsDigit(s[i])
  }

  function DigitValue(c: char): nat
    requires IsDigit(c)
  {
    c as int - '0' as int
  }

  function DigitChar(d: nat): (c: char)
    requires d < 10
    ensures IsDigit(c) && DigitValue(c) == d
  {
    ('0' as int + d) as char
  }

  /** The number a string of decimal digits denotes (leading zeros allowed). */
  function DecimalValue(s: string): nat
    requires AllDigits(s)
  {
    if s == [] then 0 else 10 * DecimalValue(s[..|s| - 1]) + DigitValue(s[|s| - 1])
  }

  lemma DecimalValueSnoc(s: string, c: char)
    requires AllDigits(s) && IsDigit(c)
    ensures AllDigits(s + [c])
    ensures DecimalValue(s + [c]) == 10 * DecimalValue(s) + DigitValue(c)
  {
    assert (s + [c])[..|s|] == s;
  }

  /** `n.toString()` for a non-negative integer: its shortest decimal rendering. */
  function NatToString(n: nat): (s: string)
    ensures 1 <= |s| && AllDigits(s)
    ensures DecimalValue(s) == n
    ensures |s| > 1 ==> s[0] != '0'
    decreases n
  {
    if n < 10 then [DigitChar(n)]
    else
      var prefix := NatToString(n / 10);
      DecimalValueSnoc(prefix, DigitChar(n % 10));
      prefix + [DigitChar(n % 10)]
  }

  function Pow10(k: nat): (p: nat)
    ensures p >= 1
  {
    if k == 0 then 1 else 10 * Pow10(k - 1)
  }

  /** A number below 10^k needs at most k digits. */
  lemma {:induction false} NatToStringWidth(n: nat, k: nat)
    requires 1 <= k && n < Pow10(k)
    ensures |NatToString(n)| <= k
    decreases n
  {
    if n >= 10 {
      assert k >= 2;
      NatToStringWidth(n / 10, k - 1);
    }
  }

  // ---------------------------------------------------------------------------
  // padStart

  function Repeat(c: char, k: nat): (r: string)
    ensures |r| == k
    ensures forall i | 0 <= i < k :: r[i] == c
  {
    seq(k, _ => c)
  }

  /** `s.padStart(width, fill)` for a one-character fill. */
  function PadStart(s: string, width: nat, fill: char): (r: string)
    ensures |r| == if |s| >= width then |s| else width
    ensures r[|r| - |s|..] == s
    ensures forall i | 0 <= i < |r| - |s| :: r[i] == fill
  {
    if |s| >= width then s else Repeat(fill, width - |s|) + s
  }

  lemma {:induction false} ZerosValue(k: nat)
    ensures AllDigits(Repeat('0', k)) && DecimalValue(Repeat('0', k)) == 0
  {
    if k > 0 {
      ZerosValue(k - 1);
      assert Repeat('0', k)[..k - 1] == Repeat('0', k - 1);
    }
  }

  /** Leading zeros do not change the value of a digit string. */
  lemma {:induction false} LeadingZeros(k: nat, s: string)
    requires AllDigits(s)
    ensures AllDigits(Repeat('0', k) + s)
    ensures DecimalValue(Repeat('0', k) + s) == DecimalValue(s)
    decreases |s|
  {
    ZerosValue(k);
    if s == [] {
      assert Repeat('0', k) + s == Repeat('0', k);
    } else {
      var init := s[..|s| - 1];
      LeadingZeros(k, init);
      assert Repeat('0', k) + s == (Repeat('0', k) + init) + [s[|s| - 1]];
      assert s == init + [s[|s| - 1]];
      DecimalValueSnoc(Repeat('0', k) + init, s[|s| - 1]);
      DecimalValueSnoc(init, s[|s| - 1]);
    }
  }

  /** `String(n).padStart(width, '0')`: digits that still read as n, and exactly
      `width` of them when n is below 10^width. */
  function ZeroPad(n: nat, width: nat): (r: string)
    ensures AllDigits(r) && DecimalValue(r) == n
    ensures |r| >= width
    ensures 1 <= width && n < Pow10(width) ==> |r| == width
  {
    ZeroPadFacts(n, width);
    PadStart(NatToString(n), width, '0')
  }

  lemma ZeroPadFacts(n: nat, width: nat)
    ensures AllDigits(PadStart(NatToString(n), width, '0'))
    ensures DecimalValue(PadStart(NatToString(n), width, '0')) == n
    ensures 1 <= width && n < Pow10(width) ==> |PadStart(NatToString(n), width, '0')| == width
  {
    var digits := NatToString(n);
    if 1 <= width && n < Pow10(width) { NatToStringWidth(n, width); }
    if |digits| < width { LeadingZeros(width - |digits|, digits); }
  }

  /** The two-digit form used for hours, minutes, seconds, days and months. */
  function Pad2(n: nat): (r: string)
    ensures AllDigits(r) && DecimalValue(r) == n
    ensures |r| >= 2
    ensures n < 100 ==> |r| == 2
  {
    ZeroPad(n, 2)
  }

  // ---------------------------------------------------------------------------
  // Splitting on a separator

  /** The index of the first occurrence of `c` in `s`. */
  function IndexOf(s: string, c: char): (r: Option<nat>)
    ensures r.None? <==> c !in s
    ensures r.Some? ==> r.value < |s| && s[r.value] == c && c !in s[..r.value]
  {
    if s == [] then None
    else if s[0] == c then Some(0)
    else
      match IndexOf(s[1..], c)
      case None => None
      case Some(i) => assert s[..i + 1] == [s[0]] + s[1..][..i]; Some(i + 1)
  }

  /** `s.split(sep)` for a one-character separator. */
  function Split(s: string, sep: char): (parts: seq<string>)
    ensures |parts| >= 1
    ensures forall k | 0 <= k < |parts| :: sep !in parts[k]
    decreases |s|
  {
    match IndexOf(s, sep)
    case None => [s]
    case Some(i) => [s[..i]] + Split(s[i + 1..], sep)
  }

  lemma SplitCons(a: string, sep: char, rest: string)
    requires sep !in a
    ensures Split(a + [sep] + rest, sep) == [a] + Split(rest, sep)
  {
    var s := a + [sep] + rest;
    assert s[..|a|] == a;
    assert s[|a|] == sep;
    assert IndexOf(s, sep) == Some(|a|);
    assert s[|a| + 1..] == rest;
  }

  /** Splitting three separator-free pieces joined by the separator gives them back. */
  lemma SplitThree(a: string, b: string, c: string, sep: char)
    requires sep !in a && sep !in b && sep !in c
    ensures Split(a + [sep] + b + [sep] + c, sep) == [a, b, c]
  {
    var bc := b + [sep] + c;
    assert a + [sep] + b + [sep] + c == a + [sep] + bc;
    SplitCons(a, sep, bc);
    SplitTwo(b, c, sep);
    assert [a] + [b, c] == [a, b, c];
  }

  lemma SplitTwo(b: string, c: string, sep: char)
    requires sep !in b && sep !in c
    ensures Split(b + [sep] + c, sep) == [b, c]
  {
    SplitCons(b, sep, c);
    assert IndexOf(c, sep).None?;
  }

  // ---------------------------------------------------------------------------
  // Substrings and case

  /** `s.includes(q)`. */
  predicate Contains(s: string, q: string)
  {
    exists i | 0 <= i <= |s| :: OccursAt(s, q, i)
  }

  /** `q` occurs in `s` starting at index `i`. */
  predicate OccursAt(s: string, q: string, i: int)
  {
    0 <= i && i + |q| <= |s| && s[i..i + |q|] == q
  }

  /** `includes` is transitive: a substring of a substring is a substring. */
  lemma ContainsTransitive(s: string, m: string, q: string)
    requires Contains(s, m) && Contains(m, q)
    ensures Contains(s, q)
  {
    var i: int :| 0 <= i <= |s| && OccursAt(s, m, i);
    var j: int :| 0 <= j <= |m| && OccursAt(m, q, j);
    assert s[i..i + |m|] == m && i + |m| <= |s|;
    assert m[j..j + |q|] == q && j + |q| <= |m|;
    forall k | 0 <= k < |q|
      ensures s[i + j..i + j + |q|][k] == q[k]
    {
      assert q[k] == m[j + k] == s[i..i + |m|][j + k] == s[i + j + k];
    }
    assert OccursAt(s, q, i + j);
  }

  /** A string contains whatever sits in its middle. */
  lemma ContainsMiddle(prefix: string, middle: string, suffix: string)
    ensures Contains(prefix + middle + suffix, middle)
  {
    var s := prefix + middle + suffix;
    assert s[|prefix|..|prefix| + |middle|] == middle;
    assert OccursAt(s, middle, |prefix|);
  }

  /** `toLowerCase` on one character; only A-Z are mapped. */
  function LowerChar(c: char): char
  {
    if 'A' <= c <= 'Z' then (c as int + 32) as char else c
  }

  function Lower(s: string): (r: string)
    ensures |r| == |s|
    ensures forall i | 0 <= i < |s| :: r[i] == LowerChar(s[i])
  {
    seq(|s|, i requires 0 <= i < |s| => LowerChar(s[i]))
  }

  /** Lower-casing twice is lower-casing once. */
  lemma LowerIdempotent(s: string)
    ensures Lower(Lower(s)) == Lower(s)
  {
  }

  /** Lower-casing commutes with concatenation. */
  lemma LowerConcat(a: string, b: string)
    ensures Lower(a + b) == Lower(a) + Lower(b)
  {
  }

  // ---------------------------------------------------------------------------
  // String order

  /** `a < b` on strings: lexicographic order of the characters. */
  predicate Less(a: string, b: string)
    decreases |a|
  {
    if a == [] then b != []
    else b != [] && (a[0] < b[0] || (a[0] == b[0] && Less(a[1..], b[1..])))
  }

  lemma {:induction false} LessIrreflexive(a: string)
    ensures !Less(a, a)
    decreases |a|
  {
    if a != [] { LessIrreflexive(a[1..]); }
  }

  /** Two different strings are ordered one way or the other, never both. */
  lemma {:induction false} LessTrichotomy(a: string, b: string)
    ensures a == b || Less(a, b) || Less(b, a)
    ensures !(Less(a, b) && Less(b, a))
    decreases |a|
  {
    if a != [] && b != [] {
      LessTrichotomy(a[1..], b[1..]);
      if a[0] == b[0] && a[1..] == b[1..] {
        assert a == [a[0]] + a[1..] && b == [b[0]] + b[1..];
      }
    }
  }

  /** Comparing two strings that start with prefixes of equal length: the prefixes
      decide unless they are equal. */
  lemma {:induction false} LessConcat(p: string, q: string, x: string, y: string)
    requires |p| == |q|
    ensures Less(p + x, q + y) <==> Less(p, q) || (p == q && Less(x, y))
    decreases |p|
  {
    if p == [] {
      assert p + x == x && q + y == y;
    } else {
      assert (p + x)[1..] == p[1..] + x;
      assert (q + y)[1..] == q[1..] + y;
      LessConcat(p[1..], q[1..], x, y);
      if p[0] == q[0] && p[1..] == q[1..] {
        assert p == [p[0]] + p[1..] && q == [q[0]] + q[1..];
      }
    }
  }

  /** Appending one character to strings of equal length. */
  lemma LessSnoc(p: string, q: string, c: char, d: char)
    requires |p| == |q|
    ensures Less(p + [c], q + [d]) <==> Less(p, q) || (p == q && c < d)
  {
    LessConcat(p, q, [c], [d]);
  }

  /** On digit strings of equal length, string order is numeric order. */
  lemma {:induction false} LessDigits(x: string, y: string)
    requires AllDigits(x) && AllDigits(y) && |x| == |y|
    ensures Less(x, y) <==> DecimalValue(x) < DecimalValue(y)
    ensures x == y <==> DecimalValue(x) == DecimalValue(y)
    decreases |x|
  {
    if x != [] {
      var x', y' := x[..|x| - 1], y[..|y| - 1];
      var c, d := x[|x| - 1], y[|y| - 1];
      assert x == x' + [c] && y == y' + [d];
      LessDigits(x', y');
      LessSnoc(x', y', c, d);
      DecimalValueSnoc(x', c);
      DecimalValueSnoc(y', d);
      LessTrichotomy(x', y');
      if x == y {
        LessIrreflexive(x);
      } else if x' == y' {
        assert c != d;
      }
    }
  }

  // ---------------------------------------------------------------------------
  // length

  /** `s.length`: JavaScript counts UTF-16 code units, so a character outside the
      Basic Multilingual Plane counts twice. */
  function Utf16Length(s: string): (n: nat)
    ensures |s| <= n <= 2 * |s|
  {
    if s == [] then 0 else (if s[0] as int >= 0x10000 then 2 else 1) + Utf16Length(s[1..])
  }
}
