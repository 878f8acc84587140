/**
 * The parts of java.lang that the core leans on, written out with Java's
 * semantics: 32-bit `int` arithmetic, `String.startsWith`, `trim`, `split`
 * on a one-character separator, `compareTo`, `hashCode`,
 * `equalsIgnoreCase`, `Integer.parseInt`, `Integer.toString` and
 * `String.format("%0<w>d", i)`.
 */
module JavaLang {
  import opened Wrappers

  const INT_MIN: int := -0x8000_0000
  const INT_MAX: int := 0x7fff_ffff
  const LONG_MIN: int := -0x8000_0000_0000_0000
  const LONG_MAX: int := 0x7fff_ffff_ffff_ffff
  const TWO_TO_32: int := 0x1_0000_0000

  predicate IsInt(x: int) { INT_MIN <= x <= INT_MAX }

  predicate IsLong(x: int) { LONG_MIN <= x <= LONG_MAX }

  /** The value Java's `int` arithmetic yields for the mathematical result `x`. */
  function WrapInt(x: int): (r: int)
    ensures IsInt(r)
    ensures (x - r) % TWO_TO_32 == 0
    ensures IsInt(x) ==> r == x
  {
    var m := x % TWO_TO_32;
    if m > INT_MAX then m - TWO_TO_32 else m
  }

  function Max(a: int, b: int): (r: int)
    ensures r >= a && r >= b && (r == a || r == b)
  {
    if a < b then b else a
  }

  // ---------------------------------------------------------------- prefixes

  /** `s.startsWith(prefix)` */
  predicate StartsWith(s: string, prefix: string) {
    |prefix| <= |s| && s[..|prefix|] == prefix
  }

  // ---------------------------------------------------------------- trim

  /** The characters `String.trim` strips: every one up to and including the space. */
  predicate IsTrimmable(c: char) { c <= ' ' }

  /** The number of trimmable characters at the start of `s`. */
  function LeadingTrimmable(s: string): (n: nat)
    ensures n <= |s|
    ensures forall k :: 0 <= k < n ==> IsTrimmable(s[k])
    ensures n < |s| ==> !IsTrimmable(s[n])
  {
    if s != [] && IsTrimmable(s[0]) then 1 + LeadingTrimmable(s[1..]) else 0
  }

  /** The number of trimmable characters at the end of `s`. */
  function TrailingTrimmable(s: string): (n: nat)
    ensures n <= |s|
    ensures forall k :: |s| - n <= k < |s| ==> IsTrimmable(s[k])
    ensures n < |s| ==> !IsTrimmable(s[|s| - n - 1])
  {
    if s != [] && IsTrimmable(s[|s| - 1]) then 1 + TrailingTrimmable(s[..|s| - 1]) else 0
  }

  /**
   * `s.trim()`: what is left of `s` once the trimmable characters at both
   * ends are gone. The result is a slice of `s` starting after the leading
   * run, everything after it is trimmable, and it neither starts nor ends
   * with a trimmable character.
   */
  function Trim(s: string): (r: string)
    ensures LeadingTrimmable(s) + |r| <= |s|
    ensures r == s[LeadingTrimmable(s)..LeadingTrimmable(s) + |r|]
    ensures forall k :: LeadingTrimmable(s) + |r| <= k < |s| ==> IsTrimmable(s[k])
    ensures r != [] ==> !IsTrimmable(r[0]) && !IsTrimmable(r[|r| - 1])
  {
    var lo := LeadingTrimmable(s);
    var rest := s[lo..];
    rest[..|rest| - TrailingTrimmable(rest)]
  }

  // ---------------------------------------------------------------- split

  /** The pieces joined back with `sep` between them. */
  function Join(pieces: seq<string>, sep: char): string
    requires |pieces| >= 1
  {
    if |pieces| == 1 then pieces[0] else pieces[0] + [sep] + Join(pieces[1..], sep)
  }

  /** The part of `s` before its first `sep`, or all of `s` when there is none. */
  function BeforeFirst(s: string, sep: char): (r: string)
    ensures |r| <= |s| && r == s[..|r|]
    ensures sep !in r
    ensures |r| < |s| ==> s[|r|] == sep
  {
    if s == [] || s[0] == sep then [] else [s[0]] + BeforeFirst(s[1..], sep)
  }

  /**
   * Every piece of `s` between occurrences of `sep`, empty pieces included:
   * none contains `sep`, and the first is what precedes the first `sep`
   * (SplitAllJoin: joining them with `sep` gives `s` back).
   */
  function SplitAll(s: string, sep: char): (r: seq<string>)
    ensures |r| >= 1
    ensures forall i :: 0 <= i < |r| ==> sep !in r[i]
    ensures r[0] == BeforeFirst(s, sep)
  {
    if s == [] then [[]]
    else
      var rest := SplitAll(s[1..], sep);
      assert s == [s[0]] + s[1..];
      if s[0] == sep then
        assert ([[]] + rest)[1..] == rest;
        [[]] + rest
      else
        var r := [[s[0]] + rest[0]] + rest[1..];
        assert r[1..] == rest[1..];
        r
  }

  /** Joining the pieces with `sep` between them gives the string back. */
  lemma {:induction false} SplitAllJoin(s: string, sep: char)
    ensures Join(SplitAll(s, sep), sep) == s
  {
    if s != [] {
      var rest := SplitAll(s[1..], sep);
      SplitAllJoin(s[1..], sep);
      assert s == [s[0]] + s[1..];
      if s[0] != sep {
        JoinHead(s[0], rest, sep);
      } else {
        assert SplitAll(s, sep)[1..] == rest;
      }
    }
  }

  /** A character put in front of the first piece is in front of the joined string. */
  lemma JoinHead(c: char, pieces: seq<string>, sep: char)
    requires |pieces| >= 1
    ensures Join([[c] + pieces[0]] + pieces[1..], sep) == [c] + Join(pieces, sep)
  {
    var r := [[c] + pieces[0]] + pieces[1..];
    assert r[1..] == pieces[1..];
  }

  /** The pieces without their trailing run of empty strings. */
  function DropTrailingEmpty(pieces: seq<string>): (r: seq<string>)
    ensures |r| <= |pieces| && r == pieces[..|r|]
    ensures r == [] || r[|r| - 1] != []
    ensures forall i :: |r| <= i < |pieces| ==> pieces[i] == []
  {
    if pieces != [] && pieces[|pieces| - 1] == [] then DropTrailingEmpty(pieces[..|pieces| - 1])
    else pieces
  }

  /**
   * `s.split(regex)` for a regex matching exactly the character `sep`: a
   * string without `sep` gives itself (so "" gives [""]); otherwise the
   * pieces between the separators, minus the trailing empty ones.
   */
  function Split(s: string, sep: char): seq<string>
  {
    if sep !in s then [s] else DropTrailingEmpty(SplitAll(s, sep))
  }

  /** `s.split(...)[0]`, when it does not throw, is the text before the first separator. */
  lemma {:induction false} SplitFirstPiece(s: string, sep: char)
    ensures |Split(s, sep)| > 0 ==> Split(s, sep)[0] == BeforeFirst(s, sep)
    ensures |Split(s, sep)| == 0 ==> BeforeFirst(s, sep) == []
  {
    if sep !in s {
      BeforeFirstWithout(s, sep);
    } else {
      var all := SplitAll(s, sep);
      if |Split(s, sep)| == 0 {
        assert all[0] == [];
      }
    }
  }

  lemma {:induction false} BeforeFirstWithout(s: string, sep: char)
    requires sep !in s
    ensures BeforeFirst(s, sep) == s
  {
    if s != [] {
      assert sep !in s[1..] by {
        forall k | 0 <= k < |s[1..]| ensures s[1..][k] != sep { assert s[1..][k] == s[k + 1]; }
      }
      BeforeFirstWithout(s[1..], sep);
    }
  }

  lemma {:induction false} SplitAllWithout(s: string, sep: char)
    requires sep !in s
    ensures SplitAll(s, sep) == [s]
  {
    if s != [] {
      assert sep !in s[1..] by {
        forall k | 0 <= k < |s[1..]| ensures s[1..][k] != sep { assert s[1..][k] == s[k + 1]; }
      }
      SplitAllWithout(s[1..], sep);
      assert [s[0]] + s[1..] == s;
    }
  }

  lemma {:induction false} SplitAllAfterPiece(a: string, rest: string, sep: char)
    requires sep !in a
    ensures SplitAll(a + [sep] + rest, sep) == [a] + SplitAll(rest, sep)
  {
    var s := a + [sep] + rest;
    if a == [] {
      assert s[0] == sep && s[1..] == rest;
    } else {
      assert s[0] == a[0];
      assert s[1..] == a[1..] + [sep] + rest;
      assert sep !in a[1..] by {
        forall k | 0 <= k < |a[1..]| ensures a[1..][k] != sep { assert a[1..][k] == a[k + 1]; }
      }
      SplitAllAfterPiece(a[1..], rest, sep);
      assert [a[0]] + a[1..] == a;
    }
  }

  /** A value shaped `x<sep>y<sep>z` with a non-empty last piece splits into exactly those three pieces. */
  lemma SplitThree(x: string, y: string, z: string, sep: char)
    requires sep !in x && sep !in y && sep !in z && z != []
    ensures Split(x + [sep] + y + [sep] + z, sep) == [x, y, z]
  {
    var s := x + [sep] + y + [sep] + z;
    assert s == x + [sep] + (y + [sep] + z);
    assert s[|x|] == sep;
    SplitAllAfterPiece(x, y + [sep] + z, sep);
    SplitAllAfterPiece(y, z, sep);
    SplitAllWithout(z, sep);
    assert SplitAll(s, sep) == [x, y, z];
  }

  /** A value shaped `x<sep>y<sep>` with a non-empty `y` loses its empty last piece: two pieces. */
  lemma SplitTrailingSeparator(x: string, y: string, sep: char)
    requires sep !in x && sep !in y && y != []
    ensures Split(x + [sep] + y + [sep], sep) == [x, y]
  {
    var s := x + [sep] + y + [sep];
    assert s == x + [sep] + (y + [sep] + []);
    assert s[|x|] == sep;
    SplitAllAfterPiece(x, y + [sep] + [], sep);
    SplitAllAfterPiece(y, [], sep);
    var all := [x, y, []];
    assert SplitAll(s, sep) == all;
    assert all[..2] == [x, y];
    assert DropTrailingEmpty(all) == DropTrailingEmpty([x, y]);
  }

  // ---------------------------------------------------------------- digits

  predicate IsDigit(c: char) { '0' <= c <= '9' }

  predicate AllDigits(s: string) { forall i :: 0 <= i < |s| ==> IsDigit(s[i]) }

  /** The number an ASCII digit string denotes (leading zeros allowed). */
  function DigitsValue(s: string): nat
    requires AllDigits(s)
  {
    if s == [] then 0 else DigitsValue(s[..|s| - 1]) * 10 + (s[|s| - 1] as int - '0' as int)
  }

  function Pow10(k: nat): (p: nat)
    ensures p >= 1
  {
    if k == 0 then 1 else 10 * Pow10(k - 1)
  }

  lemma {:induction false} Pow10Monotonic(j: nat, k: nat)
    requires j <= k
    ensures Pow10(j) <= Pow10(k)
  {
    if j < k { Pow10Monotonic(j, k - 1); }
  }

  function DigitChar(d: nat): (c: char)
    requires d < 10
    ensures IsDigit(c) && c as int - '0' as int == d
  {
    ('0' as int + d) as char
  }

  /** The `width` decimal digits of `n`, zero-padded on the left; `n` must fit. */
  function FixedDigits(n: nat, width: nat): (r: string)
    requires n < Pow10(width)
    ensures |r| == width && AllDigits(r)
    ensures DigitsValue(r) == n
  {
    if width == 0 then []
    else
      var r := FixedDigits(n / 10, width - 1) + [DigitChar(n % 10)];
      assert r[..|r| - 1] == FixedDigits(n / 10, width - 1);
      r
  }

  /** The number of decimal digits of `n` (at least one). */
  function NumDigits(n: nat): (k: nat)
    ensures 1 <= k && n < Pow10(k)
    ensures k > 1 ==> Pow10(k - 1) <= n
  {
    if n < 10 then 1 else 1 + NumDigits(n / 10)
  }

  /** The shortest decimal spelling of `n`. */
  function Digits(n: nat): string
  {
    FixedDigits(n, NumDigits(n))
  }

  /** `Integer.toString(n)` / `Long.toString(n)` */
  function IntToString(n: int): string
  {
    if n < 0 then "-" + Digits(-n) else Digits(n)
  }

  /**
   * `String.format("%0<width>d", i)`: at least `width` characters, the sign
   * counted in the width, zeros between the sign and the digits.
   */
  function FormatZeroPadded(i: int, width: nat): string
  {
    if i >= 0 then
      var w := Max(width, NumDigits(i));
      Pow10Monotonic(NumDigits(i), w);
      FixedDigits(i, w)
    else
      var w := Max(if width > 0 then width - 1 else 0, NumDigits(-i));
      Pow10Monotonic(NumDigits(-i), w);
      "-" + FixedDigits(-i, w)
  }

  // ---------------------------------------------------------------- parsing

  /** The value of an optional sign followed by at least one ASCII digit, before any range check. */
  function ParseDecimal(s: string): Option<int>
  {
    if |s| >= 2 && s[0] == '-' && AllDigits(s[1..]) then Some(-(DigitsValue(s[1..]) as int))
    else if |s| >= 2 && s[0] == '+' && AllDigits(s[1..]) then Some(DigitsValue(s[1..]))
    else if |s| >= 1 && AllDigits(s) then Some(DigitsValue(s))
    else None
  }

  /** `Integer.parseInt(s)`, `None` where it throws NumberFormatException. */
  function ParseInt(s: string): (r: Option<int>)
    ensures r.Some? ==> IsInt(r.value) && s != []
  {
    match ParseDecimal(s)
    case Some(v) => if IsInt(v) then Some(v) else None
    case None => None
  }

  /** `Long.parseLong(s)`, `None` where it throws NumberFormatException. */
  function ParseLong(s: string): (r: Option<int>)
    ensures r.Some? ==> IsLong(r.value) && s != []
  {
    match ParseDecimal(s)
    case Some(v) => if IsLong(v) then Some(v) else None
    case None => None
  }

  /** `Integer.parseInt(Integer.toString(n)) == n` for every `int`. */
  lemma ParseIntToString(n: int)
    requires IsInt(n)
    ensures ParseInt(IntToString(n)) == Some(n)
  {
    var s := IntToString(n);
    if n < 0 {
      assert s[1..] == Digits(-n);
      assert ParseDecimal(s) == Some(n);
    } else {
      assert IsDigit(s[0]);
      assert ParseDecimal(s) == Some(n);
    }
  }

  /** Zero padding to eight places gives exactly eight digits for 0 <= i < 10^8. */
  lemma ZeroPaddedEight(i: int)
    requires 0 <= i < Pow10(8)
    ensures FormatZeroPadded(i, 8) == FixedDigits(i, 8)
    ensures |FormatZeroPadded(i, 8)| == 8
  {
    var k := NumDigits(i);
    if k > 8 {
      Pow10Monotonic(8, k - 1);
    }
  }

  // ---------------------------------------------------------------- comparison

  /**
   * `a.compareTo(b)`: the difference of the first differing characters, or
   * the difference of the lengths when one string is a prefix of the other.
   */
  function CompareTo(a: string, b: string): int
  {
    if a == [] || b == [] then |a| - |b|
    else if a[0] != b[0] then a[0] as int - b[0] as int
    else CompareTo(a[1..], b[1..])
  }

  /** Lexicographic order, stated from scratch: equal up to some k, then `a` ends or is smaller at k. */
  ghost predicate LexLess(a: string, b: string)
  {
    exists k :: LexLessAt(a, b, k)
  }

  /** `a` and `b` agree on their first `k` characters, and there `a` ends first or is smaller. */
  ghost predicate LexLessAt(a: string, b: string, k: int)
  {
    0 <= k <= |a| && k <= |b| && a[..k] == b[..k] &&
    ((k == |a| && k < |b|) || (k < |a| && k < |b| && a[k] < b[k]))
  }

  lemma {:induction false} CompareToAntisymmetric(a: string, b: string)
    ensures CompareTo(b, a) == -CompareTo(a, b)
  {
    if a != [] && b != [] && a[0] == b[0] {
      CompareToAntisymmetric(a[1..], b[1..]);
    }
  }

  lemma {:induction false} CompareToZero(a: string, b: string)
    ensures CompareTo(a, b) == 0 <==> a == b
  {
    if a != [] && b != [] && a[0] == b[0] {
      CompareToZero(a[1..], b[1..]);
      assert a == [a[0]] + a[1..] && b == [b[0]] + b[1..];
    }
  }

  /** `compareTo` is negative exactly when `a` precedes `b` lexicographically. */
  lemma {:induction false} CompareToLex(a: string, b: string)
    ensures CompareTo(a, b) < 0 <==> LexLess(a, b)
  {
    if a == [] || b == [] {
      if a == [] && b != [] {
        assert LexLessAt(a, b, 0);
      }
      if LexLess(a, b) {
        var k :| LexLessAt(a, b, k);
      }
    } else if a[0] != b[0] {
      if a[0] < b[0] {
        assert LexLessAt(a, b, 0);
      }
      if LexLess(a, b) {
        var k :| LexLessAt(a, b, k);
      }
    } else {
      CompareToLex(a[1..], b[1..]);
      if LexLess(a[1..], b[1..]) {
        var k :| LexLessAt(a[1..], b[1..], k);
        assert a[..k + 1] == [a[0]] + a[1..][..k];
        assert b[..k + 1] == [b[0]] + b[1..][..k];
        assert LexLessAt(a, b, k + 1);
      }
      if LexLess(a, b) {
        var k :| LexLessAt(a, b, k);
        assert k > 0;
        assert a[1..][..k - 1] == a[..k][1..];
        assert b[1..][..k - 1] == b[..k][1..];
        assert LexLessAt(a[1..], b[1..], k - 1);
      }
    }
  }

  /** A common prefix does not change the comparison. */
  lemma {:induction false} CompareToCommonPrefix(p: string, x: string, y: string)
    ensures CompareTo(p + x, p + y) == CompareTo(x, y)
  {
    if p != [] {
      assert (p + x)[0] == p[0] && (p + y)[0] == p[0];
      assert (p + x)[1..] == p[1..] + x;
      assert (p + y)[1..] == p[1..] + y;
      CompareToCommonPrefix(p[1..], x, y);
    } else {
      assert p + x == x && p + y == y;
    }
  }

  /** Appending one character to two equally long strings only matters when they were equal. */
  lemma {:induction false} CompareToAppend(x: string, y: string, a: char, b: char)
    requires |x| == |y|
    ensures CompareTo(x + [a], y + [b]) == if x == y then a as int - b as int else CompareTo(x, y)
  {
    if x != [] {
      assert (x + [a])[1..] == x[1..] + [a];
      assert (y + [b])[1..] == y[1..] + [b];
      if x[0] == y[0] {
        CompareToAppend(x[1..], y[1..], a, b);
        assert x == [x[0]] + x[1..] && y == [y[0]] + y[1..];
      }
    }
  }

  /** On fixed-width digit strings, `compareTo` orders as the numbers do. */
  lemma {:induction false} FixedDigitsOrder(i: nat, j: nat, width: nat)
    requires i < Pow10(width) && j < Pow10(width)
    ensures CompareTo(FixedDigits(i, width), FixedDigits(j, width)) < 0 <==> i < j
    ensures CompareTo(FixedDigits(i, width), FixedDigits(j, width)) == 0 <==> i == j
  {
    if width > 0 {
      var x, y := FixedDigits(i / 10, width - 1), FixedDigits(j / 10, width - 1);
      FixedDigitsOrder(i / 10, j / 10, width - 1);
      CompareToAppend(x, y, DigitChar(i % 10), DigitChar(j % 10));
      CompareToZero(x, y);
    }
  }

  // ---------------------------------------------------------------- hashing

  /** `s.hashCode()`: s[0]*31^(n-1) + ... + s[n-1] in `int` arithmetic. */
  function StringHash(s: string): int
  {
    if s == [] then 0 else WrapInt(31 * StringHash(s[..|s| - 1]) + s[|s| - 1] as int)
  }

  // ---------------------------------------------------------------- case

  function ToUpperAscii(c: char): char
  {
    if 'a' <= c <= 'z' then (c as int - 32) as char else c
  }

  /** `a.equalsIgnoreCase(b)`, for letters of the ASCII range. */
  predicate EqualsIgnoreCase(a: string, b: string)
  {
    |a| == |b| && forall i :: 0 <= i < |a| ==> a[i] == b[i] || ToUpperAscii(a[i]) == ToUpperAscii(b[i])
  }
}
