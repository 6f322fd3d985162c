/** The string operations of the JavaScript runtime that the application relies on:
    decimal rendering and parsing of integers (`toString`, `parseInt`), `padStart`,
    `trim`, and the default ordering `Array.prototype.sort` uses for strings. */
module Text {
  import opened Wrappers

  predicate IsDigit(c: char) { '0' <= c <= '9' }

  predicate AllDigits(s: string) { forall i :: 0 <= i < |s| ==> IsDigit(s[i]) }

  function DigitChar(d: nat): (c: char)
    requires d < 10
    ensures IsDigit(c)
  {
    (('0' as int) + d) as char
  }

  function DigitValue(c: char): (d: nat)
    requires IsDigit(c)
    ensures d < 10
  {
    (c as int) - ('0' as int)
  }

  /** Decimal digits of `n`, without leading zeros: what `n.toString()` gives for a
      non-negative integer. */
  function NatToString(n: nat): (s: string)
    ensures |s| >= 1 && AllDigits(s)
    ensures |s| > 1 ==> s[0] != '0'
  {
    if n < 10 then [DigitChar(n)] else NatToString(n / 10) + [DigitChar(n % 10)]
  }

  /** The value of a string of decimal digits. */
  function DigitsValue(s: string): nat
    requires AllDigits(s)
  {
    if s == [] then 0 else DigitsValue(s[..|s| - 1]) * 10 + DigitValue(s[|s| - 1])
  }

  lemma {:induction false} NatToStringRoundTrip(n: nat)
    ensures DigitsValue(NatToString(n)) == n
  {
    if n >= 10 {
      var s := NatToString(n);
      assert s[..|s| - 1] == NatToString(n / 10);
      NatToStringRoundTrip(n / 10);
    }
  }

  /** Rendering is injective: different numbers have different decimal strings. */
  lemma NatToStringInjective(m: nat, n: nat)
    requires NatToString(m) == NatToString(n)
    ensures m == n
  {
    NatToStringRoundTrip(m);
    NatToStringRoundTrip(n);
  }

  /** `i.toString()` for an integer value. */
  function IntToString(i: int): string
  {
    if i < 0 then "-" + NatToString(-i) else NatToString(i)
  }

  /** The longest prefix of `s` made of decimal digits. */
  function LeadingDigits(s: string): (d: string)
    ensures AllDigits(d) && d <= s
    ensures |d| < |s| ==> !IsDigit(s[|d|])
  {
    if s != [] && IsDigit(s[0]) then [s[0]] + LeadingDigits(s[1..]) else []
  }

  /** `parseInt(s)` in base 10: leading whitespace is skipped, an optional sign is
      read, then the longest run of digits; `None` stands for `NaN` (no digit). */
  function ParseInt(s: string): Option<int>
  {
    var t := TrimStart(s);
    var negative := t != [] && t[0] == '-';
    var rest := if t != [] && (t[0] == '-' || t[0] == '+') then t[1..] else t;
    var digits := LeadingDigits(rest);
    var magnitude: int := if digits == [] then 0 else DigitsValue(digits);
    if digits == [] then None else Some(if negative then -magnitude else magnitude)
  }

  lemma {:induction false} DigitsValueLeadingZeros(z: nat, s: string)
    requires AllDigits(s)
    ensures AllDigits(Repeat('0', z) + s)
    ensures DigitsValue(Repeat('0', z) + s) == DigitsValue(s)
  {
    var zs := Repeat('0', z);
    assert AllDigits(zs + s);
    if s == [] {
      assert zs + s == zs;
      ZerosValue(z);
    } else {
      var u := zs + s;
      assert u[..|u| - 1] == zs + s[..|s| - 1];
      DigitsValueLeadingZeros(z, s[..|s| - 1]);
    }
  }

  lemma {:induction false} ZerosValue(z: nat)
    ensures AllDigits(Repeat('0', z)) && DigitsValue(Repeat('0', z)) == 0
  {
    if z > 0 {
      assert Repeat('0', z)[..z - 1] == Repeat('0', z - 1);
      ZerosValue(z - 1);
    }
  }

  /** The digits of a number, zero-padded on the left and followed by a non-digit,
      parse back to that number. */
  lemma {:induction false} ParseIntPaddedNat(n: nat, width: nat, rest: string)
    requires rest == [] || !IsDigit(rest[0])
    ensures ParseInt(PadStart(NatToString(n), width, '0') + rest) == Some(n)
  {
    var d := NatToString(n);
    var p := PadStart(d, width, '0');
    var z := |p| - |d|;
    assert p == Repeat('0', z) + d;
    DigitsValueLeadingZeros(z, d);
    NatToStringRoundTrip(n);
    ParseIntDigits(p, rest);
  }

  lemma {:induction false} ParseIntDigits(p: string, rest: string)
    requires p != [] && AllDigits(p)
    requires rest == [] || !IsDigit(rest[0])
    ensures ParseInt(p + rest) == Some(DigitsValue(p))
  {
    var u := p + rest;
    assert u[0] == p[0];
    assert TrimStart(u) == u;
    LeadingDigitsOfDigits(p, rest);
  }

  lemma {:induction false} LeadingDigitsOfDigits(d: string, rest: string)
    requires AllDigits(d)
    requires rest == [] || !IsDigit(rest[0])
    ensures LeadingDigits(d + rest) == d
  {
    if d != [] {
      assert (d + rest)[1..] == d[1..] + rest;
      LeadingDigitsOfDigits(d[1..], rest);
    } else {
      assert d + rest == rest;
    }
  }

  /** `n` copies of `c`. */
  function Repeat(c: char, n: nat): (r: string)
    ensures |r| == n && forall i :: 0 <= i < n ==> r[i] == c
  {
    if n == 0 then [] else [c] + Repeat(c, n - 1)
  }

  /** `s.padStart(width, fill)`: prefix copies of `fill` up to length `width`. */
  function PadStart(s: string, width: nat, fill: char): (r: string)
    ensures |r| == if |s| >= width then |s| else width
    ensures r[|r| - |s|..] == s
    ensures forall i :: 0 <= i < |r| - |s| ==> r[i] == fill
  {
    if |s| >= width then s else Repeat(fill, width - |s|) + s
  }

  /** The characters JavaScript's `trim` removes: WhiteSpace and LineTerminator
      of the ECMAScript grammar (section 12.2 and 12.3 of ECMA-262). */
  predicate IsJsWhitespace(c: char)
  {
    var k := c as int;
    || k == 0x09 || k == 0x0A || k == 0x0B || k == 0x0C || k == 0x0D || k == 0x20
    || k == 0xA0 || k == 0x1680 || (0x2000 <= k <= 0x200A) || k == 0x2028 || k == 0x2029
    || k == 0x202F || k == 0x205F || k == 0x3000 || k == 0xFEFF
  }

  function TrimStart(s: string): string
  {
    if s != [] && IsJsWhitespace(s[0]) then TrimStart(s[1..]) else s
  }

  function TrimEnd(s: string): string
  {
    if s != [] && IsJsWhitespace(s[|s| - 1]) then TrimEnd(s[..|s| - 1]) else s
  }

  /** `s.trim()` */
  function Trim(s: string): string
  {
    TrimEnd(TrimStart(s))
  }

  predicate Blank(s: string) { forall i :: 0 <= i < |s| ==> IsJsWhitespace(s[i]) }

  lemma {:induction false} TrimStartSlice(s: string) returns (i: nat)
    ensures i <= |s| && TrimStart(s) == s[i..] && Blank(s[..i])
    ensures i < |s| ==> !IsJsWhitespace(s[i])
  {
    if s != [] && IsJsWhitespace(s[0]) {
      var k := TrimStartSlice(s[1..]);
      i := k + 1;
      assert s[i..] == s[1..][k..];
      assert Blank(s[..i]) by {
        forall m | 0 <= m < i ensures IsJsWhitespace(s[m]) {
          if m > 0 { assert s[m] == s[1..][..k][m - 1]; }
        }
      }
    } else {
      i := 0;
    }
  }

  lemma {:induction false} TrimEndSlice(s: string) returns (j: nat)
    ensures j <= |s| && TrimEnd(s) == s[..j] && Blank(s[j..])
    ensures 0 < j ==> !IsJsWhitespace(s[j - 1])
  {
    if s != [] && IsJsWhitespace(s[|s| - 1]) {
      var t := s[..|s| - 1];
      j := TrimEndSlice(t);
      assert s[..j] == t[..j];
      assert Blank(s[j..]) by {
        forall k | j <= k < |s| ensures IsJsWhitespace(s[k]) {
          if k < |s| - 1 { assert s[k] == t[j..][k - j]; }
        }
      }
    } else {
      j := |s|;
    }
  }

  /** `trim` removes exactly the leading and trailing whitespace: the result is the
      slice `s[i..j]` of the input, framed by whitespace only, and starts and ends
      with a non-whitespace character unless it is empty. */
  lemma {:induction false} TrimSlice(s: string) returns (i: nat, j: nat)
    ensures i <= j <= |s| && Trim(s) == s[i..j] && Blank(s[..i]) && Blank(s[j..])
    ensures Trim(s) != [] ==> !IsJsWhitespace(s[i]) && !IsJsWhitespace(s[j - 1])
  {
    i := TrimStartSlice(s);
    var t := s[i..];
    var k := TrimEndSlice(t);
    j := i + k;
    assert Trim(s) == TrimEnd(t);
    assert t[..k] == s[i..j];
    assert t[k..] == s[j..];
    if k > 0 {
      assert t[k - 1] == s[j - 1];
    }
  }

  /** A string trims to the empty string exactly when it is all whitespace. */
  lemma {:induction false} TrimEmptyIffBlank(s: string)
    ensures Trim(s) == [] <==> Blank(s)
  {
    var i, j := TrimSlice(s);
    if Trim(s) == [] {
      forall k | 0 <= k < |s| ensures IsJsWhitespace(s[k]) {
        if k < i { assert s[k] == s[..i][k]; } else { assert s[k] == s[j..][k - j]; }
      }
    }
  }

  /** The order in which `Array.prototype.sort` without a comparator places strings:
      lexicographic by character, a proper prefix first. */
  predicate StrLess(a: string, b: string)
  {
    if a == [] then b != []
    else if b == [] then false
    else if a[0] != b[0] then a[0] < b[0]
    else StrLess(a[1..], b[1..])
  }

  predicate StrLessEq(a: string, b: string) { a == b || StrLess(a, b) }

  lemma {:induction false} StrLessIrreflexive(a: string)
    ensures !StrLess(a, a)
  {
    if a != [] { StrLessIrreflexive(a[1..]); }
  }

  lemma {:induction false} StrLessTransitive(a: string, b: string, c: string)
    requires StrLess(a, b) && StrLess(b, c)
    ensures StrLess(a, c)
  {
    if a != [] && a[0] == b[0] && b[0] == c[0] {
      StrLessTransitive(a[1..], b[1..], c[1..]);
    }
  }

  lemma {:induction false} StrLessTotal(a: string, b: string)
    ensures a == b || StrLess(a, b) || StrLess(b, a)
  {
    if a != [] && b != [] && a[0] == b[0] {
      StrLessTotal(a[1..], b[1..]);
      if a[1..] == b[1..] {
        assert a == [a[0]] + a[1..] && b == [b[0]] + b[1..];
      }
    }
  }

  predicate Sorted(s: seq<string>)
  {
    forall i, j :: 0 <= i < j < |s| ==> StrLessEq(s[i], s[j])
  }

  /** Inserts `x` into a sorted list before the first element greater than it. */
  function Insert(x: string, s: seq<string>): seq<string>
  {
    if s == [] || StrLessEq(x, s[0]) then [x] + s else [s[0]] + Insert(x, s[1..])
  }

  /** The default `sort()` of an array of strings (a stable insertion sort here; for
      the data it is applied to, whose elements are distinct, every correct sort gives
      the same list). */
  function SortStrings(s: seq<string>): seq<string>
  {
    if s == [] then [] else Insert(s[0], SortStrings(s[1..]))
  }

  lemma {:induction false} InsertPermutes(x: string, s: seq<string>)
    ensures multiset(Insert(x, s)) == multiset(s) + multiset{x}
  {
    if s != [] && !StrLessEq(x, s[0]) {
      InsertPermutes(x, s[1..]);
      assert s == [s[0]] + s[1..];
    }
  }

  lemma {:induction false} InsertSorted(x: string, s: seq<string>)
    requires Sorted(s)
    ensures Sorted(Insert(x, s))
  {
    if s == [] || StrLessEq(x, s[0]) {
      forall i, j | 0 <= i < j < |[x] + s| ensures StrLessEq(([x] + s)[i], ([x] + s)[j]) {
        if i == 0 && j > 1 && x != s[0] && s[0] != s[j - 1] {
          StrLessTransitive(x, s[0], s[j - 1]);
        }
      }
    } else {
      var t := s[1..];
      InsertSorted(x, t);
      InsertPermutes(x, t);
      StrLessTotal(x, s[0]);
      var r := Insert(x, t);
      forall i, j | 0 <= i < j < |[s[0]] + r| ensures StrLessEq(([s[0]] + r)[i], ([s[0]] + r)[j]) {
        if i == 0 {
          var y := r[j - 1];
          assert y in multiset(r);
          assert y == x || y in t;
        }
      }
    }
  }

  lemma {:induction false} SortStringsCorrect(s: seq<string>)
    ensures Sorted(SortStrings(s))
    ensures multiset(SortStrings(s)) == multiset(s)
  {
    if s != [] {
      SortStringsCorrect(s[1..]);
      InsertSorted(s[0], SortStrings(s[1..]));
      InsertPermutes(s[0], SortStrings(s[1..]));
      assert s == [s[0]] + s[1..];
    }
  }
}
