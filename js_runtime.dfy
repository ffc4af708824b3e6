/**
 * The JavaScript built-ins the client's logic depends on, stated on Dafny values:
 * ToInt32 (the bitwise operators), parseInt with radix 10, String.prototype.trim,
 * toLowerCase (ASCII letters), includes, split on one character, Number.prototype.toString
 * with a radix, and the UTF-16 code units that charCodeAt walks.
 */
module JsRuntime {

  /** A number produced by parseInt or by integer arithmetic on its results: NaN or an integer. */
  datatype Number = NaN | Int(value: int)

  /** `a + b`: NaN is absorbing. */
  function Plus(a: Number, b: Number): Number {
    if a.NaN? || b.NaN? then NaN else Int(a.value + b.value)
  }

  /** `a * k` for an integer constant `k`: NaN is absorbing. */
  function Times(a: Number, k: int): Number {
    if a.NaN? then NaN else Int(a.value * k)
  }

  // ---------------------------------------------------------------------------
  // ToInt32

  const TwoTo31: int := 0x8000_0000
  const TwoTo32: int := 0x1_0000_0000

  /** ECMAScript ToInt32 on an integral number: the signed 32-bit value congruent to `x`. */
  function ToInt32(x: int): (r: int)
    ensures -TwoTo31 <= r < TwoTo31
    ensures (x - r) % TwoTo32 == 0
  {
    var m := x % TwoTo32;
    if m >= TwoTo31 then m - TwoTo32 else m
  }

  /** ToInt32 only looks at the residue modulo 2^32. */
  lemma ToInt32Congruent(x: int, y: int)
    requires (x - y) % TwoTo32 == 0
    ensures ToInt32(x) == ToInt32(y)
  {
    var q := (x - y) / TwoTo32;
    assert x - y == q * TwoTo32;
    ModShift(y, q);
  }

  lemma ModShift(y: int, q: int)
    ensures (y + q * TwoTo32) % TwoTo32 == y % TwoTo32
  {
    var a := y / TwoTo32;
    var b := y % TwoTo32;
    assert y + q * TwoTo32 == (a + q) * TwoTo32 + b;
    assert 0 <= b < TwoTo32;
    DivModUnique(y + q * TwoTo32, a + q, b);
  }

  lemma DivModUnique(x: int, d: int, m: int)
    requires x == d * TwoTo32 + m && 0 <= m < TwoTo32
    ensures x % TwoTo32 == m
  {
    var d' := x / TwoTo32;
    var m' := x % TwoTo32;
    assert x == d' * TwoTo32 + m';
    assert (d - d') * TwoTo32 == m' - m;
  }

  /** A value already in signed 32-bit range is its own ToInt32. */
  lemma ToInt32OfInt32(x: int)
    requires -TwoTo31 <= x < TwoTo31
    ensures ToInt32(x) == x
  {
    if x < 0 {
      DivModUnique(x, -1, x + TwoTo32);
    } else {
      DivModUnique(x, 0, x);
    }
  }

  // ---------------------------------------------------------------------------
  // Whitespace, trim, case, includes, split

  /** ECMAScript WhiteSpace or LineTerminator: what trim and parseInt skip. */
  predicate IsWhiteSpace(c: char) {
    c == '\t' || c == '\n' || c == '\U{000B}' || c == '\U{000C}' || c == '\r' || c == ' ' ||
    c == '\U{00A0}' || c == '\U{1680}' || ('\U{2000}' <= c <= '\U{200A}') ||
    c == '\U{2028}' || c == '\U{2029}' || c == '\U{202F}' || c == '\U{205F}' ||
    c == '\U{3000}' || c == '\U{FEFF}'
  }

  /** `s.trimStart()`: drops the leading whitespace and nothing else. */
  function TrimStart(s: string): (r: string)
    ensures |r| <= |s| && r == s[|s| - |r|..]
    ensures forall i :: 0 <= i < |s| - |r| ==> IsWhiteSpace(s[i])
    ensures r != [] ==> !IsWhiteSpace(r[0])
  {
    if s != [] && IsWhiteSpace(s[0]) then TrimStart(s[1..]) else s
  }

  /** `s.trimEnd()`: drops the trailing whitespace and nothing else. */
  function TrimEnd(s: string): (r: string)
    ensures |r| <= |s| && r == s[..|r|]
    ensures forall i :: |r| <= i < |s| ==> IsWhiteSpace(s[i])
    ensures r != [] ==> !IsWhiteSpace(r[|r| - 1])
  {
    if s != [] && IsWhiteSpace(s[|s| - 1]) then TrimEnd(s[..|s| - 1]) else s
  }

  /** `s.trim()`. */
  function Trim(s: string): string {
    TrimEnd(TrimStart(s))
  }

  /** `body` sits at `lo` in `s` with only whitespace around it and none at its own ends. */
  predicate TrimmedAt(body: string, s: string, lo: nat) {
    lo + |body| <= |s| && s[lo..lo + |body|] == body &&
    (forall i :: 0 <= i < lo ==> IsWhiteSpace(s[i])) &&
    (forall i :: lo + |body| <= i < |s| ==> IsWhiteSpace(s[i])) &&
    (body != [] ==> !IsWhiteSpace(body[0]) && !IsWhiteSpace(body[|body| - 1]))
  }

  /** `body` is `s` with leading and trailing whitespace dropped, and no more. */
  ghost predicate TrimmedOf(body: string, s: string) {
    exists lo: nat :: TrimmedAt(body, s, lo)
  }

  /** `trim` removes whitespace from both ends and nothing else. */
  lemma TrimIsTrimmedOf(s: string)
    ensures TrimmedOf(Trim(s), s)
  {
    var t := TrimStart(s);
    var r := TrimEnd(t);
    var lo := |s| - |t|;
    assert s[lo..lo + |r|] == r by {
      assert s[lo..] == t;
      assert t[..|r|] == r;
    }
    if r != [] {
      assert r[0] == t[0];
    }
    assert TrimmedAt(r, s, lo);
  }

  /** A string trims to the empty string exactly when it is all whitespace. */
  lemma TrimEmptyIffBlank(s: string)
    ensures Trim(s) == [] <==> forall i :: 0 <= i < |s| ==> IsWhiteSpace(s[i])
  {
    var t := TrimStart(s);
    if Trim(s) == [] {
      assert t == [];
    }
  }

  /** ASCII letters fold to lower case; every other character is kept. */
  function LowerChar(c: char): char {
    if 'A' <= c <= 'Z' then (c as int + 32) as char else c
  }

  /** `s.toLowerCase()` restricted to ASCII case folding. */
  function ToLowerCase(s: string): string {
    seq(|s|, i requires 0 <= i < |s| => LowerChar(s[i]))
  }

  predicate StartsWith(s: string, t: string) {
    |t| <= |s| && s[..|t|] == t
  }

  /** `s.includes(t)`, as a left-to-right scan. */
  predicate Includes(s: string, t: string) {
    StartsWith(s, t) || (s != [] && Includes(s[1..], t))
  }

  /** `t` occurs in `s` starting at position `i`. */
  predicate OccursAt(s: string, t: string, i: int) {
    0 <= i <= |s| - |t| && s[i..i + |t|] == t
  }

  /** An occurrence past the first character is an occurrence in the tail. */
  lemma OccursAtShift(s: string, t: string, i: int)
    requires s != [] && i > 0
    ensures OccursAt(s, t, i) <==> OccursAt(s[1..], t, i - 1)
  {
    if 0 <= i <= |s| - |t| {
      var here, there := s[i..i + |t|], s[1..][i - 1..i - 1 + |t|];
      forall k | 0 <= k < |t|
        ensures here[k] == there[k]
      {
        assert here[k] == s[i + k];
        assert there[k] == s[1..][i - 1 + k];
      }
      assert here == there;
    }
  }

  /** The scan agrees with the positional definition of a substring. */
  lemma {:induction false} IncludesIffAt(s: string, t: string)
    ensures Includes(s, t) <==> exists i :: OccursAt(s, t, i)
  {
    if s == [] {
      if t == [] {
        assert OccursAt(s, t, 0);
      }
    } else {
      IncludesIffAt(s[1..], t);
      if Includes(s, t) {
        if StartsWith(s, t) {
          assert OccursAt(s, t, 0);
        } else {
          var i :| OccursAt(s[1..], t, i);
          OccursAtShift(s, t, i + 1);
        }
      } else {
        forall i | OccursAt(s, t, i) ensures false {
          if i > 0 {
            OccursAtShift(s, t, i);
          }
        }
      }
    }
  }

  /** `s.split(sep)` for a one-character separator. */
  function Split(s: string, sep: char): (parts: seq<string>)
    ensures |parts| >= 1
  {
    if s == [] then [[]]
    else
      var rest := Split(s[1..], sep);
      if s[0] == sep then [[]] + rest
      else [[s[0]] + rest[0]] + rest[1..]
  }

  /** `parts.join(sep)`. */
  function Join(parts: seq<string>, sep: char): string {
    if parts == [] then []
    else if |parts| == 1 then parts[0]
    else parts[0] + [sep] + Join(parts[1..], sep)
  }

  /** No part contains the separator. */
  lemma {:induction false} SplitPartsSeparatorFree(s: string, sep: char)
    ensures forall k :: 0 <= k < |Split(s, sep)| ==> sep !in Split(s, sep)[k]
  {
    if s != [] {
      SplitPartsSeparatorFree(s[1..], sep);
      var rest := Split(s[1..], sep);
      if s[0] != sep {
        assert sep !in [s[0]] + rest[0];
      }
    }
  }

  /** Splitting loses nothing: joining the parts back gives the original string. */
  lemma {:induction false} SplitJoin(s: string, sep: char)
    ensures Join(Split(s, sep), sep) == s
  {
    if s != [] {
      var rest := Split(s[1..], sep);
      SplitJoin(s[1..], sep);
      if s[0] == sep {
        JoinSeparatorFirst(rest, sep);
      } else {
        JoinCharFirst(s[0], rest, sep);
      }
      assert s == [s[0]] + s[1..];
    }
  }

  /** Joining after an empty first part puts the separator first. */
  lemma JoinSeparatorFirst(parts: seq<string>, sep: char)
    requires |parts| >= 1
    ensures Join([[]] + parts, sep) == [sep] + Join(parts, sep)
  {
    var joined := [[]] + parts;
    assert |joined| > 1 && joined[0] == [] && joined[1..] == parts;
  }

  /** Prepending a character to the first part prepends it to the join. */
  lemma JoinCharFirst(c: char, parts: seq<string>, sep: char)
    requires |parts| >= 1
    ensures Join([[c] + parts[0]] + parts[1..], sep) == [c] + Join(parts, sep)
  {
    var joined := [[c] + parts[0]] + parts[1..];
    if |parts| > 1 {
      assert joined[1..] == parts[1..];
    }
  }

  /** There is one more part than there are separators. */
  lemma {:induction false} SplitCount(s: string, sep: char)
    ensures |Split(s, sep)| == multiset(s)[sep] + 1
  {
    if s != [] {
      SplitCount(s[1..], sep);
      assert s == [s[0]] + s[1..];
    }
  }

  // ---------------------------------------------------------------------------
  // Digits, parseInt and toString(radix)

  /** The digit character for `d` in radices up to 36: '0'..'9' then 'a'..'z'. */
  function DigitChar(d: nat): (c: char)
    requires d < 36
  {
    if d < 10 then ('0' as int + d) as char else ('a' as int + d - 10) as char
  }

  predicate IsLowerAlnum(c: char) {
    '0' <= c <= '9' || 'a' <= c <= 'z'
  }

  /** The value of a digit character, letters in either case standing for 10..35. */
  function DigitValue(c: char): (d: nat)
    requires '0' <= c <= '9' || 'a' <= c <= 'z' || 'A' <= c <= 'Z'
    ensures d < 36
  {
    if '0' <= c <= '9' then c as int - '0' as int
    else if 'a' <= c <= 'z' then c as int - 'a' as int + 10
    else c as int - 'A' as int + 10
  }

  lemma DigitRoundTrip(d: nat)
    requires d < 36
    ensures IsLowerAlnum(DigitChar(d)) && DigitValue(DigitChar(d)) == d
  {
  }

  predicate IsDecimalDigit(c: char) {
    '0' <= c <= '9'
  }

  /** The value of a string of digits in `radix`, most significant digit first. */
  function ValueIn(digits: string, radix: nat): nat
    requires AllLowerAlnum(digits)
  {
    if digits == [] then 0
    else
      var last := digits[|digits| - 1];
      assert IsLowerAlnum(last);
      ValueIn(digits[..|digits| - 1], radix) * radix + DigitValue(last)
  }

  predicate AllLowerAlnum(s: string) {
    forall i :: 0 <= i < |s| ==> IsLowerAlnum(s[i])
  }

  lemma DivModFacts(n: nat, radix: nat)
    requires 2 <= radix
    ensures n == (n / radix) * radix + n % radix && 0 <= n % radix < radix
    ensures n >= radix ==> 0 < n / radix < n
  {
  }

  /** `n.toString(radix)` for a non-negative integer. */
  function ToRadixString(n: nat, radix: nat): (r: string)
    requires 2 <= radix <= 36
    ensures r != []
    ensures forall i :: 0 <= i < |r| ==> IsLowerAlnum(r[i]) && DigitValue(r[i]) < radix
    decreases n
  {
    if n < radix then [DigitChar(n)]
    else
      DivModFacts(n, radix);
      ToRadixString(n / radix, radix) + [DigitChar(n % radix)]
  }

  /** Reading the digits back gives the number: toString(radix) loses nothing. */
  lemma {:induction false} RadixRoundTrip(n: nat, radix: nat)
    requires 2 <= radix <= 36
    ensures ValueIn(ToRadixString(n, radix), radix) == n
    decreases n
  {
    var r := ToRadixString(n, radix);
    if n < radix {
      DigitRoundTrip(n);
    } else {
      DivModFacts(n, radix);
      RadixRoundTrip(n / radix, radix);
      DigitRoundTrip(n % radix);
      assert r[..|r| - 1] == ToRadixString(n / radix, radix);
    }
  }

  /** `${n}` for a non-negative integer. */
  function Decimal(n: nat): (r: string)
    ensures r != [] && forall i :: 0 <= i < |r| ==> IsDecimalDigit(r[i])
  {
    ToRadixString(n, 10)
  }

  /** The longest prefix of `s` made of decimal digits. */
  function DigitPrefix(s: string): (r: string)
    ensures |r| <= |s| && r == s[..|r|]
    ensures forall i :: 0 <= i < |r| ==> IsDecimalDigit(r[i])
    ensures |r| < |s| ==> !IsDecimalDigit(s[|r|])
  {
    if s != [] && IsDecimalDigit(s[0]) then [s[0]] + DigitPrefix(s[1..]) else []
  }

  /**
   * `parseInt(s, 10)`: skip leading whitespace, take an optional sign, then the longest run
   * of decimal digits; NaN when that run is empty.
   */
  function ParseInt(s: string): Number {
    var t := TrimStart(s);
    var negative := t != [] && t[0] == '-';
    var body := if t != [] && (t[0] == '-' || t[0] == '+') then t[1..] else t;
    var digits := DigitPrefix(body);
    if digits == [] then NaN
    else
      var magnitude: int := ValueIn(digits, 10);
      Int(if negative then -magnitude else magnitude)
  }

  /** A blank string is NaN, and only a '-' after the leading whitespace makes the result negative. */
  lemma ParseIntShape(s: string)
    ensures TrimStart(s) == [] ==> ParseInt(s) == NaN
    ensures ParseInt(s).Int? && ParseInt(s).value < 0 ==> TrimStart(s) != [] && TrimStart(s)[0] == '-'
  {
  }

  /** parseInt reads back the number `${n}` writes, up to the first character that is not a digit. */
  lemma ParseIntLeadingDecimal(n: nat, rest: string)
    requires rest == [] || !IsDecimalDigit(rest[0])
    ensures ParseInt(Decimal(n) + rest) == Int(n)
  {
    var d := Decimal(n);
    var s := d + rest;
    assert s[0] == d[0] && !IsWhiteSpace(d[0]);
    assert TrimStart(s) == s;
    DigitPrefixStops(d, rest);
    RadixRoundTrip(n, 10);
  }

  /** `Decimal` is one-to-one. */
  lemma DecimalInjective(a: nat, b: nat)
    requires Decimal(a) == Decimal(b)
    ensures a == b
  {
    RadixRoundTrip(a, 10);
    RadixRoundTrip(b, 10);
  }

  lemma {:induction false} DigitPrefixStops(d: string, rest: string)
    requires forall i :: 0 <= i < |d| ==> IsDecimalDigit(d[i])
    requires rest == [] || !IsDecimalDigit(rest[0])
    ensures DigitPrefix(d + rest) == d
  {
    if d != [] {
      assert (d + rest)[1..] == d[1..] + rest;
      DigitPrefixStops(d[1..], rest);
    }
  }

  // ---------------------------------------------------------------------------
  // UTF-16

  /** The UTF-16 code units of one character, as `charCodeAt` reports them. */
  function CodeUnits(c: char): (units: seq<int>)
    ensures 1 <= |units| <= 2
    ensures forall k :: 0 <= k < |units| ==> 0 <= units[k] < 0x1_0000
  {
    var v := c as int;
    if v < 0x1_0000 then [v]
    else [0xD800 + (v - 0x1_0000) / 0x400, 0xDC00 + (v - 0x1_0000) % 0x400]
  }

  /** The UTF-16 code units of a string, in order. */
  function Utf16(s: string): (units: seq<int>)
    ensures |units| >= |s|
    ensures forall k :: 0 <= k < |units| ==> 0 <= units[k] < 0x1_0000
  {
    if s == [] then [] else CodeUnits(s[0]) + Utf16(s[1..])
  }
}
