/** String helpers shared by the Go and TypeScript models: prefix and substring
    tests (Go `strings.HasPrefix`/`Index`/`Contains`, JS `startsWith`/`includes`),
    ASCII case folding, single-character splitting, trimming with the two
    languages' whitespace classes, decimal rendering (`%d`) and JavaScript's
    `parseInt`. Strings are sequences of characters. */
module Strings {
  import opened Wrappers

  // ---------------------------------------------------------------------------
  // Prefixes, suffixes, occurrences

  predicate StartsWith(s: string, prefix: string) {
    |prefix| <= |s| && s[..|prefix|] == prefix
  }

  predicate EndsWith(s: string, suffix: string) {
    |suffix| <= |s| && s[|s| - |suffix|..] == suffix
  }

  /** Go `strings.TrimSuffix`. */
  function TrimSuffix(s: string, suffix: string): (r: string)
    ensures EndsWith(s, suffix) ==> r + suffix == s
    ensures !EndsWith(s, suffix) ==> r == s
  {
    if EndsWith(s, suffix) then s[..|s| - |suffix|] else s
  }

  /** `sub` occurs in `s` starting at position `i`. */
  predicate OccursAt(s: string, sub: string, i: nat) {
    i + |sub| <= |s| && s[i..i + |sub|] == sub
  }

  /** The first position at or after `i` where `sub` occurs, or -1. */
  function IndexFrom(s: string, sub: string, i: nat): (r: int)
    ensures r == -1 || (i <= r && OccursAt(s, sub, r))
    ensures r == -1 ==> forall j: nat :: i <= j ==> !OccursAt(s, sub, j)
    ensures r >= 0 ==> forall j: nat :: i <= j < r ==> !OccursAt(s, sub, j)
    decreases |s| - i
  {
    if i + |sub| > |s| then -1
    else if s[i..i + |sub|] == sub then i
    else IndexFrom(s, sub, i + 1)
  }

  /** Go `strings.Index`: the first occurrence of `sub` in `s`, or -1. */
  function IndexOf(s: string, sub: string): int {
    IndexFrom(s, sub, 0)
  }

  /** Go `strings.Contains`, JS `String.prototype.includes`. */
  predicate Contains(s: string, sub: string) {
    IndexOf(s, sub) >= 0
  }

  lemma OccursAtContains(s: string, sub: string, i: nat)
    requires OccursAt(s, sub, i)
    ensures Contains(s, sub)
  {
  }

  /** Every character of a contained string is a character of the container. */
  lemma ContainedChar(s: string, sub: string, c: char)
    requires Contains(s, sub) && c in sub
    ensures c in s
  {
    var i := IndexOf(s, sub);
    var k :| 0 <= k < |sub| && sub[k] == c;
    assert s[i..i + |sub|][k] == c;
  }

  // ---------------------------------------------------------------------------
  // ASCII case folding

  predicate IsUpper(c: char) {
    'A' <= c <= 'Z'
  }

  function Lower(c: char): (r: char)
    ensures !IsUpper(r)
  {
    if IsUpper(c) then (c as int + 32) as char else c
  }

  /** `strings.ToLower` / `toLowerCase`, on ASCII letters. */
  function ToLower(s: string): (r: string)
    ensures |r| == |s|
    ensures forall i :: 0 <= i < |s| ==> r[i] == Lower(s[i])
  {
    seq(|s|, i requires 0 <= i < |s| => Lower(s[i]))
  }

  lemma ToLowerHasNoUpper(s: string, c: char)
    requires c in ToLower(s)
    ensures !IsUpper(c)
  {
  }

  /** Lower-casing commutes with taking a prefix. */
  lemma ToLowerPrefix(s: string, n: nat)
    requires n <= |s|
    ensures ToLower(s)[..n] == ToLower(s[..n])
  {
  }

  lemma ToLowerIdempotent(s: string)
    ensures ToLower(ToLower(s)) == ToLower(s)
  {
  }

  /** A string without upper-case letters is its own lower-cased form. */
  lemma ToLowerUnchanged(s: string)
    requires forall i :: 0 <= i < |s| ==> !IsUpper(s[i])
    ensures ToLower(s) == s
  {
  }

  // ---------------------------------------------------------------------------
  // Splitting on one character (Go `strings.Split` and JS `split` agree here)

  function Count(s: string, c: char): nat {
    if s == [] then 0 else (if s[0] == c then 1 else 0) + Count(s[1..], c)
  }

  function Split(s: string, sep: char): (parts: seq<string>)
    ensures |parts| == Count(s, sep) + 1
    ensures forall k :: 0 <= k < |parts| ==> sep !in parts[k]
  {
    if s == [] then [""]
    else if s[0] == sep then [""] + Split(s[1..], sep)
    else
      var rest := Split(s[1..], sep);
      [[s[0]] + rest[0]] + rest[1..]
  }

  function Join(parts: seq<string>, sep: char): string
    requires |parts| >= 1
  {
    if |parts| == 1 then parts[0] else parts[0] + [sep] + Join(parts[1..], sep)
  }

  /** Joining the parts again with the separator gives back the input. */
  lemma {:induction false} SplitJoin(s: string, sep: char)
    ensures Join(Split(s, sep), sep) == s
  {
    if s == [] {
    } else if s[0] == sep {
      SplitJoin(s[1..], sep);
      assert s == [sep] + s[1..];
    } else {
      var rest := Split(s[1..], sep);
      SplitJoin(s[1..], sep);
      if |rest| == 1 {
        assert s == [s[0]] + s[1..];
      } else {
        assert Join(rest, sep) == rest[0] + [sep] + Join(rest[1..], sep);
        assert Split(s, sep)[1..] == rest[1..];
        assert s == [s[0]] + s[1..];
      }
    }
  }

  /** A string without the separator splits into itself alone. */
  lemma {:induction false} SplitNoSep(s: string, sep: char)
    requires sep !in s
    ensures Split(s, sep) == [s]
  {
    if s != [] {
      SplitNoSep(s[1..], sep);
      assert s == [s[0]] + s[1..];
    }
  }

  /** `a + [sep] + b` with no separator in `a` or `b` splits into exactly `[a, b]`. */
  lemma {:induction false} SplitTwo(a: string, b: string, sep: char)
    requires sep !in a && sep !in b
    ensures Split(a + [sep] + b, sep) == [a, b]
  {
    if a == [] {
      assert a + [sep] + b == [sep] + b;
      assert (a + [sep] + b)[1..] == b;
      SplitNoSep(b, sep);
    } else {
      SplitTwo(a[1..], b, sep);
      assert (a + [sep] + b)[1..] == a[1..] + [sep] + b;
      assert a == [a[0]] + a[1..];
    }
  }

  // ---------------------------------------------------------------------------
  // Repetition and decimal rendering

  function Repeat(c: char, n: nat): (r: string)
    ensures |r| == n
    ensures forall i :: 0 <= i < n ==> r[i] == c
  {
    if n == 0 then [] else [c] + Repeat(c, n - 1)
  }

  predicate IsDigit(c: char) {
    '0' <= c <= '9'
  }

  function DigitChar(d: nat): (c: char)
    requires d < 10
    ensures IsDigit(c)
  {
    "0123456789"[d]
  }

  /** Go `%d` / `strconv.Itoa` and JS template interpolation of a non-negative integer. */
  function NatToString(n: nat): (r: string)
    ensures |r| >= 1
    ensures n >= 10 ==> |r| >= 2
    ensures forall i :: 0 <= i < |r| ==> IsDigit(r[i])
  {
    if n < 10 then [DigitChar(n)] else NatToString(n / 10) + [DigitChar(n % 10)]
  }

  /** Different numbers print differently, so ids built from them are distinct. */
  lemma {:induction false} NatToStringInjective(a: nat, b: nat)
    requires NatToString(a) == NatToString(b)
    ensures a == b
  {
    if a >= 10 && b >= 10 {
      var ra := NatToString(a);
      assert ra[..|ra| - 1] == NatToString(a / 10);
      assert NatToString(b)[..|ra| - 1] == NatToString(b / 10);
      NatToStringInjective(a / 10, b / 10);
      assert DigitChar(a % 10) == DigitChar(b % 10);
    }
  }

  /** Go `%d` / `%v` of a signed integer: a minus sign before the digits of a negative one. */
  function IntToString(i: int): string {
    if i < 0 then "-" + NatToString(-i) else NatToString(i)
  }

  // ---------------------------------------------------------------------------
  // Whitespace classes and trimming

  /** Go `unicode.IsSpace` (used by `strings.TrimSpace` and `strings.Fields`). */
  predicate GoSpace(c: char) {
    c == ' ' || c == '\t' || c == '\n' || c == '\U{000B}' || c == '\U{000C}' || c == '\r'
    || c == '\U{0085}' || c == '\U{00A0}' || c == '\U{1680}'
    || ('\U{2000}' <= c <= '\U{200A}')
    || c == '\U{2028}' || c == '\U{2029}' || c == '\U{202F}' || c == '\U{205F}' || c == '\U{3000}'
  }

  /** The `\s` class of Go's regexp (RE2) syntax: `[\t\n\f\r ]`. */
  predicate RegexSpace(c: char) {
    c == ' ' || c == '\t' || c == '\n' || c == '\U{000C}' || c == '\r'
  }

  /** The characters JavaScript's `String.prototype.trim` removes. */
  predicate JsSpace(c: char) {
    c == ' ' || c == '\t' || c == '\n' || c == '\U{000B}' || c == '\U{000C}' || c == '\r'
    || c == '\U{00A0}' || c == '\U{1680}'
    || ('\U{2000}' <= c <= '\U{200A}')
    || c == '\U{2028}' || c == '\U{2029}' || c == '\U{202F}' || c == '\U{205F}' || c == '\U{3000}'
    || c == '\U{FEFF}'
  }

  lemma RegexSpaceIsGoSpace(c: char)
    requires RegexSpace(c)
    ensures GoSpace(c)
  {
  }

  function TrimLeft(s: string, ws: char -> bool): (r: string)
    ensures |r| <= |s| && r == s[|s| - |r|..]
    ensures r != [] ==> !ws(r[0])
    ensures forall i :: 0 <= i < |s| - |r| ==> ws(s[i])
  {
    if s != [] && ws(s[0]) then TrimLeft(s[1..], ws) else s
  }

  function TrimRight(s: string, ws: char -> bool): (r: string)
    ensures |r| <= |s| && r == s[..|r|]
    ensures r != [] ==> !ws(r[|r| - 1])
    ensures forall i :: |r| <= i < |s| ==> ws(s[i])
  {
    if s != [] && ws(s[|s| - 1]) then TrimRight(s[..|s| - 1], ws) else s
  }

  /** Go `strings.TrimSpace` (with GoSpace) and JS `trim` (with JsSpace). */
  function Trim(s: string, ws: char -> bool): (r: string)
    ensures r != [] ==> !ws(r[0]) && !ws(r[|r| - 1])
    ensures |r| <= |s|
  {
    TrimRight(TrimLeft(s, ws), ws)
  }

  /** A string trims to nothing exactly when it is all whitespace. */
  lemma TrimEmptyIffBlank(s: string, ws: char -> bool)
    ensures Trim(s, ws) == [] <==> forall i :: 0 <= i < |s| ==> ws(s[i])
  {
    var l := TrimLeft(s, ws);
    if Trim(s, ws) == [] {
      forall i | 0 <= i < |s| ensures ws(s[i]) {
        if i >= |s| - |l| {
          assert s[i] == l[i - (|s| - |l|)];
        }
      }
    } else {
      var r := Trim(s, ws);
      assert l[0] == r[0];
      assert s[|s| - |l|] == l[0];
    }
  }

  // ---------------------------------------------------------------------------
  // JavaScript parseInt (radix omitted)

  /** The value of a digit in base 10 or 16, or -1. */
  function DigitValue(c: char, radix: nat): (v: int)
    requires radix == 10 || radix == 16
    ensures -1 <= v < radix
  {
    if '0' <= c <= '9' then c as int - '0' as int
    else if radix == 16 && 'a' <= c <= 'f' then c as int - 'a' as int + 10
    else if radix == 16 && 'A' <= c <= 'F' then c as int - 'A' as int + 10
    else -1
  }

  /** Length of the longest prefix of `s` made of digits of the radix. */
  function DigitRun(s: string, radix: nat): (n: nat)
    requires radix == 10 || radix == 16
    ensures n <= |s|
    ensures forall i :: 0 <= i < n ==> DigitValue(s[i], radix) >= 0
    ensures n < |s| ==> DigitValue(s[n], radix) < 0
  {
    if s == [] || DigitValue(s[0], radix) < 0 then 0 else 1 + DigitRun(s[1..], radix)
  }

  /** The value of a digit string, most significant digit first. */
  function DigitsValue(s: string, radix: nat): nat
    requires radix == 10 || radix == 16
    requires forall i :: 0 <= i < |s| ==> DigitValue(s[i], radix) >= 0
  {
    if s == [] then 0
    else DigitsValue(s[..|s| - 1], radix) * radix + DigitValue(s[|s| - 1], radix)
  }

  /** `parseInt(s)`: None stands for NaN. Leading whitespace is skipped, one sign
      is accepted, a `0x`/`0X` prefix selects base 16, and the longest run of
      digits is read; parsing stops at the first other character. */
  function ParseInt(s: string): Option<int> {
    ParseSigned(TrimLeft(s, JsSpace))
  }

  function ParseSigned(t: string): Option<int> {
    if t != [] && t[0] == '-' then
      match ParseUnsigned(t[1..])
      case Some(v) => Some(-(v as int))
      case None => None
    else if t != [] && t[0] == '+' then ParseNat(t[1..])
    else ParseNat(t)
  }

  function ParseNat(u: string): Option<int> {
    match ParseUnsigned(u)
    case Some(v) => Some(v as int)
    case None => None
  }

  function ParseUnsigned(u: string): Option<nat> {
    if StartsWith(u, "0x") || StartsWith(u, "0X") then ParseDigits(u[2..], 16)
    else ParseDigits(u, 10)
  }

  /** The value of the longest digit prefix, or None when there is none. */
  function ParseDigits(d: string, radix: nat): (r: Option<nat>)
    requires radix == 10 || radix == 16
    ensures r.None? <==> (d == [] || DigitValue(d[0], radix) < 0)
  {
    var n := DigitRun(d, radix);
    if n == 0 then None else Some(DigitsValue(d[..n], radix))
  }

  lemma {:induction false} DigitsValueOfNat(n: nat)
    ensures forall i :: 0 <= i < |NatToString(n)| ==> DigitValue(NatToString(n)[i], 10) >= 0
    ensures DigitsValue(NatToString(n), 10) == n
  {
    var s := NatToString(n);
    DigitCharValue(n % 10);
    if n >= 10 {
      DigitsValueOfNat(n / 10);
      assert s[..|s| - 1] == NatToString(n / 10);
    } else {
      assert s[..|s| - 1] == [];
    }
    assert s[|s| - 1] == DigitChar(n % 10);
  }

  lemma DigitCharValue(d: nat)
    requires d < 10
    ensures DigitValue(DigitChar(d), 10) == d
  {
  }

  lemma DigitRunAll(s: string)
    requires forall i :: 0 <= i < |s| ==> DigitValue(s[i], 10) >= 0
    ensures DigitRun(s, 10) == |s|
  {
  }

  lemma DigitStringUntrimmed(s: string)
    requires s != [] && IsDigit(s[0])
    ensures TrimLeft(s, JsSpace) == s
  {
  }

  lemma DigitStringNotHex(s: string)
    requires forall i :: 0 <= i < |s| ==> IsDigit(s[i])
    ensures !StartsWith(s, "0x") && !StartsWith(s, "0X")
  {
    if |s| >= 2 {
      assert IsDigit(s[1]);
      assert s[..2][1] == s[1];
    }
  }

  /** parseInt reads back what `%d` writes. */
  lemma ParseIntOfNat(n: nat)
    ensures ParseInt(NatToString(n)) == Some(n)
  {
    var s := NatToString(n);
    DigitsValueOfNat(n);
    DigitStringUntrimmed(s);
    DigitStringNotHex(s);
    DigitRunAll(s);
    assert s[..|s|] == s;
    assert ParseDigits(s, 10) == Some(n);
    assert ParseUnsigned(s) == Some(n);
    assert s[0] != '-' && s[0] != '+';
  }

  // ---------------------------------------------------------------------------
  // JavaScript parseFloat

  function Pow10(n: nat): (p: nat)
    ensures p >= 1
  {
    if n == 0 then 1 else 10 * Pow10(n - 1)
  }

  /** A decimal number as parseFloat reads it: the digits, without the point, times ten
      to the exponent, negated when `negative`. */
  datatype Decimal = Decimal(negative: bool, digits: nat, exponent: int)

  function DecimalValue(d: Decimal): real {
    var m := if d.exponent >= 0 then (d.digits * Pow10(d.exponent)) as real
             else d.digits as real / Pow10(-d.exponent) as real;
    if d.negative then -m else m
  }

  /** `parseFloat(s)` (section 19.2.4 of ECMA-262): the longest prefix of the text after
      leading white space that is a decimal literal, kept exact. None stands for NaN, and
      also for Infinity, since JSON.stringify writes both as null. */
  function ParseFloat(s: string): Option<Decimal> {
    var t := TrimLeft(s, JsSpace);
    if t != [] && t[0] == '-' then
      match ParseUnsignedFloat(t[1..])
      case Some(d) => Some(d.(negative := true))
      case None => None
    else if t != [] && t[0] == '+' then ParseUnsignedFloat(t[1..])
    else ParseUnsignedFloat(t)
  }

  /** StrUnsignedDecimalLiteral: "Infinity", or digits with an optional fraction and
      exponent; a literal needs a digit before or just after its '.'. */
  function ParseUnsignedFloat(u: string): (r: Option<Decimal>)
    ensures r.None? <==>
      StartsWith(u, "Infinity") || (!(u != [] && IsDigit(u[0])) && !(|u| >= 2 && u[0] == '.' && IsDigit(u[1])))
    ensures r.Some? ==> !r.value.negative
  {
    if StartsWith(u, "Infinity") then None
    else
      var i := DigitRun(u, 10);
      var rest := u[i..];
      var dotted := rest != [] && rest[0] == '.';
      var f := if dotted then DigitRun(rest[1..], 10) else 0;
      if i == 0 && f == 0 then None
      else
        var fraction := if dotted then rest[1..][..f] else [];
        var exponent := if dotted then rest[1 + f..] else rest;
        var mantissa := u[..i] + fraction;
        assert forall k :: 0 <= k < |mantissa| ==> DigitValue(mantissa[k], 10) >= 0 by {
          forall k | 0 <= k < |mantissa| ensures DigitValue(mantissa[k], 10) >= 0 {
            if k >= i {
              assert mantissa[k] == rest[1..][k - i];
            }
          }
        }
        Some(Decimal(false, DigitsValue(mantissa, 10), ExponentOf(exponent) - f))
  }

  /** The value of an exponent part (`e` or `E`, a sign, digits) at the head of the text;
      0 when there is none, so parsing stops before the `e`. */
  function ExponentOf(e: string): int {
    if e != [] && (e[0] == 'e' || e[0] == 'E') then
      var signed := |e| > 1 && (e[1] == '+' || e[1] == '-');
      var ds := if signed then e[2..] else e[1..];
      var n := DigitRun(ds, 10);
      if n == 0 then 0
      else if signed && e[1] == '-' then -(DigitsValue(ds[..n], 10) as int)
      else DigitsValue(ds[..n], 10)
    else 0
  }

  /** parseFloat reads back what `%d` writes, as parseInt does. */
  lemma ParseFloatOfNat(n: nat)
    ensures ParseFloat(NatToString(n)) == Some(Decimal(false, n, 0))
    ensures DecimalValue(Decimal(false, n, 0)) == n as real
  {
    var s := NatToString(n);
    DigitsValueOfNat(n);
    DigitStringUntrimmed(s);
    DigitRunAll(s);
    assert s[..|s|] == s;
    assert s[|s|..] == [];
    assert s[..|s|] + [] == s;
    assert s[0] != '-' && s[0] != '+';
    assert !StartsWith(s, "Infinity") by {
      assert IsDigit(s[0]);
    }
  }

  // ---------------------------------------------------------------------------
  // Go's `<` on strings: lexicographic on characters (code-point order agrees with
  // the byte order of their UTF-8 encodings).

  predicate LexLess(a: string, b: string) {
    if a == [] then b != []
    else if b == [] then false
    else if a[0] != b[0] then a[0] < b[0]
    else LexLess(a[1..], b[1..])
  }

  lemma {:induction false} LexTotal(a: string, b: string)
    ensures a == b || LexLess(a, b) || LexLess(b, a)
    ensures !(LexLess(a, b) && LexLess(b, a))
    ensures !LexLess(a, a)
  {
    if a != [] && b != [] && a[0] == b[0] {
      LexTotal(a[1..], b[1..]);
      if a[1..] == b[1..] {
        assert a == [a[0]] + a[1..] && b == [b[0]] + b[1..];
      }
    } else if a != [] {
      LexTotal(a[1..], a[1..]);
    }
  }

  lemma {:induction false} LexTrans(a: string, b: string, c: string)
    requires LexLess(a, b) && LexLess(b, c)
    ensures LexLess(a, c)
  {
    if a != [] && a[0] == b[0] && b[0] == c[0] {
      LexTrans(a[1..], b[1..], c[1..]);
    }
  }

  /** `k` is the element of `keys` that sorts last. */
  predicate IsGreatest(keys: set<string>, k: string) {
    k in keys && forall j :: j in keys ==> j == k || LexLess(j, k)
  }

  lemma {:induction false} GreatestExists(keys: set<string>)
    requires keys != {}
    ensures exists k :: IsGreatest(keys, k)
    decreases |keys|
  {
    var x :| x in keys;
    if keys - {x} == {} {
      assert keys == {x};
      assert IsGreatest(keys, x);
    } else {
      GreatestExists(keys - {x});
      var m :| IsGreatest(keys - {x}, m);
      LexTotal(m, x);
      if LexLess(m, x) {
        forall j | j in keys && j != x ensures LexLess(j, x) {
          if j != m {
            LexTrans(j, m, x);
          }
        }
        assert IsGreatest(keys, x);
      } else {
        assert IsGreatest(keys, m);
      }
    }
  }

  lemma GreatestUnique(keys: set<string>, a: string, b: string)
    requires IsGreatest(keys, a) && IsGreatest(keys, b)
    ensures a == b
  {
    LexTotal(a, b);
  }

  /** The key of a non-empty set that sorts last. */
  function Greatest(keys: set<string>): (k: string)
    requires keys != {}
    ensures IsGreatest(keys, k)
  {
    GreatestExists(keys);
    assert forall a, b :: IsGreatest(keys, a) && IsGreatest(keys, b) ==> a == b by {
      forall a, b | IsGreatest(keys, a) && IsGreatest(keys, b) ensures a == b {
        GreatestUnique(keys, a, b);
      }
    }
    var k :| IsGreatest(keys, k);
    k
  }
}
