/**
 * The small part of JavaScript's value semantics that the form engine relies
 * on: values stored in a form's value map, truthiness (`!value`, `a || b`),
 * `toString()`, `String.prototype.trim`, the `\s` and `\d` character classes,
 * decimal rendering of integers and the prefix parser behind `parseFloat`.
 */
module Js {

  datatype Option<T> = None | Some(value: T) {
    function GetOr(default: T): T {
      match this
      case Some(v) => v
      case None => default
    }
  }

  /** A value held in a form's value map: a string (text inputs, selects,
      dates), a boolean (checkboxes) or `undefined`/`null`. */
  datatype Value = Str(s: string) | Bool(b: bool) | Missing

  /** JavaScript truthiness: `false`, `''`, `undefined` and `null` are falsy. */
  predicate Truthy(v: Value) {
    match v
    case Str(s) => s != ""
    case Bool(b) => b
    case Missing => false
  }

  /** `String(v)`. */
  function ToText(v: Value): string {
    match v
    case Str(s) => s
    case Bool(b) => if b then "true" else "false"
    case Missing => "undefined"
  }

  /** `m[k]`: the stored value, or `undefined` for a key the map lacks. */
  function Lookup(m: map<string, Value>, k: string): (v: Value)
    ensures k in m ==> v == m[k]
    ensures k !in m ==> v == Missing
  {
    if k in m then m[k] else Missing
  }

  /** `v.length`: defined for strings only (`undefined` otherwise). */
  function Length(v: Value): Option<nat> {
    if v.Str? then Some(|v.s|) else None
  }

  /** `v || ''` followed by string conversion. */
  function TextOrEmpty(v: Value): (r: string)
    ensures Truthy(v) ==> r == ToText(v)
    ensures !Truthy(v) ==> r == ""
  {
    if Truthy(v) then ToText(v) else ""
  }

  /** The white space and line terminators removed by `trim` and matched by
      the regular-expression class `\s`. */
  predicate IsSpace(c: char) {
    var n := c as int;
    n == 0x09 || n == 0x0A || n == 0x0B || n == 0x0C || n == 0x0D || n == 0x20
    || n == 0xA0 || n == 0x1680 || (0x2000 <= n <= 0x200A) || n == 0x2028
    || n == 0x2029 || n == 0x202F || n == 0x205F || n == 0x3000 || n == 0xFEFF
  }

  predicate AllSpace(s: string) {
    forall k | 0 <= k < |s| :: IsSpace(s[k])
  }

  function TrimStart(s: string): (r: string)
    ensures |r| <= |s|
  {
    if |s| > 0 && IsSpace(s[0]) then TrimStart(s[1..]) else s
  }

  function TrimEnd(s: string): (r: string)
    ensures |r| <= |s|
  {
    if |s| > 0 && IsSpace(s[|s| - 1]) then TrimEnd(s[..|s| - 1]) else s
  }

  /** `s.trim()`. */
  function Trim(s: string): string {
    TrimEnd(TrimStart(s))
  }

  lemma {:induction false} TrimStartAppend(a: string, b: string)
    ensures TrimStart(a + b) == if AllSpace(a) then TrimStart(b) else TrimStart(a) + b
  {
    if |a| > 0 {
      assert (a + b)[0] == a[0];
      if IsSpace(a[0]) {
        assert (a + b)[1..] == a[1..] + b;
        TrimStartAppend(a[1..], b);
        assert AllSpace(a) <==> AllSpace(a[1..]) by {
          if AllSpace(a[1..]) {
            forall k | 0 <= k < |a| ensures IsSpace(a[k]) {
              if k > 0 { assert a[k] == a[1..][k - 1]; }
            }
          }
        }
      }
    } else {
      assert a + b == b;
    }
  }

  lemma {:induction false} TrimEndAppend(a: string, b: string)
    ensures TrimEnd(a + b) == if AllSpace(b) then TrimEnd(a) else a + TrimEnd(b)
  {
    if |b| > 0 {
      var ab := a + b;
      assert ab[|ab| - 1] == b[|b| - 1];
      if IsSpace(b[|b| - 1]) {
        assert ab[..|ab| - 1] == a + b[..|b| - 1];
        TrimEndAppend(a, b[..|b| - 1]);
        assert AllSpace(b) <==> AllSpace(b[..|b| - 1]) by {
          if AllSpace(b[..|b| - 1]) {
            forall k | 0 <= k < |b| ensures IsSpace(b[k]) {
              if k < |b| - 1 { assert b[k] == b[..|b| - 1][k]; }
            }
          }
        }
      }
    } else {
      assert a + b == a;
    }
  }

  lemma {:induction false} TrimStartOfSpaceFree(s: string)
    requires |s| == 0 || !IsSpace(s[0])
    ensures TrimStart(s) == s
  {
  }

  lemma {:induction false} TrimEndOfSpaceFree(s: string)
    requires |s| == 0 || !IsSpace(s[|s| - 1])
    ensures TrimEnd(s) == s
  {
  }

  /** A string trims to the empty string exactly when it is all white space. */
  lemma {:induction false} TrimEmptyIffAllSpace(s: string)
    ensures Trim(s) == "" <==> AllSpace(s)
  {
    TrimStartAppend(s, "");
    assert s + "" == s;
    if !AllSpace(s) {
      TrimEndAppend(TrimStart(s), "");
      assert TrimStart(s) + "" == TrimStart(s);
      TrimStartNonEmpty(s);
      TrimEndNonEmpty(TrimStart(s));
    }
  }

  lemma {:induction false} TrimStartNonEmpty(s: string)
    requires !AllSpace(s)
    ensures |TrimStart(s)| > 0 && !IsSpace(TrimStart(s)[0])
  {
    if IsSpace(s[0]) {
      assert !AllSpace(s[1..]) by {
        var k :| 0 <= k < |s| && !IsSpace(s[k]);
        assert s[1..][k - 1] == s[k];
      }
      TrimStartNonEmpty(s[1..]);
    }
  }

  lemma {:induction false} TrimEndNonEmpty(s: string)
    requires |s| > 0 && !IsSpace(s[0])
    ensures |TrimEnd(s)| > 0
  {
    if IsSpace(s[|s| - 1]) {
      assert |s| > 1;
      var t := s[..|s| - 1];
      assert t[0] == s[0];
      TrimEndNonEmpty(t);
    }
  }

  /** The class `\d` (and the complement of `[^0-9]`). */
  predicate IsDigit(c: char) {
    '0' <= c <= '9'
  }

  /** `s.replace(/[^0-9]/g, '').length`: the number of decimal digits in `s`. */
  function DigitCount(s: string): (n: nat)
    ensures n <= |s|
  {
    if s == [] then 0 else (if IsDigit(s[0]) then 1 else 0) + DigitCount(s[1..])
  }

  /** A string has a positive digit count exactly when it holds a digit. */
  lemma {:induction false} DigitCountPositive(s: string)
    ensures DigitCount(s) > 0 <==> exists k | 0 <= k < |s| :: IsDigit(s[k])
  {
    if s != [] {
      DigitCountPositive(s[1..]);
      assert forall k | 1 <= k < |s| :: s[k] == s[1..][k - 1];
    }
  }

  function DigitValue(c: char): nat
    requires IsDigit(c)
  {
    (c as int) - ('0' as int)
  }

  function DigitChar(d: nat): (c: char)
    requires d < 10
    ensures IsDigit(c) && DigitValue(c) == d
  {
    (('0' as int) + d) as char
  }

  /** The value of a string of decimal digits. */
  function DigitsValue(s: string): nat
    requires forall k | 0 <= k < |s| :: IsDigit(s[k])
  {
    if s == [] then 0 else DigitsValue(s[..|s| - 1]) * 10 + DigitValue(s[|s| - 1])
  }

  function Pow10(k: nat): (p: nat)
    ensures p >= 1
  {
    if k == 0 then 1 else 10 * Pow10(k - 1)
  }

  lemma MulShift(x: int, p: int)
    ensures (x * p) * 10 == x * (10 * p)
  {
  }

  /** The value of a concatenation of digit strings. */
  lemma {:induction false} DigitsValueAppend(a: string, b: string)
    requires forall k | 0 <= k < |a| :: IsDigit(a[k])
    requires forall k | 0 <= k < |b| :: IsDigit(b[k])
    ensures DigitsValue(a + b) == DigitsValue(a) * Pow10(|b|) + DigitsValue(b)
    decreases |b|
  {
    var ab := a + b;
    if b == [] {
      assert ab == a;
    } else {
      var b' := b[..|b| - 1];
      var c := b[|b| - 1];
      assert ab[..|ab| - 1] == a + b';
      assert ab[|ab| - 1] == c;
      DigitsValueAppend(a, b');
      var x, y := DigitsValue(a), DigitsValue(b');
      assert DigitsValue(ab) == (x * Pow10(|b'|) + y) * 10 + DigitValue(c);
      assert DigitsValue(b) == y * 10 + DigitValue(c);
      assert Pow10(|b|) == 10 * Pow10(|b'|);
      MulShift(x, Pow10(|b'|));
    }
  }

  /** Decimal rendering of a natural number, as `n.toString()` prints it. */
  function NatToString(n: nat): (r: string)
    ensures |r| > 0
    ensures forall k | 0 <= k < |r| :: IsDigit(r[k])
    ensures DigitsValue(r) == n
    decreases n
  {
    if n < 10 then [DigitChar(n)]
    else
      var prefix := NatToString(n / 10);
      var r := prefix + [DigitChar(n % 10)];
      assert r[..|r| - 1] == prefix;
      r
  }

  /** Decimal rendering of an integer, with a leading minus sign when negative. */
  function IntToString(n: int): (r: string)
    ensures |r| > 0
    ensures n >= 0 ==> r == NatToString(n)
    ensures n < 0 ==> r[0] == '-' && r[1..] == NatToString(-n)
  {
    if n >= 0 then NatToString(n) else "-" + NatToString(-n)
  }

  /** The longest prefix of `s` made of decimal digits. */
  function DigitPrefix(s: string): (r: string)
    ensures |r| <= |s|
    ensures forall k | 0 <= k < |r| :: IsDigit(r[k])
  {
    if s != [] && IsDigit(s[0]) then [s[0]] + DigitPrefix(s[1..]) else []
  }

  /** The digit prefix is a prefix of `s` that the next character cannot
      extend. */
  lemma {:induction false} DigitPrefixMaximal(s: string)
    ensures var r := DigitPrefix(s);
      r == s[..|r|] && (|r| < |s| ==> !IsDigit(s[|r|]))
  {
    if s != [] && IsDigit(s[0]) {
      DigitPrefixMaximal(s[1..]);
    }
  }

  /** The value `0.d1 d2 ...` of the digits after a decimal point. */
  function FractionValue(s: string): (r: real)
    requires forall k | 0 <= k < |s| :: IsDigit(s[k])
    ensures 0.0 <= r < 1.0
  {
    if s == [] then 0.0 else (DigitValue(s[0]) as real + FractionValue(s[1..])) / 10.0
  }

  /**
   * `parseFloat(s)`: leading white space, an optional sign, then the longest
   * decimal literal `digits [. digits]` or `. digits`; `None` stands for NaN
   * (no digit at all).
   */
  function ParseNumber(s: string): (r: Option<real>) {
    var t := TrimStart(s);
    var negative := |t| > 0 && t[0] == '-';
    var u := if |t| > 0 && (t[0] == '-' || t[0] == '+') then t[1..] else t;
    var whole := DigitPrefix(u);
    var rest := u[|whole|..];
    var fraction := if |rest| > 0 && rest[0] == '.' then DigitPrefix(rest[1..]) else [];
    if whole == [] && fraction == [] then None
    else
      var magnitude := DigitsValue(whole) as real + FractionValue(fraction);
      Some(if negative then -magnitude else magnitude)
  }
}
