/**
 * The parts of JavaScript's value semantics that the portal's code leans on:
 * truthiness, `parseFloat`, `parseInt`, the numeric coercion behind `-`, and the
 * string methods `trim`, `toLowerCase`, `includes`, `startsWith` and `split`.
 * Numbers are `real`; NaN is the one non-finite number that is modelled.
 */
module Js {

  datatype Option<+T> = None | Some(value: T)

  /** A JavaScript value as it arrives in a JSON body, a query or a record. */
  datatype Value =
    | Undefined
    | Null
    | Bool(b: bool)
    | Num(n: real)
    | NaN
    | Str(s: string)
    | Obj(props: map<string, Value>)

  /** ToBoolean: undefined, null, false, 0, NaN and "" are the falsy values. */
  predicate Truthy(v: Value) {
    match v
    case Bool(b) => b
    case Num(n) => n != 0.0
    case Str(s) => s != ""
    case Obj(_) => true
    case _ => false
  }

  /** The values that `??` and `?.` treat as missing. */
  predicate Nullish(v: Value) {
    v.Undefined? || v.Null?
  }

  /** `v.name` on a parsed JSON value: a missing property, or a property of a primitive, reads as undefined. */
  function Field(v: Value, name: string): (r: Value)
    ensures v.Obj? && name in v.props ==> r == v.props[name]
    ensures !(v.Obj? && name in v.props) ==> r.Undefined?
  {
    if v.Obj? && name in v.props then v.props[name] else Undefined
  }

  /** Truthiness of a nullable number column: present and different from 0. */
  predicate TruthyNumber(x: Option<real>) {
    x.Some? && x.value != 0.0
  }

  /** Truthiness of an optional string (a query parameter or a form field). */
  predicate TruthyText(x: Option<string>) {
    x.Some? && x.value != ""
  }

  /** `x || 0` for a nullable number. */
  function OrZero(x: Option<real>): real {
    if TruthyNumber(x) then x.value else 0.0
  }

  /**
   * `s.length`: JavaScript strings are UTF-16, so a character outside the
   * Basic Multilingual Plane (a surrogate pair) counts twice.
   */
  function Utf16Length(s: string): (n: nat)
    ensures |s| <= n <= 2 * |s|
    ensures (forall i :: 0 <= i < |s| ==> s[i] < '\U{10000}') ==> n == |s|
  {
    if s == [] then 0
    else
      var rest := Utf16Length(s[1..]);
      assert forall i :: 1 <= i < |s| ==> s[1..][i - 1] == s[i];
      (if s[0] >= '\U{10000}' then 2 else 1) + rest
  }

  /** A parse result as a JavaScript number: `None` stands for NaN. */
  function FromNumber(x: Option<real>): Value {
    if x.Some? then Num(x.value) else NaN
  }

  // ---------------------------------------------------------------------------
  // Whitespace and trimming

  /** The WhiteSpace and LineTerminator code points of ECMAScript, the set that `trim` removes and `\s` matches. */
  predicate IsWhitespace(c: char) {
    || c == '\t' || c == '\n' || c == '\U{000B}' || c == '\U{000C}' || c == '\r' || c == ' '
    || c == '\U{00A0}' || c == '\U{1680}' || ('\U{2000}' <= c <= '\U{200A}')
    || c == '\U{2028}' || c == '\U{2029}' || c == '\U{202F}' || c == '\U{205F}'
    || c == '\U{3000}' || c == '\U{FEFF}'
  }

  /** `s` without its leading whitespace. */
  function TrimStart(s: string): string {
    if s != [] && IsWhitespace(s[0]) then TrimStart(s[1..]) else s
  }

  /** TrimStart gives a suffix of `s` that does not start with whitespace, and what it drops is all whitespace. */
  lemma {:induction false} TrimStartShape(s: string)
    ensures |TrimStart(s)| <= |s| && TrimStart(s) == s[|s| - |TrimStart(s)|..]
    ensures TrimStart(s) != [] ==> !IsWhitespace(TrimStart(s)[0])
    ensures forall i :: 0 <= i < |s| - |TrimStart(s)| ==> IsWhitespace(s[i])
  {
    if s != [] && IsWhitespace(s[0]) {
      TrimStartShape(s[1..]);
      forall i | 0 <= i < |s| - |TrimStart(s)| ensures IsWhitespace(s[i]) {
        if i > 0 {
          assert s[i] == s[1..][i - 1];
        }
      }
    }
  }

  /** `s` without its trailing whitespace. */
  function TrimEnd(s: string): string {
    if s != [] && IsWhitespace(s[|s| - 1]) then TrimEnd(s[..|s| - 1]) else s
  }

  /** TrimEnd gives a prefix of `s` that does not end with whitespace, and what it drops is all whitespace. */
  lemma {:induction false} TrimEndShape(s: string)
    ensures |TrimEnd(s)| <= |s| && TrimEnd(s) == s[..|TrimEnd(s)|]
    ensures TrimEnd(s) != [] ==> !IsWhitespace(TrimEnd(s)[|TrimEnd(s)| - 1])
    ensures forall i :: |TrimEnd(s)| <= i < |s| ==> IsWhitespace(s[i])
  {
    if s != [] && IsWhitespace(s[|s| - 1]) {
      TrimEndShape(s[..|s| - 1]);
      forall i | |TrimEnd(s)| <= i < |s| ensures IsWhitespace(s[i]) {
        if i < |s| - 1 {
          assert s[i] == s[..|s| - 1][i];
        }
      }
    }
  }

  /** String.prototype.trim. */
  function Trim(s: string): string {
    TrimEnd(TrimStart(s))
  }

  /** A string is blank (trims to "") exactly when every character of it is whitespace. */
  lemma TrimBlank(s: string)
    ensures Trim(s) == "" <==> forall i :: 0 <= i < |s| ==> IsWhitespace(s[i])
  {
    var t := TrimStart(s);
    TrimStartShape(s);
    TrimEndShape(t);
    if Trim(s) == "" {
      assert t == [];
    } else {
      var r := Trim(s);
      var k := |s| - |t|;
      assert r[0] == t[0] == s[k];
    }
  }

  /** Trimming keeps a string that has no whitespace at either end. */
  lemma TrimUnchanged(s: string)
    requires s != [] ==> !IsWhitespace(s[0]) && !IsWhitespace(s[|s| - 1])
    ensures Trim(s) == s
  {
  }

  // ---------------------------------------------------------------------------
  // Other string methods

  /** toLowerCase on the ASCII letters; every other character is kept. */
  function LowerChar(c: char): char {
    if 'A' <= c <= 'Z' then (c as int + 32) as char else c
  }

  /** String.prototype.toLowerCase (ASCII case mapping). */
  function ToLower(s: string): (r: string)
    ensures |r| == |s|
    ensures forall i :: 0 <= i < |s| ==> r[i] == LowerChar(s[i])
  {
    seq(|s|, i requires 0 <= i < |s| => LowerChar(s[i]))
  }

  /** String.prototype.startsWith. */
  predicate StartsWith(s: string, prefix: string) {
    |prefix| <= |s| && s[..|prefix|] == prefix
  }

  /** String.prototype.includes: `t` occurs in `s` at some position. */
  predicate Includes(s: string, t: string) {
    exists i :: 0 <= i <= |s| - |t| && OccursAt(s, t, i)
  }

  /** `t` occurs in `s` starting at index `i`. */
  predicate OccursAt(s: string, t: string, i: int) {
    0 <= i <= |s| - |t| && s[i..i + |t|] == t
  }

  /** Every string includes the empty string. */
  lemma IncludesEmpty(s: string)
    ensures Includes(s, "")
  {
    assert OccursAt(s, "", 0);
  }

  /** A string includes every piece of it. */
  lemma IncludesPiece(a: string, t: string, b: string)
    ensures Includes(a + t + b, t)
  {
    var s := a + t + b;
    assert s[|a|..|a| + |t|] == t;
    assert OccursAt(s, t, |a|);
  }

  /** A string does not include text holding a character it lacks. */
  lemma IncludesNeedsChar(s: string, t: string, c: char)
    requires c in t && c !in s
    ensures !Includes(s, t)
  {
    var k :| 0 <= k < |t| && t[k] == c;
    forall i | 0 <= i <= |s| - |t| ensures !OccursAt(s, t, i) {
      assert s[i..i + |t|][k] == s[i + k] != c;
    }
  }

  /** String.prototype.split with a one-character separator: "" splits into [""], and empty pieces are kept. */
  function Split(s: string, sep: char): (parts: seq<string>)
    ensures |parts| >= 1
    ensures forall k :: 0 <= k < |parts| ==> sep !in parts[k]
  {
    if s == [] then [[]]
    else
      var rest := Split(s[1..], sep);
      if s[0] == sep then [[]] + rest
      else [[s[0]] + rest[0]] + rest[1..]
  }

  /** Array.prototype.join with a one-character separator. */
  function Join(parts: seq<string>, sep: char): string
    requires |parts| >= 1
  {
    if |parts| == 1 then parts[0] else parts[0] + [sep] + Join(parts[1..], sep)
  }

  /** Joining the pieces of a split with its separator gives back the string. */
  lemma {:induction false} SplitJoin(s: string, sep: char)
    ensures Join(Split(s, sep), sep) == s
  {
    if s != [] {
      var rest := Split(s[1..], sep);
      SplitJoin(s[1..], sep);
      if s[0] == sep {
        assert Split(s, sep) == [[]] + rest;
        calc {
          Join([[]] + rest, sep);
          { assert ([[]] + rest)[1..] == rest; }
          [] + [sep] + Join(rest, sep);
          [sep] + s[1..];
        }
      } else {
        var parts := [[s[0]] + rest[0]] + rest[1..];
        assert Split(s, sep) == parts;
        if |rest| == 1 {
          assert Join(parts, sep) == [s[0]] + rest[0];
        } else {
          assert parts[1..] == rest[1..];
          assert Join(rest, sep) == rest[0] + [sep] + Join(rest[1..], sep);
        }
      }
    }
  }

  /** A string without the separator splits into itself alone. */
  lemma {:induction false} SplitNoSeparator(s: string, sep: char)
    requires sep !in s
    ensures Split(s, sep) == [s]
  {
    if s != [] {
      assert sep !in s[1..] by {
        forall k | 0 <= k < |s[1..]| ensures s[1..][k] != sep {
          assert s[1..][k] == s[k + 1];
        }
      }
      SplitNoSeparator(s[1..], sep);
      assert [s[0]] + s[1..] == s;
    }
  }

  // ---------------------------------------------------------------------------
  // Number parsing

  /** The value of `c` as a digit in bases up to 36, or -1. */
  function CharDigit(c: char): int {
    if '0' <= c <= '9' then c as int - '0' as int
    else if 'a' <= c <= 'z' then c as int - 'a' as int + 10
    else if 'A' <= c <= 'Z' then c as int - 'A' as int + 10
    else -1
  }

  predicate IsDigitIn(c: char, radix: nat) {
    0 <= CharDigit(c) < radix
  }

  /** The number of leading digits of `s` in the given base. */
  function LeadingDigits(s: string, radix: nat): (k: nat)
    ensures k <= |s|
  {
    if s != [] && IsDigitIn(s[0], radix) then 1 + LeadingDigits(s[1..], radix) else 0
  }

  /** The leading digits are digits, and the character after them is not. */
  lemma {:induction false} LeadingDigitsShape(s: string, radix: nat)
    ensures forall i :: 0 <= i < LeadingDigits(s, radix) ==> IsDigitIn(s[i], radix)
    ensures LeadingDigits(s, radix) < |s| ==> !IsDigitIn(s[LeadingDigits(s, radix)], radix)
    ensures forall i :: 0 <= i < |s[..LeadingDigits(s, radix)]| ==> IsDigitIn(s[..LeadingDigits(s, radix)][i], radix)
  {
    if s != [] && IsDigitIn(s[0], radix) {
      LeadingDigitsShape(s[1..], radix);
      forall i | 0 <= i < LeadingDigits(s, radix) ensures IsDigitIn(s[i], radix) {
        if i > 0 {
          assert s[i] == s[1..][i - 1];
        }
      }
    }
  }

  /** The value of a digit string, most significant digit first. */
  function DigitsValue(ds: string, radix: nat): nat
    requires forall i :: 0 <= i < |ds| ==> IsDigitIn(ds[i], radix)
  {
    if ds == [] then 0
    else
      var init := ds[..|ds| - 1];
      assert forall i :: 0 <= i < |init| ==> init[i] == ds[i];
      assert IsDigitIn(ds[|ds| - 1], radix);
      var d := CharDigit(ds[|ds| - 1]);
      var v := DigitsValue(init, radix);
      ScaledNonNegative(v, radix);
      v * radix + d
  }

  /** A product of two naturals is a natural. */
  lemma ScaledNonNegative(v: nat, radix: nat)
    ensures v * radix >= 0
  {
  }

  function Pow10(k: nat): (r: real)
    ensures r >= 1.0
  {
    if k == 0 then 1.0 else 10.0 * Pow10(k - 1)
  }

  /** 10 to an integer power. */
  function Scale(e: int): real {
    if e >= 0 then Pow10(e) else 1.0 / Pow10(-e)
  }

  /** A leading sign: its factor and the length it takes up. */
  function SignOf(s: string): (r: (int, nat))
    ensures r.1 <= |s|
  {
    if s != [] && s[0] == '-' then (-1, 1)
    else if s != [] && s[0] == '+' then (1, 1)
    else (1, 0)
  }

  /** An exponent part `e`/`E`, optional sign, one or more digits: its value and length. */
  function ExponentPrefix(s: string): (r: Option<(int, nat)>)
    ensures r.Some? ==> r.value.1 <= |s|
  {
    if s != [] && (s[0] == 'e' || s[0] == 'E') then
      var (sign, n) := SignOf(s[1..]);
      var digits := s[1 + n..];
      var k := LeadingDigits(digits, 10);
      LeadingDigitsShape(digits, 10);
      if k == 0 then None else Some((sign * DigitsValue(digits[..k], 10), 1 + n + k))
    else None
  }

  /** Digits, optionally a point and more digits, with at least one digit in all: its value and length. */
  function MantissaPrefix(s: string): (r: Option<(real, nat)>)
    ensures r.Some? ==> 0 < r.value.1 <= |s|
  {
    var k := LeadingDigits(s, 10);
    LeadingDigitsShape(s, 10);
    var hasPoint := k < |s| && s[k] == '.';
    var m := if hasPoint then LeadingDigits(s[k + 1..], 10) else 0;
    if k == 0 && m == 0 then None
    else
      var whole := DigitsValue(s[..k], 10) as real;
      var frac := if hasPoint then (LeadingDigitsShape(s[k + 1..], 10); DigitsValue(s[k + 1..][..m], 10) as real / Pow10(m)) else 0.0;
      Some((whole + frac, if hasPoint then k + 1 + m else k))
  }

  /**
   * The longest prefix of `s` that is a decimal literal (sign, digits, fraction,
   * exponent): its value and its length; `None` when no digit starts it.
   */
  function DecimalPrefix(s: string): (r: Option<(real, nat)>)
    ensures r.Some? ==> 0 < r.value.1 <= |s|
  {
    var (sign, n) := SignOf(s);
    var mantissa := MantissaPrefix(s[n..]);
    if mantissa.None? then None
    else
      var used := n + mantissa.value.1;
      var exp := ExponentPrefix(s[used..]);
      if exp.Some? then
        Some((sign as real * mantissa.value.0 * Scale(exp.value.0), used + exp.value.1))
      else
        Some((sign as real * mantissa.value.0, used))
  }

  /** parseFloat on a string: leading whitespace is skipped and the longest decimal prefix is read. */
  function ParseFloatText(text: string): Option<real> {
    var p := DecimalPrefix(TrimStart(text));
    if p.Some? then Some(p.value.0) else None
  }

  /** parseInt on a string (no radix argument): sign, then `0x` hexadecimal or decimal digits, truncated at the first non-digit. */
  function ParseIntText(text: string): Option<int> {
    var t := TrimStart(text);
    var (sign, n) := SignOf(t);
    var body := t[n..];
    var hex := |body| >= 2 && body[0] == '0' && (body[1] == 'x' || body[1] == 'X');
    var radix := if hex then 16 else 10;
    var digits := if hex then body[2..] else body;
    var k := LeadingDigits(digits, radix);
    LeadingDigitsShape(digits, radix);
    if k == 0 then None else Some(sign * DigitsValue(digits[..k], radix))
  }

  /** ToNumber on a string: blank is 0; otherwise the whole trimmed text must be a literal. */
  function StringToNumber(text: string): Option<real> {
    var t := Trim(text);
    if t == "" then Some(0.0)
    else if |t| > 2 && t[0] == '0' && (t[1] == 'x' || t[1] == 'X') then
      var k := LeadingDigits(t[2..], 16);
      LeadingDigitsShape(t[2..], 16);
      if k == |t| - 2 then Some(DigitsValue(t[2..], 16) as real) else None
    else
      var p := DecimalPrefix(t);
      if p.Some? && p.value.1 == |t| then Some(p.value.0) else None
  }

  /** Truncation toward zero. */
  function Trunc(x: real): int {
    if x >= 0.0 then x.Floor else -((-x).Floor)
  }

  /** parseFloat(v): the argument is converted to a string first. */
  function ParseFloat(v: Value): (r: Value)
    ensures r.Num? || r.NaN?
  {
    match v
    case Num(n) => Num(n)
    case Str(s) => FromNumber(ParseFloatText(s))
    case _ => NaN
  }

  /** parseInt(v): the argument is converted to a string first. */
  function ParseInt(v: Value): (r: Value)
    ensures r.Num? || r.NaN?
  {
    match v
    case Num(n) => Num(Trunc(n) as real)
    case Str(s) =>
      var p := ParseIntText(s);
      if p.Some? then Num(p.value as real) else NaN
    case _ => NaN
  }

  /** ToNumber, the coercion applied by arithmetic operators. */
  function ToNumber(v: Value): (r: Value)
    ensures r.Num? || r.NaN?
  {
    match v
    case Null => Num(0.0)
    case Bool(b) => Num(if b then 1.0 else 0.0)
    case Num(n) => Num(n)
    case Str(s) => FromNumber(StringToNumber(s))
    case _ => NaN
  }

  /** The `-` operator. */
  function Sub(a: Value, b: Value): (r: Value)
    ensures r.Num? || r.NaN?
  {
    var x := ToNumber(a);
    var y := ToNumber(b);
    if x.Num? && y.Num? then Num(x.n - y.n) else NaN
  }

  /** The `*` operator. */
  function Mul(a: Value, b: Value): (r: Value)
    ensures r.Num? <==> ToNumber(a).Num? && ToNumber(b).Num?
    ensures r.Num? ==> r.n == ToNumber(a).n * ToNumber(b).n
  {
    var x := ToNumber(a);
    var y := ToNumber(b);
    if x.Num? && y.Num? then Num(x.n * y.n) else NaN
  }

  /** A number as `JSON.stringify` writes it and the server reads it back: NaN travels as null. */
  function JsonNumber(v: Value): (r: Value)
    ensures v.NaN? ==> r == Null
    ensures !v.NaN? ==> r == v
  {
    if v.NaN? then Null else v
  }

  /** `v <= c` for a number `v`: every comparison with NaN is false. */
  predicate AtMost(v: Value, c: real) {
    v.Num? && v.n <= c
  }

  /** `v < c` for a number `v`. */
  predicate Below(v: Value, c: real) {
    v.Num? && v.n < c
  }

  /** `v > c` for a number `v`. */
  predicate Above(v: Value, c: real) {
    v.Num? && v.n > c
  }

  /** The digits of a numeral are all leading digits. */
  lemma {:induction false} AllLeadingDigits(ds: string, radix: nat)
    requires forall i :: 0 <= i < |ds| ==> IsDigitIn(ds[i], radix)
    ensures LeadingDigits(ds, radix) == |ds|
  {
    if ds != [] {
      assert forall i :: 0 <= i < |ds[1..]| ==> IsDigitIn(ds[1..][i], radix) by {
        forall i | 0 <= i < |ds[1..]| ensures IsDigitIn(ds[1..][i], radix) {
          assert ds[1..][i] == ds[i + 1];
        }
      }
      AllLeadingDigits(ds[1..], radix);
    }
  }

  lemma MantissaDigits(ds: string)
    requires ds != []
    requires forall i :: 0 <= i < |ds| ==> IsDigitIn(ds[i], 10)
    ensures MantissaPrefix(ds) == Some((DigitsValue(ds, 10) as real, |ds|))
  {
    AllLeadingDigits(ds, 10);
    assert ds[..|ds|] == ds;
  }

  lemma DecimalDigits(ds: string)
    requires ds != []
    requires forall i :: 0 <= i < |ds| ==> IsDigitIn(ds[i], 10)
    ensures DecimalPrefix(ds) == Some((DigitsValue(ds, 10) as real, |ds|))
  {
    assert IsDigitIn(ds[0], 10);
    assert SignOf(ds) == (1, 0);
    assert ds[0..] == ds;
    MantissaDigits(ds);
    assert ExponentPrefix(ds[|ds|..]) == None;
  }

  /** parseFloat of a text that is a plain decimal numeral reads its value. */
  lemma ParseFloatDigits(ds: string)
    requires ds != []
    requires forall i :: 0 <= i < |ds| ==> IsDigitIn(ds[i], 10)
    ensures ParseFloatText(ds) == Some(DigitsValue(ds, 10) as real)
  {
    assert IsDigitIn(ds[0], 10);
    assert !IsWhitespace(ds[0]);
    assert TrimStart(ds) == ds;
    DecimalDigits(ds);
  }

  /** Blank text is NaN for both parsers, so `parseFloat(text) || 0` and friends give their fallback. */
  lemma ParseBlank(text: string)
    requires forall i :: 0 <= i < |text| ==> IsWhitespace(text[i])
    ensures ParseFloatText(text) == None
    ensures ParseIntText(text) == None
  {
    TrimStartShape(text);
    assert TrimStart(text) == [];
  }

  /** Text that starts with a lower-case letter is not a number, for either parser. */
  lemma ParseFloatLetter(text: string)
    requires text != [] && 'a' <= text[0] <= 'z'
    ensures ParseFloatText(text) == None
    ensures ParseIntText(text) == None
  {
    assert !IsWhitespace(text[0]);
    assert TrimStart(text) == text;
    assert SignOf(text) == (1, 0);
    assert text[0..] == text;
    assert LeadingDigits(text, 10) == 0;
    assert MantissaPrefix(text) == None;
  }
}
