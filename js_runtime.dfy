/**
 * The slice of JavaScript's value semantics that the intake form and the record
 * gateway rely on: truthiness and `||`, `String(v)`, `parseInt(v)` with its NaN
 * result, `String.prototype.trim`, `toLowerCase`/`toUpperCase` (ASCII letters
 * only) and `String.prototype.includes`.
 */
module JsRuntime {

  /** A JavaScript number as it arises here: either NaN or an integer. */
  datatype Number = NaN | Int(value: int)

  /** A plain JavaScript value; an object is a map from keys to values. */
  datatype JsValue =
    | Undefined
    | Null
    | Bool(b: bool)
    | Num(n: Number)
    | Str(s: string)
    | Obj(fields: map<string, JsValue>)
    | Arr(items: seq<JsValue>)

  type Object = map<string, JsValue>

  /** `o.k`: a missing key reads as undefined. */
  function Get(o: Object, k: string): JsValue {
    if k in o then o[k] else Undefined
  }

  /** JavaScript truthiness (the test behind `if (v)`, `!v` and `||`). */
  predicate Truthy(v: JsValue) {
    match v
    case Undefined => false
    case Null => false
    case Bool(b) => b
    case Num(n) => n.Int? && n.value != 0
    case Str(s) => s != ""
    case Obj(_) => true
    case Arr(_) => true
  }

  /** `a || b`. */
  function Or(a: JsValue, b: JsValue): (r: JsValue)
    ensures Truthy(r) <==> Truthy(a) || Truthy(b)
  {
    if Truthy(a) then a else b
  }

  // ---------------------------------------------------------------------------
  // Number arithmetic and comparison (every comparison with NaN is false)

  predicate Lt(a: Number, b: Number) {
    match (a, b)
    case (Int(x), Int(y)) => x < y
    case _ => false
  }

  predicate Le(a: Number, b: Number) {
    match (a, b)
    case (Int(x), Int(y)) => x <= y
    case _ => false
  }

  predicate Gt(a: Number, b: Number) {
    match (a, b)
    case (Int(x), Int(y)) => x > y
    case _ => false
  }

  /** `a === b` on numbers: NaN is not equal even to itself. */
  predicate StrictEquals(a: Number, b: Number) {
    match (a, b)
    case (Int(x), Int(y)) => x == y
    case _ => false
  }

  /** `a + b`: NaN as soon as either operand is NaN. */
  function Add(a: Number, b: Number): (r: Number)
    ensures r.Int? <==> a.Int? && b.Int?
  {
    match (a, b)
    case (Int(x), Int(y)) => Int(x + y)
    case _ => NaN
  }

  /** `a + b === c`: false as soon as any of the three is NaN. */
  predicate SumEquals(a: Number, b: Number, c: Number) {
    match (a, b, c)
    case (Int(x), Int(y), Int(z)) => x + y == z
    case _ => false
  }

  /** `SumEquals` is `Add` followed by `StrictEquals`, as the source writes it. */
  lemma SumEqualsIsStrictEqualsOfAdd(a: Number, b: Number, c: Number)
    ensures SumEquals(a, b, c) <==> StrictEquals(Add(a, b), c)
  {
  }

  // ---------------------------------------------------------------------------
  // Digits and decimal strings

  /** The value of `c` as a digit in any radix up to 36, or 36 when it is no digit. */
  function DigitValue(c: char): (d: nat)
    ensures d <= 36
  {
    if '0' <= c <= '9' then (c - '0') as nat
    else if 'a' <= c <= 'z' then (c - 'a') as nat + 10
    else if 'A' <= c <= 'Z' then (c - 'A') as nat + 10
    else 36
  }

  predicate IsDigit(c: char, radix: nat) { DigitValue(c) < radix }

  predicate AllDigits(s: string, radix: nat) {
    forall i :: 0 <= i < |s| ==> IsDigit(s[i], radix)
  }

  /** The longest prefix of `s` made of digits in `radix`. */
  function DigitPrefix(s: string, radix: nat): string {
    if |s| > 0 && IsDigit(s[0], radix) then [s[0]] + DigitPrefix(s[1..], radix) else []
  }

  /** `DigitPrefix` is a prefix of digits that stops at the first non-digit. */
  lemma {:induction false} DigitPrefixSpec(s: string, radix: nat)
    ensures var d := DigitPrefix(s, radix);
      && d <= s && AllDigits(d, radix)
      && (|d| < |s| ==> !IsDigit(s[|d|], radix))
  {
    if |s| > 0 && IsDigit(s[0], radix) {
      DigitPrefixSpec(s[1..], radix);
    }
  }

  /**
   * The value of a digit string in radix 10 or 16, most significant digit
   * first (multiplying by a constant keeps the arithmetic linear).
   */
  function DigitsValue(d: string, radix: nat): nat
    requires radix == 10 || radix == 16
  {
    if d == [] then 0
    else
      var high := DigitsValue(d[..|d| - 1], radix);
      (if radix == 16 then 16 * high else 10 * high) + DigitValue(d[|d| - 1])
  }

  function DigitChar(d: nat): (c: char)
    requires d < 10
    ensures IsDigit(c, 10) && DigitValue(c) == d
  {
    ('0' as int + d) as char
  }

  /** The shortest decimal spelling of a natural number. */
  function DecimalString(n: nat): (s: string)
    ensures |s| > 0
  {
    if n < 10 then [DigitChar(n)] else DecimalString(n / 10) + [DigitChar(n % 10)]
  }

  /** `String(n)` for a number (exponent notation for |n| >= 10^21 is not modelled). */
  function NumberToString(n: Number): string {
    match n
    case NaN => "NaN"
    case Int(v) => if v < 0 then "-" + DecimalString(-v) else DecimalString(v)
  }

  /** `String(v)`: how `parseInt` sees a value that is not a string. */
  function ToJsString(v: JsValue): string {
    match v
    case Undefined => "undefined"
    case Null => "null"
    case Bool(b) => if b then "true" else "false"
    case Num(n) => NumberToString(n)
    case Str(s) => s
    case Obj(_) => "[object Object]"
    case Arr(items) =>
      JoinWithCommas(seq(|items|, i requires 0 <= i < |items| =>
        if items[i].Undefined? || items[i].Null? then "" else ToJsString(items[i])))
  }

  function JoinWithCommas(parts: seq<string>): string {
    if |parts| == 0 then ""
    else if |parts| == 1 then parts[0]
    else parts[0] + "," + JoinWithCommas(parts[1..])
  }

  // ---------------------------------------------------------------------------
  // Whitespace and trim

  /** The ECMAScript WhiteSpace and LineTerminator code points, which `trim` and `parseInt` skip. */
  predicate IsWhiteSpace(c: char) {
    || '\t' <= c <= '\r' || c == ' ' || c == '\U{A0}' || c == '\U{1680}'
    || '\U{2000}' <= c <= '\U{200A}' || c == '\U{2028}' || c == '\U{2029}'
    || c == '\U{202F}' || c == '\U{205F}' || c == '\U{3000}' || c == '\U{FEFF}'
  }

  /** `s.trimStart()`: drop the leading whitespace. */
  function TrimStart(s: string): string {
    if |s| > 0 && IsWhiteSpace(s[0]) then TrimStart(s[1..]) else s
  }

  /** `s.trimEnd()`: drop the trailing whitespace. */
  function TrimEnd(s: string): string {
    if |s| > 0 && IsWhiteSpace(s[|s| - 1]) then TrimEnd(s[..|s| - 1]) else s
  }

  /** `trimStart` keeps a suffix that does not start with whitespace and drops only whitespace. */
  lemma {:induction false} TrimStartSpec(s: string)
    ensures var t := TrimStart(s);
      && |t| <= |s| && t == s[|s| - |t|..]
      && (|t| > 0 ==> !IsWhiteSpace(t[0]))
      && forall i :: 0 <= i < |s| - |t| ==> IsWhiteSpace(s[i])
  {
    if |s| > 0 && IsWhiteSpace(s[0]) {
      TrimStartSpec(s[1..]);
    }
  }

  /** `trimEnd` keeps a prefix that does not end with whitespace and drops only whitespace. */
  lemma {:induction false} TrimEndSpec(s: string)
    ensures var t := TrimEnd(s);
      && |t| <= |s| && t == s[..|t|]
      && (|t| > 0 ==> !IsWhiteSpace(t[|t| - 1]))
      && forall i :: |t| <= i < |s| ==> IsWhiteSpace(s[i])
  {
    if |s| > 0 && IsWhiteSpace(s[|s| - 1]) {
      TrimEndSpec(s[..|s| - 1]);
    }
  }

  /** `s.trim()`. */
  function Trim(s: string): string {
    TrimEnd(TrimStart(s))
  }

  /** A string is blank (`!s.trim()`) exactly when it is all whitespace. */
  lemma BlankIffAllWhiteSpace(s: string)
    ensures Trim(s) == "" <==> forall i :: 0 <= i < |s| ==> IsWhiteSpace(s[i])
  {
    var t := TrimStart(s);
    TrimStartSpec(s);
    TrimEndSpec(t);
    if Trim(s) == "" {
      assert t == [];
    }
  }

  // ---------------------------------------------------------------------------
  // parseInt

  /**
   * `parseInt(s)` with no radix: skip leading whitespace, read an optional sign,
   * then the unsigned part; no digits at all gives NaN.
   */
  function ParseInt(s: string): Number {
    var t := TrimStart(s);
    var negative := |t| > 0 && t[0] == '-';
    match ParseUnsigned(if |t| > 0 && (t[0] == '-' || t[0] == '+') then t[1..] else t)
    case Int(m) => if negative then Int(-m) else Int(m)
    case NaN => NaN
  }

  /**
   * The unsigned part of `parseInt`: radix 16 after a `0x`/`0X` prefix, radix 10
   * otherwise, then the value of the longest run of digits, or NaN if there is none.
   */
  function ParseUnsigned(u: string): (r: Number)
    ensures r.Int? ==> r.value >= 0
  {
    var hex := |u| >= 2 && u[0] == '0' && (u[1] == 'x' || u[1] == 'X');
    var radix := if hex then 16 else 10;
    var digits := DigitPrefix(if hex then u[2..] else u, radix);
    if digits == [] then NaN else Int(DigitsValue(digits, radix))
  }

  /** `parseInt(v)` for any value: the value is first converted with `String(v)`. */
  function ParseIntValue(v: JsValue): Number {
    ParseInt(ToJsString(v))
  }

  lemma {:induction false} DecimalStringValue(n: nat)
    ensures AllDigits(DecimalString(n), 10)
    ensures DigitsValue(DecimalString(n), 10) == n
  {
    var s := DecimalString(n);
    if n >= 10 {
      DecimalStringValue(n / 10);
      var prefix := DecimalString(n / 10);
      assert s[..|s| - 1] == prefix;
    }
  }

  lemma {:induction false} DigitPrefixOfDigits(s: string, radix: nat)
    requires AllDigits(s, radix)
    ensures DigitPrefix(s, radix) == s
  {
    if |s| > 0 {
      DigitPrefixOfDigits(s[1..], radix);
    }
  }

  /** `parseInt(String(n)) === n` for every integer `n`. */
  lemma ParseIntRoundTrip(n: int)
    ensures ParseInt(NumberToString(Int(n))) == Int(n)
  {
    var m := if n < 0 then -n else n;
    var d := DecimalString(m);
    ParseUnsignedDecimal(m);
    DecimalStringValue(m);
    DecimalDigitIsPlain(d[0]);
    if n < 0 {
      ParseIntOfNegative(d);
    } else {
      ParseIntOfUnsigned(d);
    }
  }

  /** A string that starts with a decimal digit is read without trimming or sign. */
  lemma ParseIntOfUnsigned(d: string)
    requires |d| > 0 && '0' <= d[0] <= '9'
    ensures ParseInt(d) == ParseUnsigned(d)
  {
    assert TrimStart(d) == d;
  }

  /** A minus sign before a decimal digit negates what follows. */
  lemma ParseIntOfNegative(d: string)
    requires |d| > 0 && '0' <= d[0] <= '9'
    ensures ParseInt("-" + d) == match ParseUnsigned(d) case Int(m) => Int(-m) case NaN => NaN
  {
    var s := "-" + d;
    assert TrimStart(s) == s;
    assert s[1..] == d;
  }

  lemma DecimalDigitIsPlain(c: char)
    requires IsDigit(c, 10)
    ensures '0' <= c <= '9'
    ensures !IsWhiteSpace(c) && c != '-' && c != '+'
  {
  }

  lemma ParseUnsignedDecimal(m: nat)
    ensures ParseUnsigned(DecimalString(m)) == Int(m)
  {
    var d := DecimalString(m);
    DecimalStringValue(m);
    DigitPrefixOfDigits(d, 10);
    if |d| >= 2 && d[0] == '0' {
      var p := DecimalString(m / 10);
      assert d[0] == p[0];
      LeadingDigitNonZero(m / 10);
    }
  }

  /** The decimal spelling of a positive number does not start with '0'. */
  lemma {:induction false} LeadingDigitNonZero(n: nat)
    requires n > 0
    ensures DecimalString(n)[0] != '0'
  {
    if n >= 10 {
      LeadingDigitNonZero(n / 10);
    }
  }

/** `parseInt` of a number reads the number back: `parseInt(parseInt(s))` is `parseInt(s)`. */
  lemma ParseIntOfNumber(n: Number)
    ensures ParseIntValue(Num(n)) == n
  {
    match n
    case NaN =>
      var s := ToJsString(Num(n));
      assert s == "NaN";
      assert TrimStart(s) == s;
      assert DigitPrefix(s, 10) == [];
    case Int(v) =>
      ParseIntRoundTrip(v);
  }

    /** `parseInt(v || 0)` reads an empty string or a missing value as 0. */
  lemma ParseIntOrZeroOfFalsy(v: JsValue)
    ensures !Truthy(v) ==> ParseIntValue(Or(v, Num(Int(0)))) == Int(0)
  {
    ParseIntRoundTrip(0);
  }

  /** `parseInt(s || 0)` for a string `s`: an empty string reads as 0, any other as itself. */
  lemma ParseIntOfStringOrZero(s: string)
    ensures ParseIntValue(Or(Str(s), Num(Int(0)))) == if s == "" then Int(0) else ParseInt(s)
  {
    ParseIntOrZeroOfFalsy(Str(s));
  }

  // ---------------------------------------------------------------------------
  // Case mapping (ASCII letters only) and substring search

  function LowerChar(c: char): char {
    if 'A' <= c <= 'Z' then (c as int + 32) as char else c
  }

  function UpperChar(c: char): char {
    if 'a' <= c <= 'z' then (c as int - 32) as char else c
  }

  /** `s.toLowerCase()`. */
  function Lower(s: string): (r: string)
    ensures |r| == |s|
  {
    seq(|s|, i requires 0 <= i < |s| => LowerChar(s[i]))
  }

  /** `s.toUpperCase()`. */
  function Upper(s: string): (r: string)
    ensures |r| == |s|
  {
    seq(|s|, i requires 0 <= i < |s| => UpperChar(s[i]))
  }

  predicate HasNoLowerCase(s: string) {
    forall i :: 0 <= i < |s| ==> !('a' <= s[i] <= 'z')
  }

  /** Upper-casing leaves no lower-case letter and changes nothing a second time. */
  lemma UpperIsNormal(s: string)
    ensures HasNoLowerCase(Upper(s))
    ensures Upper(Upper(s)) == Upper(s)
  {
  }

  /** `n` occurs in `h` starting at index `i`. */
  predicate OccursAt(h: string, n: string, i: int) {
    0 <= i && i + |n| <= |h| && h[i..i + |n|] == n
  }

  /** `h.includes(n)`. */
  function Contains(h: string, n: string): bool
    decreases |h|
  {
    if |n| > |h| then false
    else if n <= h then true
    else if |h| == 0 then false
    else Contains(h[1..], n)
  }

  /** `includes` finds exactly the substrings of `h`. */
  lemma {:induction false} ContainsIffSubstring(h: string, n: string)
    ensures Contains(h, n) <==> exists i :: OccursAt(h, n, i)
  {
    if |n| > |h| {
    } else if n <= h {
      assert OccursAt(h, n, 0);
    } else if |h| == 0 {
    } else {
      ContainsIffSubstring(h[1..], n);
      forall i | OccursAt(h, n, i)
        ensures OccursAt(h[1..], n, i - 1)
      {
        OccursInTail(h, n, i);
      }
      forall j | OccursAt(h[1..], n, j)
        ensures OccursAt(h, n, j + 1)
      {
        assert h[j + 1..j + 1 + |n|] == h[1..][j..j + |n|];
      }
    }
  }

  /** An occurrence that is not a prefix is an occurrence in the tail. */
  lemma OccursInTail(h: string, n: string, i: int)
    requires OccursAt(h, n, i) && !(n <= h)
    ensures OccursAt(h[1..], n, i - 1)
  {
    assert h[1..][i - 1..i - 1 + |n|] == h[i..i + |n|];
  }
}
