/** The few pieces of JavaScript semantics the scripts rely on: truthiness, `||`,
    conversion to string in template literals, `String.prototype.trim` and
    `String.prototype.includes`. */
module Js {

  import opened Wrappers
  import opened Json

  /** Truthiness of a value (`undefined` is None). Numbers are integers here, so
      NaN does not arise. */
  predicate Truthy(v: Option<Json>)
  {
    match v
    case None => false
    case Some(JNull) => false
    case Some(JBool(b)) => b
    case Some(JNum(n)) => n != 0
    case Some(JStr(s)) => s != ""
    case Some(_) => true
  }

  /** `a || b`: the left operand when it is truthy, the right one otherwise. */
  function Or(a: Option<Json>, b: Option<Json>): Option<Json>
  {
    if Truthy(a) then a else b
  }

  /** `a && b`: the left operand when it is falsy, the right one otherwise. */
  function And(a: Option<Json>, b: Option<Json>): Option<Json>
  {
    if Truthy(a) then b else a
  }

  /** Shorthand for a string-valued operand. */
  function Str(s: string): Option<Json>
  {
    Some(JStr(s))
  }

  /** `cands[k]` is the first truthy candidate, or `k` is the last index and no
      candidate is truthy. */
  predicate FirstTruthyAt(cands: seq<Option<Json>>, k: int)
  {
    && 0 <= k < |cands|
    && (forall j :: 0 <= j < k ==> !Truthy(cands[j]))
    && (Truthy(cands[k]) || k == |cands| - 1)
  }

  /** The value of `c0 || c1 || ... || cn`, described without `||`: the first
      truthy candidate, or the last candidate when none is truthy. */
  function FirstTruthy(cands: seq<Option<Json>>): (r: Option<Json>)
    requires cands != []
    ensures exists k :: FirstTruthyAt(cands, k) && r == cands[k]
  {
    if |cands| == 1 || Truthy(cands[0]) then cands[0]
    else
      var r := FirstTruthy(cands[1..]);
      var k :| FirstTruthyAt(cands[1..], k) && r == cands[1..][k];
      assert FirstTruthyAt(cands, k + 1);
      r
  }

  /** A chain of `||` of any length evaluates as FirstTruthy says. */
  lemma {:induction false} OrChain(cands: seq<Option<Json>>)
    requires |cands| >= 2
    ensures Or(cands[0], FirstTruthy(cands[1..])) == FirstTruthy(cands)
  {
  }

  function DigitChar(d: nat): char
    requires d < 10
  {
    ('0' as int + d) as char
  }

  /** Decimal digits of a natural number, most significant first. */
  function DigitsOf(n: nat): (r: string)
    ensures |r| >= 1
    ensures forall i :: 0 <= i < |r| ==> '0' <= r[i] <= '9'
  {
    if n < 10 then [DigitChar(n)] else DigitsOf(n / 10) + [DigitChar(n % 10)]
  }

  /** `String(n)` for an integer. */
  function Decimal(n: int): string
  {
    if n < 0 then "-" + DigitsOf(-n) else DigitsOf(n)
  }

  function Join(sep: string, parts: seq<string>): string
  {
    if parts == [] then ""
    else if |parts| == 1 then parts[0]
    else parts[0] + sep + Join(sep, parts[1..])
  }

  /** `String(v)`, the conversion a template literal `${v}` applies. */
  function ToJsString(v: Option<Json>): string
  {
    match v
    case None => "undefined"
    case Some(x) => ValueString(x)
  }

  /** `String(x)` for a defined value; an array joins its elements with commas,
      rendering null elements as the empty string. */
  function ValueString(x: Json): string
    decreases x
  {
    match x
    case JNull => "null"
    case JBool(b) => if b then "true" else "false"
    case JNum(n) => Decimal(n)
    case JStr(s) => s
    case JArr(items) =>
      Join(",", seq(|items|, i requires 0 <= i < |items| =>
        if items[i].JNull? then "" else ValueString(items[i])))
    case JObj(_) => "[object Object]"
  }

  predicate IsDigit(c: char)
  {
    '0' <= c <= '9'
  }

  /** `t` is a decimal numeral without sign or exponent: digits with at most
      one `.` among them, and at least one digit. */
  predicate DecimalNumeral(t: string)
  {
    && (exists i :: 0 <= i < |t| && IsDigit(t[i]))
    && (forall i :: 0 <= i < |t| ==> IsDigit(t[i]) || t[i] == '.')
    && (forall i, j :: 0 <= i < j < |t| && t[i] == '.' ==> t[j] != '.')
  }

  /** A trimmed string that `Number()` reads as a positive number: `Infinity`,
      or a decimal numeral with an optional `+` and a non-zero digit. Hex,
      octal, binary and exponent forms are not recognised here. */
  predicate PositiveNumeral(t: string)
  {
    || t == "Infinity" || t == "+Infinity"
    || (t != [] && t[0] == '+' && PositiveDecimal(t[1..]))
    || ((t == [] || t[0] != '+') && PositiveDecimal(t))
  }

  /** A decimal numeral with a non-zero digit. */
  predicate PositiveDecimal(t: string)
  {
    DecimalNumeral(t) && exists i :: 0 <= i < |t| && '1' <= t[i] <= '9'
  }

  /** `v > 0` for a value that may be undefined: both sides are converted to
      numbers. `undefined` and an object become NaN, `null` and `false` 0,
      `true` 1, a string is read as a numeral after trimming (the empty string
      being 0), and an array is first joined into a string. */
  predicate GreaterThanZero(v: Option<Json>)
  {
    match v
    case None => false
    case Some(JNull) => false
    case Some(JBool(b)) => b
    case Some(JNum(n)) => n > 0
    case Some(JStr(s)) => PositiveNumeral(Trim(s))
    case Some(JArr(_)) => PositiveNumeral(Trim(ValueString(v.value)))
    case Some(JObj(_)) => false
  }

  /** `String(n) > 0` holds exactly when `n > 0`: the decimal form of an
      integer is read back with its sign. */
  lemma DecimalGreaterThanZero(n: int)
    ensures GreaterThanZero(Str(Decimal(n))) <==> n > 0
  {
    var d := Decimal(n);
    if n < 0 {
      var digits := DigitsOf(-n);
      assert d == "-" + digits;
      assert d[|d| - 1] == digits[|digits| - 1];
      TrimUnpadded(d);
      assert d[0] == '-';
      assert !DecimalNumeral(d) by {
        assert !IsDigit(d[0]) && d[0] != '.';
      }
    } else {
      DigitsPositive(n);
    }
  }

  /** The digits of a natural number are their own trim and read as a
      positive number exactly when the number is positive. */
  lemma DigitsPositive(n: nat)
    ensures Trim(DigitsOf(n)) == DigitsOf(n)
    ensures PositiveNumeral(DigitsOf(n)) <==> n > 0
  {
    var d := DigitsOf(n);
    DigitNotSpace(d[0]);
    DigitNotSpace(d[|d| - 1]);
    TrimUnpadded(d);
    DigitsOfLeading(n);
    DigitsNumeral(d);
    assert d[0] != '+' && d[0] != 'I';
    if n > 0 {
      assert PositiveDecimal(d);
    } else {
      assert d == "0";
      assert !PositiveDecimal(d);
    }
  }

  lemma DigitNotSpace(c: char)
    requires IsDigit(c)
    ensures !IsSpace(c)
  {
  }

  /** A non-empty run of digits is a decimal numeral. */
  lemma DigitsNumeral(d: string)
    requires d != [] && forall i :: 0 <= i < |d| ==> IsDigit(d[i])
    ensures DecimalNumeral(d)
  {
    assert IsDigit(d[0]);
  }

  /** A string with no white space at either end is its own trim. */
  lemma TrimUnpadded(d: string)
    requires d != [] && !IsSpace(d[0]) && !IsSpace(d[|d| - 1])
    ensures Trim(d) == d
  {
    var r := Trim(d);
    var i :| TrimmedAt(d, r, i);
    assert r != [];
    assert i == 0;
    assert i + |r| == |d|;
  }

  /** The leading digit of a positive number is not zero, and zero is `"0"`. */
  lemma {:induction false} DigitsOfLeading(n: nat)
    ensures n > 0 ==> '1' <= DigitsOf(n)[0] <= '9'
    ensures n == 0 ==> DigitsOf(n) == "0"
  {
    if n >= 10 {
      DigitsOfLeading(n / 10);
      assert DigitsOf(n)[0] == DigitsOf(n / 10)[0];
    }
  }

  /** The characters `String.prototype.trim` removes: ECMAScript WhiteSpace
      (tab, vertical tab, form feed, space, no-break space, the Unicode space
      separators U+1680, U+2000 to U+200A, U+202F, U+205F, U+3000, and the byte
      order mark) and LineTerminator (line feed, carriage return, U+2028,
      U+2029). */
  const SPACES: set<char> := {
    '\t', '\n', '\U{B}', '\U{C}', '\r', ' ', '\U{A0}', '\U{1680}',
    '\U{2000}', '\U{2001}', '\U{2002}', '\U{2003}', '\U{2004}', '\U{2005}',
    '\U{2006}', '\U{2007}', '\U{2008}', '\U{2009}', '\U{200A}',
    '\U{2028}', '\U{2029}', '\U{202F}', '\U{205F}', '\U{3000}', '\U{FEFF}'
  }

  predicate IsSpace(c: char)
  {
    c in SPACES
  }

  /** The first position at or after `i` that is not white space (`|s|` when
      there is none). */
  function LeadingSpace(s: string, i: nat): (k: nat)
    requires i <= |s|
    ensures i <= k <= |s|
    ensures forall j :: i <= j < k ==> IsSpace(s[j])
    ensures k == |s| || !IsSpace(s[k])
    decreases |s| - i
  {
    if i < |s| && IsSpace(s[i]) then LeadingSpace(s, i + 1) else i
  }

  /** The end of `s[k..e]` once its trailing white space is dropped. */
  function TrailingEnd(s: string, k: nat, e: nat): (r: nat)
    requires k <= e <= |s|
    ensures k <= r <= e
    ensures forall j :: r <= j < e ==> IsSpace(s[j])
    ensures r == k || !IsSpace(s[r - 1])
    decreases e - k
  {
    if e > k && IsSpace(s[e - 1]) then TrailingEnd(s, k, e - 1) else e
  }

  /** `r` is the slice of `s` starting at `i`, and everything of `s` outside that
      slice is white space. */
  predicate TrimmedAt(s: string, r: string, i: int)
  {
    && 0 <= i <= |s| - |r|
    && r == s[i..i + |r|]
    && (forall j :: 0 <= j < i ==> IsSpace(s[j]))
    && (forall j :: i + |r| <= j < |s| ==> IsSpace(s[j]))
  }

  /** `s.trim()`: the slice of `s` left after removing white space at both ends. */
  function Trim(s: string): (r: string)
    ensures exists i :: TrimmedAt(s, r, i)
    ensures r != [] ==> !IsSpace(r[0]) && !IsSpace(r[|r| - 1])
    ensures r == [] <==> forall j :: 0 <= j < |s| ==> IsSpace(s[j])
  {
    var k := LeadingSpace(s, 0);
    var e := TrailingEnd(s, k, |s|);
    assert TrimmedAt(s, s[k..e], k);
    s[k..e]
  }

  /** `s.includes(t)`. */
  predicate Contains(s: string, t: string)
  {
    exists i | 0 <= i <= |s| - |t| :: OccursAt(s, t, i)
  }

  predicate OccursAt(s: string, t: string, i: int)
  {
    0 <= i <= |s| - |t| && s[i..i + |t|] == t
  }

  /** `v.trim()` on a string; other values are left as they are. */
  function TrimmedString(v: Option<Json>): Option<Json>
  {
    if v.Some? && v.value.JStr? then Str(Trim(v.value.s)) else v
  }

  /** The outcome of a guard `v && v.trim()` used as a condition. */
  datatype Gate = Pass | Fail | Throws

  /** `v && v.trim()`: a falsy value fails, a string passes when something is
      left after trimming, and any other truthy value throws a TypeError because
      it has no `trim` method. */
  function TrimGate(v: Option<Json>): (g: Gate)
    ensures g == Pass <==> v.Some? && v.value.JStr? && Trim(v.value.s) != ""
    ensures g == Throws <==> Truthy(v) && !v.value.JStr?
  {
    if !Truthy(v) then Fail
    else if v.value.JStr? then (if Trim(v.value.s) != "" then Pass else Fail)
    else Throws
  }
}
