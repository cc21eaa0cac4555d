/** The JavaScript values the registry handlers read and write: the query
    strings, the numbers the query schema and parseInt produce, and the
    decoded mod-info payload. Together with truthiness, property reads and
    the global parseInt, this is the part of the language the handlers in
    server/gameserver.js rely on.
 */
module Js {

  datatype Option<+T> = None | Some(value: T)

  /** A JavaScript value. Numbers are the integral ones (Num) and NaN:
      nothing in the handlers produces any other number. */
  datatype Value =
    | Undefined
    | Null
    | Bool(b: bool)
    | Num(n: int)
    | NaN
    | Str(s: string)
    | Arr(items: seq<Value>)
    | Obj(props: map<string, Value>)

  /** ToBoolean: what `if`, `!` and `&&` take for true. */
  predicate Truthy(v: Value) {
    match v
    case Undefined => false
    case Null => false
    case Bool(b) => b
    case Num(n) => n != 0
    case NaN => false
    case Str(s) => s != ""
    case Arr(_) => true
    case Obj(_) => true
  }

  /** The falsy values are exactly undefined, null, false, 0, NaN and the
      empty string (-0 is not modelled). */
  lemma FalsyValues(v: Value)
    ensures !Truthy(v) <==>
      (|| v == Undefined || v == Null || v == Bool(false) || v == Num(0) || v == NaN || v == Str(""))
  {
  }

  predicate Nullish(v: Value) {
    v.Undefined? || v.Null?
  }

  /** Reading `v.key` for a key no built-in prototype defines (`pdiff`,
      `Mods`): None stands for the TypeError thrown on null and undefined,
      an object yields its own property or undefined, and every other
      value yields undefined. */
  function GetProperty(v: Value, key: string): (r: Option<Value>)
    ensures r.None? <==> Nullish(v)
    ensures r.Some? && !v.Obj? ==> r.value == Undefined
    ensures v.Obj? && key in v.props ==> r == Some(v.props[key])
    ensures v.Obj? && key !in v.props ==> r == Some(Undefined)
  {
    match v
    case Undefined => None
    case Null => None
    case Obj(props) => Some(if key in props then props[key] else Undefined)
    case _ => Some(Undefined)
  }

  // ---------------------------------------------------------------------
  // parseInt(string) with no radix argument

  /** StrWhiteSpaceChar: the white space and line terminators that parseInt
      skips before the number. */
  predicate IsStrWhiteSpace(c: char) {
    var n := c as int;
    n == 0x09 || n == 0x0A || n == 0x0B || n == 0x0C || n == 0x0D || n == 0x20
    || n == 0xA0 || n == 0x1680 || (0x2000 <= n <= 0x200A) || n == 0x2028
    || n == 0x2029 || n == 0x202F || n == 0x205F || n == 0x3000 || n == 0xFEFF
  }

  function TrimStart(s: string): (r: string)
    ensures |r| <= |s| && r == s[|s| - |r|..]
    ensures r == [] || !IsStrWhiteSpace(r[0])
  {
    if s != [] && IsStrWhiteSpace(s[0]) then TrimStart(s[1..]) else s
  }

  /** A digit of the given radix (10, or 16 after a `0x` prefix). */
  predicate IsDigit(c: char, radix: nat) {
    ('0' <= c <= '9') || (radix == 16 && (('a' <= c <= 'f') || ('A' <= c <= 'F')))
  }

  function DigitValue(c: char): (d: nat)
    requires IsDigit(c, 16)
    ensures d < 16
    ensures '0' <= c <= '9' ==> d < 10
  {
    if '0' <= c <= '9' then c as int - '0' as int
    else if 'a' <= c <= 'f' then c as int - 'a' as int + 10
    else c as int - 'A' as int + 10
  }

  /** The length of the longest prefix of `s` made of digits of `radix`. */
  function DigitRun(s: string, radix: nat): (n: nat)
    ensures n <= |s|
    ensures forall i | 0 <= i < n :: IsDigit(s[i], radix)
    ensures n < |s| ==> !IsDigit(s[n], radix)
  {
    if s != [] && IsDigit(s[0], radix) then 1 + DigitRun(s[1..], radix) else 0
  }

  /** The number a string of digits denotes in `radix`, most significant first. */
  function DigitsValue(s: string, radix: nat): (n: nat)
    requires radix == 10 || radix == 16
    requires forall i | 0 <= i < |s| :: IsDigit(s[i], radix)
  {
    if s == [] then 0
    else
      var last := s[|s| - 1];
      assert IsDigit(last, radix);
      DigitsValue(s[..|s| - 1], radix) * radix + DigitValue(last)
  }

  /** The digits after any sign: radix 16 after a `0x` or `0X` prefix,
      radix 10 otherwise, read as far as the digits go; None when there is
      no digit at all. */
  function ParseUnsigned(u: string): (r: Option<nat>)
    ensures u == [] || !IsDigit(u[0], 10) ==> r.None?
    ensures u != [] && IsDigit(u[0], 10) && !(|u| >= 2 && u[0] == '0' && (u[1] == 'x' || u[1] == 'X')) ==> r.Some?
  {
    var hex := |u| >= 2 && u[0] == '0' && (u[1] == 'x' || u[1] == 'X');
    var radix := if hex then 16 else 10;
    var digits := if hex then u[2..] else u;
    var n := DigitRun(digits, radix);
    if n == 0 then None else Some(DigitsValue(digits[..n], radix))
  }

  /** parseInt with no radix: skip leading white space, take one optional
      sign, and read the number that follows; no digit at all gives NaN. */
  function ParseInt(s: string): (r: Value)
    ensures r.Num? || r.NaN?
  {
    var t := TrimStart(s);
    var negative := t != [] && t[0] == '-';
    var u := if t != [] && (t[0] == '-' || t[0] == '+') then t[1..] else t;
    match ParseUnsigned(u)
    case None => NaN
    case Some(m) => Num(if negative then -(m as int) else m)
  }

  function DigitChar(d: nat): (c: char)
    requires d < 10
    ensures IsDigit(c, 10) && DigitValue(c) == d
  {
    ('0' as int + d) as char
  }

  /** The decimal numeral of `n`, as a game server writes a count into a
      query string. */
  function DecimalString(n: nat): (s: string)
    ensures |s| > 0 && forall i | 0 <= i < |s| :: IsDigit(s[i], 10)
    ensures s[0] == '0' <==> n == 0
    ensures DigitsValue(s, 10) == n
  {
    if n < 10 then [DigitChar(n)]
    else
      var s := DecimalString(n / 10) + [DigitChar(n % 10)];
      assert s[..|s| - 1] == DecimalString(n / 10);
      s
  }

  lemma {:induction false} ParseUnsignedReadsDecimal(n: nat, rest: string)
    requires rest == [] || !IsDigit(rest[0], 10)
    requires n == 0 && rest != [] ==> rest[0] != 'x' && rest[0] != 'X'
    ensures ParseUnsigned(DecimalString(n) + rest) == Some(n)
  {
    var d := DecimalString(n);
    var s := d + rest;
    assert !(|s| >= 2 && s[0] == '0' && (s[1] == 'x' || s[1] == 'X')) by {
      if |s| >= 2 && s[0] == '0' {
        assert n == 0 && |d| == 1 && s[1] == rest[0];
      }
    }
    assert DigitRun(s, 10) == |d| by {
      assert forall i | 0 <= i < |d| :: s[i] == d[i];
      assert |d| < |s| ==> s[|d|] == rest[0];
    }
    assert s[..|d|] == d;
  }

  lemma TrimStartAtDigit(s: string)
    requires s != [] && IsDigit(s[0], 10)
    ensures TrimStart(s) == s
  {
  }

  /** parseInt reads a decimal numeral back, and stops at the first
      character that is not a digit ("7abc" gives 7). The one exception is
      a lone "0" followed by `x`, which parseInt takes for a hex prefix. */
  lemma {:induction false} ParseIntReadsDecimal(n: nat, rest: string)
    requires rest == [] || !IsDigit(rest[0], 10)
    requires n == 0 && rest != [] ==> rest[0] != 'x' && rest[0] != 'X'
    ensures ParseInt(DecimalString(n) + rest) == Num(n)
  {
    var s := DecimalString(n) + rest;
    TrimStartAtDigit(s);
    ParseUnsignedReadsDecimal(n, rest);
  }

  /** A negative decimal numeral reads back as the negative number. */
  lemma {:induction false} ParseIntReadsNegative(n: nat)
    ensures ParseInt("-" + DecimalString(n)) == Num(-(n as int))
  {
    var s := "-" + DecimalString(n);
    assert TrimStart(s) == s;
    assert s[1..] == DecimalString(n) + [];
    ParseUnsignedReadsDecimal(n, []);
  }

  /** A string holding no decimal digit at all parses to NaN. */
  lemma {:induction false} ParseIntWithoutDigits(s: string)
    requires forall i | 0 <= i < |s| :: !IsDigit(s[i], 10)
    ensures ParseInt(s) == NaN
  {
    var t := TrimStart(s);
    assert forall i | 0 <= i < |t| :: t[i] == s[|s| - |t| + i];
    var u := if t != [] && (t[0] == '-' || t[0] == '+') then t[1..] else t;
    assert u != [] ==> !IsDigit(u[0], 10) && u[0] != '0';
    assert ParseUnsigned(u) == None;
  }
}
