/**
 * The few pieces of PHP's value semantics that the payment plugin relies on:
 * nullable values, the values held in PHP arrays (and produced by
 * `json_decode(..., true)`), loose truthiness, `trim` and the decimal
 * rendering of integers.
 */
module Php {

  /** A PHP value that may be `null`. */
  datatype Option<+T> = None | Some(value: T) {

    /** The `??` operator: the value when it is not null, the fallback otherwise. */
    function GetOr(default: T): T {
      match this
      case Some(v) => v
      case None => default
    }
  }

  /**
   * A PHP value as stored in an array. JSON objects and JSON lists both decode
   * to arrays; a list's keys are its positions written as strings.
   */
  datatype Value =
    | Null
    | Bool(b: bool)
    | Int(i: int)
    | Str(s: string)
    | Arr(entries: map<string, Value>)

  /** PHP's loose falsiness, as used by `?:` and `if`. */
  predicate Falsy(v: Value) {
    match v
    case Null => true
    case Bool(b) => !b
    case Int(i) => i == 0
    case Str(s) => s == "" || s == "0"
    case Arr(m) => m == map[]
  }

  /**
   * `$v[$k]` read under `isset`/`??`: the entry when `v` is an array holding
   * `k`; `null` when the key is missing or `v` is not an array at all.
   */
  function Index(v: Value, k: string): (r: Value)
    ensures r != Null ==> v.Arr? && k in v.entries && r == v.entries[k]
    ensures v.Arr? && k in v.entries ==> r == v.entries[k]
  {
    if v.Arr? && k in v.entries then v.entries[k] else Null
  }

  // ---------------------------------------------------------------------------
  // Decimal rendering of integers (PHP's int-to-string conversion)
  // ---------------------------------------------------------------------------

  predicate IsDigit(c: char) {
    '0' <= c <= '9'
  }

  function DigitChar(d: nat): (c: char)
    requires d < 10
    ensures IsDigit(c)
    ensures c as int - '0' as int == d
  {
    ('0' as int + d) as char
  }

  /** The shortest decimal numeral of `n`: digits only, no leading zero. */
  function NatToDecimal(n: nat): (s: string)
    ensures 1 <= |s|
    ensures forall i :: 0 <= i < |s| ==> IsDigit(s[i])
    ensures s[0] == '0' ==> n == 0
    ensures n < 10 <==> |s| == 1
  {
    if n < 10 then [DigitChar(n)] else NatToDecimal(n / 10) + [DigitChar(n % 10)]
  }

  /** PHP's `(string)$i` for an integer: a minus sign before the magnitude when negative. */
  function IntToDecimal(i: int): (s: string)
    ensures 1 <= |s|
    ensures i < 0 <==> s[0] == '-'
  {
    if i < 0 then "-" + NatToDecimal(-i) else NatToDecimal(i)
  }

  /** Different numbers never render to the same numeral. */
  lemma {:induction false} NatToDecimalInjective(a: nat, b: nat)
    requires NatToDecimal(a) == NatToDecimal(b)
    ensures a == b
  {
    var sa, sb := NatToDecimal(a), NatToDecimal(b);
    if a >= 10 && b >= 10 {
      assert sa[..|sa| - 1] == NatToDecimal(a / 10);
      assert sb[..|sb| - 1] == NatToDecimal(b / 10);
      NatToDecimalInjective(a / 10, b / 10);
      assert sa[|sa| - 1] == DigitChar(a % 10);
      assert sb[|sb| - 1] == DigitChar(b % 10);
    }
  }

  lemma IntToDecimalInjective(a: int, b: int)
    requires IntToDecimal(a) == IntToDecimal(b)
    ensures a == b
  {
    var sa, sb := IntToDecimal(a), IntToDecimal(b);
    if a < 0 {
      assert sa[1..] == NatToDecimal(-a);
      assert sb[1..] == NatToDecimal(-b);
      NatToDecimalInjective(-a, -b);
    } else {
      NatToDecimalInjective(a, b);
    }
  }

  /**
   * `$array[$key]` on a string-valued array, read without a guard: the value,
   * or `null` (with a warning) when the key is missing; `ifset` reads the same.
   */
  function ArrayGet(m: map<string, string>, key: string): Option<string> {
    if key in m then Some(m[key]) else None
  }

  // ---------------------------------------------------------------------------
  // trim()
  // ---------------------------------------------------------------------------

  /** The characters PHP's `trim` removes by default: space, tab, LF, CR, NUL and vertical tab. */
  predicate IsTrimmable(c: char) {
    c == ' ' || c == '\t' || c == '\n' || c == '\r' || c == 0 as char || c == 11 as char
  }

  predicate IsPadding(s: string) {
    forall i :: 0 <= i < |s| ==> IsTrimmable(s[i])
  }

  /** No trimmable character at either end. */
  predicate IsTrimmed(s: string) {
    s == [] || (!IsTrimmable(s[0]) && !IsTrimmable(s[|s| - 1]))
  }

  /** Drops the leading padding: what is left is a suffix of `s`. */
  function TrimStart(s: string): (r: string)
    ensures r == [] || !IsTrimmable(r[0])
    ensures |r| <= |s| && r == s[|s| - |r|..]
  {
    if s != [] && IsTrimmable(s[0]) then TrimStart(s[1..]) else s
  }

  /** Drops the trailing padding: what is left is a prefix of `s`. */
  function TrimEnd(s: string): (r: string)
    ensures r == [] || !IsTrimmable(r[|r| - 1])
    ensures |r| <= |s| && r == s[..|r|]
  {
    if s != [] && IsTrimmable(s[|s| - 1]) then TrimEnd(s[..|s| - 1]) else s
  }

  /** PHP's `trim($s)` with the default character list. */
  function Trim(s: string): (r: string)
    ensures IsTrimmed(r)
  {
    var left := TrimStart(s);
    var r := TrimEnd(left);
    assert r != [] ==> r[0] == left[0];
    r
  }

  lemma {:induction false} TrimStartPadding(pad: string, s: string)
    requires IsPadding(pad) && (s == [] || !IsTrimmable(s[0]))
    ensures TrimStart(pad + s) == s
  {
    if pad != [] {
      assert (pad + s)[1..] == pad[1..] + s;
      TrimStartPadding(pad[1..], s);
    } else {
      assert pad + s == s;
    }
  }

  lemma {:induction false} TrimEndPadding(s: string, pad: string)
    requires IsPadding(pad) && (s == [] || !IsTrimmable(s[|s| - 1]))
    ensures TrimEnd(s + pad) == s
  {
    if pad != [] {
      assert (s + pad)[..|s + pad| - 1] == s + pad[..|pad| - 1];
      TrimEndPadding(s, pad[..|pad| - 1]);
    } else {
      assert s + pad == s;
    }
  }

  /**
   * `trim` removes exactly the surrounding padding: a value with no padding
   * of its own comes back unchanged whatever whitespace surrounds it.
   */
  lemma TrimRemovesPadding(left: string, core: string, right: string)
    requires IsPadding(left) && IsPadding(right) && IsTrimmed(core)
    ensures Trim(left + core + right) == core
  {
    if core == [] {
      assert left + core + right == left + right;
      assert IsPadding(left + right);
      TrimStartPadding(left + right, []);
      assert left + right + [] == left + right;
      TrimEndPadding([], []);
    } else {
      assert left + core + right == left + (core + right);
      TrimStartPadding(left, core + right);
      TrimEndPadding(core, right);
    }
  }
}
