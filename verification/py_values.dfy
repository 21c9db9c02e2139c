/**
 * The dynamic values the incident intake code reads out of JSON documents,
 * with the Python behaviour it relies on: truthiness, `==` and `in`, the text
 * helpers `strip`, `lower`, `split` and `replace`, and `float()` on a string.
 */
module PyValues {
  import opened Wrappers

  /**
   * A scalar as Python holds it: `None`, an `int`, a `float` (exact here), a
   * `str`, or a `datetime` (an abstract clock reading).
   */
  datatype Value = PyNone | Int(i: int) | Num(r: real) | Str(s: string) | Moment(at: int)

  /** `bool(v)`: `None`, zero and the empty string are falsy. */
  predicate Truthy(v: Value)
  {
    match v
    case PyNone => false
    case Int(i) => i != 0
    case Num(r) => r != 0.0
    case Str(s) => |s| > 0
    case Moment(_) => true
  }

  /** `d.get(key, dflt)` for a key that may be missing. */
  function GetDefault(o: Option<Value>, dflt: Value): Value
  {
    match o
    case None => dflt
    case Some(v) => v
  }

  /** `d.get(key)`: a missing key reads as `None`. */
  function Get(o: Option<Value>): Value
  {
    GetDefault(o, PyNone)
  }

  /** The number a value stands for when it takes part in an ordering comparison. */
  function AsReal(v: Value): Option<real>
  {
    match v
    case Int(i) => Some(i as real)
    case Num(r) => Some(r)
    case _ => None
  }

  /** Python `==`: an `int` and a `float` compare by value; other kinds never meet. */
  predicate PyEq(a: Value, b: Value)
  {
    match (a, b)
    case (PyNone, PyNone) => true
    case (Str(x), Str(y)) => x == y
    case (Moment(x), Moment(y)) => x == y
    case _ => AsReal(a).Some? && AsReal(a) == AsReal(b)
  }

  lemma PyEqIsEquivalence(a: Value, b: Value, c: Value)
    ensures PyEq(a, a)
    ensures PyEq(a, b) ==> PyEq(b, a)
    ensures PyEq(a, b) && PyEq(b, c) ==> PyEq(a, c)
    ensures PyEq(a, b) ==> Truthy(a) == Truthy(b)
  {
  }

  /** Python `v in vs` on a list. */
  predicate PyIn(v: Value, vs: seq<Value>)
  {
    exists k :: 0 <= k < |vs| && PyEq(v, vs[k])
  }

  /** `str.isspace()` for one character: the characters `strip()` and `float()` discard. */
  predicate IsSpace(c: char)
  {
    c == ' ' || ('\t' <= c <= '\r') || ('\U{1c}' <= c <= '\U{1f}')
    || c == '\U{85}' || c == '\U{a0}' || c == '\U{1680}' || ('\U{2000}' <= c <= '\U{200a}')
    || c == '\U{2028}' || c == '\U{2029}' || c == '\U{202f}' || c == '\U{205f}' || c == '\U{3000}'
  }

  /** `s.lstrip()`: drops the leading white space and nothing else. */
  function TrimLeft(s: string): (r: string)
    ensures |r| <= |s| && r == s[|s| - |r|..]
    ensures |r| > 0 ==> !IsSpace(r[0])
    ensures forall k :: 0 <= k < |s| - |r| ==> IsSpace(s[k])
  {
    if |s| > 0 && IsSpace(s[0]) then TrimLeft(s[1..]) else s
  }

  /** `s.rstrip()`: drops the trailing white space and nothing else. */
  function TrimRight(s: string): (r: string)
    ensures |r| <= |s| && r == s[..|r|]
    ensures |r| > 0 ==> !IsSpace(r[|r| - 1])
    ensures forall k :: |r| <= k < |s| ==> IsSpace(s[k])
  {
    if |s| > 0 && IsSpace(s[|s| - 1]) then TrimRight(s[..|s| - 1]) else s
  }

  /** `s.strip()`. */
  function Strip(s: string): string
  {
    TrimRight(TrimLeft(s))
  }

  /** A string that neither starts nor ends with white space is its own `strip()`. */
  lemma StripUnpadded(s: string)
    requires |s| > 0 ==> !IsSpace(s[0]) && !IsSpace(s[|s| - 1])
    ensures Strip(s) == s
  {
  }

  /** `strip()` is idempotent: stripping twice is stripping once. */
  lemma StripIdempotent(s: string)
    ensures Strip(Strip(s)) == Strip(s)
  {
    var t := Strip(s);
    if |t| > 0 {
      var u := TrimLeft(s);
      assert t == u[..|t|];
      assert t[0] == u[0];
    }
    StripUnpadded(t);
  }

  predicate IsAsciiUpper(c: char)
  {
    'A' <= c <= 'Z'
  }

  /** `str.lower()` on one character, for the ASCII letters. */
  function LowerChar(c: char): (r: char)
    ensures IsAsciiUpper(c) ==> r as int == c as int + 32
    ensures !IsAsciiUpper(c) ==> r == c
    ensures !IsAsciiUpper(r)
  {
    if IsAsciiUpper(c) then (c as int + 32) as char else c
  }

  /** `s.lower()`, character by character. */
  function Lower(s: string): (r: string)
    ensures |r| == |s|
    ensures forall k :: 0 <= k < |s| ==> r[k] == LowerChar(s[k])
  {
    if |s| == 0 then "" else [LowerChar(s[0])] + Lower(s[1..])
  }

  lemma LowerIdempotent(s: string)
    ensures Lower(Lower(s)) == Lower(s)
  {
  }

  /** A regular-expression word character (`\w`) in the ASCII range. */
  predicate IsWordChar(c: char)
  {
    ('a' <= c <= 'z') || ('A' <= c <= 'Z') || ('0' <= c <= '9') || c == '_'
  }

  predicate StartsWith(s: string, c: char)
  {
    |s| > 0 && s[0] == c
  }

  predicate EndsWith(s: string, c: char)
  {
    |s| > 0 && s[|s| - 1] == c
  }

  /** The number of occurrences of `c` in `s`. */
  function Count(s: string, c: char): nat
  {
    if |s| == 0 then 0 else (if s[0] == c then 1 else 0) + Count(s[1..], c)
  }

  /** `s.replace(c, "")`: every occurrence of `c` removed, the rest kept in order. */
  function RemoveAll(s: string, c: char): (r: string)
    ensures c !in r
    ensures |r| == |s| - Count(s, c)
  {
    if |s| == 0 then "" else (if s[0] == c then "" else [s[0]]) + RemoveAll(s[1..], c)
  }

  /** Joins parts with the separator between them: the inverse of `Split`. */
  function Join(parts: seq<string>, sep: char): string
  {
    if |parts| == 0 then ""
    else if |parts| == 1 then parts[0]
    else parts[0] + [sep] + Join(parts[1..], sep)
  }

  /** `s.split(sep)` with a one-character separator: always at least one part. */
  function Split(s: string, sep: char): (parts: seq<string>)
    ensures |parts| >= 1
  {
    if |s| == 0 then [""]
    else if s[0] == sep then [""] + Split(s[1..], sep)
    else
      var rest := Split(s[1..], sep);
      [[s[0]] + rest[0]] + rest[1..]
  }

  /**
   * `split` cuts at every separator and loses nothing: joining the parts
   * gives the input back, no part holds the separator, and there is one
   * part more than there are separators.
   */
  lemma {:induction false} SplitJoin(s: string, sep: char)
    ensures Join(Split(s, sep), sep) == s
    ensures forall k :: 0 <= k < |Split(s, sep)| ==> sep !in Split(s, sep)[k]
    ensures |Split(s, sep)| == Count(s, sep) + 1
  {
    if |s| > 0 {
      SplitJoin(s[1..], sep);
      var rest := Split(s[1..], sep);
      if s[0] == sep {
        assert Split(s, sep) == [""] + rest;
        assert Join([""] + rest, sep) == "" + [sep] + Join(rest, sep);
        assert s == [sep] + s[1..];
      } else {
        var parts := Split(s, sep);
        assert parts == [[s[0]] + rest[0]] + rest[1..];
        if |rest| == 1 {
          assert Join(parts, sep) == [s[0]] + rest[0];
        } else {
          assert rest == [rest[0]] + rest[1..];
          assert Join(rest, sep) == rest[0] + [sep] + Join(rest[1..], sep);
          assert Join(parts, sep) == [s[0]] + rest[0] + [sep] + Join(rest[1..], sep);
        }
        assert s == [s[0]] + s[1..];
        forall k | 0 <= k < |parts|
          ensures sep !in parts[k]
        {
          if k > 0 {
            assert parts[k] == rest[k];
          }
        }
      }
    }
  }

  predicate IsDigit(c: char)
  {
    '0' <= c <= '9'
  }

  predicate AllDigits(s: string)
  {
    forall k :: 0 <= k < |s| ==> IsDigit(s[k])
  }

  function DigitValue(c: char): nat
    requires IsDigit(c)
  {
    c as int - '0' as int
  }

  /** The number a run of decimal digits denotes. */
  function DigitsValue(s: string): nat
    requires AllDigits(s)
  {
    if |s| == 0 then 0 else DigitsValue(s[..|s| - 1]) * 10 + DigitValue(s[|s| - 1])
  }

  function Pow10(n: nat): (r: nat)
    ensures r >= 1
  {
    if n == 0 then 1 else 10 * Pow10(n - 1)
  }

  /** The length of the run of digits that starts `s`. */
  function DigitRun(s: string): (k: nat)
    ensures k <= |s| && AllDigits(s[..k])
    ensures k < |s| ==> !IsDigit(s[k])
  {
    if |s| == 0 || !IsDigit(s[0]) then 0
    else
      var k := 1 + DigitRun(s[1..]);
      assert s[..k] == [s[0]] + s[1..][..k - 1];
      k
  }

  /** Digits, optionally followed by a point and more digits, with at least one digit in all. */
  function ParseUnsigned(t: string): Option<real>
  {
    var k := DigitRun(t);
    if k == |t| then
      if k == 0 then None else Some(DigitsValue(t) as real)
    else if t[k] == '.' && AllDigits(t[k + 1..]) && (k > 0 || k + 1 < |t|) then
      Some(DigitsValue(t[..k]) as real + DigitsValue(t[k + 1..]) as real / Pow10(|t| - k - 1) as real)
    else None
  }

  /**
   * `float(s)` for plain decimal notation: surrounding white space, an
   * optional sign, digits with an optional fraction. `None` is the
   * `ValueError` Python raises.
   */
  function ParseNumber(s: string): Option<real>
  {
    var t := Strip(s);
    if |t| > 0 && (t[0] == '+' || t[0] == '-') then
      match ParseUnsigned(t[1..])
      case None => None
      case Some(x) => Some(if t[0] == '-' then -x else x)
    else ParseUnsigned(t)
  }

  function DigitChar(d: nat): (c: char)
    requires d < 10
    ensures IsDigit(c) && DigitValue(c) == d
  {
    ('0' as int + d) as char
  }

  /** `str(n)` for a natural number. */
  function NatText(n: nat): string
  {
    if n < 10 then [DigitChar(n)] else NatText(n / 10) + [DigitChar(n % 10)]
  }

  /** `str(n)` is a non-empty run of digits that denotes `n`. */
  lemma {:induction false} NatTextDigits(n: nat)
    ensures |NatText(n)| > 0 && AllDigits(NatText(n))
    ensures DigitsValue(NatText(n)) == n
  {
    if n >= 10 {
      NatTextDigits(n / 10);
      var t := NatText(n);
      assert t[..|t| - 1] == NatText(n / 10);
    }
  }

  lemma DigitRunOfDigits(s: string)
    requires AllDigits(s)
    ensures DigitRun(s) == |s|
  {
  }

  lemma ParseUnsignedOfDigits(t: string)
    requires |t| > 0 && AllDigits(t)
    ensures ParseUnsigned(t) == Some(DigitsValue(t) as real)
  {
    DigitRunOfDigits(t);
  }

  /** `float(str(n)) == n`. */
  lemma ParseNumberOfNatText(n: nat)
    ensures ParseNumber(NatText(n)) == Some(n as real)
  {
    var t := NatText(n);
    NatTextDigits(n);
    assert !IsSpace(t[0]) && !IsSpace(t[|t| - 1]);
    StripUnpadded(t);
    ParseUnsignedOfDigits(t);
  }

  /** `float("-" + str(n)) == -n`. */
  lemma ParseNumberOfNegatedNatText(n: nat)
    ensures ParseNumber("-" + NatText(n)) == Some(-(n as real))
  {
    var t := NatText(n);
    NatTextDigits(n);
    var m := "-" + t;
    assert m[1..] == t;
    assert !IsSpace(m[0]) && !IsSpace(m[|m| - 1]);
    StripUnpadded(m);
    ParseUnsignedOfDigits(t);
  }

  /** `str(i)` for an integer. */
  function IntText(i: int): string
  {
    if i < 0 then "-" + NatText(-i) else NatText(i)
  }

  /** `str(i)` starts with a minus sign exactly for a negative `i`. */
  lemma IntTextSign(i: int)
    ensures (IntText(i)[0] == '-') <==> i < 0
  {
    NatTextDigits(if i < 0 then -i else i);
  }

  /** Different integers have different texts. */
  lemma {:induction false} IntTextInjective(i: int, j: int)
    requires IntText(i) == IntText(j)
    ensures i == j
  {
    IntTextSign(i);
    IntTextSign(j);
    NatTextDigits(if i < 0 then -i else i);
    NatTextDigits(if j < 0 then -j else j);
    if i < 0 {
      assert NatText(-i) == IntText(i)[1..] == IntText(j)[1..] == NatText(-j);
    }
  }
}
