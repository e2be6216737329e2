/**
 * The two JavaScript number/string conversions the screens rely on:
 * `Number.prototype.toString()` on an integer (`id.toString()`) and
 * `parseInt(s, 10)` (`Platform.Version` given as a string).
 */
module JsNumbers {

  import opened Wrappers

  predicate IsDigit(c: char) {
    '0' <= c <= '9'
  }

  predicate AllDigits(s: string) {
    forall i | 0 <= i < |s| :: IsDigit(s[i])
  }

  function DigitValue(c: char): (d: nat)
    requires IsDigit(c)
    ensures d < 10
  {
    (c as int) - ('0' as int)
  }

  function DigitChar(d: nat): (c: char)
    requires d < 10
    ensures IsDigit(c) && DigitValue(c) == d
  {
    (('0' as int) + d) as char
  }

  /** The decimal digits of `n`, most significant first, without leading zeros. */
  function NatString(n: nat): (s: string)
    ensures 0 < |s| && AllDigits(s)
    ensures s[0] == '0' ==> n == 0
    decreases n
  {
    if n < 10 then [DigitChar(n)] else NatString(n / 10) + [DigitChar(n % 10)]
  }

  /** `n.toString()` for an integral number `n` (below 1e21 in magnitude). */
  function IntString(n: int): (s: string)
    ensures 0 < |s|
    ensures s[0] == '-' <==> n < 0
  {
    if n < 0 then "-" + NatString(-n) else NatString(n)
  }

  /** The value of a digit string read in base 10. */
  function DigitsValue(ds: string): nat
    requires AllDigits(ds)
  {
    if ds == [] then 0 else DigitsValue(ds[..|ds| - 1]) * 10 + DigitValue(ds[|ds| - 1])
  }

  /** ECMAScript WhiteSpace and LineTerminator code points: what parseInt skips first. */
  predicate IsJsSpace(c: char) {
    || c == '\t' || c == '\U{000B}' || c == '\U{000C}' || c == ' ' || c == '\U{00A0}' || c == '\U{FEFF}'
    || c == '\n' || c == '\r' || c == '\U{2028}' || c == '\U{2029}'
    || c == '\U{1680}' || ('\U{2000}' <= c <= '\U{200A}') || c == '\U{202F}' || c == '\U{205F}' || c == '\U{3000}'
  }

  predicate AllSpace(s: string) {
    forall i | 0 <= i < |s| :: IsJsSpace(s[i])
  }

  /** The length of the run of white space that `s` starts with. */
  function SpaceRun(s: string): (k: nat)
    ensures k <= |s| && AllSpace(s[..k])
    ensures k == |s| || !IsJsSpace(s[k])
  {
    if s != [] && IsJsSpace(s[0]) then 1 + SpaceRun(s[1..]) else 0
  }

  /** `s` with its leading white space removed. */
  function TrimStart(s: string): (t: string)
    ensures |t| <= |s| && t == s[|s| - |t|..]
    ensures AllSpace(s[..|s| - |t|])
    ensures t == [] || !IsJsSpace(t[0])
  {
    s[SpaceRun(s)..]
  }

  /** The length of the longest run of digits that `s` starts with. */
  function DigitPrefix(s: string): (k: nat)
    ensures k <= |s| && AllDigits(s[..k])
    ensures k == |s| || !IsDigit(s[k])
  {
    if s != [] && IsDigit(s[0]) then 1 + DigitPrefix(s[1..]) else 0
  }

  /**
   * `parseInt(s, 10)`, with `None` for NaN: leading white space is skipped, one
   * sign is accepted, then the longest run of decimal digits is read; with no
   * digit the result is NaN.
   */
  function ParseInt10(s: string): (r: Option<int>)
    ensures r.None? <==> DigitPrefix(SignStripped(TrimStart(s))) == 0
  {
    ParseTrimmed(TrimStart(s))
  }

  /** What parseInt reads once the leading white space is gone. */
  function ParseTrimmed(t: string): (r: Option<int>)
    ensures r.None? <==> DigitPrefix(SignStripped(t)) == 0
  {
    var body := SignStripped(t);
    var k := DigitPrefix(body);
    var magnitude: int := if k == 0 then 0 else DigitsValue(body[..k]);
    if k == 0 then None
    else if t[0] == '-' then Some(-magnitude)
    else Some(magnitude)
  }

  /** `t` without its leading `+` or `-`, if any. */
  function SignStripped(t: string): (body: string)
    ensures body == t || (t != [] && (t[0] == '+' || t[0] == '-') && body == t[1..])
  {
    if t != [] && (t[0] == '-' || t[0] == '+') then t[1..] else t
  }

  /** Reading back the digits `NatString` writes gives the number. */
  lemma {:induction false} NatStringValue(n: nat)
    ensures DigitsValue(NatString(n)) == n
    decreases n
  {
    if n >= 10 {
      var s := NatString(n);
      assert s[..|s| - 1] == NatString(n / 10);
      NatStringValue(n / 10);
    }
  }

  lemma {:induction false} DigitPrefixOfDigits(ds: string, rest: string)
    requires AllDigits(ds)
    requires rest == [] || !IsDigit(rest[0])
    ensures DigitPrefix(ds + rest) == |ds|
    decreases |ds|
  {
    if ds != [] {
      assert (ds + rest)[1..] == ds[1..] + rest;
      DigitPrefixOfDigits(ds[1..], rest);
    }
  }

  /**
   * `parseInt(n.toString() + rest, 10) === n` whenever `rest` does not go on
   * with a digit: `"17.0"` reads as 17, and every stringified id reads back
   * as the id.
   */
  lemma ParseIntString(n: int, rest: string)
    requires rest == [] || !IsDigit(rest[0])
    ensures ParseInt10(IntString(n) + rest) == Some(n)
  {
    var m: nat := if n < 0 then -n else n;
    var body := NatString(m) + rest;
    SignedShape(n, rest);
    DigitsRead(m, rest);
    assert body[0] != '-';
  }

  /** The written number starts with a sign or a digit, so parseInt reads its magnitude after the sign. */
  lemma SignedShape(n: int, rest: string)
    ensures var u := IntString(n) + rest;
      && TrimStart(u) == u
      && SignStripped(u) == NatString(if n < 0 then -n else n) + rest
      && (u[0] == '-' <==> n < 0)
  {
    var u := IntString(n) + rest;
    var m := if n < 0 then -n else n;
    assert u[0] == IntString(n)[0];
    if n < 0 {
      assert u[1..] == NatString(m) + rest;
    } else {
      assert u == NatString(m) + rest;
    }
    IntStringNotTrimmed(n, rest);
  }

  /** parseInt skips nothing of a written number: it starts with `-` or a digit. */
  lemma IntStringNotTrimmed(n: int, rest: string)
    ensures TrimStart(IntString(n) + rest) == IntString(n) + rest
  {
    var u := IntString(n) + rest;
    assert u[0] == IntString(n)[0];
    if n >= 0 {
      DigitNotSpace(u[0]);
    }
    NoSpaceNoTrim(u);
  }

  /** A digit is not white space. */
  lemma DigitNotSpace(c: char)
    requires IsDigit(c)
    ensures !IsJsSpace(c)
  {
  }

  /** A string that does not start with white space is its own trimmed form. */
  lemma NoSpaceNoTrim(u: string)
    requires u != [] && !IsJsSpace(u[0])
    ensures TrimStart(u) == u
  {
  }

  /** The digit run of a written magnitude followed by a non-digit is the magnitude's digits, read back as it. */
  lemma DigitsRead(m: nat, rest: string)
    requires rest == [] || !IsDigit(rest[0])
    ensures DigitPrefix(NatString(m) + rest) == |NatString(m)|
    ensures (NatString(m) + rest)[..|NatString(m)|] == NatString(m)
    ensures DigitsValue(NatString(m)) == m
  {
    DigitPrefixOfDigits(NatString(m), rest);
    NatStringValue(m);
  }

  /** Leading white space does not change what parseInt reads. */
  lemma ParseIntSkipsSpace(w: string, s: string)
    requires AllSpace(w)
    ensures ParseInt10(w + s) == ParseInt10(s)
  {
    TrimStartSkipsSpace(w, s);
  }

  lemma TrimStartSkipsSpace(w: string, s: string)
    requires AllSpace(w)
    ensures TrimStart(w + s) == TrimStart(s)
  {
    SpaceRunSkips(w, s);
    assert (w + s)[|w| + SpaceRun(s)..] == s[SpaceRun(s)..];
  }

  /** A white-space prefix lengthens the leading run by its own length. */
  lemma {:induction false} SpaceRunSkips(w: string, s: string)
    requires AllSpace(w)
    ensures SpaceRun(w + s) == |w| + SpaceRun(s)
    decreases |w|
  {
    if w != [] {
      assert (w + s)[0] == w[0] && IsJsSpace(w[0]);
      assert (w + s)[1..] == w[1..] + s;
      SpaceRunSkips(w[1..], s);
    } else {
      assert w + s == s;
    }
  }
}
