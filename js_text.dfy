/** The JavaScript string builtins the chat page relies on: `String.prototype.trim` (the blank-input
    guard of handleSend), number-to-decimal conversion (`id.toString()` and template interpolation)
    and `parseInt` (reading the persisted session id back). */
module JsText {
  import opened Wrappers

  /** The characters `trim` strips: ECMAScript WhiteSpace (tab, vertical tab, form feed, space,
      no-break space, byte order mark and every Unicode space separator) and LineTerminator. */
  predicate IsJsWhitespace(c: char) {
    c == '\t' || c == '\n' || c == '\U{B}' || c == '\U{C}' || c == '\r' || c == ' ' ||
    c == '\U{A0}' || c == '\U{1680}' || ('\U{2000}' <= c <= '\U{200A}') ||
    c == '\U{2028}' || c == '\U{2029}' || c == '\U{202F}' || c == '\U{205F}' ||
    c == '\U{3000}' || c == '\U{FEFF}'
  }

  /** Every character of `s` is whitespace (the empty string included). */
  predicate IsBlank(s: string) {
    forall i :: 0 <= i < |s| ==> IsJsWhitespace(s[i])
  }

  /** `s` with its leading whitespace removed. */
  function TrimStart(s: string): (r: string)
    ensures |r| <= |s| && r == s[|s| - |r|..]
    ensures forall i :: 0 <= i < |s| - |r| ==> IsJsWhitespace(s[i])
    ensures r == [] || !IsJsWhitespace(r[0])
  {
    if s != [] && IsJsWhitespace(s[0]) then TrimStart(s[1..]) else s
  }

  /** `s` with its trailing whitespace removed. */
  function TrimEnd(s: string): (r: string)
    ensures |r| <= |s| && r == s[..|r|]
    ensures forall i :: |r| <= i < |s| ==> IsJsWhitespace(s[i])
    ensures r == [] || !IsJsWhitespace(r[|r| - 1])
  {
    if s != [] && IsJsWhitespace(s[|s| - 1]) then TrimEnd(s[..|s| - 1]) else s
  }

  /** `s.trim()`: empty exactly when every character of `s` is whitespace (so `!s.trim()` is the
      blank test), and otherwise neither starting nor ending with whitespace. */
  function Trim(s: string): (r: string)
    ensures |r| <= |s|
    ensures r == [] <==> IsBlank(s)
    ensures r != [] ==> !IsJsWhitespace(r[0]) && !IsJsWhitespace(r[|r| - 1])
  {
    TrimEnd(TrimStart(s))
  }

  predicate IsDigit(c: char) {
    '0' <= c <= '9'
  }

  predicate AllDigits(s: string) {
    forall i :: 0 <= i < |s| ==> IsDigit(s[i])
  }

  function DigitChar(d: int): (c: char)
    requires 0 <= d < 10
    ensures IsDigit(c) && (c as int) - ('0' as int) == d
  {
    (('0' as int) + d) as char
  }

  /** The decimal digits of `n`, most significant first, without leading zeros. */
  function NatToDigits(n: nat): (r: string)
    ensures |r| >= 1
    ensures forall i :: 0 <= i < |r| ==> IsDigit(r[i])
    ensures r[0] == '0' <==> n == 0
    ensures r[0] == '0' ==> |r| == 1
  {
    if n < 10 then [DigitChar(n)] else NatToDigits(n / 10) + [DigitChar(n % 10)]
  }

  /** `n.toString()` for an integer `n`: an optional minus sign followed by the digits. */
  function IntToString(n: int): (r: string)
    ensures r != []
    ensures IsDigit(r[0]) || r[0] == '-'
    ensures r[0] == '-' <==> n < 0
  {
    if n < 0 then "-" + NatToDigits(-n) else NatToDigits(n)
  }

  function DigitValue(c: char): (d: nat)
    requires IsDigit(c)
    ensures d < 10
  {
    (c as int) - ('0' as int)
  }

  /** The value of a run of decimal digits (0 for the empty run). */
  function DigitsValue(d: string): nat
    requires AllDigits(d)
  {
    if d == [] then 0 else DigitsValue(d[..|d| - 1]) * 10 + DigitValue(d[|d| - 1])
  }

  /** The longest prefix of `s` made of decimal digits. */
  function DigitRun(s: string): (r: string)
    ensures |r| <= |s| && r == s[..|r|]
    ensures forall i :: 0 <= i < |r| ==> IsDigit(r[i])
    ensures |r| < |s| ==> !IsDigit(s[|r|])
  {
    if s != [] && IsDigit(s[0]) then [s[0]] + DigitRun(s[1..]) else []
  }

  /** The value of the digits at the start of `s`; `None` when `s` does not start with a digit. */
  function ParseDigits(s: string): (r: Option<int>)
    ensures r.None? <==> (s == [] || !IsDigit(s[0]))
    ensures r.Some? ==> r.value >= 0
  {
    var digits := DigitRun(s);
    if digits == [] then None else Some(DigitsValue(digits))
  }

  /** `s` without one leading `+` or `-`. */
  function DropSign(s: string): string {
    if s != [] && (s[0] == '-' || s[0] == '+') then s[1..] else s
  }

  /** The value of an optionally signed run of digits at the start of `s`: `None` exactly when no
      digit follows the sign; otherwise the magnitude is the value of the digit run, and a non-zero
      result is negative exactly when the sign is `-`. */
  function ParseSigned(s: string): (r: Option<int>)
    ensures r.None? <==> (DropSign(s) == [] || !IsDigit(DropSign(s)[0]))
    ensures r.Some? ==> (if r.value < 0 then -r.value else r.value) == DigitsValue(DigitRun(DropSign(s)))
    ensures r.Some? && r.value != 0 ==> (r.value < 0 <==> s[0] == '-')
  {
    if s != [] && s[0] == '-' then
      match ParseDigits(s[1..])
      case None => None
      case Some(v) => Some(-v)
    else if s != [] && s[0] == '+' then
      match ParseDigits(s[1..])
      case None => None
      case Some(v) => Some(v)
    else
      match ParseDigits(s)
      case None => None
      case Some(v) => Some(v)
  }

  /** `parseInt(s)` in base 10: leading whitespace is skipped, an optional sign is read, then the
      longest run of digits; `None` stands for `NaN` (no digit at all). */
  function ParseInt(s: string): (r: Option<int>)
    ensures r.None? <==> (DropSign(TrimStart(s)) == [] || !IsDigit(DropSign(TrimStart(s))[0]))
    ensures r.Some? ==>
      (if r.value < 0 then -r.value else r.value) == DigitsValue(DigitRun(DropSign(TrimStart(s))))
    ensures r.Some? && r.value != 0 ==> (r.value < 0 <==> TrimStart(s)[0] == '-')
  {
    ParseSigned(TrimStart(s))
  }

  lemma DigitRunOfDigits(s: string)
    requires AllDigits(s)
    ensures DigitRun(s) == s
  {
  }

  lemma {:induction false} DigitsValueOfNatToDigits(n: nat)
    ensures DigitsValue(NatToDigits(n)) == n
  {
    if n >= 10 {
      var p := NatToDigits(n / 10);
      var r := p + [DigitChar(n % 10)];
      assert r[..|r| - 1] == p;
      DigitsValueOfNatToDigits(n / 10);
    }
  }

  lemma TrimStartKeeps(s: string)
    requires s != [] && !IsJsWhitespace(s[0])
    ensures TrimStart(s) == s
  {
  }

  lemma ParseDigitsOfDigits(d: string)
    requires d != [] && AllDigits(d)
    ensures ParseDigits(d) == Some(DigitsValue(d) as int)
  {
    DigitRunOfDigits(d);
  }

  lemma ParseIntOfDigits(d: string)
    requires d != [] && AllDigits(d)
    ensures ParseInt(d) == Some(DigitsValue(d) as int)
  {
    TrimStartKeeps(d);
    ParseDigitsOfDigits(d);
  }

  lemma ParseIntOfNegativeDigits(s: string)
    requires |s| >= 2 && s[0] == '-' && AllDigits(s[1..])
    ensures ParseInt(s) == Some(-(DigitsValue(s[1..]) as int))
  {
    TrimStartKeeps(s);
    ParseDigitsOfDigits(s[1..]);
  }

  /** Writing an id with `toString` and reading it back with `parseInt` gives the same id, so the
      persisted session key can be modelled by the integer it holds. */
  lemma ParseIntOfIntToString(n: int)
    ensures ParseInt(IntToString(n)) == Some(n)
  {
    var m: nat := if n < 0 then -n else n;
    DigitsValueOfNatToDigits(m);
    if n < 0 {
      assert IntToString(n)[1..] == NatToDigits(m);
      ParseIntOfNegativeDigits(IntToString(n));
    } else {
      ParseIntOfDigits(NatToDigits(m));
    }
  }
}
