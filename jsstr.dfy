/**
 * The two ECMAScript string operations the dashboard relies on: `String.prototype.trim`
 * and the global `parseInt` called without a radix (section 19.2.5 of ECMA-262).
 * Strings are sequences of code points here; JavaScript indexes UTF-16 code units.
 */
module JsStr {
  import opened Options

  /** A WhiteSpace or LineTerminator code point (sections 12.2 and 12.3 of ECMA-262). */
  predicate IsWhiteSpace(c: char) {
    || ('\t' <= c <= '\r')             // tab, line feed, vertical tab, form feed, carriage return
    || c == ' ' || c == '\U{A0}' || c == '\U{1680}'
    || ('\U{2000}' <= c <= '\U{200A}')
    || c == '\U{2028}' || c == '\U{2029}' || c == '\U{202F}' || c == '\U{205F}' || c == '\U{3000}'
    || c == '\U{FEFF}'
  }

  predicate AllWhiteSpace(s: string) {
    forall i :: 0 <= i < |s| ==> IsWhiteSpace(s[i])
  }

  /** `s.trimStart()` */
  function TrimStart(s: string): (r: string)
    ensures |r| <= |s| && r == s[|s| - |r|..]
    ensures forall i :: 0 <= i < |s| - |r| ==> IsWhiteSpace(s[i])
    ensures r == [] || !IsWhiteSpace(r[0])
  {
    if s != [] && IsWhiteSpace(s[0]) then TrimStart(s[1..]) else s
  }

  /** `s.trimEnd()` */
  function TrimEnd(s: string): (r: string)
    ensures |r| <= |s| && r == s[..|r|]
    ensures forall i :: |r| <= i < |s| ==> IsWhiteSpace(s[i])
    ensures r == [] || !IsWhiteSpace(r[|r| - 1])
  {
    if s != [] && IsWhiteSpace(s[|s| - 1]) then TrimEnd(s[..|s| - 1]) else s
  }

  /** `s.trim()` */
  function Trim(s: string): (r: string)
    ensures |r| <= |s|
    ensures r == [] || (!IsWhiteSpace(r[0]) && !IsWhiteSpace(r[|r| - 1]))
  {
    TrimEnd(TrimStart(s))
  }

  /** Leading white space makes no difference to `trimStart`. */
  lemma {:induction false} TrimStartSkips(ws: string, s: string)
    requires AllWhiteSpace(ws)
    ensures TrimStart(ws + s) == TrimStart(s)
    decreases |ws|
  {
    if ws == [] {
      assert ws + s == s;
    } else {
      assert (ws + s)[0] == ws[0] && IsWhiteSpace(ws[0]);
      assert (ws + s)[1..] == ws[1..] + s;
      TrimStartSkips(ws[1..], s);
    }
  }

  /** Trailing white space makes no difference to `trimEnd`. */
  lemma {:induction false} TrimEndSkips(s: string, ws: string)
    requires AllWhiteSpace(ws)
    ensures TrimEnd(s + ws) == TrimEnd(s)
    decreases |ws|
  {
    if ws == [] {
      assert s + ws == s;
    } else {
      assert (s + ws)[|s + ws| - 1] == ws[|ws| - 1] && IsWhiteSpace(ws[|ws| - 1]);
      assert (s + ws)[..|s + ws| - 1] == s + ws[..|ws| - 1];
      TrimEndSkips(s, ws[..|ws| - 1]);
    }
  }

  /**
   * Trimming a padded word gives the word back: `trim` removes exactly the white space
   * around a text that neither starts nor ends with white space.
   */
  lemma TrimPadded(before: string, core: string, after: string)
    requires AllWhiteSpace(before) && AllWhiteSpace(after)
    requires core != [] && !IsWhiteSpace(core[0]) && !IsWhiteSpace(core[|core| - 1])
    ensures Trim(before + core + after) == core
  {
    assert before + core + after == before + (core + after);
    TrimStartSkips(before, core + after);
    assert TrimStart(core + after) == core + after;
    TrimEndSkips(core, after);
  }

  // ---------------------------------------------------------------- parseInt

  /** The value of `c` as a digit in base `radix`, if it is one. */
  function DigitValue(c: char, radix: nat): (d: Option<nat>)
    requires radix == 10 || radix == 16
    ensures d.Some? ==> d.value < radix
    ensures radix == 10 ==> (d.Some? <==> '0' <= c <= '9')
  {
    if '0' <= c <= '9' then Some(c as int - '0' as int)
    else if radix == 16 && 'a' <= c <= 'f' then Some(c as int - 'a' as int + 10)
    else if radix == 16 && 'A' <= c <= 'F' then Some(c as int - 'A' as int + 10)
    else None
  }

  predicate AllDigits(s: string, radix: nat)
    requires radix == 10 || radix == 16
  {
    forall i :: 0 <= i < |s| ==> DigitValue(s[i], radix).Some?
  }

  /** The length of the longest prefix of `s` made of digits in base `radix`. */
  function DigitRun(s: string, radix: nat): (n: nat)
    requires radix == 10 || radix == 16
    ensures n <= |s| && AllDigits(s[..n], radix)
    ensures n < |s| ==> DigitValue(s[n], radix).None?
  {
    if s == [] || DigitValue(s[0], radix).None? then 0
    else
      var n := 1 + DigitRun(s[1..], radix);
      assert forall i :: 1 <= i < n ==> s[..n][i] == s[1..][..n - 1][i - 1];
      n
  }

  /** The number a run of digits denotes, most significant digit first. */
  function ValueOf(digits: string, radix: nat): nat
    requires radix == 10 || radix == 16
    requires AllDigits(digits, radix)
  {
    if digits == [] then 0
    else ValueOf(digits[..|digits| - 1], radix) * radix + DigitValue(digits[|digits| - 1], radix).value
  }

  /** Whether `parseInt` reads a minus sign. */
  predicate Negative(t: string) {
    t != [] && t[0] == '-'
  }

  /** What follows a leading '-' or '+', if there is one. */
  function Unsigned(t: string): string {
    if t != [] && (t[0] == '-' || t[0] == '+') then t[1..] else t
  }

  /**
   * The magnitude `parseInt` reads from an unsigned text: a "0x"/"0X" prefix selects
   * base 16, anything else base 10, and the longest run of digits is the value.
   * No digit at all gives `None` (NaN).
   */
  function Magnitude(u: string): Option<nat> {
    var hex := |u| >= 2 && u[0] == '0' && (u[1] == 'x' || u[1] == 'X');
    var radix := if hex then 16 else 10;
    var body := if hex then u[2..] else u;
    var n := DigitRun(body, radix);
    if n == 0 then None else Some(ValueOf(body[..n], radix))
  }

  /** What `parseInt` reads once white space is skipped: an optional sign, then the magnitude. */
  function ParseSigned(t: string): Option<int> {
    var m := Magnitude(Unsigned(t));
    if m.None? then None
    else if Negative(t) then Some(-(m.value as int))
    else Some(m.value as int)
  }

  /** `parseInt(s)`: leading white space skipped, then an optional sign, then the magnitude. */
  function ParseInt(s: string): Option<int> {
    ParseSigned(TrimStart(s))
  }

  /** A text that does not start with a decimal digit has no magnitude. */
  lemma MagnitudeNaN(u: string)
    requires u == [] || !('0' <= u[0] <= '9')
    ensures Magnitude(u) == None
  {
  }

  /** The magnitude of a decimal numeral followed by text that is neither a digit nor an 'x'. */
  lemma MagnitudeDecimal(digits: string, rest: string)
    requires digits != [] && AllDigits(digits, 10)
    requires rest == [] || (!('0' <= rest[0] <= '9') && rest[0] != 'x' && rest[0] != 'X')
    ensures Magnitude(digits + rest) == Some(ValueOf(digits, 10))
  {
    var u := digits + rest;
    assert !(|u| >= 2 && u[0] == '0' && (u[1] == 'x' || u[1] == 'X')) by {
      if |digits| >= 2 {
        assert u[1] == digits[1];
      } else {
        assert |u| >= 2 ==> u[1] == rest[0];
      }
    }
    DigitRunOf(digits, rest);
    assert u[..|digits|] == digits;
  }

  /** `trimStart` leaves a text that does not start with white space as it is. */
  lemma TrimStartClean(t: string)
    requires t == [] || !IsWhiteSpace(t[0])
    ensures TrimStart(t) == t
  {
  }

  /** Leading white space makes no difference to `parseInt`. */
  lemma ParseIntSkipsSpace(ws: string, s: string)
    requires AllWhiteSpace(ws)
    ensures ParseInt(ws + s) == ParseInt(s)
  {
    TrimStartSkips(ws, s);
  }

  /** A text that starts with neither a digit, white space nor a sign is NaN. */
  lemma ParseIntNaN(t: string)
    requires t == [] || (!('0' <= t[0] <= '9') && !IsWhiteSpace(t[0]) && t[0] != '-' && t[0] != '+')
    ensures ParseInt(t) == None
  {
    TrimStartClean(t);
    MagnitudeNaN(t);
  }

  /**
   * A decimal numeral parses to its value whatever follows it, as long as that is
   * neither a digit nor an 'x': `parseInt` reads the longest decimal prefix.
   */
  lemma ParseIntDecimal(digits: string, rest: string)
    requires digits != [] && AllDigits(digits, 10)
    requires rest == [] || (!('0' <= rest[0] <= '9') && rest[0] != 'x' && rest[0] != 'X')
    ensures ParseInt(digits + rest) == Some(ValueOf(digits, 10) as int)
  {
    var t := digits + rest;
    assert t[0] == digits[0];
    TrimStartClean(t);
    assert Unsigned(t) == t && !Negative(t);
    MagnitudeDecimal(digits, rest);
  }

  /** After a '-', `parseInt` negates the magnitude of what follows. */
  lemma ParseIntMinus(u: string, v: int)
    requires Magnitude(u) == Some(v)
    ensures ParseInt(['-'] + u) == Some(-v)
  {
    var t := ['-'] + u;
    assert t[0] == '-' && t[1..] == u;
    TrimStartClean(t);
  }

  /** The run of decimal digits at the start of `digits + rest` is exactly `digits`. */
  lemma {:induction false} DigitRunOf(digits: string, rest: string)
    requires AllDigits(digits, 10)
    requires rest == [] || !('0' <= rest[0] <= '9')
    ensures DigitRun(digits + rest, 10) == |digits|
    decreases |digits|
  {
    if digits != [] {
      assert (digits + rest)[0] == digits[0];
      assert (digits + rest)[1..] == digits[1..] + rest;
      DigitRunOf(digits[1..], rest);
    } else {
      assert digits + rest == rest;
    }
  }
}
