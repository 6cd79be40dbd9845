/**
 * The integer parse applied to the RF-version property: a model of
 * `std::stoi` on a base-10 string. Like `strtol`, it skips leading white
 * space, accepts one optional sign, then takes the longest run of decimal
 * digits and ignores whatever follows. It fails (where `std::stoi` throws)
 * when that run is empty or when the value does not fit a 32-bit `int`.
 */
module IntParse {
  import opened Wrappers

  const IntMin: int := -0x8000_0000
  const IntMax: int := 0x7fff_ffff

  /** The characters `isspace` accepts in the C locale. */
  predicate IsSpace(c: char) {
    c == ' ' || c == '\t' || c == '\n' || c == '\U{000B}' || c == '\U{000C}' || c == '\r'
  }

  predicate IsDigit(c: char) {
    '0' <= c <= '9'
  }

  predicate AllDigits(s: string) {
    forall i :: 0 <= i < |s| ==> IsDigit(s[i])
  }

  /** Length of the longest prefix of `s` made of white space. */
  function LeadingSpaces(s: string): (n: nat)
    ensures n <= |s|
    ensures forall i :: 0 <= i < n ==> IsSpace(s[i])
    ensures n < |s| ==> !IsSpace(s[n])
  {
    if s != [] && IsSpace(s[0]) then 1 + LeadingSpaces(s[1..]) else 0
  }

  /** Length of the longest prefix of `s` made of decimal digits. */
  function DigitRun(s: string): (n: nat)
    ensures n <= |s|
    ensures AllDigits(s[..n])
    ensures n < |s| ==> !IsDigit(s[n])
  {
    if s != [] && IsDigit(s[0]) then
      var k := DigitRun(s[1..]);
      assert s[..1 + k] == [s[0]] + s[1..][..k];
      1 + k
    else 0
  }

  function DigitValue(c: char): (d: nat)
    requires IsDigit(c)
    ensures d < 10
  {
    c as int - '0' as int
  }

  function DigitChar(d: nat): (c: char)
    requires d < 10
    ensures IsDigit(c) && DigitValue(c) == d
  {
    ('0' as int + d) as char
  }

  /** The value of a string of decimal digits, most significant first. */
  function DigitsValue(s: string): nat
    requires AllDigits(s)
  {
    if s == [] then 0 else DigitsValue(s[..|s| - 1]) * 10 + DigitValue(s[|s| - 1])
  }

  /** `std::stoi(s)` with base 10: `None` where the C++ call throws. */
  function Stoi(s: string): (r: Option<int>)
    ensures r.Some? ==> IntMin <= r.value <= IntMax
    ensures r.Some? ==> exists k :: 0 <= k < |s| && IsDigit(s[k])
  {
    var t := s[LeadingSpaces(s)..];
    var negative := t != [] && t[0] == '-';
    var u := if t != [] && (t[0] == '-' || t[0] == '+') then t[1..] else t;
    var n := DigitRun(u);
    if n == 0 then None
    else
      var magnitude := DigitsValue(u[..n]);
      var v: int := if negative then -(magnitude as int) else magnitude;
      assert IsDigit(s[|s| - |u|]) by { assert s[|s| - |u|] == u[0]; }
      if IntMin <= v <= IntMax then Some(v) else None
  }

  /** Decimal rendering of a natural number, without leading zeros. */
  function Decimal(n: nat): (s: string)
    ensures s != [] && AllDigits(s)
  {
    if n < 10 then [DigitChar(n)] else Decimal(n / 10) + [DigitChar(n % 10)]
  }

  /** Reading back the decimal rendering of `n` gives `n`. */
  lemma {:induction false} DecimalValue(n: nat)
    ensures DigitsValue(Decimal(n)) == n
  {
    if n >= 10 {
      var s := Decimal(n);
      assert s[..|s| - 1] == Decimal(n / 10);
      DecimalValue(n / 10);
    }
  }

  /** A digit run stops exactly where the digits stop. */
  lemma {:induction false} DigitRunOfDigits(d: string, rest: string)
    requires AllDigits(d)
    requires rest == [] || !IsDigit(rest[0])
    ensures DigitRun(d + rest) == |d|
  {
    if d != [] {
      assert (d + rest)[1..] == d[1..] + rest;
      DigitRunOfDigits(d[1..], rest);
    }
  }

  /** Leading white space never changes what `std::stoi` returns. */
  lemma {:induction false} StoiSkipsSpace(ws: string, s: string)
    requires forall i :: 0 <= i < |ws| ==> IsSpace(ws[i])
    requires s == [] || !IsSpace(s[0])
    ensures Stoi(ws + s) == Stoi(s)
  {
    LeadingSpacesOf(ws, s);
    assert (ws + s)[|ws|..] == s;
  }

  lemma {:induction false} LeadingSpacesOf(ws: string, s: string)
    requires forall i :: 0 <= i < |ws| ==> IsSpace(ws[i])
    requires s == [] || !IsSpace(s[0])
    ensures LeadingSpaces(ws + s) == |ws|
  {
    if ws != [] {
      assert (ws + s)[1..] == ws[1..] + s;
      LeadingSpacesOf(ws[1..], s);
    }
  }

  /**
   * A decimal rendering in the range of `int`, followed by anything that
   * does not start with a digit, parses back to the number it renders.
   */
  lemma StoiDecimal(n: nat, rest: string)
    requires n <= IntMax
    requires rest == [] || !IsDigit(rest[0])
    ensures Stoi(Decimal(n) + rest) == Some(n)
  {
    var s := Decimal(n) + rest;
    assert LeadingSpaces(s) == 0 by { assert s[0] == Decimal(n)[0]; }
    assert s[0..] == s;
    DigitRunOfDigits(Decimal(n), rest);
    assert s[..|Decimal(n)|] == Decimal(n);
    DecimalValue(n);
  }

  /**
   * The parse of a string that does not start with white space, read as an
   * optional sign, a digit run `d` and a remainder that does not continue
   * the run: no digits fail, otherwise the signed value of `d` is returned
   * when it fits an `int`.
   */
  lemma {:induction false} StoiParts(sign: string, d: string, rest: string)
    requires sign == "" || sign == "+" || sign == "-"
    requires AllDigits(d)
    requires rest == [] || !IsDigit(rest[0])
    requires sign == "" && d == [] ==> rest == [] || (!IsSpace(rest[0]) && rest[0] != '+' && rest[0] != '-')
    ensures d == [] ==> Stoi(sign + d + rest) == None
    ensures d != [] ==>
      var v: int := if sign == "-" then -(DigitsValue(d) as int) else DigitsValue(d);
      Stoi(sign + d + rest) == if IntMin <= v <= IntMax then Some(v) else None
  {
    var s := sign + d + rest;
    assert LeadingSpaces(s) == 0 by {
      if s != [] {
        assert s[0] == if sign != "" then sign[0] else if d != [] then d[0] else rest[0];
      }
    }
    assert s[0..] == s;
    var u := d + rest;
    if sign != "" {
      assert s[0] == sign[0];
      assert s[1..] == u;
    } else {
      assert s == u;
      if d != [] {
        assert s[0] == d[0];
      }
    }
    DigitRunOfDigits(d, rest);
    assert u[..|d|] == d;
  }

  /** A plus sign in front of a decimal rendering changes nothing. */
  lemma StoiPlus(n: nat, rest: string)
    requires n <= IntMax
    requires rest == [] || !IsDigit(rest[0])
    ensures Stoi("+" + Decimal(n) + rest) == Some(n)
  {
    StoiParts("+", Decimal(n), rest);
    DecimalValue(n);
  }

  /** A minus sign in front of a decimal rendering negates it, down to `IntMin`. */
  lemma StoiNegated(n: nat, rest: string)
    requires n <= -IntMin
    requires rest == [] || !IsDigit(rest[0])
    ensures Stoi("-" + Decimal(n) + rest) == Some(-(n as int))
  {
    StoiParts("-", Decimal(n), rest);
    DecimalValue(n);
  }

  /** A decimal rendering above `IntMax`, signed or not, does not parse. */
  lemma StoiOverflow(n: nat, rest: string)
    requires n > IntMax
    requires rest == [] || !IsDigit(rest[0])
    ensures Stoi(Decimal(n) + rest) == None
    ensures Stoi("+" + Decimal(n) + rest) == None
  {
    StoiParts("", Decimal(n), rest);
    assert "" + Decimal(n) + rest == Decimal(n) + rest;
    StoiParts("+", Decimal(n), rest);
    DecimalValue(n);
  }

  /** A negated decimal rendering below `IntMin` does not parse. */
  lemma StoiUnderflow(n: nat, rest: string)
    requires n > -IntMin
    requires rest == [] || !IsDigit(rest[0])
    ensures Stoi("-" + Decimal(n) + rest) == None
  {
    StoiParts("-", Decimal(n), rest);
    DecimalValue(n);
  }

  /**
   * Without a digit right after the optional sign the parse fails, as for
   * "abc", "-" or "- 5"; leading white space does not matter (`StoiSkipsSpace`).
   */
  lemma StoiNoDigits(sign: string, rest: string)
    requires sign == "" || sign == "+" || sign == "-"
    requires rest == [] || !IsDigit(rest[0])
    requires sign == "" ==> rest == [] || (!IsSpace(rest[0]) && rest[0] != '+' && rest[0] != '-')
    ensures Stoi(sign + rest) == None
  {
    StoiParts(sign, "", rest);
    assert sign + "" + rest == sign + rest;
  }
}
