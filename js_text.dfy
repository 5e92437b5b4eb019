/** The JavaScript string and number built-ins that the front end relies on,
    restricted to what the core uses: ASCII `toLowerCase`, `includes`,
    `substring`, integer-to-text conversion in template literals, the
    `error.message || fallback` idiom, and `parseInt` with no radix argument
    (ECMA-262, section 19.2.5). */
module JsText {
  import opened Wrappers

  // ---------------------------------------------------------------------
  // Case folding and substring search
  // ---------------------------------------------------------------------

  predicate IsUpperAscii(c: char) { 'A' <= c <= 'Z' }

  /** ASCII-only `toLowerCase` of one character. */
  function LowerChar(c: char): char
  {
    if IsUpperAscii(c) then (c as int + 32) as char else c
  }

  /** ASCII-only `String.prototype.toLowerCase`. */
  function Lower(s: string): (r: string)
    ensures |r| == |s|
    ensures forall i :: 0 <= i < |s| ==> !IsUpperAscii(r[i])
    ensures forall i :: 0 <= i < |s| ==> (r[i] == s[i] || (IsUpperAscii(s[i]) && r[i] as int == s[i] as int + 32))
  {
    seq(|s|, i requires 0 <= i < |s| => LowerChar(s[i]))
  }

  predicate StartsWith(s: string, p: string)
  {
    |p| <= |s| && s[..|p|] == p
  }

  /** `String.prototype.includes`: `p` occurs somewhere in `s`. */
  predicate Includes(s: string, p: string)
    decreases |s|
  {
    StartsWith(s, p) || (|s| > 0 && Includes(s[1..], p))
  }

  /** Reference definition: `p` occurs in `s` at position `i`. */
  ghost predicate OccursAt(s: string, p: string, i: int)
  {
    0 <= i && i + |p| <= |s| && s[i..i + |p|] == p
  }

  /** `Includes` finds exactly the occurrences of the reference definition. */
  lemma {:induction false} IncludesIff(s: string, p: string)
    ensures Includes(s, p) <==> exists i :: OccursAt(s, p, i)
    decreases |s|
  {
    if StartsWith(s, p) {
      assert OccursAt(s, p, 0);
    } else if |s| > 0 {
      IncludesIff(s[1..], p);
      if Includes(s[1..], p) {
        var i :| OccursAt(s[1..], p, i);
        assert s[1..][i..i + |p|] == s[i + 1..i + 1 + |p|];
        assert OccursAt(s, p, i + 1);
      } else {
        forall i | 1 <= i && OccursAt(s, p, i) ensures OccursAt(s[1..], p, i - 1) {
          assert s[1..][i - 1..i - 1 + |p|] == s[i..i + |p|];
        }
      }
    }
  }

  // ---------------------------------------------------------------------
  // substring and `error.message || fallback`
  // ---------------------------------------------------------------------

  function Min(a: int, b: int): int { if a <= b then a else b }
  function Max(a: int, b: int): int { if a <= b then b else a }

  /** `String.prototype.substring` clamps each index to `[0, |s|]`. */
  function Clamp(i: int, n: nat): (r: nat)
    ensures r <= n
  {
    if i < 0 then 0 else if i > n then n else i
  }

  /** `String.prototype.substring(start, end)`: clamped, and swapped when
      `start > end`. */
  function Substring(s: string, start: int, end: int): (r: string)
    ensures |r| == Max(Clamp(start, |s|), Clamp(end, |s|)) - Min(Clamp(start, |s|), Clamp(end, |s|))
  {
    var a, b := Clamp(start, |s|), Clamp(end, |s|);
    s[Min(a, b)..Max(a, b)]
  }

  /** `error.message || fallback`: an empty message is falsy. */
  function OrElse(message: string, fallback: string): (r: string)
    ensures message != "" ==> r == message
    ensures message == "" ==> r == fallback
  {
    if message != "" then message else fallback
  }

  // ---------------------------------------------------------------------
  // Digits and integer-to-text conversion
  // ---------------------------------------------------------------------

  predicate IsDecimalDigit(c: char) { '0' <= c <= '9' }

  predicate IsHexDigit(c: char)
  {
    IsDecimalDigit(c) || 'a' <= c <= 'f' || 'A' <= c <= 'F'
  }

  /** A digit of the given radix (only 10 and 16 arise here). */
  predicate IsRadixDigit(c: char, radix: nat)
  {
    if radix == 16 then IsHexDigit(c) else IsDecimalDigit(c)
  }

  function DigitValue(c: char): (d: nat)
    requires IsHexDigit(c)
    ensures d < 16
    ensures IsDecimalDigit(c) ==> d < 10
  {
    if IsDecimalDigit(c) then c as int - '0' as int
    else if 'a' <= c <= 'f' then c as int - 'a' as int + 10
    else c as int - 'A' as int + 10
  }

  function DigitChar(d: nat): (c: char)
    requires d < 10
    ensures IsDecimalDigit(c) && DigitValue(c) == d
  {
    ('0' as int + d) as char
  }

  /** Decimal notation of a natural number, without leading zeros. */
  function NatToString(n: nat): (r: string)
    ensures |r| >= 1
    ensures forall i :: 0 <= i < |r| ==> IsDecimalDigit(r[i])
    ensures r[0] == '0' <==> n == 0
  {
    if n < 10 then [DigitChar(n)] else NatToString(n / 10) + [DigitChar(n % 10)]
  }

  /** The text an integer produces in a template literal (`${n}`). */
  function IntToString(n: int): (r: string)
    ensures |r| >= 1
    ensures n < 0 ==> r[0] == '-' && r[1..] == NatToString(-n)
    ensures n >= 0 ==> r == NatToString(n)
  {
    if n < 0 then "-" + NatToString(-n) else NatToString(n)
  }

  /** Value of a run of digits, most significant first. */
  function DigitsValue(ds: string, radix: nat): nat
    requires forall i :: 0 <= i < |ds| ==> IsRadixDigit(ds[i], radix)
  {
    if |ds| == 0 then 0
    else
      assert IsRadixDigit(ds[|ds| - 1], radix);
      DigitsValue(ds[..|ds| - 1], radix) * radix + DigitValue(ds[|ds| - 1])
  }

  /** Reading the decimal notation back gives the number. */
  lemma {:induction false} NatToStringValue(n: nat)
    ensures DigitsValue(NatToString(n), 10) == n
  {
    var r := NatToString(n);
    if n >= 10 {
      NatToStringValue(n / 10);
      assert r[..|r| - 1] == NatToString(n / 10);
    }
  }

  // ---------------------------------------------------------------------
  // parseInt (ECMA-262, section 19.2.5) with an undefined radix
  // ---------------------------------------------------------------------

  /** StrWhiteSpaceChar: WhiteSpace and LineTerminator code points. */
  predicate IsStrWhiteSpace(c: char)
  {
    c == '\t' || c == '\n' || c == '\U{000B}' || c == '\U{000C}' || c == '\r' || c == ' '
    || c == '\U{00A0}' || c == '\U{1680}' || ('\U{2000}' <= c <= '\U{200A}')
    || c == '\U{2028}' || c == '\U{2029}' || c == '\U{202F}' || c == '\U{205F}'
    || c == '\U{3000}' || c == '\U{FEFF}'
  }

  /** Leading white space removed (step 2 of parseInt). */
  function TrimStart(s: string): (r: string)
    ensures |r| <= |s| && r == s[|s| - |r|..]
    ensures r == [] || !IsStrWhiteSpace(r[0])
    ensures forall i :: 0 <= i < |s| - |r| ==> IsStrWhiteSpace(s[i])
  {
    if |s| > 0 && IsStrWhiteSpace(s[0]) then TrimStart(s[1..]) else s
  }

  /** Length of the longest prefix of `s` made of radix digits (step 11). */
  function DigitRun(s: string, radix: nat): (n: nat)
    ensures n <= |s|
    ensures forall i :: 0 <= i < n ==> IsRadixDigit(s[i], radix)
    ensures n < |s| ==> !IsRadixDigit(s[n], radix)
  {
    if |s| > 0 && IsRadixDigit(s[0], radix) then 1 + DigitRun(s[1..], radix) else 0
  }

  /** The text after white space and an optional sign (steps 2-6). */
  function Unsigned(s: string): string
  {
    var t := TrimStart(s);
    if |t| > 0 && (t[0] == '-' || t[0] == '+') then t[1..] else t
  }

  predicate IsNegative(s: string)
  {
    var t := TrimStart(s);
    |t| > 0 && t[0] == '-'
  }

  /** A "0x" or "0X" prefix switches to radix 16 (steps 10-11). */
  predicate HasHexPrefix(u: string)
  {
    |u| >= 2 && u[0] == '0' && (u[1] == 'x' || u[1] == 'X')
  }

  /** The digits parseInt reads, after the prefix, and their radix. */
  function Body(s: string): string
  {
    var u := Unsigned(s);
    if HasHexPrefix(u) then u[2..] else u
  }

  function RadixOf(s: string): nat
  {
    if HasHexPrefix(Unsigned(s)) then 16 else 10
  }

  /** `parseInt(s)`; `None` stands for NaN. */
  function ParseInt(s: string): (r: Option<int>)
    ensures r.None? <==> DigitRun(Body(s), RadixOf(s)) == 0
  {
    var body, radix := Body(s), RadixOf(s);
    var n := DigitRun(body, radix);
    if n == 0 then None
    else
      var v: int := DigitsValue(body[..n], radix);
      Some(if IsNegative(s) then -v else v)
  }

  /** A digit run followed by a non-digit stops at the non-digit. */
  lemma {:induction false} DigitRunOfDigits(ds: string, rest: string, radix: nat)
    requires forall i :: 0 <= i < |ds| ==> IsRadixDigit(ds[i], radix)
    requires rest == [] || !IsRadixDigit(rest[0], radix)
    ensures DigitRun(ds + rest, radix) == |ds|
  {
    if |ds| > 0 {
      assert (ds + rest)[1..] == ds[1..] + rest;
      DigitRunOfDigits(ds[1..], rest, radix);
    }
  }

  lemma TrimStartNoSpace(s: string)
    requires |s| > 0 && !IsStrWhiteSpace(s[0])
    ensures TrimStart(s) == s
  {
  }

  /** Leading white space does not matter to TrimStart. */
  lemma {:induction false} TrimStartSkipsSpace(ws: string, s: string)
    requires forall i :: 0 <= i < |ws| ==> IsStrWhiteSpace(ws[i])
    ensures TrimStart(ws + s) == TrimStart(s)
  {
    if |ws| > 0 {
      assert (ws + s)[1..] == ws[1..] + s;
      TrimStartSkipsSpace(ws[1..], s);
    } else {
      assert ws + s == s;
    }
  }

  function Abs(n: int): nat { if n < 0 then -n else n }

  /** White space and sign in front of an integer's text are what parseInt
      strips before the digits. */
  lemma UnsignedOfIntText(ws: string, n: int, rest: string)
    requires forall i :: 0 <= i < |ws| ==> IsStrWhiteSpace(ws[i])
    ensures Unsigned(ws + IntToString(n) + rest) == NatToString(Abs(n)) + rest
    ensures IsNegative(ws + IntToString(n) + rest) <==> n < 0
  {
    var u := NatToString(Abs(n)) + rest;
    var s := if n < 0 then "-" + u else u;
    assert ws + IntToString(n) + rest == ws + s;
    TrimStartSkipsSpace(ws, s);
    if n < 0 {
      UnsignedOfSign(u);
    } else {
      UnsignedOfDigit(u);
    }
  }

  lemma UnsignedOfSign(u: string)
    ensures TrimStart("-" + u) == "-" + u
    ensures Unsigned("-" + u) == u && IsNegative("-" + u)
  {
    TrimStartNoSpace("-" + u);
    assert ("-" + u)[1..] == u;
  }

  lemma UnsignedOfDigit(u: string)
    requires |u| > 0 && IsDecimalDigit(u[0])
    ensures TrimStart(u) == u
    ensures Unsigned(u) == u && !IsNegative(u)
  {
    TrimStartNoSpace(u);
  }

  /** The text of an integer, after any white space and followed by anything
      that does not continue it, parses back to that integer. The one trap is
      "0" followed by "x": that reads as a hexadecimal prefix. */
  lemma ParseIntOfIntToString(ws: string, n: int, rest: string)
    requires forall i :: 0 <= i < |ws| ==> IsStrWhiteSpace(ws[i])
    requires rest == [] || !IsDecimalDigit(rest[0])
    requires n == 0 ==> rest == [] || (rest[0] != 'x' && rest[0] != 'X')
    ensures ParseInt(ws + IntToString(n) + rest) == Some(n)
  {
    var s := ws + IntToString(n) + rest;
    var ds := NatToString(Abs(n));
    BodyOfIntText(ws, n, rest);
    assert DigitRun(ds + rest, 10) == |ds| by {
      assert forall i :: 0 <= i < |ds| ==> IsRadixDigit(ds[i], 10);
      assert rest == [] || !IsRadixDigit(rest[0], 10);
      DigitRunOfDigits(ds, rest, 10);
    }
    assert DigitsValue((ds + rest)[..|ds|], 10) == Abs(n) by {
      assert (ds + rest)[..|ds|] == ds;
      NatToStringValue(Abs(n));
    }
    var v: int := Abs(n);
    ParseIntOfParts(s, ds + rest, |ds|, v);
    assert (if IsNegative(s) then -v else v) == n;
  }

  /** What parseInt reads of an integer's text: its decimal digits, then the rest. */
  lemma BodyOfIntText(ws: string, n: int, rest: string)
    requires forall i :: 0 <= i < |ws| ==> IsStrWhiteSpace(ws[i])
    requires rest == [] || !IsDecimalDigit(rest[0])
    requires n == 0 ==> rest == [] || (rest[0] != 'x' && rest[0] != 'X')
    ensures Body(ws + IntToString(n) + rest) == NatToString(Abs(n)) + rest
    ensures RadixOf(ws + IntToString(n) + rest) == 10
    ensures IsNegative(ws + IntToString(n) + rest) <==> n < 0
  {
    UnsignedOfIntText(ws, n, rest);
    assert !HasHexPrefix(NatToString(Abs(n)) + rest);
  }

  /** parseInt's result from its parts: the digits it reads in radix 10,
      their value and the sign. */
  lemma ParseIntOfParts(s: string, body: string, k: nat, v: int)
    requires Body(s) == body && RadixOf(s) == 10
    requires k > 0 && DigitRun(body, 10) == k && DigitsValue(body[..k], 10) == v
    ensures ParseInt(s) == Some(if IsNegative(s) then -v else v)
  {
  }

  /** A bare "0x" has no digits, so `isNaN(parseInt("0x"))` holds. */
  lemma ParseIntBareHexPrefix()
    ensures ParseInt("0x") == None
  {
    TrimStartNoSpace("0x");
    assert Unsigned("0x") == "0x";
    assert Body("0x") == "";
  }

  /** "0x1A" is read in radix 16. */
  lemma ParseIntHex()
    ensures ParseInt("0x1A") == Some(26)
  {
    TrimStartNoSpace("0x1A");
    assert Unsigned("0x1A") == "0x1A";
    assert Body("0x1A") == "1A" && RadixOf("0x1A") == 16;
    assert DigitRun("1A", 16) == 2 by {
      assert "1A"[1..] == "A" && "A"[1..] == "";
    }
    assert "1A"[..2] == "1A" && "1A"[..1] == "1" && "1"[..0] == "";
    assert DigitsValue("1", 16) == 1;
  }

  /** Leading white space, a sign and trailing text are allowed. */
  lemma ParseIntSignedWithSuffix()
    ensures ParseInt(" -42px") == Some(-42)
  {
    assert IntToString(-42) == "-42" by {
      assert NatToString(42) == NatToString(4) + [DigitChar(2)];
    }
    assert " -42px" == " " + IntToString(-42) + "px";
    ParseIntOfIntToString(" ", -42, "px");
  }

  /** Text that does not start with a digit is NaN. */
  lemma ParseIntNoDigits()
    ensures ParseInt("abc") == None
    ensures ParseInt("") == None
  {
    TrimStartNoSpace("abc");
    assert Unsigned("abc") == "abc";
    assert Body("abc") == "abc";
  }
}
