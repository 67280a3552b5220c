/**
 * The JavaScript string built-ins the order bot relies on, over Dafny strings
 * (sequences of Unicode scalar values): `includes`, `length` (counted in UTF-16
 * code units), `toLowerCase`, `trim` and the global `parseInt`.
 */
module JsString {
  import opened Wrappers

  // ---------------------------------------------------------------------------
  // String.prototype.includes
  // ---------------------------------------------------------------------------

  /** The window of s that starts at i spells k. */
  predicate SpellsAt(s: string, k: string, i: int)
  {
    0 <= i && i + |k| <= |s| && s[i..i + |k|] == k
  }

  /** `s.includes(k)`: some window of s spells k. */
  predicate Includes(s: string, k: string)
  {
    exists i :: 0 <= i <= |s| - |k| && SpellsAt(s, k, i)
  }

  /**
   * The same test stated the way a left-to-right scan performs it: k is a
   * prefix of s, or k occurs in what follows the first character.
   */
  lemma IncludesScan(s: string, k: string)
    ensures Includes(s, k) <==> k <= s || (|s| > 0 && Includes(s[1..], k))
  {
    if k <= s {
      assert SpellsAt(s, k, 0);
    }
    if |s| > 0 && Includes(s[1..], k) {
      var i :| 0 <= i <= |s| - 1 - |k| && SpellsAt(s[1..], k, i);
      assert s[i + 1..i + 1 + |k|] == s[1..][i..i + |k|];
      assert SpellsAt(s, k, i + 1);
    }
    if Includes(s, k) && !(k <= s) {
      var i :| 0 <= i <= |s| - |k| && SpellsAt(s, k, i);
      if i != 0 {
        assert s[1..][i - 1..i - 1 + |k|] == s[i..i + |k|];
        assert SpellsAt(s[1..], k, i - 1);
      }
    }
  }

  /** A window that spells k is a witness for `includes`. */
  lemma IncludesAt(s: string, k: string, i: nat)
    requires i + |k| <= |s| && s[i..i + |k|] == k
    ensures Includes(s, k)
  {
    assert SpellsAt(s, k, i);
  }

  /** A keyword holding a character that the text lacks is not contained in it. */
  lemma NotIncludesMissingChar(s: string, k: string, c: char)
    requires c in k && c !in s
    ensures !Includes(s, k)
  {
    var j :| 0 <= j < |k| && k[j] == c;
    forall i | 0 <= i <= |s| - |k| ensures !SpellsAt(s, k, i) {
      assert s[i + j] != c;
    }
  }

  /** Text that contains k still contains it with more text around it. */
  lemma IncludesInContext(pre: string, s: string, post: string, k: string)
    requires Includes(s, k)
    ensures Includes(pre + s + post, k)
  {
    var i :| 0 <= i <= |s| - |k| && SpellsAt(s, k, i);
    assert (pre + s + post)[|pre| + i..|pre| + i + |k|] == s[i..i + |k|];
    assert SpellsAt(pre + s + post, k, |pre| + i);
  }

  // ---------------------------------------------------------------------------
  // String.prototype.length
  // ---------------------------------------------------------------------------

  /** `s.length`: characters outside the Basic Multilingual Plane take two code units. */
  function Utf16Length(s: string): nat
  {
    if s == [] then 0
    else (if s[0] as int < 0x1_0000 then 1 else 2) + Utf16Length(s[1..])
  }

  /** Every character takes one or two code units. */
  lemma {:induction false} Utf16LengthBounds(s: string)
    ensures |s| <= Utf16Length(s) <= 2 * |s|
  {
    if s != [] {
      Utf16LengthBounds(s[1..]);
    }
  }

  /** Text inside the Basic Multilingual Plane has one code unit per character. */
  lemma {:induction false} Utf16LengthBmp(s: string)
    requires forall i :: 0 <= i < |s| ==> s[i] as int < 0x1_0000
    ensures Utf16Length(s) == |s|
  {
    if s != [] {
      assert forall i :: 0 <= i < |s| - 1 ==> s[1..][i] == s[i + 1];
      Utf16LengthBmp(s[1..]);
    }
  }

  // ---------------------------------------------------------------------------
  // String.prototype.toLowerCase (ASCII and Latin-1 letters only)
  // ---------------------------------------------------------------------------

  /** Upper-case letters of the ASCII and Latin-1 blocks ('×' is not a letter). */
  predicate IsUpper(c: char)
  {
    ('A' <= c <= 'Z') || ('\U{C0}' <= c <= '\U{DE}' && c != '\U{D7}')
  }

  function LowerChar(c: char): (d: char)
    ensures !IsUpper(d)
    ensures d == c <==> !IsUpper(c)
  {
    if IsUpper(c) then (c as int + 0x20) as char else c
  }

  function ToLower(s: string): string
  {
    if s == [] then [] else [LowerChar(s[0])] + ToLower(s[1..])
  }

  /** Lower-casing works character by character. */
  lemma {:induction false} ToLowerAt(s: string)
    ensures |ToLower(s)| == |s|
    ensures forall i :: 0 <= i < |s| ==> ToLower(s)[i] == LowerChar(s[i])
  {
    if s != [] {
      ToLowerAt(s[1..]);
    }
  }

  // ---------------------------------------------------------------------------
  // String.prototype.trim
  // ---------------------------------------------------------------------------

  /** ECMAScript WhiteSpace and LineTerminator code points. */
  predicate IsJsSpace(c: char)
  {
    || c == '\t' || c == '\n' || c == '\U{B}' || c == '\U{C}' || c == '\r' || c == ' '
    || c == '\U{A0}' || c == '\U{1680}' || ('\U{2000}' <= c <= '\U{200A}')
    || c == '\U{2028}' || c == '\U{2029}' || c == '\U{202F}' || c == '\U{205F}'
    || c == '\U{3000}' || c == '\U{FEFF}'
  }

  /** Drops the leading white space. */
  function TrimStart(s: string): string
  {
    if s != [] && IsJsSpace(s[0]) then TrimStart(s[1..]) else s
  }

  /** Drops the trailing white space. */
  function TrimEnd(s: string): string
  {
    if s != [] && IsJsSpace(s[|s| - 1]) then TrimEnd(s[..|s| - 1]) else s
  }

  /** What TrimStart leaves is a suffix that starts with a non-space; all it cut is space. */
  lemma {:induction false} TrimStartShape(s: string)
    ensures var r := TrimStart(s);
      && |r| <= |s| && r == s[|s| - |r|..]
      && (forall i :: 0 <= i < |s| - |r| ==> IsJsSpace(s[i]))
      && (r != [] ==> !IsJsSpace(r[0]))
  {
    if s != [] && IsJsSpace(s[0]) {
      TrimStartShape(s[1..]);
      var r := TrimStart(s[1..]);
      assert TrimStart(s) == r;
      assert s[1..][|s| - 1 - |r|..] == s[|s| - |r|..];
      forall i | 0 <= i < |s| - |r|
        ensures IsJsSpace(s[i])
      {
        if i > 0 {
          assert s[i] == s[1..][i - 1];
        }
      }
    }
  }

  /** What TrimEnd leaves is a prefix that ends in a non-space; all it cut is space. */
  lemma {:induction false} TrimEndShape(s: string)
    ensures var r := TrimEnd(s);
      && |r| <= |s| && r == s[..|r|]
      && (forall i :: |r| <= i < |s| ==> IsJsSpace(s[i]))
      && (r != [] ==> !IsJsSpace(r[|r| - 1]))
  {
    if s != [] && IsJsSpace(s[|s| - 1]) {
      TrimEndShape(s[..|s| - 1]);
    }
  }

  function Trim(s: string): string
  {
    TrimEnd(TrimStart(s))
  }

  /**
   * `s.trim()` is the slice of s that starts after the leading white space
   * and stops before the trailing white space, and it neither starts nor ends
   * with white space.
   */
  lemma TrimShape(s: string)
    ensures var r := Trim(s);
      var a := |s| - |TrimStart(s)|;
      && 0 <= a <= |s| - |r| && r == s[a..a + |r|]
      && (forall i :: 0 <= i < a ==> IsJsSpace(s[i]))
      && (forall i :: a + |r| <= i < |s| ==> IsJsSpace(s[i]))
      && (r != [] ==> !IsJsSpace(r[0]) && !IsJsSpace(r[|r| - 1]))
  {
    var u := TrimStart(s);
    var r := TrimEnd(u);
    TrimStartShape(s);
    TrimEndShape(u);
    var a := |s| - |u|;
    assert u == s[a..];
    assert r == u[..|r|];
    assert u[..|r|] == s[a..a + |r|];
    forall i | a + |r| <= i < |s|
      ensures IsJsSpace(s[i])
    {
      assert s[i] == u[i - a];
    }
  }

  /** `message.body.toLowerCase().trim()`, the text every keyword test looks at. */
  function Normalize(body: string): string
  {
    Trim(ToLower(body))
  }

  /** Normalised text has no upper-case letter and no white space at either end. */
  lemma NormalizeShape(body: string)
    ensures var msg := Normalize(body);
      && (forall i :: 0 <= i < |msg| ==> !IsUpper(msg[i]))
      && (msg != [] ==> !IsJsSpace(msg[0]) && !IsJsSpace(msg[|msg| - 1]))
  {
    var low := ToLower(body);
    ToLowerAt(body);
    TrimShape(low);
    var msg := Trim(low);
    var a := |low| - |TrimStart(low)|;
    assert forall i :: 0 <= i < |msg| ==> msg[i] == low[a + i];
  }

  lemma TrimOfTrimmed(s: string)
    requires s != [] ==> !IsJsSpace(s[0]) && !IsJsSpace(s[|s| - 1])
    ensures Trim(s) == s
  {
    assert TrimStart(s) == s;
  }

  lemma ToLowerOfLower(s: string)
    requires forall i :: 0 <= i < |s| ==> !IsUpper(s[i])
    ensures ToLower(s) == s
  {
    ToLowerAt(s);
  }

  /** Normalising twice is normalising once. */
  lemma NormalizeIdempotent(body: string)
    ensures Normalize(Normalize(body)) == Normalize(body)
  {
    var msg := Normalize(body);
    NormalizeShape(body);
    ToLowerOfLower(msg);
    TrimOfTrimmed(msg);
  }

  // ---------------------------------------------------------------------------
  // parseInt(string) with no radix argument
  // ---------------------------------------------------------------------------

  /** Value of c as a digit of radix up to 36; 36 when c is no digit at all. */
  function DigitOf(c: char): (d: nat)
    ensures d <= 36
  {
    if '0' <= c <= '9' then c as int - '0' as int
    else if 'a' <= c <= 'z' then c as int - 'a' as int + 10
    else if 'A' <= c <= 'Z' then c as int - 'A' as int + 10
    else 36
  }

  predicate IsDigitIn(c: char, radix: nat)
  {
    DigitOf(c) < radix
  }

  /** The longest prefix of s made of radix digits. */
  function LeadingDigits(s: string, radix: nat): string
  {
    if s != [] && IsDigitIn(s[0], radix) then [s[0]] + LeadingDigits(s[1..], radix) else []
  }

  /** LeadingDigits is a prefix of digits that the next character, if any, does not extend. */
  lemma {:induction false} LeadingDigitsShape(s: string, radix: nat)
    ensures var z := LeadingDigits(s, radix);
      && z <= s
      && (forall i :: 0 <= i < |z| ==> IsDigitIn(z[i], radix))
      && (|z| < |s| ==> !IsDigitIn(s[|z|], radix))
  {
    if s != [] && IsDigitIn(s[0], radix) {
      LeadingDigitsShape(s[1..], radix);
    }
  }

  /** Positional value of a digit string, most significant digit first. */
  function DigitsValue(z: string, radix: nat): nat
  {
    if z == [] then 0 else DigitsValue(z[..|z| - 1], radix) * radix + DigitOf(z[|z| - 1])
  }

  /**
   * The numeral after the optional sign: a "0x" or "0X" prefix switches to
   * radix 16, and the longest run of digits is converted; with no digit the
   * result is NaN, written None here.
   */
  function ParseMagnitude(u: string): Option<nat>
  {
    var hex := |u| >= 2 && u[0] == '0' && (u[1] == 'x' || u[1] == 'X');
    var radix := if hex then 16 else 10;
    var z := LeadingDigits(if hex then u[2..] else u, radix);
    if z == [] then None else Some(DigitsValue(z, radix))
  }

  /** The global `parseInt(s)`: leading white space is skipped and one sign is read. */
  function ParseInt(s: string): Option<int>
  {
    var t := TrimStart(s);
    if |t| > 0 && t[0] == '-' then
      var m: Option<int> := ParseMagnitude(t[1..]);
      if m.None? then None else Some(-m.value)
    else if |t| > 0 && t[0] == '+' then ParseMagnitude(t[1..])
    else ParseMagnitude(t)
  }

  /** `n >= lo && n <= hi` on a parseInt result; NaN compares false. */
  predicate InRange(n: Option<int>, lo: int, hi: int)
  {
    n.Some? && lo <= n.value <= hi
  }

  /** A text whose first character is neither blank, sign nor digit parses to NaN. */
  lemma ParseIntNaN(s: string)
    requires s != [] && !IsJsSpace(s[0]) && s[0] != '+' && s[0] != '-' && !IsDigitIn(s[0], 10)
    ensures ParseInt(s) == None
  {
  }

  // Decimal numerals, the partner of parseInt.

  function DigitChar(d: nat): (c: char)
    requires d < 10
    ensures DigitOf(c) == d
  {
    ('0' as int + d) as char
  }

  /** The decimal numeral of n, without leading zeros. */
  function DecimalString(n: nat): (z: string)
    ensures |z| > 0
    ensures forall i :: 0 <= i < |z| ==> IsDigitIn(z[i], 10)
    ensures z[0] == '0' <==> n == 0
  {
    if n < 10 then [DigitChar(n)] else DecimalString(n / 10) + [DigitChar(n % 10)]
  }

  lemma {:induction false} DecimalStringValue(n: nat)
    ensures DigitsValue(DecimalString(n), 10) == n
  {
    if n >= 10 {
      var z := DecimalString(n);
      assert z[..|z| - 1] == DecimalString(n / 10);
      DecimalStringValue(n / 10);
    }
  }

  lemma {:induction false} LeadingDigitsOfNumeral(z: string, rest: string, radix: nat)
    requires forall i :: 0 <= i < |z| ==> IsDigitIn(z[i], radix)
    requires rest == [] || !IsDigitIn(rest[0], radix)
    ensures LeadingDigits(z + rest, radix) == z
  {
    if z != [] {
      assert (z + rest)[1..] == z[1..] + rest;
      LeadingDigitsOfNumeral(z[1..], rest, radix);
    } else {
      assert z + rest == rest;
    }
  }

  /** An unsigned decimal numeral at the very front of the text is read in radix 10. */
  lemma ParseIntUnsigned(s: string)
    requires s != [] && IsDigitIn(s[0], 10)
    requires !(|s| >= 2 && s[0] == '0' && (s[1] == 'x' || s[1] == 'X'))
    ensures ParseInt(s) == Some(DigitsValue(LeadingDigits(s, 10), 10))
  {
    assert '0' <= s[0] <= '9';
    assert TrimStart(s) == s by {
      assert !IsJsSpace(s[0]);
    }
    assert ParseInt(s) == ParseMagnitude(s);
    assert LeadingDigits(s, 10) != [];
  }

  /**
   * parseInt reads back the decimal numeral of n from the front of a text,
   * whatever follows it, as long as the next character does not extend the
   * number ("0" followed by "x" would start a hexadecimal numeral).
   */
  lemma ParseIntDecimal(n: nat, rest: string)
    requires rest == [] || !IsDigitIn(rest[0], 10)
    requires n == 0 && rest != [] ==> rest[0] != 'x' && rest[0] != 'X'
    ensures ParseInt(DecimalString(n) + rest) == Some(n)
  {
    var z := DecimalString(n);
    var s := z + rest;
    assert s[0] == z[0];
    assert n == 0 ==> |z| == 1;
    assert n == 0 && |s| >= 2 ==> s[1] == rest[0];
    ParseIntUnsigned(s);
    LeadingDigitsOfNumeral(z, rest, 10);
    DecimalStringValue(n);
  }

  /** The decimal numeral of an integer: a '-' sign in front of the magnitude when negative. */
  function SignedString(n: int): string
  {
    if n < 0 then "-" + DecimalString(-n) else DecimalString(n)
  }

  /** The magnitude after a sign: a positive numeral never has the "0x" prefix. */
  lemma PositiveMagnitude(m: nat, rest: string)
    requires m > 0 && (rest == [] || !IsDigitIn(rest[0], 10))
    ensures ParseMagnitude(DecimalString(m) + rest) == Some(m)
  {
    var z := DecimalString(m);
    assert (z + rest)[0] == z[0] != '0';
    LeadingDigitsOfNumeral(z, rest, 10);
    DecimalStringValue(m);
  }

  /**
   * parseInt reads back the signed numeral of n from the front of a text, as
   * long as the next character does not extend the number.
   */
  lemma ParseIntSigned(n: int, rest: string)
    requires rest == [] || !IsDigitIn(rest[0], 10)
    requires n == 0 && rest != [] ==> rest[0] != 'x' && rest[0] != 'X'
    ensures ParseInt(SignedString(n) + rest) == Some(n)
  {
    if n < 0 {
      var s := "-" + DecimalString(-n) + rest;
      assert TrimStart(s) == s by {
        assert s[0] == '-' && !IsJsSpace(s[0]);
      }
      assert s[1..] == DecimalString(-n) + rest;
      PositiveMagnitude(-n, rest);
    } else {
      ParseIntDecimal(n, rest);
    }
  }

  /** A '+' sign in front of a positive numeral is read and dropped. */
  lemma ParseIntPlus(n: nat, rest: string)
    requires n > 0 && (rest == [] || !IsDigitIn(rest[0], 10))
    ensures ParseInt("+" + DecimalString(n) + rest) == Some(n)
  {
    var s := "+" + DecimalString(n) + rest;
    assert TrimStart(s) == s by {
      assert s[0] == '+' && !IsJsSpace(s[0]);
    }
    assert s[1..] == DecimalString(n) + rest;
    PositiveMagnitude(n, rest);
  }
}
