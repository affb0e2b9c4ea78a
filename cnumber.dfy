/** Conversions between integers and their decimal text, as the C library
    performs them for the tracer: `atoi` reads TRACELEVEL, and `%d` renders
    serial numbers and levels into output lines. Integers are unbounded:
    `atoi` overflow is not modelled. */
module CNumber {

  import opened Sequences

  /** `isspace` in the C locale. */
  predicate IsSpace(c: char)
  {
    c == ' ' || c == '\t' || c == '\n' || c == '\U{B}' || c == '\U{C}' || c == '\r'
  }

  predicate IsDigit(c: char)
  {
    '0' <= c <= '9'
  }

  function DigitValue(c: char): (d: nat)
    requires IsDigit(c)
    ensures d < 10
  {
    (c - '0') as nat
  }

  function DigitChar(d: nat): (c: char)
    requires d < 10
    ensures IsDigit(c) && DigitValue(c) == d
  {
    ('0' as int + d) as char
  }

  /** `s` without its leading white space. */
  function SkipSpace(s: string): (r: string)
    ensures |r| <= |s| && r == s[|s| - |r|..]
    ensures forall i :: 0 <= i < |s| - |r| ==> IsSpace(s[i])
    ensures r == [] || !IsSpace(r[0])
  {
    if s != [] && IsSpace(s[0]) then SkipSpace(s[1..]) else s
  }

  /** The longest prefix of `s` made of decimal digits. */
  function LeadingDigits(s: string): (r: string)
    ensures |r| <= |s| && r == s[..|r|]
    ensures forall i :: 0 <= i < |r| ==> IsDigit(r[i])
    ensures |r| < |s| ==> !IsDigit(s[|r|])
  {
    if s != [] && IsDigit(s[0]) then [s[0]] + LeadingDigits(s[1..]) else []
  }

  /** The value of a string of decimal digits, most significant first. */
  function DigitsValue(ds: string): nat
    requires forall i :: 0 <= i < |ds| ==> IsDigit(ds[i])
  {
    if ds == [] then 0 else DigitsValue(ds[..|ds| - 1]) * 10 + DigitValue(ds[|ds| - 1])
  }

  /** C's `atoi`: skip white space, read an optional sign and then as many
      decimal digits as follow. Text that does not start with a number reads
      as 0; there is no error. */
  function Atoi(s: string): (r: int)
    ensures r < 0 ==> SkipSpace(s) != [] && SkipSpace(s)[0] == '-'
  {
    var t := SkipSpace(s);
    if t != [] && t[0] == '-' then -(DigitsValue(LeadingDigits(t[1..])) as int)
    else if t != [] && t[0] == '+' then DigitsValue(LeadingDigits(t[1..]))
    else DigitsValue(LeadingDigits(t))
  }

  /** The decimal digits of `n`, without leading zeros. */
  function NatToString(n: nat): (r: string)
    ensures |r| >= 1
    ensures forall i :: 0 <= i < |r| ==> IsDigit(r[i])
    ensures |r| > 1 ==> r[0] != '0'
  {
    if n < 10 then [DigitChar(n)] else NatToString(n / 10) + [DigitChar(n % 10)]
  }

  /** Decimal digits as `%d` writes them: at least one, and no leading zero. */
  predicate CanonicalDigits(d: string)
  {
    d != [] && (forall i :: 0 <= i < |d| ==> IsDigit(d[i])) && (|d| > 1 ==> d[0] != '0')
  }

  /** `printf("%d", n)`: a minus sign for negative values, then the digits. */
  function IntToString(n: int): (r: string)
    ensures r != [] && !IsSpace(r[0]) && r[0] != '+'
  {
    if n < 0 then "-" + NatToString(-n) else NatToString(n)
  }

  /** What `%d` writes after the optional minus sign is canonical decimal:
      no "-0", no "05", no "-05". */
  lemma IntToStringCanonical(n: int)
    ensures IntToString(n)[0] == '-' <==> n < 0
    ensures var r := IntToString(n);
      CanonicalDigits(if n < 0 then r[1..] else r)
  {
    if n < 0 {
      assert IntToString(n)[1..] == NatToString(-n);
    }
  }

  lemma {:induction false} DigitsValueOfNatToString(n: nat)
    ensures DigitsValue(NatToString(n)) == n
  {
    var r := NatToString(n);
    if n >= 10 {
      assert r[..|r| - 1] == NatToString(n / 10);
      DigitsValueOfNatToString(n / 10);
    }
  }

  lemma {:induction false} LeadingDigitsOfDigits(ds: string, rest: string)
    requires forall i :: 0 <= i < |ds| ==> IsDigit(ds[i])
    requires rest == [] || !IsDigit(rest[0])
    ensures LeadingDigits(ds + rest) == ds
  {
    if ds != [] {
      assert (ds + rest)[1..] == ds[1..] + rest;
      LeadingDigitsOfDigits(ds[1..], rest);
    } else {
      assert ds + rest == rest;
    }
  }

  lemma AtoiOfDigits(digits: string, rest: string)
    requires digits != [] && forall i :: 0 <= i < |digits| ==> IsDigit(digits[i])
    requires rest == [] || !IsDigit(rest[0])
    ensures Atoi(digits + rest) == DigitsValue(digits)
  {
    var s := digits + rest;
    assert s[0] == digits[0];
    AtoiOfUnsigned(s);
    LeadingDigitsOfDigits(digits, rest);
  }

  /** Text that starts with a digit is read without white space or sign. */
  lemma AtoiOfUnsigned(s: string)
    requires s != [] && IsDigit(s[0])
    ensures Atoi(s) == DigitsValue(LeadingDigits(s))
  {
    assert SkipSpace(s) == s by {
      assert !IsSpace(s[0]);
    }
  }

  /** A sign at the head of the text decides the sign of the result and
      the digits after it its magnitude. */
  lemma AtoiAfterSign(sign: char, tail: string)
    requires sign == '-' || sign == '+'
    ensures Atoi([sign] + tail)
         == if sign == '-' then -(DigitsValue(LeadingDigits(tail)) as int) else DigitsValue(LeadingDigits(tail))
  {
    var s := [sign] + tail;
    assert s[0] == sign && s[1..] == tail;
    assert SkipSpace(s) == s by {
      assert !IsSpace(s[0]);
    }
  }

  lemma AtoiOfNegativeDigits(digits: string, rest: string)
    requires forall i :: 0 <= i < |digits| ==> IsDigit(digits[i])
    requires rest == [] || !IsDigit(rest[0])
    ensures Atoi("-" + (digits + rest)) == -(DigitsValue(digits) as int)
  {
    AtoiAfterSign('-', digits + rest);
    LeadingDigitsOfDigits(digits, rest);
  }

  lemma AtoiOfPositiveDigits(digits: string, rest: string)
    requires forall i :: 0 <= i < |digits| ==> IsDigit(digits[i])
    requires rest == [] || !IsDigit(rest[0])
    ensures Atoi("+" + (digits + rest)) == DigitsValue(digits)
  {
    AtoiAfterSign('+', digits + rest);
    LeadingDigitsOfDigits(digits, rest);
  }

  /** Blanks in front of text that starts with a non-blank are all skipped. */
  lemma {:induction false} SkipSpaceOfBlanks(ws: string, t: string)
    requires forall i :: 0 <= i < |ws| ==> IsSpace(ws[i])
    requires t == [] || !IsSpace(t[0])
    ensures SkipSpace(ws + t) == t
  {
    if ws == [] {
      assert ws + t == t;
    } else {
      assert (ws + t)[1..] == ws[1..] + t;
      SkipSpaceOfBlanks(ws[1..], t);
    }
  }

  /** `atoi` in general: any blanks, an optional sign, the digits (leading
      zeros included), then text that does not continue the number. A sign
      may stand before no digits at all, which reads as 0. */
  lemma AtoiOfNumber(ws: string, sign: string, digits: string, rest: string)
    requires forall i :: 0 <= i < |ws| ==> IsSpace(ws[i])
    requires sign == [] || sign == "-" || sign == "+"
    requires forall i :: 0 <= i < |digits| ==> IsDigit(digits[i])
    requires rest == [] || !IsDigit(rest[0])
    requires sign == [] ==> digits != []
    ensures Atoi(ws + (sign + (digits + rest)))
         == if sign == "-" then -(DigitsValue(digits) as int) else DigitsValue(digits)
  {
    var t := sign + (digits + rest);
    assert t[0] == if sign == [] then digits[0] else sign[0];
    AtoiSkipsBlanks(ws, t);
    AtoiOfSigned(sign, digits, rest);
  }

  /** The same without the blanks. */
  lemma AtoiOfSigned(sign: string, digits: string, rest: string)
    requires sign == [] || sign == "-" || sign == "+"
    requires forall i :: 0 <= i < |digits| ==> IsDigit(digits[i])
    requires rest == [] || !IsDigit(rest[0])
    requires sign == [] ==> digits != []
    ensures Atoi(sign + (digits + rest))
         == if sign == "-" then -(DigitsValue(digits) as int) else DigitsValue(digits)
  {
    if sign == "-" {
      AtoiOfNegativeDigits(digits, rest);
    } else if sign == "+" {
      AtoiOfPositiveDigits(digits, rest);
    } else {
      assert sign + (digits + rest) == digits + rest;
      AtoiOfDigits(digits, rest);
    }
  }

  /** Leading blanks do not change what `atoi` reads. */
  lemma AtoiSkipsBlanks(ws: string, t: string)
    requires forall i :: 0 <= i < |ws| ==> IsSpace(ws[i])
    requires t != [] && !IsSpace(t[0])
    ensures Atoi(ws + t) == Atoi(t)
  {
    SkipSpaceOfBlanks(ws, t);
    assert SkipSpace(t) == t;
  }

  /** Leading zeros do not change the value of a digit string, so "05" reads as 5. */
  lemma {:induction false} DigitsValueLeadingZero(ds: string)
    requires forall i :: 0 <= i < |ds| ==> IsDigit(ds[i])
    ensures DigitsValue("0" + ds) == DigitsValue(ds)
  {
    var z := "0" + ds;
    if ds == [] {
      assert z[..0] == [];
    } else {
      assert z[..|z| - 1] == "0" + ds[..|ds| - 1];
      DigitsValueLeadingZero(ds[..|ds| - 1]);
    }
  }

  /** Reading back what `%d` printed gives the number again, whatever follows
      it, so long as the next character is not a digit. */
  lemma AtoiOfIntToString(n: int, rest: string)
    requires rest == [] || !IsDigit(rest[0])
    ensures Atoi(IntToString(n) + rest) == n
  {
    if n < 0 {
      AppendAssoc("-", NatToString(-n), rest);
      AtoiOfNatToString(-n, "-", rest);
    } else {
      AtoiOfNatToString(n, "", rest);
      assert "" + (NatToString(n) + rest) == NatToString(n) + rest;
    }
  }

  /** The digits of `m`, after an optional minus sign, read back as `m` or `-m`. */
  lemma AtoiOfNatToString(m: nat, sign: string, rest: string)
    requires sign == [] || sign == "-"
    requires rest == [] || !IsDigit(rest[0])
    ensures Atoi(sign + (NatToString(m) + rest)) == if sign == [] then m as int else -(m as int)
  {
    AtoiOfSigned(sign, NatToString(m), rest);
    DigitsValueOfNatToString(m);
  }

  /** Text with no digit after the blanks and the optional sign reads as 0:
      "", "x", " -", "+x" alike. */
  lemma AtoiOfNonNumeric(s: string)
    requires var t := SkipSpace(s);
      var u := if t != [] && (t[0] == '-' || t[0] == '+') then t[1..] else t;
      u == [] || !IsDigit(u[0])
    ensures Atoi(s) == 0
  {
  }
}
