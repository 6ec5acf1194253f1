/** Conversion of decimal strings to Bengali digits (to_bengali_numeral),
    and the decimal rendering `str(n)` of a count that feeds it. */
module Numerals {

  /** The fixed ten-entry table from ASCII digits to Bengali digits (U+09E6..U+09EF). */
  const DigitTable: map<char, char> := map[
    '0' := '\U{09E6}', '1' := '\U{09E7}', '2' := '\U{09E8}', '3' := '\U{09E9}', '4' := '\U{09EA}',
    '5' := '\U{09EB}', '6' := '\U{09EC}', '7' := '\U{09ED}', '8' := '\U{09EE}', '9' := '\U{09EF}'
  ]

  predicate IsAsciiDigit(c: char) {
    '0' <= c <= '9'
  }

  predicate IsBengaliDigit(c: char) {
    '\U{09E6}' <= c <= '\U{09EF}'
  }

  /** `english_to_bengali.get(c, c)`: a digit is looked up, anything else is kept.
      The table agrees with the arithmetic reading "Bengali zero plus the digit's value". */
  function LocalizeChar(c: char): (r: char)
    ensures IsAsciiDigit(c) ==> IsBengaliDigit(r) && r as int - 0x09E6 == c as int - '0' as int
    ensures !IsAsciiDigit(c) ==> r == c
  {
    if c in DigitTable then DigitTable[c] else c
  }

  /** The inverse table: a Bengali digit goes back to its ASCII digit, anything else is kept. */
  function DelocalizeChar(c: char): (r: char)
    ensures IsBengaliDigit(c) ==> IsAsciiDigit(r) && LocalizeChar(r) == c
    ensures !IsBengaliDigit(c) ==> r == c
  {
    if IsBengaliDigit(c) then (c as int - 0x09E6 + '0' as int) as char else c
  }

  /** The string that to_bengali_numeral builds: one table lookup per character,
      appended left to right. */
  function ToBengali(s: string): (r: string)
    ensures |r| == |s|
    ensures forall i :: 0 <= i < |s| ==> r[i] == LocalizeChar(s[i])
  {
    if s == [] then [] else ToBengali(s[..|s| - 1]) + [LocalizeChar(s[|s| - 1])]
  }

  /** Maps every Bengali digit of `s` back to ASCII. */
  function FromBengali(s: string): (r: string)
    ensures |r| == |s|
    ensures forall i :: 0 <= i < |s| ==> r[i] == DelocalizeChar(s[i])
  {
    if s == [] then [] else FromBengali(s[..|s| - 1]) + [DelocalizeChar(s[|s| - 1])]
  }

  /** to_bengali_numeral: the loop that appends one looked-up character per input character. */
  method ToBengaliNumeral(numStr: string) returns (bengaliStr: string)
    ensures bengaliStr == ToBengali(numStr)
  {
    bengaliStr := "";
    for i := 0 to |numStr|
      invariant bengaliStr == ToBengali(numStr[..i])
    {
      assert numStr[..i + 1][..i] == numStr[..i];
      bengaliStr := bengaliStr + [LocalizeChar(numStr[i])];
    }
    assert numStr[..|numStr|] == numStr;
  }

  /** The conversion distributes over concatenation. */
  lemma {:induction false} ToBengaliAppend(a: string, b: string)
    ensures ToBengali(a + b) == ToBengali(a) + ToBengali(b)
  {
    if b != [] {
      var ab := a + b;
      assert ab[..|ab| - 1] == a + b[..|b| - 1];
      ToBengaliAppend(a, b[..|b| - 1]);
    } else {
      assert a + b == a;
    }
  }

  /** A string of ASCII digits becomes a string of Bengali digits with no ASCII digit left. */
  lemma DigitsBecomeBengaliDigits(s: string)
    requires forall i :: 0 <= i < |s| ==> IsAsciiDigit(s[i])
    ensures forall i :: 0 <= i < |s| ==> IsBengaliDigit(ToBengali(s)[i]) && !IsAsciiDigit(ToBengali(s)[i])
  {
  }

  /** No information is lost for inputs that do not already hold Bengali digits. */
  lemma {:induction false} FromBengaliToBengali(s: string)
    requires forall i :: 0 <= i < |s| ==> !IsBengaliDigit(s[i])
    ensures FromBengali(ToBengali(s)) == s
  {
    if s != [] {
      var t := ToBengali(s);
      assert t[..|t| - 1] == ToBengali(s[..|s| - 1]);
      FromBengaliToBengali(s[..|s| - 1]);
    }
  }

  /** The other direction: a string with no ASCII digit is the conversion of its ASCII form. */
  lemma {:induction false} ToBengaliFromBengali(t: string)
    requires forall i :: 0 <= i < |t| ==> !IsAsciiDigit(t[i])
    ensures ToBengali(FromBengali(t)) == t
  {
    if t != [] {
      var s := FromBengali(t);
      assert s[..|s| - 1] == FromBengali(t[..|t| - 1]);
      ToBengaliFromBengali(t[..|t| - 1]);
    }
  }

  /** The ASCII digit for a value below ten. */
  function DigitChar(d: nat): (c: char)
    requires d < 10
    ensures IsAsciiDigit(c) && c as int - '0' as int == d
  {
    ('0' as int + d) as char
  }

  /** Python's `str(n)` for a non-negative integer: shortest decimal form, no sign. */
  function DecimalString(n: nat): (s: string)
    ensures |s| >= 1
    ensures forall i :: 0 <= i < |s| ==> IsAsciiDigit(s[i])
    ensures |s| > 1 ==> s[0] != '0'
    decreases n
  {
    if n < 10 then [DigitChar(n)] else DecimalString(n / 10) + [DigitChar(n % 10)]
  }

  /** The value a string of ASCII digits denotes. */
  function DecimalValue(s: string): nat
    requires forall i :: 0 <= i < |s| ==> IsAsciiDigit(s[i])
  {
    if s == [] then 0 else DecimalValue(s[..|s| - 1]) * 10 + DigitValue(s[|s| - 1])
  }

  /** The value of one ASCII digit. */
  function DigitValue(c: char): (d: nat)
    requires IsAsciiDigit(c)
    ensures d < 10 && DigitChar(d) == c
  {
    c as int - '0' as int
  }

  /** `str(n)` is a faithful decimal rendering: reading it back gives n. */
  lemma {:induction false} DecimalRoundTrip(n: nat)
    ensures DecimalValue(DecimalString(n)) == n
    decreases n
  {
    var s := DecimalString(n);
    if n >= 10 {
      assert s[..|s| - 1] == DecimalString(n / 10);
      DecimalRoundTrip(n / 10);
    }
  }

  /** The numeral shown for a count, e.g. for the header of the paper. */
  function CountNumeral(n: nat): (numeral: string)
    ensures |numeral| == |DecimalString(n)|
    ensures forall i :: 0 <= i < |numeral| ==> IsBengaliDigit(numeral[i])
  {
    ToBengali(DecimalString(n))
  }

  /** The numeral of a count is made of Bengali digits only, is as long as `str(n)`,
      and determines the count. */
  lemma CountNumeralDeterminesCount(n: nat)
    ensures |CountNumeral(n)| == |DecimalString(n)|
    ensures forall i :: 0 <= i < |CountNumeral(n)| ==> IsBengaliDigit(CountNumeral(n)[i])
    ensures FromBengali(CountNumeral(n)) == DecimalString(n)
    ensures DecimalValue(FromBengali(CountNumeral(n))) == n
  {
    var s := DecimalString(n);
    DigitsBecomeBengaliDigits(s);
    FromBengaliToBengali(s);
    DecimalRoundTrip(n);
  }
}
