/** String helpers the validators rely on: Python's `str.lower()` restricted to
    ASCII letters, and the integer reading that Django applies to an id given as a
    string (a `ValueError` when the string is not an integer). */
module Text {

  predicate IsUpper(c: char) { 'A' <= c <= 'Z' }

  /** One character of `str.lower()`: ASCII capitals map to their small letters. */
  function LowerChar(c: char): (l: char)
    ensures !IsUpper(l)
    ensures IsUpper(c) ==> l as int == c as int + 32
    ensures !IsUpper(c) ==> l == c
  {
    if IsUpper(c) then (c as int + 32) as char else c
  }

  /** `s.lower()` on ASCII text. */
  function ToLower(s: string): (r: string)
    ensures |r| == |s|
    ensures forall i :: 0 <= i < |s| ==> r[i] == LowerChar(s[i])
    ensures forall i :: 0 <= i < |r| ==> !IsUpper(r[i])
  {
    if s == [] then [] else [LowerChar(s[0])] + ToLower(s[1..])
  }

  predicate IsDigit(c: char) { '0' <= c <= '9' }

  /** A non-empty run of decimal digits. */
  predicate IsNumeral(s: string)
  {
    |s| > 0 && forall i :: 0 <= i < |s| ==> IsDigit(s[i])
  }

  /** `int(s)` succeeds: an optional sign followed by decimal digits. */
  function ParsesAsInt(s: string): (ok: bool)
    ensures ok ==> |s| > 0 && IsDigit(s[|s| - 1])
    ensures ok ==> forall i :: 0 < i < |s| ==> IsDigit(s[i])
    ensures ok && !IsDigit(s[0]) ==> s[0] == '+' || s[0] == '-'
    ensures (|s| > 0 && IsDigit(s[|s| - 1]) && (IsDigit(s[0]) || s[0] == '+' || s[0] == '-') &&
             forall i :: 0 < i < |s| ==> IsDigit(s[i])) ==> ok
  {
    if |s| > 0 && (s[0] == '+' || s[0] == '-') then IsNumeral(s[1..]) else IsNumeral(s)
  }

  function DigitValue(c: char): (d: nat)
    requires IsDigit(c)
    ensures d < 10
  {
    c as int - '0' as int
  }

  /** The value of a run of decimal digits, most significant first. */
  function NumeralValue(s: string): nat
    requires forall i :: 0 <= i < |s| ==> IsDigit(s[i])
  {
    if s == [] then 0 else 10 * NumeralValue(s[..|s| - 1]) + DigitValue(s[|s| - 1])
  }

  /** `int(s)` for a string that parses. */
  function ParseInt(s: string): (n: int)
    requires ParsesAsInt(s)
    ensures s[0] == '-' ==> n <= 0
    ensures s[0] != '-' ==> n >= 0
  {
    if s[0] == '-' then -(NumeralValue(s[1..]) as int)
    else if s[0] == '+' then NumeralValue(s[1..])
    else NumeralValue(s)
  }

  /** The decimal numeral of `n` without leading zeros (Python's `str(n)` for n >= 0). */
  function Numeral(n: nat): (s: string)
    ensures IsNumeral(s)
    ensures |s| > 1 ==> s[0] != '0'
  {
    (if n < 10 then "" else Numeral(n / 10)) + [('0' as int + n % 10) as char]
  }

  /** `str(n)` for any integer. */
  function ShowInt(n: int): string
  {
    if n < 0 then "-" + Numeral(-n) else Numeral(n)
  }

  lemma {:induction false} NumeralValueOfNumeral(n: nat)
    ensures NumeralValue(Numeral(n)) == n
  {
    var s := Numeral(n);
    if n >= 10 {
      assert s[..|s| - 1] == Numeral(n / 10);
      NumeralValueOfNumeral(n / 10);
    } else {
      assert s[..|s| - 1] == "";
    }
  }

  /** Round trip: every integer's decimal rendering parses back to the same integer. */
  lemma ParseShowInt(n: int)
    ensures ParsesAsInt(ShowInt(n))
    ensures ParseInt(ShowInt(n)) == n
  {
    var m: nat := if n < 0 then -n else n;
    NumeralValueOfNumeral(m);
    if n < 0 {
      assert ShowInt(n)[1..] == Numeral(m);
    }
  }

  /** A string with no digit at all never parses, so ids such as "abc" give `ValueError`. */
  lemma NoDigitsNoParse(s: string)
    requires forall i :: 0 <= i < |s| ==> !IsDigit(s[i])
    ensures !ParsesAsInt(s)
  {
    if |s| > 1 && (s[0] == '+' || s[0] == '-') {
      assert !IsDigit(s[1..][0]);
    }
  }
}
