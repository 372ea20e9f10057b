/** Text operations of the Python runtime that the sound code relies on:
    ASCII case mapping (`str.lower`, `str.capitalize`), substring search
    (`in` on strings), `str.split` on one separator, `str(int)` and the
    decimal subset of `float(str)`. */
module Text {
  import opened Wrappers

  predicate IsUpper(c: char) { 'A' <= c <= 'Z' }
  predicate IsLower(c: char) { 'a' <= c <= 'z' }

  function LowerChar(c: char): char {
    if IsUpper(c) then (c as int + 32) as char else c
  }

  function UpperChar(c: char): char {
    if IsLower(c) then (c as int - 32) as char else c
  }

  /** `s.lower()` on a byte string: only ASCII letters change. */
  function Lower(s: string): string {
    seq(|s|, i requires 0 <= i < |s| => LowerChar(s[i]))
  }

  /** `s.capitalize()`: the first character upper case, the rest lower case. */
  function Capitalize(s: string): string {
    if s == [] then [] else [UpperChar(s[0])] + Lower(s[1..])
  }

  lemma UpperOfLower(c: char)
    ensures UpperChar(LowerChar(c)) == UpperChar(c)
  {
  }

  /** Capitalising depends only on the lower-cased text, so two spellings
      that differ only in case capitalise alike. */
  lemma CapitalizeIgnoresCase(s: string, s': string)
    requires Lower(s) == Lower(s')
    ensures Capitalize(s) == Capitalize(s')
  {
    assert |s| == |Lower(s)| == |Lower(s')| == |s'|;
    if s != [] {
      assert LowerChar(s[0]) == Lower(s)[0] == Lower(s')[0] == LowerChar(s'[0]);
      UpperOfLower(s[0]);
      UpperOfLower(s'[0]);
      assert Lower(s[1..]) == Lower(s'[1..]) by {
        forall i | 0 <= i < |s| - 1
          ensures Lower(s[1..])[i] == Lower(s'[1..])[i]
        {
          assert Lower(s[1..])[i] == LowerChar(s[i + 1]) == Lower(s)[i + 1];
          assert Lower(s'[1..])[i] == LowerChar(s'[i + 1]) == Lower(s')[i + 1];
        }
      }
    }
  }

  /** Text that starts with an upper-case letter and goes on in lower case
      is already capitalised. */
  lemma CapitalizedText(s: string)
    requires |s| > 0 && IsUpper(s[0]) && forall i :: 1 <= i < |s| ==> IsLower(s[i])
    ensures Capitalize(s) == s
  {
    assert Lower(s[1..]) == s[1..];
    assert [s[0]] + s[1..] == s;
  }

  /** `needle` occurs in `hay` starting at index `i`. */
  predicate OccursAt(hay: string, needle: string, i: int) {
    0 <= i && i + |needle| <= |hay| && hay[i..i + |needle|] == needle
  }

  /** `needle in hay` for Python strings. */
  predicate Contains(hay: string, needle: string) {
    exists i :: 0 <= i <= |hay| - |needle| && OccursAt(hay, needle, i)
  }

  /** Every string contains itself. */
  lemma ContainsItself(s: string)
    ensures Contains(s, s)
  {
    assert OccursAt(s, s, 0);
  }

  /** `s.split(sep)`: the pieces between occurrences of `sep`, at least one. */
  function Split(s: string, sep: char): (parts: seq<string>)
    ensures |parts| >= 1
    decreases |s|
  {
    if s == [] then [[]]
    else
      var rest := Split(s[1..], sep);
      if s[0] == sep then [[]] + rest else [[s[0]] + rest[0]] + rest[1..]
  }

  lemma {:induction false} SplitNoSeparator(a: string, sep: char)
    requires sep !in a
    ensures Split(a, sep) == [a]
    decreases |a|
  {
    if a != [] {
      SplitNoSeparator(a[1..], sep);
      assert [a[0]] + a[1..] == a;
    }
  }

  lemma {:induction false} SplitAtFirst(a: string, sep: char, b: string)
    requires sep !in a
    ensures Split(a + [sep] + b, sep) == [a] + Split(b, sep)
    decreases |a|
  {
    var s := a + [sep] + b;
    if a == [] {
      assert s[1..] == b;
    } else {
      assert s[1..] == a[1..] + [sep] + b;
      SplitAtFirst(a[1..], sep, b);
      assert [a[0]] + a[1..] == a;
    }
  }

  predicate IsDigit(c: char) { '0' <= c <= '9' }

  predicate AllDigits(s: string) {
    forall i :: 0 <= i < |s| ==> IsDigit(s[i])
  }

  function DigitChar(d: nat): (c: char)
    requires d < 10
    ensures IsDigit(c)
  {
    ('0' as int + d) as char
  }

  function DigitValue(c: char): nat
    requires IsDigit(c)
  {
    c as int - '0' as int
  }

  /** `str(n)` for a natural number: its decimal digits, most significant first. */
  function NatToDecimal(n: nat): (s: string)
    ensures |s| > 0 && AllDigits(s)
    decreases n
  {
    if n < 10 then [DigitChar(n)] else NatToDecimal(n / 10) + [DigitChar(n % 10)]
  }

  /** The value of a string of decimal digits (0 for the empty string). */
  function ParseNat(s: string): nat
    requires AllDigits(s)
    decreases |s|
  {
    if s == [] then 0 else ParseNat(s[..|s| - 1]) * 10 + DigitValue(s[|s| - 1])
  }

  lemma {:induction false} NatRoundTrip(n: nat)
    ensures ParseNat(NatToDecimal(n)) == n
    decreases n
  {
    var s := NatToDecimal(n);
    if n >= 10 {
      NatRoundTrip(n / 10);
      assert s[..|s| - 1] == NatToDecimal(n / 10);
    }
  }

  /** `str(n)` for an integer: a minus sign before the digits of a negative one. */
  function IntToDecimal(n: int): string {
    if n < 0 then "-" + NatToDecimal(-n) else NatToDecimal(n)
  }

  /** Text that `int()` and `str()` agree on: optional minus, then digits. */
  predicate IsIntText(s: string) {
    (|s| > 0 && AllDigits(s)) || (|s| > 1 && s[0] == '-' && AllDigits(s[1..]))
  }

  function ParseInt(s: string): int
    requires IsIntText(s)
  {
    if s[0] == '-' then -(ParseNat(s[1..]) as int) else ParseNat(s)
  }

  /** Formatting an integer and reading it back gives the integer, and the
      text is never a word such as "None". */
  lemma IntRoundTrip(n: int)
    ensures IsIntText(IntToDecimal(n))
    ensures ParseInt(IntToDecimal(n)) == n
    ensures IntToDecimal(n)[0] == '-' || IsDigit(IntToDecimal(n)[0])
  {
    var s := IntToDecimal(n);
    if n < 0 {
      assert s[1..] == NatToDecimal(-n);
      NatRoundTrip(-n);
    } else {
      NatRoundTrip(n);
    }
  }

  function Pow10(k: nat): (p: nat)
    ensures p > 0
  {
    if k == 0 then 1 else 10 * Pow10(k - 1)
  }

  /** The value `float(s)` gives for plain decimal text: an optional sign,
      digits, and an optional fraction after one '.', with at least one digit
      in all. Other text gives None. */
  function ParseDecimal(s: string): (r: Option<real>)
    ensures r.Some? ==> |s| > 0
  {
    if |s| > 0 && (s[0] == '-' || s[0] == '+') then
      match DecimalValue(Split(s[1..], '.'))
      case None => None
      case Some(v) => Some(if s[0] == '-' then -v else v)
    else
      DecimalValue(Split(s, '.'))
  }

  /** The value of unsigned decimal text split at its '.' characters. */
  function DecimalValue(parts: seq<string>): Option<real> {
    if |parts| == 0 || |parts| > 2 || !AllDigits(parts[0]) then None
    else if |parts| == 1 then
      if |parts[0]| == 0 then None else Some(ParseNat(parts[0]) as real)
    else if !AllDigits(parts[1]) || |parts[0]| + |parts[1]| == 0 then None
    else Some(ParseNat(parts[0]) as real + ParseNat(parts[1]) as real / Pow10(|parts[1]|) as real)
  }

  /** Whole numbers written in digits read as their value, so "440" is 440. */
  lemma ParseDecimalOfDigits(s: string)
    requires |s| > 0 && AllDigits(s)
    ensures ParseDecimal(s) == Some(ParseNat(s) as real)
  {
    assert forall i :: 0 <= i < |s| ==> s[i] != '.';
    SplitNoSeparator(s, '.');
    assert IsDigit(s[0]);
    assert DecimalValue([s]) == Some(ParseNat(s) as real);
  }
}
