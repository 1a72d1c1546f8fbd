/**
  The fixed-width unsigned integers of the firmware and the part of the
  Arduino `String` behaviour the core relies on: appending an unsigned
  number appends its decimal digits. `Split` is the reading side of a
  delimited reply, used to state what a reply carries.
 */
module ArduinoString {
  import opened Wrappers

  type uint8 = x: int | 0 <= x < 0x100
  type uint16 = x: int | 0 <= x < 0x1_0000
  type uint32 = x: int | 0 <= x < 0x1_0000_0000

  predicate IsDigit(c: char) {
    '0' <= c <= '9'
  }

  predicate AllDigits(s: string) {
    forall i :: 0 <= i < |s| ==> IsDigit(s[i])
  }

  function DigitValue(c: char): (d: nat)
    requires IsDigit(c)
    ensures d < 10
  {
    c as int - '0' as int
  }

  function DigitChar(d: nat): (c: char)
    requires d < 10
    ensures IsDigit(c) && DigitValue(c) == d
  {
    ('0' as int + d) as char
  }

  /** The characters `String::concat` appends for the unsigned number `n`:
      its decimal digits, most significant first, without leading zeros. */
  function Decimal(n: nat): (s: string)
    ensures 1 <= |s| && AllDigits(s)
    ensures (s[0] == '0') <==> (n == 0)
    ensures n == 0 ==> s == "0"
  {
    if n < 10 then [DigitChar(n)] else Decimal(n / 10) + [DigitChar(n % 10)]
  }

  /** The value of a string of decimal digits. */
  function ParseDecimal(s: string): (n: nat)
    requires AllDigits(s)
  {
    if s == [] then 0 else 10 * ParseDecimal(s[..|s| - 1]) + DigitValue(s[|s| - 1])
  }

  /** Reading back the digits of a number yields the number. */
  lemma {:induction false} DecimalRoundTrip(n: nat)
    ensures ParseDecimal(Decimal(n)) == n
  {
    if n >= 10 {
      var s := Decimal(n);
      DecimalRoundTrip(n / 10);
      assert s[..|s| - 1] == Decimal(n / 10);
    }
  }

  /** Different numbers are rendered differently. */
  lemma DecimalInjective(a: nat, b: nat)
    requires Decimal(a) == Decimal(b)
    ensures a == b
  {
    DecimalRoundTrip(a);
    DecimalRoundTrip(b);
  }

  /** The position of the first occurrence of `c` in `s`, if any. */
  function IndexOf<T(==)>(s: seq<T>, c: T): (r: Option<nat>)
    ensures r.Some? ==> r.value < |s| && s[r.value] == c && c !in s[..r.value]
    ensures r.None? ==> c !in s
  {
    if s == [] then None
    else if s[0] == c then Some(0)
    else match IndexOf(s[1..], c)
      case None => None
      case Some(i) =>
        assert s[..i + 1] == [s[0]] + s[1..][..i];
        Some(i + 1)
  }

  /** An occurrence with none before it is the first one. */
  lemma IndexOfFirst<T>(s: seq<T>, c: T, i: nat)
    requires i < |s| && s[i] == c && c !in s[..i]
    ensures IndexOf(s, c) == Some(i)
  {
    var r := IndexOf(s, c);
    assert s[..r.value + 1][r.value] == c;
    assert s[..i + 1][i] == c;
  }

  /** The fields of `s` between occurrences of `delim`, in order. */
  function Split(s: string, delim: char): (fields: seq<string>)
    ensures 1 <= |fields|
    ensures delim !in s ==> fields == [s]
    decreases |s|
  {
    match IndexOf(s, delim)
    case None => [s]
    case Some(i) => [s[..i]] + Split(s[i + 1..], delim)
  }

  /** A leading field free of the delimiter is split off exactly. */
  lemma SplitField(field: string, delim: char, rest: string)
    requires delim !in field
    ensures Split(field + [delim] + rest, delim) == [field] + Split(rest, delim)
  {
    var s := field + [delim] + rest;
    var k := |field|;
    assert s[..k] == field;
    assert s[k + 1..] == rest;
    FirstDelimiterAfterField(field, delim, rest);
  }

  /** The first delimiter after a field free of it is the one that ends it. */
  lemma {:induction false} FirstDelimiterAfterField(field: string, delim: char, rest: string)
    requires delim !in field
    ensures IndexOf(field + [delim] + rest, delim) == Some(|field|)
  {
    if field != [] {
      FirstDelimiterAfterField(field[1..], delim, rest);
      assert (field + [delim] + rest)[1..] == field[1..] + [delim] + rest;
    }
  }

  /** The digits of a number never contain a non-digit delimiter. */
  lemma DecimalHasNo(n: nat, delim: char)
    requires !IsDigit(delim)
    ensures delim !in Decimal(n)
  {
  }
}
