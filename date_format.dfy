/** Go's time.Time.Format with the layout "01/02/2006", as the date criterion
    writes its bounds: two-digit month, two-digit day and four-digit year,
    each produced by the time package's appendInt (a '-' for a negative
    value, then the decimal digits left-padded with '0' to the width). */
module DateFormat {
  import opened Outcomes

  /** The calendar fields of a time.Time in its own location. */
  datatype Date = Date(year: int, month: int, day: int)

  predicate IsDigit(c: char)
  {
    '0' <= c <= '9'
  }

  function DigitChar(d: nat): (c: char)
    requires d < 10
    ensures IsDigit(c)
  {
    (('0' as int) + d) as char
  }

  function DigitValue(c: char): nat
    requires IsDigit(c)
  {
    (c as int) - ('0' as int)
  }

  /** The decimal digits of `n`, without leading zeros ("0" for zero). */
  function Decimal(n: nat): string
  {
    if n < 10 then [DigitChar(n)] else Decimal(n / 10) + [DigitChar(n % 10)]
  }

  lemma {:induction false} DecimalDigits(n: nat)
    ensures |Decimal(n)| >= 1 && AllDigits(Decimal(n))
  {
    if n >= 10 {
      DecimalDigits(n / 10);
    }
  }

  /** Left-pads `s` with '0' up to `width` characters. */
  function ZeroPad(s: string, width: nat): string
    decreases width - |s|
  {
    if |s| >= width then s else ZeroPad("0" + s, width)
  }

  /** The time package's appendInt(x, width). */
  function AppendInt(x: int, width: nat): string
  {
    (if x < 0 then "-" else "") + ZeroPad(Decimal(if x < 0 then -x else x), width)
  }

  /** The "01/02/2006" layout. */
  function Format(d: Date): string
  {
    AppendInt(d.month, 2) + "/" + AppendInt(d.day, 2) + "/" + AppendInt(d.year, 4)
  }

  /** A date whose year fits the four-digit field. */
  predicate IsFourDigitDate(d: Date)
  {
    1 <= d.month <= 12 && 1 <= d.day <= 31 && 0 <= d.year <= 9999
  }

  /** The value of a string of decimal digits. */
  function DigitsValue(s: string): nat
    requires forall i :: 0 <= i < |s| ==> IsDigit(s[i])
  {
    if s == [] then 0 else DigitsValue(s[..|s| - 1]) * 10 + DigitValue(s[|s| - 1])
  }

  predicate AllDigits(s: string)
  {
    forall i :: 0 <= i < |s| ==> IsDigit(s[i])
  }

  /** Reads back a "MM/DD/YYYY" string. */
  function Parse(s: string): Option<Date>
  {
    if |s| == 10 && s[2] == '/' && s[5] == '/'
       && AllDigits(s[..2]) && AllDigits(s[3..5]) && AllDigits(s[6..])
    then Some(Date(DigitsValue(s[6..]), DigitsValue(s[..2]), DigitsValue(s[3..5])))
    else None
  }

  function Pow10(k: nat): nat
  {
    if k == 0 then 1 else 10 * Pow10(k - 1)
  }

  lemma {:induction false} DecimalValue(n: nat)
    ensures AllDigits(Decimal(n)) && DigitsValue(Decimal(n)) == n
  {
    DecimalDigits(n);
    if n >= 10 {
      DecimalValue(n / 10);
      var s := Decimal(n);
      assert s[..|s| - 1] == Decimal(n / 10);
    }
  }

  lemma {:induction false} DecimalLength(n: nat, k: nat)
    requires 1 <= k && n < Pow10(k)
    ensures |Decimal(n)| <= k
  {
    if n >= 10 {
      DecimalLength(n / 10, k - 1);
    }
  }

  /** Leading zeros do not change the value of a digit string. */
  lemma {:induction false} LeadingZeroValue(s: string)
    requires AllDigits(s)
    ensures AllDigits("0" + s) && DigitsValue("0" + s) == DigitsValue(s)
    decreases |s|
  {
    var t := "0" + s;
    if s != [] {
      LeadingZeroValue(s[..|s| - 1]);
      assert t[..|t| - 1] == "0" + s[..|s| - 1];
    } else {
      assert t[..|t| - 1] == [];
    }
  }

  lemma {:induction false} ZeroPadDigits(s: string, width: nat)
    requires AllDigits(s)
    ensures var p := ZeroPad(s, width);
      AllDigits(p) && DigitsValue(p) == DigitsValue(s) && |p| == if |s| >= width then |s| else width
    decreases width - |s|
  {
    if |s| < width {
      LeadingZeroValue(s);
      ZeroPadDigits("0" + s, width);
    }
  }

  /** appendInt of a value that fits the width gives exactly `width` digits
      that read back as the value. */
  lemma AppendIntFits(x: nat, width: nat)
    requires 1 <= width && x < Pow10(width)
    ensures var s := AppendInt(x, width);
      |s| == width && AllDigits(s) && DigitsValue(s) == x
  {
    DecimalLength(x, width);
    DecimalDigits(x);
    DecimalValue(x);
    ZeroPadDigits(Decimal(x), width);
    assert AppendInt(x, width) == ZeroPad(Decimal(x), width);
  }

  /** A four-digit-year date is written as ten characters "MM/DD/YYYY" that
      read back as the same date. */
  lemma FormatRoundTrip(d: Date)
    requires IsFourDigitDate(d)
    ensures |Format(d)| == 10
    ensures Parse(Format(d)) == Some(d)
  {
    var mm, dd, yyyy := AppendInt(d.month, 2), AppendInt(d.day, 2), AppendInt(d.year, 4);
    assert Pow10(1) == 10;
    assert Pow10(2) == 100;
    assert Pow10(4) == 10000 by { assert Pow10(3) == 1000; }
    AppendIntFits(d.month, 2);
    AppendIntFits(d.day, 2);
    AppendIntFits(d.year, 4);
    SlashedParts(mm, dd, yyyy);
  }

  lemma SlashedParts(mm: string, dd: string, yyyy: string)
    requires |mm| == 2 && |dd| == 2 && |yyyy| == 4
    requires AllDigits(mm) && AllDigits(dd) && AllDigits(yyyy)
    ensures var s := mm + "/" + dd + "/" + yyyy;
      |s| == 10 && Parse(s) == Some(Date(DigitsValue(yyyy), DigitsValue(mm), DigitsValue(dd)))
  {
    var s := mm + "/" + dd + "/" + yyyy;
    assert s[..2] == mm && s[3..5] == dd && s[6..] == yyyy;
    assert s[2] == '/' && s[5] == '/';
  }
}
