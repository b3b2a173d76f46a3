/** The sidebar's D-day metric: the whole number of days until departure,
    shown as `D-n` before the trip and `D+n` from departure day on. */
module Sidebar {

  predicate IsDigit(c: char)
  {
    '0' <= c <= '9'
  }

  predicate AllDigits(s: string)
  {
    forall k :: 0 <= k < |s| ==> IsDigit(s[k])
  }

  /** Python's `str(n)` for a natural number: decimal, no leading zeros. */
  function Decimal(n: nat): (s: string)
    ensures |s| >= 1 && AllDigits(s)
    ensures |s| == 1 || s[0] != '0'
  {
    var last := (('0' as int) + n % 10) as char;
    if n < 10 then [last] else Decimal(n / 10) + [last]
  }

  /** Reads a string of decimal digits back as a number. */
  function ParseDecimal(s: string): nat
    requires AllDigits(s)
  {
    if |s| == 0 then 0
    else ParseDecimal(s[..|s| - 1]) * 10 + (s[|s| - 1] as int - '0' as int)
  }

  lemma {:induction false} DecimalRoundTrip(n: nat)
    ensures ParseDecimal(Decimal(n)) == n
  {
    var s := Decimal(n);
    if n >= 10 {
      assert s[..|s| - 1] == Decimal(n / 10);
      DecimalRoundTrip(n / 10);
    }
  }

  /** The metric's value for a day count `dDay` (departure date minus today). */
  function DDayLabel(dDay: int): (text: string)
    ensures |text| >= 3 && text[0] == 'D' && AllDigits(text[2..])
    ensures |text| == 3 || text[2] != '0'
    ensures text[1] == '-' <==> dDay > 0
    ensures text[1] == '+' <==> dDay <= 0
  {
    if dDay > 0 then "D-" + Decimal(dDay) else "D+" + Decimal(-dDay)
  }

  /** Reads a label back as a day count; `D+0` is departure day. */
  function ParseDDayLabel(text: string): int
    requires |text| >= 2 && AllDigits(text[2..])
  {
    var n: int := ParseDecimal(text[2..]);
    if text[1] == '-' then n else -n
  }

  /** Every day count gets its own label: reading it back gives the count. */
  lemma DDayLabelRoundTrip(dDay: int)
    ensures ParseDDayLabel(DDayLabel(dDay)) == dDay
  {
    var text := DDayLabel(dDay);
    if dDay > 0 {
      assert text[2..] == Decimal(dDay);
      DecimalRoundTrip(dDay);
    } else {
      assert text[2..] == Decimal(-dDay);
      DecimalRoundTrip(-dDay);
    }
  }
}
