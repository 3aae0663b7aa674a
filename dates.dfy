/**
 * Calendar dates and Python's `strptime`/`strftime` with the format
 * '%d/%m/%Y', which every extractor uses.
 */
module Dates {
  import opened Wrappers
  import opened Text
  import opened Numbers

  datatype Date = Date(year: nat, month: nat, day: nat)

  predicate Leap(y: nat)
  {
    y % 4 == 0 && (y % 100 != 0 || y % 400 == 0)
  }

  function DaysIn(y: nat, m: nat): nat
  {
    if m == 2 then (if Leap(y) then 29 else 28)
    else if m == 4 || m == 6 || m == 9 || m == 11 then 30
    else 31
  }

  /** A date `datetime` accepts. */
  predicate Valid(d: Date)
  {
    1 <= d.year <= 9999 && 1 <= d.month <= 12 && 1 <= d.day <= DaysIn(d.year, d.month)
  }

  /** A date that exists, as every parsed date is. */
  type CalendarDate = d: Date | Valid(d) witness Date(2000, 1, 1)

  /** The `%d` field: two digits from 01 to 31, one digit from 1 to 9, or a blank and one digit. */
  function DayField(x: string): (r: Option<nat>)
    ensures r.Some? ==> 1 <= r.value <= 31
  {
    if |x| == 2 && IsDigit(x[0]) && IsDigit(x[1]) && 1 <= 10 * DigitVal(x[0]) + DigitVal(x[1]) <= 31 then
      Some(10 * DigitVal(x[0]) + DigitVal(x[1]))
    else if |x| == 1 && IsDigit(x[0]) && x[0] != '0' then Some(DigitVal(x[0]))
    else if |x| == 2 && x[0] == ' ' && IsDigit(x[1]) && x[1] != '0' then Some(DigitVal(x[1]))
    else None
  }

  /** The `%m` field: two digits from 01 to 12, or one digit from 1 to 9. */
  function MonthField(x: string): (r: Option<nat>)
    ensures r.Some? ==> 1 <= r.value <= 12
  {
    if |x| == 2 && IsDigit(x[0]) && IsDigit(x[1]) && 1 <= 10 * DigitVal(x[0]) + DigitVal(x[1]) <= 12 then
      Some(10 * DigitVal(x[0]) + DigitVal(x[1]))
    else if |x| == 1 && IsDigit(x[0]) && x[0] != '0' then Some(DigitVal(x[0]))
    else None
  }

  /** The `%Y` field: exactly four digits. */
  function YearField(x: string): (r: Option<nat>)
    ensures r.Some? ==> r.value <= 9999
  {
    if |x| == 4 && AllDigits(x) then
      Some(1000 * DigitVal(x[0]) + 100 * DigitVal(x[1]) + 10 * DigitVal(x[2]) + DigitVal(x[3]))
    else None
  }

  /**
   * `datetime.strptime(t, '%d/%m/%Y')`; `None` where Python raises. The whole
   * text must be consumed, and the date must exist.
   */
  function Strptime(t: string): (r: Option<Date>)
    ensures r.Some? ==> Valid(r.value)
  {
    var a := Find(t, "/");
    if a < 0 then None
    else
      var rest := t[a + 1..];
      var b := Find(rest, "/");
      if b < 0 then None
      else
        var d, m, y := DayField(t[..a]), MonthField(rest[..b]), YearField(rest[b + 1..]);
        if d.Some? && m.Some? && y.Some? && Valid(Date(y.value, m.value, d.value)) then
          Some(Date(y.value, m.value, d.value))
        else None
  }

  /** `d.strftime('%d/%m/%Y')`, with the year on four digits. */
  function Strftime(d: Date): string
    requires Valid(d)
  {
    Pad2(d.day) + "/" + Pad2(d.month) + "/" + Pad2(d.year / 100) + Pad2(d.year % 100)
  }

  lemma Pad2Fields(n: nat)
    requires 1 <= n <= 31
    ensures DayField(Pad2(n)) == Some(n)
    ensures n <= 12 ==> MonthField(Pad2(n)) == Some(n)
  {
  }

  /** Reading back what `Strftime` writes gives the same date. */
  lemma StrptimeStrftime(d: Date)
    requires Valid(d)
    ensures Strptime(Strftime(d)) == Some(d)
  {
    var ds, ms, ys := Pad2(d.day), Pad2(d.month), Pad2(d.year / 100) + Pad2(d.year % 100);
    var t := Strftime(d);
    assert t == ds + "/" + (ms + "/" + ys);
    DigitsNoSep(ds);
    DigitsNoSep(ms);
    SlashSplit(ds, ms + "/" + ys);
    SlashSplit(ms, ys);
    Pad2Fields(d.day);
    Pad2Fields(d.month);
    YearPad(d.year);
  }

  /** The first '/' of `a + "/" + b` when `a` has none: what comes before it is `a`, after it `b`. */
  lemma SlashSplit(a: string, b: string)
    requires '/' !in a
    ensures var t := a + "/" + b; Find(t, "/") == |a| && t[..|a|] == a && t[|a| + 1..] == b
  {
    FindFirst(a, '/', b);
    assert a + "/" + b == a + ['/'] + b;
  }

  /** `strptime` of a text with its two separators where they are expected reads the three fields between them. */
  lemma StrptimeSplit(a: string, b: string, c: string)
    requires '/' !in a && '/' !in b
    ensures var d, m, y := DayField(a), MonthField(b), YearField(c);
      Strptime(a + "/" + b + "/" + c) ==
        if d.Some? && m.Some? && y.Some? && Valid(Date(y.value, m.value, d.value)) then Some(Date(y.value, m.value, d.value)) else None
  {
    assert a + "/" + b + "/" + c == a + "/" + (b + "/" + c);
    SlashSplit(a, b + "/" + c);
    SlashSplit(b, c);
  }

  /** The year written on four digits reads back. */
  lemma YearPad(y: nat)
    requires 1 <= y <= 9999
    ensures YearField(Pad2(y / 100) + Pad2(y % 100)) == Some(y)
  {
  }

  /** Chronological order. */
  predicate NotAfter(a: Date, b: Date)
  {
    a.year < b.year || (a.year == b.year && (a.month < b.month || (a.month == b.month && a.day <= b.day)))
  }
}
