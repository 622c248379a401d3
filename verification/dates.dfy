/** Calendar dates of the proleptic Gregorian calendar (packages/domain/src/dates.ts). */
module Dates {

  /** A calendar day; `DateOnly` strings are modelled by the day they spell. */
  datatype Date = Date(year: int, month: int, day: int)

  predicate IsLeap(year: int) {
    year % 4 == 0 && (year % 100 != 0 || year % 400 == 0)
  }

  function DaysInMonth(year: int, month: int): (n: int)
    ensures 28 <= n <= 31
  {
    if month == 2 then (if IsLeap(year) then 29 else 28)
    else if month == 4 || month == 6 || month == 9 || month == 11 then 30
    else 31
  }

  predicate ValidDate(d: Date) {
    1 <= d.month <= 12 && 1 <= d.day <= DaysInMonth(d.year, d.month)
  }

  predicate IsDigit(c: char) {
    '0' <= c <= '9'
  }

  function DigitValue(c: char): int {
    c as int - '0' as int
  }

  function Digits(s: string): (n: int)
    decreases |s|
  {
    if s == [] then 0 else 10 * Digits(s[..|s| - 1]) + DigitValue(s[|s| - 1])
  }

  lemma {:induction false} TwoDigits(s: string)
    requires |s| == 2
    ensures Digits(s) == 10 * DigitValue(s[0]) + DigitValue(s[1])
  {
    assert s[..1][..0] == [];
    assert Digits(s[..1]) == DigitValue(s[0]);
  }

  lemma {:induction false} FourDigits(s: string)
    requires |s| == 4
    ensures Digits(s)
         == 1000 * DigitValue(s[0]) + 100 * DigitValue(s[1]) + 10 * DigitValue(s[2]) + DigitValue(s[3])
  {
    TwoDigits(s[..2]);
    assert s[..3][..2] == s[..2];
    assert Digits(s[..3]) == 10 * Digits(s[..2]) + DigitValue(s[2]);
  }

  /** `isDateOnly`: YYYY-MM-DD naming a real day. JavaScript's `Date.UTC` maps
      the years 0..99 to 1900..1999, so those years never round-trip. */
  predicate IsDateOnly(s: string) {
    && |s| == 10
    && s[4] == '-' && s[7] == '-'
    && (forall i | 0 <= i < 10 && i != 4 && i != 7 :: IsDigit(s[i]))
    && 100 <= Digits(s[..4])
    && ValidDate(Date(Digits(s[..4]), Digits(s[5..7]), Digits(s[8..])))
  }
}
