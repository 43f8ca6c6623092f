/**
  Wall-clock instants as the tools read them from `datetime.now()`, and the
  `strftime("%Y%m%d%H%M%S")` text that both key generators put at the front
  of a storage key.
 */
module Timestamps {

  datatype DateTime = DateTime(year: int, month: int, day: int, hour: int, minute: int, second: int)

  /** The field ranges of a `datetime`, for four-digit years. */
  predicate Valid(t: DateTime) {
    1000 <= t.year <= 9999 && 1 <= t.month <= 12 && 1 <= t.day <= 31
    && 0 <= t.hour <= 23 && 0 <= t.minute <= 59 && 0 <= t.second <= 59
  }

  predicate IsDigit(c: char) {
    '0' <= c <= '9'
  }

  function Pow10(n: nat): (p: nat)
    ensures p >= 1
  {
    if n == 0 then 1 else 10 * Pow10(n - 1)
  }

  function DigitChar(d: int): (c: char)
    requires 0 <= d <= 9
    ensures IsDigit(c) && c as int - '0' as int == d
  {
    ('0' as int + d) as char
  }

  /** `n` written in decimal, zero-padded to `width` digits, as `%02d` and `%Y` do. */
  function Pad(n: int, width: nat): (s: string)
    requires 0 <= n < Pow10(width)
    ensures |s| == width
  {
    if width == 0 then "" else Pad(n / 10, width - 1) + [DigitChar(n % 10)]
  }

  /** The number a string of decimal digits denotes. */
  function DigitsValue(s: string): int {
    if s == [] then 0 else DigitsValue(s[..|s| - 1]) * 10 + (s[|s| - 1] as int - '0' as int)
  }

  /** `strftime("%Y%m%d%H%M%S")`. */
  function Timestamp(t: DateTime): (s: string)
    requires Valid(t)
    ensures |s| == 14
  {
    Pad(t.year, 4) + Pad(t.month, 2) + Pad(t.day, 2) + Pad(t.hour, 2) + Pad(t.minute, 2) + Pad(t.second, 2)
  }

  /** Padding writes decimal digits only. */
  lemma {:induction false} PadDigits(n: int, width: nat)
    requires 0 <= n < Pow10(width)
    ensures forall i :: 0 <= i < width ==> IsDigit(Pad(n, width)[i])
  {
    if width > 0 {
      PadDigits(n / 10, width - 1);
      var s := Pad(n, width);
      assert forall i :: 0 <= i < width - 1 ==> s[i] == Pad(n / 10, width - 1)[i];
    }
  }

  /** A timestamp is fourteen decimal digits. */
  lemma TimestampDigits(t: DateTime)
    requires Valid(t)
    ensures forall i :: 0 <= i < 14 ==> IsDigit(Timestamp(t)[i])
  {
    PadDigits(t.year, 4);
    PadDigits(t.month, 2);
    PadDigits(t.day, 2);
    PadDigits(t.hour, 2);
    PadDigits(t.minute, 2);
    PadDigits(t.second, 2);
  }

  /** Reading back the padded digits gives the number. */
  lemma {:induction false} PadRoundTrip(n: int, width: nat)
    requires 0 <= n < Pow10(width)
    ensures DigitsValue(Pad(n, width)) == n
  {
    if width > 0 {
      PadRoundTrip(n / 10, width - 1);
      var s := Pad(n, width);
      assert s[..|s| - 1] == Pad(n / 10, width - 1);
    }
  }

  /** Each field of the instant can be read back from its slice of the timestamp. */
  lemma TimestampFields(t: DateTime)
    requires Valid(t)
    ensures DigitsValue(Timestamp(t)[0..4]) == t.year
    ensures DigitsValue(Timestamp(t)[4..6]) == t.month
    ensures DigitsValue(Timestamp(t)[6..8]) == t.day
    ensures DigitsValue(Timestamp(t)[8..10]) == t.hour
    ensures DigitsValue(Timestamp(t)[10..12]) == t.minute
    ensures DigitsValue(Timestamp(t)[12..14]) == t.second
  {
    var s := Timestamp(t);
    assert s[0..4] == Pad(t.year, 4);
    assert s[4..6] == Pad(t.month, 2);
    assert s[6..8] == Pad(t.day, 2);
    assert s[8..10] == Pad(t.hour, 2);
    assert s[10..12] == Pad(t.minute, 2);
    assert s[12..14] == Pad(t.second, 2);
    PadRoundTrip(t.year, 4);
    PadRoundTrip(t.month, 2);
    PadRoundTrip(t.day, 2);
    PadRoundTrip(t.hour, 2);
    PadRoundTrip(t.minute, 2);
    PadRoundTrip(t.second, 2);
  }

  /** Two instants with the same timestamp text are the same instant (to the second). */
  lemma TimestampInjective(t1: DateTime, t2: DateTime)
    requires Valid(t1) && Valid(t2)
    requires Timestamp(t1) == Timestamp(t2)
    ensures t1 == t2
  {
    TimestampFields(t1);
    TimestampFields(t2);
  }
}
