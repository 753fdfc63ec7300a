// Lease times are stored as text and compared as text. This module renders a
// UTC date-time the way the control plane does and says exactly when the text
// order is the order of the times.

module TimeText {

  /** Byte-wise text order, as SQLite compares TEXT columns. */
  predicate TextLess(a: string, b: string) {
    if b == "" then false
    else if a == "" then true
    else if a[0] != b[0] then a[0] < b[0]
    else TextLess(a[1..], b[1..])
  }

  datatype DateTime = DateTime(year: nat, month: nat, day: nat, hour: nat, minute: nat, second: nat, micro: nat)

  predicate IsLeap(y: nat) { y % 4 == 0 && (y % 100 != 0 || y % 400 == 0) }

  function DaysInMonth(y: nat, m: nat): nat {
    if m == 2 then (if IsLeap(y) then 29 else 28)
    else if m == 4 || m == 6 || m == 9 || m == 11 then 30
    else 31
  }

  predicate Valid(t: DateTime) {
    && 1 <= t.year <= 9999 && 1 <= t.month <= 12 && 1 <= t.day <= DaysInMonth(t.year, t.month)
    && t.hour < 24 && t.minute < 60 && t.second < 60 && t.micro < 1_000_000
  }

  /////// The time a date-time denotes

  function DaysBeforeYear(y: nat): int
    requires y >= 1
  {
    (y - 1) * 365 + (y - 1) / 4 - (y - 1) / 100 + (y - 1) / 400
  }

  function DaysBeforeMonth(y: nat, m: nat): nat
    requires 1 <= m <= 12
  {
    if m == 1 then 0 else DaysBeforeMonth(y, m - 1) + DaysInMonth(y, m - 1)
  }

  /** Whole seconds since the start of year 1. */
  function Seconds(t: DateTime): int
    requires Valid(t)
  {
    (((DaysBeforeYear(t.year) + DaysBeforeMonth(t.year, t.month) + t.day - 1) * 24 + t.hour) * 60 + t.minute) * 60
      + t.second
  }

  function Micros(t: DateTime): int
    requires Valid(t)
  {
    Seconds(t) * 1_000_000 + t.micro
  }

  /////// Rendering

  function Digits(n: nat, width: nat): (s: string)
    ensures |s| == width
  {
    if width == 0 then ""
    else Digits(n / 10, width - 1) + [('0' as int + n % 10) as char]
  }

  function SecondText(t: DateTime): string {
    Digits(t.year, 4) + ("-" + (Digits(t.month, 2) + ("-" + (Digits(t.day, 2) + ("T" + ClockText(t))))))
  }

  function ClockText(t: DateTime): string {
    Digits(t.hour, 2) + (":" + (Digits(t.minute, 2) + (":" + Digits(t.second, 2))))
  }

  function FractionText(t: DateTime): string {
    if t.micro == 0 then "Z" else "." + (Digits(t.micro, 6) + "Z")
  }

  /** isoformat() with +00:00 replaced by Z: no fraction when it is zero. */
  function UtcText(t: DateTime): string {
    SecondText(t) + FractionText(t)
  }

  /////// Text order of fixed-width pieces

  lemma {:induction false} ConcatOrder(a: string, a': string, b: string, b': string)
    requires |a| == |a'|
    ensures TextLess(a + b, a' + b') <==> TextLess(a, a') || (a == a' && TextLess(b, b'))
  {
    if a == "" {
      assert a + b == b && a' + b' == b';
    } else {
      assert (a + b)[1..] == a[1..] + b && (a' + b')[1..] == a'[1..] + b';
      assert a == [a[0]] + a[1..] && a' == [a'[0]] + a'[1..];
      ConcatOrder(a[1..], a'[1..], b, b');
    }
  }

  function Pow10(w: nat): nat { if w == 0 then 1 else 10 * Pow10(w - 1) }

  lemma {:induction false} DigitsOrder(n: nat, m: nat, w: nat)
    requires n < Pow10(w) && m < Pow10(w)
    ensures TextLess(Digits(n, w), Digits(m, w)) <==> n < m
    ensures Digits(n, w) == Digits(m, w) <==> n == m
  {
    if w != 0 {
      DigitsOrder(n / 10, m / 10, w - 1);
      var c, d := [('0' as int + n % 10) as char], [('0' as int + m % 10) as char];
      ConcatOrder(Digits(n / 10, w - 1), Digits(m / 10, w - 1), c, d);
      assert TextLess(c, d) <==> n % 10 < m % 10;
      assert Digits(n, w)[..w - 1] == Digits(n / 10, w - 1) && Digits(m, w)[..w - 1] == Digits(m / 10, w - 1);
      assert Digits(n, w)[w - 1] == c[0] && Digits(m, w)[w - 1] == d[0];
    }
  }

  /** A numeric field followed by the same separator and a rest. */
  lemma FieldOrder(n: nat, m: nat, w: nat, sep: string, rest: string, rest': string)
    requires n < Pow10(w) && m < Pow10(w) && |sep| == 1
    ensures TextLess(Digits(n, w) + (sep + rest), Digits(m, w) + (sep + rest')) <==>
              n < m || (n == m && TextLess(rest, rest'))
    ensures Digits(n, w) + (sep + rest) == Digits(m, w) + (sep + rest') <==> n == m && rest == rest'
  {
    var x, y := Digits(n, w) + (sep + rest), Digits(m, w) + (sep + rest');
    DigitsOrder(n, m, w);
    ConcatOrder(Digits(n, w), Digits(m, w), sep + rest, sep + rest');
    ConcatOrder(sep, sep, rest, rest');
    Irreflexive(sep);
    assert x[..w] == Digits(n, w) && y[..w] == Digits(m, w) && x[w + 1..] == rest && y[w + 1..] == rest';
  }

  lemma {:induction false} Irreflexive(a: string)
    ensures !TextLess(a, a)
  {
    if a != "" { Irreflexive(a[1..]); }
  }

  lemma {:induction false} TextTotal(a: string, b: string)
    ensures a == b || TextLess(a, b) || TextLess(b, a)
  {
    if a != "" && b != "" && a[0] == b[0] { TextTotal(a[1..], b[1..]); }
  }

  lemma {:induction false} TextTransitive(a: string, b: string, c: string)
    requires TextLess(a, b) && TextLess(b, c)
    ensures TextLess(a, c)
  {
    if a != "" && a[0] == b[0] && b[0] == c[0] { TextTransitive(a[1..], b[1..], c[1..]); }
  }

  ghost predicate FieldsLess(s: DateTime, t: DateTime) {
    if s.year != t.year then s.year < t.year
    else if s.month != t.month then s.month < t.month
    else if s.day != t.day then s.day < t.day
    else ClockLess(s, t)
  }

  ghost predicate ClockLess(s: DateTime, t: DateTime) {
    if s.hour != t.hour then s.hour < t.hour
    else if s.minute != t.minute then s.minute < t.minute
    else s.second < t.second
  }

  ghost predicate SameSecondFields(s: DateTime, t: DateTime) {
    s.year == t.year && s.month == t.month && s.day == t.day && s.hour == t.hour && s.minute == t.minute
      && s.second == t.second
  }

  lemma Pow10Values()
    ensures Pow10(2) == 100 && Pow10(4) == 10_000 && Pow10(6) == 1_000_000
  {
    assert Pow10(3) == 1000 && Pow10(4) == 10_000 && Pow10(5) == 100_000;
  }

  lemma ClockTextOrder(s: DateTime, t: DateTime)
    requires Valid(s) && Valid(t)
    ensures TextLess(ClockText(s), ClockText(t)) <==> ClockLess(s, t)
    ensures ClockText(s) == ClockText(t) <==> s.hour == t.hour && s.minute == t.minute && s.second == t.second
    ensures |ClockText(s)| == |ClockText(t)|
  {
    Pow10Values();
    var s6, t6 := Digits(s.second, 2), Digits(t.second, 2);
    DigitsOrder(s.second, t.second, 2);
    var s5, t5 := Digits(s.minute, 2) + (":" + s6), Digits(t.minute, 2) + (":" + t6);
    FieldOrder(s.minute, t.minute, 2, ":", s6, t6);
    FieldOrder(s.hour, t.hour, 2, ":", s5, t5);
  }

  lemma SecondTextOrder(s: DateTime, t: DateTime)
    requires Valid(s) && Valid(t)
    ensures TextLess(SecondText(s), SecondText(t)) <==> FieldsLess(s, t)
    ensures SecondText(s) == SecondText(t) <==> SameSecondFields(s, t)
    ensures |SecondText(s)| == |SecondText(t)|
  {
    Pow10Values();
    var s4, t4 := ClockText(s), ClockText(t);
    ClockTextOrder(s, t);
    var s3, t3 := Digits(s.day, 2) + ("T" + s4), Digits(t.day, 2) + ("T" + t4);
    FieldOrder(s.day, t.day, 2, "T", s4, t4);
    var s2, t2 := Digits(s.month, 2) + ("-" + s3), Digits(t.month, 2) + ("-" + t3);
    FieldOrder(s.month, t.month, 2, "-", s3, t3);
    FieldOrder(s.year, t.year, 4, "-", s2, t2);
  }

  /////// The calendar is monotone

  lemma QuotientStep(n: nat)
    ensures (n + 1) / 4 == n / 4 + (if (n + 1) % 4 == 0 then 1 else 0)
    ensures (n + 1) / 100 == n / 100 + (if (n + 1) % 100 == 0 then 1 else 0)
    ensures (n + 1) / 400 == n / 400 + (if (n + 1) % 400 == 0 then 1 else 0)
  {
  }

  lemma YearStep(y: nat)
    requires y >= 1
    ensures DaysBeforeYear(y + 1) == DaysBeforeYear(y) + (if IsLeap(y) then 366 else 365)
  {
    QuotientStep(y - 1);
    CenturyYears(y);
  }

  lemma CenturyYears(y: nat)
    ensures (y % 400 == 0 ==> y % 100 == 0) && (y % 100 == 0 ==> y % 4 == 0)
  {
    if y % 400 == 0 { Hundreds(4 * (y / 400)); }
    if y % 100 == 0 { Fours(25 * (y / 100)); }
  }

  lemma Hundreds(k: nat)
    ensures (100 * k) % 100 == 0
  {
  }

  lemma Fours(k: nat)
    ensures (4 * k) % 4 == 0
  {
  }

  lemma {:induction false} YearOrder(y: nat, z: nat)
    requires 1 <= y < z
    ensures DaysBeforeYear(y) + (if IsLeap(y) then 366 else 365) <= DaysBeforeYear(z)
    decreases z - y
  {
    YearStep(y);
    if z > y + 1 { YearOrder(y + 1, z); }
  }

  lemma {:induction false} MonthOrder(y: nat, m: nat, n: nat)
    requires 1 <= m < n <= 12
    ensures DaysBeforeMonth(y, m) + DaysInMonth(y, m) <= DaysBeforeMonth(y, n)
    decreases n
  {
    if n > m + 1 { MonthOrder(y, m, n - 1); }
  }

  lemma YearLength(y: nat, m: nat)
    requires 1 <= m <= 12
    ensures DaysBeforeMonth(y, m) + DaysInMonth(y, m) <= (if IsLeap(y) then 366 else 365)
  {
    if m < 12 { MonthOrder(y, m, 12); }
    assert DaysBeforeMonth(y, 3) == DaysInMonth(y, 1) + DaysInMonth(y, 2);
    assert DaysBeforeMonth(y, 6) == DaysBeforeMonth(y, 3) + 92;
    assert DaysBeforeMonth(y, 9) == DaysBeforeMonth(y, 6) + 92;
    assert DaysBeforeMonth(y, 11) == DaysBeforeMonth(y, 9) + 61;
  }

  function DayNumber(t: DateTime): int
    requires Valid(t)
  {
    DaysBeforeYear(t.year) + DaysBeforeMonth(t.year, t.month) + t.day
  }

  lemma DayOrder(s: DateTime, t: DateTime)
    requires Valid(s) && Valid(t)
    requires s.year < t.year || (s.year == t.year && (s.month < t.month || (s.month == t.month && s.day < t.day)))
    ensures DayNumber(s) < DayNumber(t)
  {
    if s.year < t.year {
      YearOrder(s.year, t.year);
      YearLength(s.year, s.month);
    } else if s.month < t.month {
      MonthOrder(s.year, s.month, t.month);
    }
  }

  lemma SecondsOrder(s: DateTime, t: DateTime)
    requires Valid(s) && Valid(t)
    ensures FieldsLess(s, t) ==> Seconds(s) < Seconds(t)
    ensures SameSecondFields(s, t) ==> Seconds(s) == Seconds(t)
  {
    if s.year < t.year || (s.year == t.year && (s.month < t.month || (s.month == t.month && s.day < t.day))) {
      DayOrder(s, t);
    }
  }

  /////// Main results

  lemma FractionOrder(s: DateTime, t: DateTime)
    requires Valid(s) && Valid(t)
    ensures TextLess(FractionText(s), FractionText(t)) <==>
            if (s.micro == 0) == (t.micro == 0) then s.micro < t.micro else t.micro == 0
  {
    Pow10Values();
    if s.micro == 0 || t.micro == 0 {
      assert FractionText(s)[0] == (if s.micro == 0 then 'Z' else '.');
      assert FractionText(t)[0] == (if t.micro == 0 then 'Z' else '.');
      if s.micro == t.micro { Irreflexive("Z"); }
    } else {
      DigitsOrder(s.micro, t.micro, 6);
      Irreflexive("."); Irreflexive("Z");
      ConcatOrder(".", ".", Digits(s.micro, 6) + "Z", Digits(t.micro, 6) + "Z");
      ConcatOrder(Digits(s.micro, 6), Digits(t.micro, 6), "Z", "Z");
    }
  }

  /** Exactly how rendered times compare. */
  lemma UtcTextOrder(s: DateTime, t: DateTime)
    requires Valid(s) && Valid(t)
    ensures TextLess(UtcText(s), UtcText(t)) <==>
            if Seconds(s) != Seconds(t) then Seconds(s) < Seconds(t)
            else if (s.micro == 0) == (t.micro == 0) then s.micro < t.micro
            else t.micro == 0
  {
    SecondTextOrder(s, t);
    ConcatOrder(SecondText(s), SecondText(t), FractionText(s), FractionText(t));
    FractionOrder(s, t);
    SecondsOrder(s, t);
    SecondsOrder(t, s);
  }

  /** Text order is time order except inside one second when exactly one fraction is zero. */
  lemma TextOrderIsTimeOrder(s: DateTime, t: DateTime)
    requires Valid(s) && Valid(t)
    ensures (TextLess(UtcText(s), UtcText(t)) <==> Micros(s) < Micros(t)) <==>
            !(Seconds(s) == Seconds(t) && (s.micro == 0) != (t.micro == 0))
  {
    UtcTextOrder(s, t);
  }
}
