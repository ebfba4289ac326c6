/**
  Stamps are RFC 3339 texts compared as strings (controllers/reconcile_resources.go). For
  four-digit years at one offset, text order is time order, as section 5.1 of RFC 3339 says.
*/
module Timestamps {
  import opened Basics
  import opened Objects
  import opened Store
  import opened Names
  import Restart

  // ----------------------------------------------------------------- calendar

  datatype Civil = Civil(year: nat, month: nat, day: nat, hour: nat, minute: nat, second: nat)

  predicate LeapYear(y: nat) { y % 4 == 0 && (y % 100 != 0 || y % 400 == 0) }

  function YearLength(y: nat): nat { if LeapYear(y) then 366 else 365 }

  function MonthLength(y: nat, m: nat): nat {
    if m == 2 then (if LeapYear(y) then 29 else 28)
    else if m == 4 || m == 6 || m == 9 || m == 11 then 30
    else 31
  }

  predicate ValidDate(c: Civil) { 1 <= c.month <= 12 && 1 <= c.day <= MonthLength(c.year, c.month) }

  predicate Valid(c: Civil) { ValidDate(c) && c.year <= 9999 && c.hour < 24 && c.minute < 60 && c.second < 60 }

  function DaysBeforeYear(y: nat): nat { if y == 0 then 0 else DaysBeforeYear(y - 1) + YearLength(y - 1) }

  function DaysBeforeMonth(y: nat, m: nat): nat {
    if m <= 1 then 0 else DaysBeforeMonth(y, m - 1) + MonthLength(y, m - 1)
  }

  /** Seconds from the start of year 0 at this offset. */
  function Seconds(c: Civil): int {
    (DaysBeforeYear(c.year) + DaysBeforeMonth(c.year, c.month) + c.day) * 86400
    + c.hour * 3600 + c.minute * 60 + c.second
  }

  /** Chronological order read off the fields. */
  predicate Earlier(a: Civil, b: Civil) {
    if a.year != b.year then a.year < b.year
    else if a.month != b.month then a.month < b.month
    else if a.day != b.day then a.day < b.day
    else if a.hour != b.hour then a.hour < b.hour
    else if a.minute != b.minute then a.minute < b.minute
    else a.second < b.second
  }

  lemma {:induction false} YearsAddUp(y: nat, z: nat)
    requires y < z
    ensures DaysBeforeYear(y) + YearLength(y) <= DaysBeforeYear(z)
  {
    if y + 1 < z {
      YearsAddUp(y, z - 1);
    }
  }

  lemma {:induction false} MonthsAddUp(y: nat, m: nat, n: nat)
    requires 1 <= m < n
    ensures DaysBeforeMonth(y, m) + MonthLength(y, m) <= DaysBeforeMonth(y, n)
  {
    if m + 1 < n {
      MonthsAddUp(y, m, n - 1);
    }
  }

  lemma WholeYear(y: nat)
    ensures DaysBeforeMonth(y, 13) == YearLength(y)
  {
    assert DaysBeforeMonth(y, 4) == DaysBeforeMonth(y, 3) + 31 == DaysBeforeMonth(y, 2) + MonthLength(y, 2) + 31;
    assert DaysBeforeMonth(y, 7) == DaysBeforeMonth(y, 6) + 30 == DaysBeforeMonth(y, 5) + 61
        == DaysBeforeMonth(y, 4) + 91;
    assert DaysBeforeMonth(y, 10) == DaysBeforeMonth(y, 9) + 30 == DaysBeforeMonth(y, 8) + 61
        == DaysBeforeMonth(y, 7) + 92;
    assert DaysBeforeMonth(y, 13) == DaysBeforeMonth(y, 12) + 31 == DaysBeforeMonth(y, 11) + 61 ==
      DaysBeforeMonth(y, 10) + 92;
  }

  function DayNumber(c: Civil): nat { DaysBeforeYear(c.year) + DaysBeforeMonth(c.year, c.month) + c.day }

  lemma DaysOrdered(a: Civil, b: Civil)
    requires ValidDate(a) && ValidDate(b)
    requires a.year < b.year || (a.year == b.year && a.month < b.month)
    ensures DayNumber(a) < DayNumber(b)
  {
    MonthsAddUp(a.year, a.month, 13);
    WholeYear(a.year);
    if a.year < b.year {
      YearsAddUp(a.year, b.year);
    } else {
      MonthsAddUp(a.year, a.month, b.month);
    }
  }

  /** The fields order instants: of two valid times, the one with earlier fields has fewer seconds. */
  lemma FieldsOrderInstants(a: Civil, b: Civil)
    requires Valid(a) && Valid(b)
    ensures Earlier(a, b) <==> Seconds(a) < Seconds(b)
    ensures Seconds(a) == Seconds(b) <==> a == b
  {
    if a.year < b.year || (a.year == b.year && a.month < b.month) {
      DaysOrdered(a, b);
    } else if b.year < a.year || (a.year == b.year && b.month < a.month) {
      DaysOrdered(b, a);
    }
    hide DaysBeforeYear, DaysBeforeMonth;
    assert Seconds(a) == DayNumber(a) * 86400 + a.hour * 3600 + a.minute * 60 + a.second;
    assert Seconds(b) == DayNumber(b) * 86400 + b.hour * 3600 + b.minute * 60 + b.second;
  }

  // --------------------------------------------------- from seconds to fields

  /** Counts off whole years from year y on. */
  function YearFrom(days: nat, y: nat): (nat, nat)
    decreases days
  {
    if days < YearLength(y) then (y, days) else YearFrom(days - YearLength(y), y + 1)
  }

  /** Counts off whole months from month m on. */
  function MonthFrom(days: nat, y: nat, m: nat): (nat, nat)
    decreases days
  {
    if days < MonthLength(y, m) then (m, days) else MonthFrom(days - MonthLength(y, m), y, m + 1)
  }

  /** The fields of the instant that many seconds after the first second of year 0, day 1 of month 1. */
  function CivilOf(t: nat): Civil {
    var (year, rest) := YearFrom(t / 86400, 0);
    var (month, day) := MonthFrom(rest, year, 1);
    Civil(year, month, day + 1, t % 86400 / 3600, t % 3600 / 60, t % 60)
  }

  /** Seconds in the years 0 to 9999. */
  function Horizon(): nat { DaysBeforeYear(10000) * 86400 }

  lemma {:induction false} YearFromIs(days: nat, y: nat)
    ensures var (z, rest) := YearFrom(days, y);
            y <= z && rest < YearLength(z) && DaysBeforeYear(y) + days == DaysBeforeYear(z) + rest
    decreases days
  {
    if days >= YearLength(y) {
      YearFromIs(days - YearLength(y), y + 1);
    }
  }

  lemma {:induction false} MonthFromIs(days: nat, y: nat, m: nat)
    requires 1 <= m <= 12 && DaysBeforeMonth(y, m) + days < YearLength(y)
    ensures var (n, rest) := MonthFrom(days, y, m);
            m <= n <= 12 && rest < MonthLength(y, n) && DaysBeforeMonth(y, m) + days == DaysBeforeMonth(y, n) + rest
    decreases days
  {
    if days >= MonthLength(y, m) {
      assert DaysBeforeMonth(y, m + 1) == DaysBeforeMonth(y, m) + MonthLength(y, m);
      WholeYear(y);
      if m < 12 {
        MonthFromIs(days - MonthLength(y, m), y, m + 1);
      }
    }
  }

  /** Every second of the four-digit years has valid fields, and they stand for that second. */
  lemma CivilRoundTrip(t: nat)
    requires t < Horizon()
    ensures Valid(CivilOf(t)) && Seconds(CivilOf(t)) == t + 86400
  {
    var days := t / 86400;
    YearFromIs(days, 0);
    var (year, rest) := YearFrom(days, 0);
    MonthFromIs(rest, year, 1);
    WholeDays(t, DaysBeforeYear(10000));
    YearBelow(days, 10000);
    assert DaysBeforeMonth(year, 1) == 0 && DaysBeforeYear(0) == 0;
    hide DaysBeforeYear, DaysBeforeMonth, YearFrom, MonthFrom, MonthLength;
    ClockParts(t);
    var c := CivilOf(t);
    assert c.year == year && c.month == MonthFrom(rest, year, 1).0;
    assert ValidDate(c);
  }

  lemma WholeDays(t: nat, days: nat)
    requires t < days * 86400
    ensures t / 86400 < days
  {
  }

  lemma YearBelow(days: nat, z: nat)
    requires days < DaysBeforeYear(z)
    ensures YearFrom(days, 0).0 < z
  {
    YearFromIs(days, 0);
    var y := YearFrom(days, 0).0;
    if z < y {
      YearsAddUp(z, y);
    }
  }

  lemma ClockParts(t: nat)
    ensures t == t / 86400 * 86400 + t % 86400 / 3600 * 3600 + t % 3600 / 60 * 60 + t % 60
    ensures t % 86400 / 3600 < 24 && t % 3600 / 60 < 60
  {
    assert t % 86400 % 3600 == t % 3600;
    assert t % 3600 % 60 == t % 60;
  }

  // ------------------------------------------------------------------- texts

  function Pad2(n: nat): string
    requires n < 100
  {
    [Digit(n / 10), Digit(n % 10)]
  }

  function Pad4(n: nat): string
    requires n < 10000
  {
    Pad2(n / 100) + Pad2(n % 100)
  }

  /** time.RFC3339 at a fixed offset. */
  function Format(c: Civil, zone: string): string
    requires Valid(c)
  {
    Pad4(c.year) + ("-" + (Pad2(c.month) + ("-" + (Pad2(c.day) + ("T" +
      (Pad2(c.hour) + (":" + (Pad2(c.minute) + (":" + (Pad2(c.second) + zone))))))))))
  }

  /** Comparing concatenations of equally long prefixes compares the prefixes first. */
  lemma {:induction false} PrefixFirst(x: string, y: string, s: string, t: string)
    requires |x| == |y|
    ensures StringLess(x + s, y + t) <==> StringLess(x, y) || (x == y && StringLess(s, t))
    ensures x + s == y + t <==> x == y && s == t
  {
    if x == [] {
      assert x + s == s && y + t == t;
    } else {
      PrefixFirst(x[1..], y[1..], s, t);
      assert (x + s)[1..] == x[1..] + s && (y + t)[1..] == y[1..] + t;
      assert x == y <==> x[0] == y[0] && x[1..] == y[1..] by {
        assert x == [x[0]] + x[1..] && y == [y[0]] + y[1..];
      }
      assert x + s == [x[0]] + (x[1..] + s) && y + t == [y[0]] + (y[1..] + t);
    }
  }

  lemma {:induction false} NotLessItself(x: string)
    ensures !StringLess(x, x)
  {
    if x != [] {
      NotLessItself(x[1..]);
    }
  }

  /** Equal first parts drop out of a comparison. */
  lemma SamePart(x: string, s: string, t: string)
    ensures StringLess(x + s, x + t) <==> StringLess(s, t)
    ensures x + s == x + t <==> s == t
  {
    PrefixFirst(x, x, s, t);
    NotLessItself(x);
  }

  lemma DigitsOrdered(m: nat, n: nat)
    requires m < 10 && n < 10
    ensures Digit(m) < Digit(n) <==> m < n
    ensures Digit(m) == Digit(n) <==> m == n
  {
  }

  lemma Pad2Ordered(m: nat, n: nat)
    requires m < 100 && n < 100
    ensures StringLess(Pad2(m), Pad2(n)) <==> m < n
    ensures Pad2(m) == Pad2(n) <==> m == n
  {
    DigitsOrdered(m / 10, n / 10);
    DigitsOrdered(m % 10, n % 10);
    var x, y := Pad2(m), Pad2(n);
    hide Digit;
    assert x[0] == Digit(m / 10) && y[0] == Digit(n / 10) && x[1] == Digit(m % 10) && y[1] == Digit(n % 10);
    assert x[1..] == [Digit(m % 10)] && y[1..] == [Digit(n % 10)];
    assert x[1..][1..] == [] && y[1..][1..] == [];
    assert StringLess(x[1..], y[1..]) <==> m % 10 < n % 10;
  }

  lemma Pad4Ordered(m: nat, n: nat)
    requires m < 10000 && n < 10000
    ensures StringLess(Pad4(m), Pad4(n)) <==> m < n
    ensures Pad4(m) == Pad4(n) <==> m == n
  {
    hide Pad2, StringLess;
    Pad2Ordered(m / 100, n / 100);
    Pad2Ordered(m % 100, n % 100);
    PadLength(m / 100, n / 100);
    PrefixFirst(Pad2(m / 100), Pad2(n / 100), Pad2(m % 100), Pad2(n % 100));
  }

  lemma PadLength(m: nat, n: nat)
    requires m < 100 && n < 100
    ensures |Pad2(m)| == |Pad2(n)| == 2
  {
  }

  /** A two-digit field, a separator and the rest compare like the number, then the rest. */
  lemma FieldOrdered(m: nat, n: nat, sep: string, s: string, t: string)
    requires m < 100 && n < 100
    ensures StringLess(Pad2(m) + (sep + s), Pad2(n) + (sep + t)) <==> m < n || (m == n && StringLess(s, t))
    ensures Pad2(m) + (sep + s) == Pad2(n) + (sep + t) <==> m == n && s == t
  {
    hide Pad2, StringLess;
    Pad2Ordered(m, n);
    PadLength(m, n);
    PrefixFirst(Pad2(m), Pad2(n), sep + s, sep + t);
    SamePart(sep, s, t);
  }

  lemma LastOrdered(m: nat, n: nat, zone: string)
    requires m < 100 && n < 100
    ensures StringLess(Pad2(m) + zone, Pad2(n) + zone) <==> m < n
    ensures Pad2(m) + zone == Pad2(n) + zone <==> m == n
  {
    hide Pad2, StringLess;
    Pad2Ordered(m, n);
    PadLength(m, n);
    PrefixFirst(Pad2(m), Pad2(n), zone, zone);
    NotLessItself(zone);
  }

  function ClockText(c: Civil, zone: string): string
    requires Valid(c)
  {
    Pad2(c.hour) + (":" + (Pad2(c.minute) + (":" + (Pad2(c.second) + zone))))
  }

  lemma ClockOrdered(a: Civil, b: Civil, zone: string)
    requires Valid(a) && Valid(b)
    ensures StringLess(ClockText(a, zone), ClockText(b, zone)) <==>
              a.hour < b.hour
                || (a.hour == b.hour && (a.minute < b.minute || (a.minute == b.minute && a.second < b.second)))
    ensures ClockText(a, zone) == ClockText(b, zone) <==>
              a.hour == b.hour && a.minute == b.minute && a.second == b.second
  {
    hide Pad2, StringLess, ValidDate;
    var sa, sb := Pad2(a.second) + zone, Pad2(b.second) + zone;
    LastOrdered(a.second, b.second, zone);
    FieldOrdered(a.minute, b.minute, ":", sa, sb);
    FieldOrdered(a.hour, b.hour, ":", Pad2(a.minute) + (":" + sa), Pad2(b.minute) + (":" + sb));
  }

  /** Text order is field order, and equal texts have equal fields. */
  lemma TextOrdersFields(a: Civil, b: Civil, zone: string)
    requires Valid(a) && Valid(b)
    ensures StringLess(Format(a, zone), Format(b, zone)) <==> Earlier(a, b)
    ensures Format(a, zone) == Format(b, zone) <==> a == b
  {
    hide Pad2, Pad4, StringLess, ClockText;
    ClockOrdered(a, b, zone);
    var ca, cb := ClockText(a, zone), ClockText(b, zone);
    var da, db := Pad2(a.day) + ("T" + ca), Pad2(b.day) + ("T" + cb);
    var ma, mb := Pad2(a.month) + ("-" + da), Pad2(b.month) + ("-" + db);
    FieldOrdered(a.day, b.day, "T", ca, cb);
    FieldOrdered(a.month, b.month, "-", da, db);
    Pad4Ordered(a.year, b.year);
    YearWidth(a.year, b.year);
    PrefixFirst(Pad4(a.year), Pad4(b.year), "-" + ma, "-" + mb);
    SamePart("-", ma, mb);
    FormatIs(a, zone);
    FormatIs(b, zone);
  }

  lemma YearWidth(m: nat, n: nat)
    requires m < 10000 && n < 10000
    ensures |Pad4(m)| == |Pad4(n)|
  {
  }

  lemma FormatIs(c: Civil, zone: string)
    requires Valid(c)
    ensures Format(c, zone) == Pad4(c.year)
              + ("-" + (Pad2(c.month) + ("-" + (Pad2(c.day) + ("T" + ClockText(c, zone))))))
  {
  }

  // ------------------------------------------------------------------ stamps

  /** The stamp of an instant. */
  function StampOf(t: nat, zone: string): string
    requires t < Horizon()
  {
    CivilRoundTrip(t);
    Format(CivilOf(t), zone)
  }

  /** At one offset, comparing stamps as strings compares instants, and a stamp determines its second. */
  lemma StampsOrderInstants(s: nat, t: nat, zone: string)
    requires s < Horizon() && t < Horizon()
    ensures StringLess(StampOf(s, zone), StampOf(t, zone)) <==> s < t
    ensures StampOf(s, zone) == StampOf(t, zone) <==> s == t
  {
    CivilRoundTrip(s);
    CivilRoundTrip(t);
    hide Valid, Format, CivilOf, Horizon, Seconds;
    TextOrdersFields(CivilOf(s), CivilOf(t), zone);
    FieldsOrderInstants(CivilOf(s), CivilOf(t));
  }

  /** The restart decision on stamped objects is the decision on instants. */
  lemma RestartComparesInstants(o: Object, restarted: nat, changed: nat, zone: string)
    requires restarted < Horizon() && changed < Horizon()
    requires o.StatefulSet? && LAST_RESTART in o.spec.template.annotations
    requires o.spec.template.annotations[LAST_RESTART] == StampOf(restarted, zone)
    ensures Restart.RestartedAfter(o, StampOf(changed, zone)) <==> changed < restarted
  {
    hide Horizon, StampOf;
    StampsOrderInstants(changed, restarted, zone);
  }
}
