/** The text form of stored times, `YYYY-MM-DDTHH:MM:SS[.ffffff]+00:00`, and why comparing the
    texts compares the instants, although a fraction of zero is left out. */
module IsoTime {

  /** A UTC date and time of the proleptic Gregorian calendar. */
  datatype Moment = Moment(year: nat, month: nat, day: nat, hour: nat, minute: nat, second: nat, micro: nat) {

    predicate Valid() {
      && 1 <= year <= 9999 && 1 <= month <= 12 && 1 <= day <= DaysInMonth(year, month)
      && hour < 24 && minute < 60 && second < 60 && micro < 1000000
    }
  }

  // ----- the calendar

  predicate Leap(year: nat) {
    year % 4 == 0 && (year % 100 != 0 || year % 400 == 0)
  }

  function DaysInMonth(year: nat, month: nat): nat {
    if month == 2 then (if Leap(year) then 29 else 28)
    else if month in {4, 6, 9, 11} then 30 else 31
  }

  function DaysBeforeYear(year: nat): nat
    requires year >= 1
  {
    var y := year - 1;
    y * 365 + y / 4 - y / 100 + y / 400
  }

  function DaysBeforeMonth(year: nat, month: nat): nat
    requires 1 <= month <= 13
  {
    if month == 1 then 0 else DaysBeforeMonth(year, month - 1) + DaysInMonth(year, month - 1)
  }

  function Ordinal(m: Moment): nat
    requires m.Valid()
  {
    DaysBeforeYear(m.year) + DaysBeforeMonth(m.year, m.month) + m.day
  }

  function MicroOfDay(m: Moment): nat {
    ((m.hour * 60 + m.minute) * 60 + m.second) * 1000000 + m.micro
  }

  /** Microseconds on one line, from an arbitrary origin. */
  function Instant(m: Moment): nat
    requires m.Valid()
  {
    Ordinal(m) * 86400000000 + MicroOfDay(m)
  }

  lemma Fourths(y: nat)
    ensures (y + 1) / 4 == y / 4 + (if (y + 1) % 4 == 0 then 1 else 0)
  {
  }

  lemma Centuries(y: nat)
    ensures (y + 1) / 100 == y / 100 + (if (y + 1) % 100 == 0 then 1 else 0)
  {
    var q, r := y / 100, y % 100;
    assert y + 1 == 100 * q + (r + 1);
  }

  lemma FourCenturies(y: nat)
    ensures (y + 1) / 400 == y / 400 + (if (y + 1) % 400 == 0 then 1 else 0)
  {
    var q, r := y / 400, y % 400;
    assert y + 1 == 400 * q + (r + 1);
  }

  lemma NoRemainder(k: int, r: nat)
    requires r == 4 * k && r < 4
    ensures r == 0
  {
  }

  lemma CenturiesAreFourths(y: nat)
    requires y % 100 == 0
    ensures y % 4 == 0
  {
    NoRemainder(25 * (y / 100) - y / 4, y % 4);
  }

  lemma NoCenturyRemainder(k: int, r: nat)
    requires r == 100 * k && r < 100
    ensures r == 0
  {
  }

  lemma FourCenturiesAreCenturies(y: nat)
    requires y % 400 == 0
    ensures y % 100 == 0
  {
    NoCenturyRemainder(4 * (y / 400) - y / 100, y % 100);
  }

  lemma YearLength(year: nat)
    requires year >= 1
    ensures DaysBeforeYear(year + 1) == DaysBeforeYear(year) + (if Leap(year) then 366 else 365)
  {
    Fourths(year - 1);
    Centuries(year - 1);
    FourCenturies(year - 1);
    if year % 100 == 0 {
      CenturiesAreFourths(year);
    }
    if year % 400 == 0 {
      FourCenturiesAreCenturies(year);
    }
  }

  lemma {:induction false} LaterYears(a: nat, b: nat)
    requires 1 <= a < b
    ensures DaysBeforeYear(a) + (if Leap(a) then 366 else 365) <= DaysBeforeYear(b)
    decreases b
  {
    if b == a + 1 {
      YearLength(a);
    } else {
      LaterYears(a, b - 1);
      YearLength(b - 1);
    }
  }

  lemma MonthTable(year: nat)
    ensures DaysBeforeMonth(year, 13) == if Leap(year) then 366 else 365
  {
    var leap := if Leap(year) then 1 else 0;
    assert DaysBeforeMonth(year, 2) == 31;
    assert DaysBeforeMonth(year, 3) == 59 + leap;
    assert DaysBeforeMonth(year, 4) == 90 + leap;
    assert DaysBeforeMonth(year, 5) == 120 + leap;
    assert DaysBeforeMonth(year, 6) == 151 + leap;
    assert DaysBeforeMonth(year, 7) == 181 + leap;
    assert DaysBeforeMonth(year, 8) == 212 + leap;
    assert DaysBeforeMonth(year, 9) == 243 + leap;
    assert DaysBeforeMonth(year, 10) == 273 + leap;
    assert DaysBeforeMonth(year, 11) == 304 + leap;
    assert DaysBeforeMonth(year, 12) == 334 + leap;
  }

  lemma {:induction false} LaterMonths(year: nat, a: nat, b: nat)
    requires 1 <= a < b <= 13
    ensures DaysBeforeMonth(year, a) + DaysInMonth(year, a) <= DaysBeforeMonth(year, b)
    decreases b
  {
    if b > a + 1 {
      LaterMonths(year, a, b - 1);
    }
  }

  predicate DateBefore(a: Moment, b: Moment) {
    a.year < b.year || (a.year == b.year && (a.month < b.month || (a.month == b.month && a.day < b.day)))
  }

  lemma EarlierDate(a: Moment, b: Moment)
    requires a.Valid() && b.Valid() && DateBefore(a, b)
    ensures Ordinal(a) < Ordinal(b)
  {
    if a.year < b.year {
      LaterYears(a.year, b.year);
      LaterMonths(a.year, a.month, 13);
      MonthTable(a.year);
    } else if a.month < b.month {
      LaterMonths(a.year, a.month, b.month);
    }
  }

  // ----- texts

  function Digit(d: nat): char
    requires d < 10
  {
    '0' + d as char
  }

  /** The decimal digits of `n`, padded with zeros to `width`. */
  function Pad(n: nat, width: nat): (s: string)
    ensures |s| == width
  {
    if width == 0 then "" else Pad(n / 10, width - 1) + [Digit(n % 10)]
  }

  /** Code-point order, the order of the database's text columns. */
  predicate Less(a: string, b: string) {
    b != [] && (a == [] || a[0] < b[0] || (a[0] == b[0] && Less(a[1..], b[1..])))
  }

  lemma {:induction false} LessConcat(x: string, y: string, u: string, v: string)
    requires |x| == |y|
    ensures Less(x + u, y + v) <==> Less(x, y) || (x == y && Less(u, v))
    ensures x + u == y + v <==> x == y && u == v
  {
    if x == [] {
      assert x + u == u && y + v == v;
    } else {
      LessConcat(x[1..], y[1..], u, v);
      assert (x + u)[1..] == x[1..] + u && (y + v)[1..] == y[1..] + v;
      assert x == [x[0]] + x[1..] && y == [y[0]] + y[1..];
      assert x + u == y + v ==> (x + u)[0] == (y + v)[0] && (x + u)[1..] == (y + v)[1..];
      assert x == y <==> x[0] == y[0] && x[1..] == y[1..];
    }
  }

  function Power10(n: nat): nat {
    if n == 0 then 1 else 10 * Power10(n - 1)
  }

  lemma {:induction false} PadOrder(a: nat, b: nat, width: nat)
    requires a < Power10(width) && b < Power10(width)
    ensures Less(Pad(a, width), Pad(b, width)) <==> a < b
    ensures Pad(a, width) == Pad(b, width) <==> a == b
  {
    if width > 0 {
      PadOrder(a / 10, b / 10, width - 1);
      LessConcat(Pad(a / 10, width - 1), Pad(b / 10, width - 1), [Digit(a % 10)], [Digit(b % 10)]);
      assert Less([Digit(a % 10)], [Digit(b % 10)]) <==> a % 10 < b % 10;
    }
  }

  /** One number field and the separator after it, with its width. */
  datatype Field = Field(value: nat, width: nat, separator: string)

  predicate SameShape(a: seq<Field>, b: seq<Field>) {
    && |a| == |b|
    && forall i :: 0 <= i < |a| ==>
         && a[i].width == b[i].width && a[i].separator == b[i].separator
         && a[i].value < Power10(a[i].width) && b[i].value < Power10(b[i].width)
  }

  function Render(fields: seq<Field>): string {
    if fields == [] then "" else Pad(fields[0].value, fields[0].width) + (fields[0].separator + Render(fields[1..]))
  }

  predicate FieldsBefore(a: seq<Field>, b: seq<Field>)
    requires |a| == |b|
  {
    a != [] && (a[0].value < b[0].value || (a[0].value == b[0].value && FieldsBefore(a[1..], b[1..])))
  }

  /** Texts of one shape compare as their numbers do, field by field. */
  lemma {:induction false} RenderOrder(a: seq<Field>, b: seq<Field>)
    requires SameShape(a, b)
    ensures |Render(a)| == |Render(b)|
    ensures Less(Render(a), Render(b)) <==> FieldsBefore(a, b)
    ensures Render(a) == Render(b) <==> a == b
  {
    if a != [] {
      RenderOrder(a[1..], b[1..]);
      PadOrder(a[0].value, b[0].value, a[0].width);
      var u, v := a[0].separator + Render(a[1..]), b[0].separator + Render(b[1..]);
      LessConcat(a[0].separator, b[0].separator, Render(a[1..]), Render(b[1..]));
      LessConcat(Pad(a[0].value, a[0].width), Pad(b[0].value, b[0].width), u, v);
      assert !Less(a[0].separator, b[0].separator) by { NotLessThanItself(a[0].separator); }
      assert a == [a[0]] + a[1..] && b == [b[0]] + b[1..];
    }
  }

  lemma {:induction false} NotLessThanItself(s: string)
    ensures !Less(s, s)
  {
    if s != [] {
      NotLessThanItself(s[1..]);
    }
  }

  function Fields(m: Moment): seq<Field> {
    [Field(m.year, 4, "-"), Field(m.month, 2, "-"), Field(m.day, 2, "T"),
     Field(m.hour, 2, ":"), Field(m.minute, 2, ":"), Field(m.second, 2, "")]
  }

  function Fraction(micro: nat): string {
    if micro == 0 then "" else "." + Pad(micro, 6)
  }

  /** The text of a moment; the fraction is left out when it is zero. */
  function Iso(m: Moment): string {
    Render(Fields(m)) + (Fraction(m.micro) + "+00:00")
  }

  function Two(n: nat): string
    requires n < 100
  {
    ["0123456789"[n / 10], "0123456789"[n % 10]]
  }

  lemma DigitIs(d: nat)
    requires d < 10
    ensures Digit(d) == "0123456789"[d]
  {
  }

  lemma PadByTwo(n: nat, width: nat)
    requires width >= 2
    ensures n % 100 < 100 && Pad(n, width) == Pad(n / 100, width - 2) + Two(n % 100)
  {
    DigitIs(n % 10);
    DigitIs(n / 10 % 10);
    hide Digit;
    assert n / 10 / 10 == n / 100 && n % 100 / 10 == n / 10 % 10 && n % 100 % 10 == n % 10;
    assert Pad(n, width) == Pad(n / 10, width - 1) + [Digit(n % 10)];
    assert Pad(n / 10, width - 1) == Pad(n / 100, width - 2) + [Digit(n / 10 % 10)];
  }

  lemma PadTwo(n: nat)
    requires n < 100
    ensures Pad(n, 2) == Two(n)
  {
    hide Two;
    PadByTwo(n, 2);
    assert n / 100 == 0 && n % 100 == n && Pad(0, 0) == "";
  }

  lemma PadFour(n: nat)
    requires n < 10000
    ensures n / 100 < 100 && Pad(n, 4) == Two(n / 100) + Two(n % 100)
  {
    hide Two, Pad;
    PadByTwo(n, 4);
    PadTwo(n / 100);
  }

  lemma PadSix(n: nat)
    requires n < 1000000
    ensures n / 100 / 100 < 100 && Pad(n, 6) == Two(n / 100 / 100) + Two(n / 100 % 100) + Two(n % 100)
  {
    hide Two, Pad;
    PadByTwo(n, 6);
    PadFour(n / 100);
  }

  /** Millionths, to six figures, unless there are none. */
  function Millionths(n: nat): string
    requires n < 1000000
  {
    if n == 0 then "" else "." + (Two(n / 100 / 100) + Two(n / 100 % 100) + Two(n % 100))
  }

  /** The text in figures: four for the year, two for everything else, six for a fraction that is not zero. */
  lemma IsoInFigures(m: Moment)
    requires m.Valid()
    ensures Iso(m) == Two(m.year / 100) + Two(m.year % 100) + "-" + Two(m.month) + "-" + Two(m.day) + "T" +
                      Two(m.hour) + ":" + Two(m.minute) + ":" + Two(m.second) + (Millionths(m.micro) + "+00:00")
  {
    hide Two, Pad, Fields, Render, DaysInMonth;
    PadFour(m.year);
    PadTwo(m.month);
    DayIsShort(m);
    PadTwo(m.day);
    PadTwo(m.hour);
    PadTwo(m.minute);
    PadTwo(m.second);
    PadSix(m.micro);
    FieldsRendered(m);
  }

  lemma DayIsShort(m: Moment)
    requires m.Valid()
    ensures m.day <= 31
  {
  }

  lemma FieldsRendered(m: Moment)
    ensures Render(Fields(m)) ==
            Pad(m.year, 4) + "-" + Pad(m.month, 2) + "-" + Pad(m.day, 2) + "T" + Pad(m.hour, 2) + ":" +
            Pad(m.minute, 2) + ":" + Pad(m.second, 2)
  {
    hide Pad;
    var f := Fields(m);
    assert Render(f[5..]) == Pad(m.second, 2);
    assert Render(f[4..]) == Pad(m.minute, 2) + (":" + Render(f[5..])) by { assert f[4..][1..] == f[5..]; }
    assert Render(f[3..]) == Pad(m.hour, 2) + (":" + Render(f[4..])) by { assert f[3..][1..] == f[4..]; }
    assert Render(f[2..]) == Pad(m.day, 2) + ("T" + Render(f[3..])) by { assert f[2..][1..] == f[3..]; }
    assert Render(f[1..]) == Pad(m.month, 2) + ("-" + Render(f[2..])) by { assert f[1..][1..] == f[2..]; }
    assert Render(f) == Pad(m.year, 4) + ("-" + Render(f[1..]));
  }

  /** The plus sign sorts before the point, so the missing fraction sorts as zero. */
  lemma FractionOrder(a: nat, b: nat)
    requires a < 1000000 && b < 1000000
    ensures Less(Fraction(a) + "+00:00", Fraction(b) + "+00:00") <==> a < b
    ensures Fraction(a) + "+00:00" == Fraction(b) + "+00:00" <==> a == b
  {
    var zone := "+00:00";
    assert Power10(6) == 1000000;
    PadOrder(a, b, 6);
    NotLessThanItself(zone);
    if a != 0 && b != 0 {
      LessConcat("." + Pad(a, 6), "." + Pad(b, 6), zone, zone);
      LessConcat(".", ".", Pad(a, 6), Pad(b, 6));
      NotLessThanItself(".");
    } else {
      assert "" + zone == zone && zone[0] == '+';
      assert a != 0 ==> (Fraction(a) + zone)[0] == '.';
      assert b != 0 ==> (Fraction(b) + zone)[0] == '.';
    }
  }

  // ----- the main result

  predicate ClockBefore(a: Moment, b: Moment) {
    a.hour < b.hour || (a.hour == b.hour && (a.minute < b.minute || (a.minute == b.minute && a.second < b.second)))
  }

  predicate SameDate(a: Moment, b: Moment) {
    a.year == b.year && a.month == b.month && a.day == b.day
  }

  predicate SameClock(a: Moment, b: Moment) {
    a.hour == b.hour && a.minute == b.minute && a.second == b.second
  }

  lemma FieldAt(s: seq<Field>, t: seq<Field>, i: nat)
    requires i < |s| == |t|
    ensures FieldsBefore(s[i..], t[i..]) <==>
            s[i].value < t[i].value || (s[i].value == t[i].value && FieldsBefore(s[i + 1..], t[i + 1..]))
  {
    assert s[i..][1..] == s[i + 1..] && t[i..][1..] == t[i + 1..];
  }

  lemma FieldsMean(a: Moment, b: Moment)
    ensures FieldsBefore(Fields(a), Fields(b)) <==> DateBefore(a, b) || (SameDate(a, b) && ClockBefore(a, b))
    ensures Fields(a) == Fields(b) <==> SameDate(a, b) && SameClock(a, b)
  {
    var s, t := Fields(a), Fields(b);
    assert s[0..] == s && t[0..] == t && !FieldsBefore(s[6..], t[6..]);
    FieldsEqual(a, b);
    hide FieldsBefore;
    FieldAt(s, t, 0);
    FieldAt(s, t, 1);
    FieldAt(s, t, 2);
    FieldAt(s, t, 3);
    FieldAt(s, t, 4);
    FieldAt(s, t, 5);
  }

  lemma FieldsEqual(a: Moment, b: Moment)
    ensures Fields(a) == Fields(b) <==> SameDate(a, b) && SameClock(a, b)
  {
    var s, t := Fields(a), Fields(b);
    if s == t {
      assert s[0] == t[0] && s[1] == t[1] && s[2] == t[2] && s[3] == t[3] && s[4] == t[4] && s[5] == t[5];
    }
  }

  predicate Before(a: Moment, b: Moment) {
    DateBefore(a, b) || (SameDate(a, b) && (ClockBefore(a, b) || (SameClock(a, b) && a.micro < b.micro)))
  }

  lemma TextOrder(a: Moment, b: Moment)
    requires a.Valid() && b.Valid()
    ensures Less(Iso(a), Iso(b)) <==> Before(a, b)
    ensures Iso(a) == Iso(b) <==> a == b
  {
    assert Power10(2) == 100 && Power10(4) == 10000;
    assert SameShape(Fields(a), Fields(b));
    hide Render, Fraction, Less, FieldsBefore, Power10, Pad;
    RenderOrder(Fields(a), Fields(b));
    FractionOrder(a.micro, b.micro);
    LessConcat(Render(Fields(a)), Render(Fields(b)), Fraction(a.micro) + "+00:00", Fraction(b.micro) + "+00:00");
    FieldsMean(a, b);
  }

  lemma InstantOrder(a: Moment, b: Moment)
    requires a.Valid() && b.Valid() && Before(a, b)
    ensures Instant(a) < Instant(b)
  {
    assert MicroOfDay(a) < 86400000000;
    if DateBefore(a, b) {
      EarlierDate(a, b);
    } else {
      assert MicroOfDay(a) < MicroOfDay(b);
    }
  }

  /** Comparing two stored texts compares the two instants, strictly and not. */
  lemma TextOrderIsTimeOrder(a: Moment, b: Moment)
    requires a.Valid() && b.Valid()
    ensures Less(Iso(a), Iso(b)) <==> Instant(a) < Instant(b)
    ensures Iso(a) == Iso(b) <==> Instant(a) == Instant(b)
  {
    hide Iso, Instant, Less, Moment.Valid;
    TextOrder(a, b);
    if Before(a, b) {
      InstantOrder(a, b);
    } else if a != b {
      assert Before(b, a);
      InstantOrder(b, a);
    }
  }
}
