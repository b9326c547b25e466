/**
  The stored form of an instant: `2006-01-02T15:04:05Z`, the date-time of section 5.6 of RFC 3339
  with a zero offset. Seconds count from 0000-01-01T00:00:00Z in the proleptic Gregorian calendar.
 */
module Storage {
  import opened Domain

  // ----- the calendar -----

  datatype Date = Date(year: nat, month: nat, day: nat)

  datatype Stamp = Stamp(date: Date, hour: nat, minute: nat, second: nat)

  predicate Leap(year: nat) {
    year % 4 == 0 && (year % 100 != 0 || year % 400 == 0)
  }

  function YearLength(year: nat): nat { if Leap(year) then 366 else 365 }

  function MonthLength(year: nat, month: nat): nat {
    if month == 2 then (if Leap(year) then 29 else 28)
    else if month == 4 || month == 6 || month == 9 || month == 11 then 30
    else 31
  }

  predicate ValidDate(d: Date) {
    1 <= d.month <= 12 && 1 <= d.day <= MonthLength(d.year, d.month)
  }

  predicate Valid(s: Stamp) {
    ValidDate(s.date) && s.hour < 24 && s.minute < 60 && s.second < 60
  }

  /** Days before the first of January of the year, and of its months. */
  function YearStart(year: nat): nat {
    if year == 0 then 0 else YearStart(year - 1) + YearLength(year - 1)
  }

  function MonthStart(year: nat, month: nat): nat {
    if month <= 1 then 0 else MonthStart(year, month - 1) + MonthLength(year, month - 1)
  }

  function DayNumber(d: Date): int {
    YearStart(d.year) + MonthStart(d.year, d.month) + d.day - 1
  }

  function SecondsOf(s: Stamp): int {
    ((DayNumber(s.date) * 24 + s.hour) * 60 + s.minute) * 60 + s.second
  }

  /** The year that contains the day, looking from `year` on, which starts `days` days earlier. */
  function FindYear(year: nat, days: nat): nat
    decreases days
  {
    if days < YearLength(year) then year else FindYear(year + 1, days - YearLength(year))
  }

  function FindMonth(year: nat, month: nat, days: nat): nat
    decreases 13 - month
  {
    if month >= 12 || days < MonthLength(year, month) then month
      else FindMonth(year, month + 1, days - MonthLength(year, month))
  }

  function DateOf(days: nat): Date {
    var year := FindYear(0, days);
    var within := days - YearStart(year);
    var month := FindMonth(year, 1, if within >= 0 then within else 0);
    var day := within - MonthStart(year, month) + 1;
    Date(year, month, if day >= 0 then day else 0)
  }

  function StampOf(seconds: nat): Stamp {
    var minutes := seconds / 60;
    var hours := minutes / 60;
    Stamp(DateOf(hours / 24), hours % 24, minutes % 60, seconds % 60)
  }

  lemma YearFound(year: nat, days: nat)
    ensures var y := FindYear(year, days); year <= y && YearStart(y) <= YearStart(year) + days < YearStart(y + 1)
    decreases days
  {
    if days < YearLength(year) {
    } else {
      YearFound(year + 1, days - YearLength(year));
    }
  }

  lemma MonthFound(year: nat, month: nat, days: nat)
    requires 1 <= month <= 12 && MonthStart(year, month) + days < YearLength(year)
    ensures var m := FindMonth(year, month, days);
      && month <= m <= 12
        && MonthStart(year, m) <= MonthStart(year, month) + days < MonthStart(year, m) + MonthLength(year, m)
    decreases 13 - month
  {
    MonthsFillYear(year);
    if month == 12 || days < MonthLength(year, month) {
    } else {
      MonthFound(year, month + 1, days - MonthLength(year, month));
    }
  }

  lemma MonthsFillYear(year: nat)
    ensures MonthStart(year, 12) + MonthLength(year, 12) == YearLength(year)
  {
    assert MonthStart(year, 2) == 31;
    assert MonthStart(year, 4) == 62 + MonthLength(year, 2);
    assert MonthStart(year, 6) == 123 + MonthLength(year, 2);
    assert MonthStart(year, 8) == 184 + MonthLength(year, 2);
    assert MonthStart(year, 10) == 245 + MonthLength(year, 2);
    assert MonthStart(year, 12) == 306 + MonthLength(year, 2);
  }

  lemma DateRoundTrip(days: nat)
    ensures ValidDate(DateOf(days)) && DayNumber(DateOf(days)) == days
  {
    YearFound(0, days);
    var year := FindYear(0, days);
    MonthFound(year, 1, days - YearStart(year));
  }

  /** Every count of seconds is the count of its date and time of day. */
  lemma StampRoundTrip(seconds: nat)
    ensures Valid(StampOf(seconds)) && SecondsOf(StampOf(seconds)) == seconds
  {
    DateRoundTrip(seconds / 60 / 60 / 24);
  }

  // ----- the calendar in closed form -----

  /** The leap years up to n, less those up to the year 0. */
  ghost function Leaps(n: int): int { n / 4 - n / 100 + n / 400 }

  lemma Quotient(n: int, d: int)
    requires d == 4 || d == 100 || d == 400
    ensures n / d == (n - 1) / d + (if n % d == 0 then 1 else 0)
  {
    var q, r := (n - 1) / d, (n - 1) % d;
    if r == d - 1 { DividesAs(n, d, q + 1, 0); } else { DividesAs(n, d, q, r + 1); }
  }

  lemma DividesAs(n: int, d: int, q: int, r: int)
    requires d == 4 || d == 100 || d == 400
    requires n == d * q + r && 0 <= r < d
    ensures n / d == q && n % d == r
  {
    if d == 4 {
      assert 4 * (n / 4 - q) == r - n % 4;
    } else if d == 100 {
      assert 100 * (n / 100 - q) == r - n % 100;
    } else {
      assert 400 * (n / 400 - q) == r - n % 400;
    }
  }

  lemma Divides(n: int)
    ensures n % 400 == 0 ==> n % 100 == 0
    ensures n % 100 == 0 ==> n % 4 == 0
  {
    if n % 400 == 0 { DividesAs(n, 100, 4 * (n / 400), 0); }
    if n % 100 == 0 { DividesAs(n, 4, 25 * (n / 100), 0); }
  }

  /** One more multiple of 4, unless of 100, unless of 400, in a leap year. */
  lemma LeapCount(year: nat)
    ensures Leaps(year) == Leaps(year - 1) + (if Leap(year) then 1 else 0)
  {
    Divides(year);
    Quotient(year, 4);
    Quotient(year, 100);
    Quotient(year, 400);
    LeapParts(year);
    hide Leap, Leaps;
  }

  lemma LeapParts(year: nat)
    requires year / 4 == (year - 1) / 4 + (if year % 4 == 0 then 1 else 0)
    requires year / 100 == (year - 1) / 100 + (if year % 100 == 0 then 1 else 0)
    requires year / 400 == (year - 1) / 400 + (if year % 400 == 0 then 1 else 0)
    requires (year % 400 == 0 ==> year % 100 == 0) && (year % 100 == 0 ==> year % 4 == 0)
    ensures Leaps(year) == Leaps(year - 1) + (if Leap(year) then 1 else 0)
  {
  }

  /** Days before a year, from the leap years before it. */
  lemma {:induction false} YearStartIs(year: nat)
    ensures YearStart(year) == 365 * year + Leaps(year - 1) + 1
  {
    if year == 0 {
    } else {
      hide Leaps, Leap;
      YearStartIs(year - 1);
      LeapCount(year - 1);
    }
  }

  /** Days before the first of each month, in a year that is not a leap year or is one. */
  lemma MonthStartIs(year: nat, month: nat)
    requires 1 <= month <= 12
    ensures MonthStart(year, month) ==
      [0, 31, 59, 90, 120, 151, 181, 212, 243, 273, 304, 334][month - 1] + (if month > 2 && Leap(year) then 1 else 0)
  {
    assert MonthStart(year, 1) == 0 && MonthStart(year, 2) == 31 && MonthStart(year, 3) == 31 + MonthLength(year, 2);
    assert MonthStart(year, 5) == MonthStart(year, 3) + 61;
    assert MonthStart(year, 7) == MonthStart(year, 5) + 61;
    assert MonthStart(year, 9) == MonthStart(year, 7) + 62;
    assert MonthStart(year, 11) == MonthStart(year, 9) + 61;
    assert MonthStart(year, 12) == MonthStart(year, 11) + 30;
  }

  /**
    The valid dates, month by month; February has 29 days in years divisible by 4, but for centuries not divisible by
    400.
   */
  lemma ValidDateIff(d: Date)
    ensures ValidDate(d) <==>
      || (d.month in {1, 3, 5, 7, 8, 10, 12} && 1 <= d.day <= 31)
      || (d.month in {4, 6, 9, 11} && 1 <= d.day <= 30)
      || (d.month == 2 && 1 <= d.day <= 28)
      || (d.month == 2 && d.day == 29 && (d.year % 400 == 0 || (d.year % 4 == 0 && d.year % 100 != 0)))
    {
    LeapIs(d.year);
    hide Leap;
  }

  lemma LeapIs(year: nat)
    ensures Leap(year) <==> year % 400 == 0 || (year % 4 == 0 && year % 100 != 0)
  {
    Divides(year);
  }

  /**
    The day number of a date, counted in years that begin in March: a year has 365 days and one more every 4 years,
    but not every 100, and yet every 400; five months in a row have 153 days. Day 0 is the first of January of year 0.
   */
  lemma DayNumberIs(d: Date)
    requires ValidDate(d)
    ensures var a := if d.month <= 2 then 1 else 0;
      var y, m := d.year - a, d.month + 12 * a - 3;
      DayNumber(d) == 365 * y + y / 4 - y / 100 + y / 400 + (153 * m + 2) / 5 + d.day + 59
  {
    MarchDay(d);
    hide DayNumber, ValidDate;
  }

  lemma MarchDay(d: Date)
    requires ValidDate(d)
    ensures var a := if d.month <= 2 then 1 else 0;
      var y, m := d.year - a, d.month + 12 * a - 3;
      m >= 0 && DayNumber(d) == 365 * y + Leaps(y) + Fifths(m) + d.day + 59
  {
    hide YearStart, MonthStart, MonthLength, Leap, Leaps, Fifths;
    YearStartIs(d.year);
    MonthStartIs(d.year, d.month);
    LeapCount(d.year);
    FifthsOfMonths(d.month);
  }

  /** Days from the first of March to the first of the m-th month after it. */
  ghost function Fifths(m: nat): int { (153 * m + 2) / 5 }

  lemma FifthsOfMonths(month: nat)
    requires 1 <= month <= 12
    ensures Fifths(if month <= 2 then month + 9 else month - 3) ==
      [306, 337, 0, 31, 61, 92, 122, 153, 184, 214, 245, 275][month - 1]
  {
  }

  /** The count of seconds, and two fixed points: 1970-01-01 is day 719528. */
  lemma SecondsAre(s: Stamp)
    ensures SecondsOf(s) == 86_400 * DayNumber(s.date) + 3_600 * s.hour + 60 * s.minute + s.second
    ensures DayNumber(Date(0, 1, 1)) == 0 && DayNumber(Date(1970, 1, 1)) == 719_528
  {
    DayNumberIs(Date(0, 1, 1));
    DayNumberIs(Date(1970, 1, 1));
  }

  // ----- order -----

  predicate DateBefore(a: Date, b: Date) {
    a.year < b.year || (a.year == b.year && (a.month < b.month || (a.month == b.month && a.day < b.day)))
  }

  predicate StampBefore(a: Stamp, b: Stamp) {
    || DateBefore(a.date, b.date)
    || (a.date == b.date && (a.hour < b.hour || (a.hour == b.hour &&
          (a.minute < b.minute || (a.minute == b.minute && a.second < b.second)))))
  }

  lemma YearStartMonotone(a: nat, b: nat)
    requires a <= b
    ensures YearStart(a) <= YearStart(b)
    decreases b - a
  {
    if a == b {
    } else {
      YearStartMonotone(a, b - 1);
    }
  }

  lemma MonthStartMonotone(year: nat, a: nat, b: nat)
    requires 1 <= a <= b
    ensures MonthStart(year, a) <= MonthStart(year, b)
    decreases b - a
  {
    if a == b {
    } else {
      MonthStartMonotone(year, a, b - 1);
    }
  }

  lemma DateOrder(a: Date, b: Date)
    requires ValidDate(a) && ValidDate(b) && DateBefore(a, b)
    ensures DayNumber(a) < DayNumber(b)
  {
    if a.year < b.year {
      MonthsFillYear(a.year);
      MonthStartMonotone(a.year, a.month, 12);
      if a.month < 12 { MonthStartMonotone(a.year, a.month + 1, 12); }
      YearStartMonotone(a.year + 1, b.year);
    } else if a.month < b.month {
      MonthStartMonotone(a.year, a.month + 1, b.month);
    }
  }

  /** Field by field order is time order. */
  lemma StampOrder(a: Stamp, b: Stamp)
    requires Valid(a) && Valid(b)
    ensures StampBefore(a, b) <==> SecondsOf(a) < SecondsOf(b)
  {
    if DateBefore(a.date, b.date) { DateOrder(a.date, b.date); }
    if DateBefore(b.date, a.date) { DateOrder(b.date, a.date); }
  }

  /** And every valid date and time of day is that of its count. */
  lemma SecondsRoundTrip(s: Stamp)
    requires Valid(s)
    ensures SecondsOf(s) >= 0 && StampOf(SecondsOf(s)) == s
  {
    StampRoundTrip(SecondsOf(s));
    StampOrder(s, StampOf(SecondsOf(s)));
    StampOrder(StampOf(SecondsOf(s)), s);
    hide StampOf, SecondsOf, MonthLength;
  }

  // ----- text -----

  function Digit(n: nat): char
    requires n < 10
  {
    ('0' as int + n) as char
  }

  function Two(n: nat): string
    requires n < 100
  {
    [Digit(n / 10), Digit(n % 10)]
  }

  predicate Printable(s: Stamp) { Valid(s) && s.date.year < 10000 }

  function PrintTime(s: Stamp): string
    requires Valid(s)
  {
    Two(s.hour) + ([':'] + (Two(s.minute) + ([':'] + (Two(s.second) + ['Z']))))
  }

  function Print(s: Stamp): string
    requires Printable(s)
  {
    Two(s.date.year / 100) + (Two(s.date.year % 100) + (['-'] + (Two(s.date.month) + (['-'] + (Two(s.date.day)
    + (['T'] + PrintTime(s)))))))
  }

  predicate IsDigit(c: char) { '0' <= c <= '9' }

  function ReadTwo(text: string, at: nat): Option<nat>
    requires at + 2 <= |text|
  {
    if IsDigit(text[at]) && IsDigit(text[at + 1]) then
      Some((text[at] as int - '0' as int) * 10 + (text[at + 1] as int - '0' as int))
    else None
  }

  /** Reads the form Print writes; a field out of range is rejected. */
  function Read(text: string): Option<Stamp> {
    if |text| != 20 || text[4] != '-' || text[7] != '-' || text[10] != 'T'
       || text[13] != ':' || text[16] != ':' || text[19] != 'Z' then None
    else
      var c, y, mo, d := ReadTwo(text, 0), ReadTwo(text, 2), ReadTwo(text, 5), ReadTwo(text, 8);
      var h, mi, s := ReadTwo(text, 11), ReadTwo(text, 14), ReadTwo(text, 17);
      if c == None || y == None || mo == None || d == None || h == None || mi == None || s == None then None
      else
        var stamp := Stamp(Date(c.value * 100 + y.value, mo.value, d.value), h.value, mi.value, s.value);
        if Valid(stamp) then Some(stamp) else None
  }

  lemma PrintLayout(s: Stamp)
    requires Printable(s)
    ensures |Print(s)| == 20
    ensures var t := Print(s);
      && t[0] == Two(s.date.year / 100)[0] && t[1] == Two(s.date.year / 100)[1]
      && t[2] == Two(s.date.year % 100)[0] && t[3] == Two(s.date.year % 100)[1]
      && t[4] == '-' && t[5] == Two(s.date.month)[0] && t[6] == Two(s.date.month)[1]
      && t[7] == '-' && t[8] == Two(s.date.day)[0] && t[9] == Two(s.date.day)[1]
    ensures var t := Print(s);
      && t[10] == 'T' && t[11] == Two(s.hour)[0] && t[12] == Two(s.hour)[1]
      && t[13] == ':' && t[14] == Two(s.minute)[0] && t[15] == Two(s.minute)[1]
      && t[16] == ':' && t[17] == Two(s.second)[0] && t[18] == Two(s.second)[1] && t[19] == 'Z'
  {
  }

  lemma ReadTwoDigits(text: string, at: nat, n: nat)
    requires at + 2 <= |text| && n < 100 && text[at] == Two(n)[0] && text[at + 1] == Two(n)[1]
    ensures ReadTwo(text, at) == Some(n)
  {
  }

  /** Reading what was printed gives the stamp back. */
  lemma ReadPrint(s: Stamp)
    requires Printable(s)
    ensures Read(Print(s)) == Some(s)
  {
    PrintLayout(s);
    var t := Print(s);
    hide Print, ReadTwo, Two, MonthLength;
    ReadTwoDigits(t, 0, s.date.year / 100);
    ReadTwoDigits(t, 2, s.date.year % 100);
    ReadTwoDigits(t, 5, s.date.month);
    ReadTwoDigits(t, 8, s.date.day);
    ReadTwoDigits(t, 11, s.hour);
    ReadTwoDigits(t, 14, s.minute);
    ReadTwoDigits(t, 17, s.second);
  }

  lemma ReadTwoIs(text: string, at: nat)
    requires at + 2 <= |text| && ReadTwo(text, at).Some?
    ensures var n := ReadTwo(text, at).value; n < 100 && text[at] == Two(n)[0] && text[at + 1] == Two(n)[1]
  {
  }

  /** The fields of what is read stand where Print puts them. */
  lemma ReadParts(text: string)
    requires Read(text).Some?
    ensures |text| == 20 && text[4] == '-' && text[7] == '-' && text[10] == 'T'
    ensures text[13] == ':' && text[16] == ':' && text[19] == 'Z'
    ensures var s := Read(text).value;
      && Valid(s) && ReadTwo(text, 5) == Some(s.date.month) && ReadTwo(text, 8) == Some(s.date.day)
      && ReadTwo(text, 11) == Some(s.hour) && ReadTwo(text, 14) == Some(s.minute) && ReadTwo(text, 17) == Some(s.second)
      && ReadTwo(text, 0).Some? && ReadTwo(text, 2).Some?
      && s.date.year == ReadTwo(text, 0).value * 100 + ReadTwo(text, 2).value
  {
    hide ReadTwo, Valid;
  }

  /** Only what could have been printed is read. */
  lemma PrintRead(text: string)
    requires Read(text).Some?
    ensures Printable(Read(text).value) && Print(Read(text).value) == text
  {
    hide Print, ReadTwo, Two, Valid, Read;
    ReadParts(text);
    ReadTwoIs(text, 0);
    ReadTwoIs(text, 2);
    ReadTwoIs(text, 5);
    ReadTwoIs(text, 8);
    ReadTwoIs(text, 11);
    ReadTwoIs(text, 14);
    ReadTwoIs(text, 17);
    PrintLayout(Read(text).value);
    SameTwenty(Print(Read(text).value), text);
  }

  lemma SameTwenty(a: string, b: string)
    requires |a| == 20 && |b| == 20
    requires a[0] == b[0] && a[1] == b[1] && a[2] == b[2] && a[3] == b[3] && a[4] == b[4]
    requires a[5] == b[5] && a[6] == b[6] && a[7] == b[7] && a[8] == b[8] && a[9] == b[9]
    requires a[10] == b[10] && a[11] == b[11] && a[12] == b[12] && a[13] == b[13] && a[14] == b[14]
    requires a[15] == b[15] && a[16] == b[16] && a[17] == b[17] && a[18] == b[18] && a[19] == b[19]
    ensures a == b
  {
  }

  /** Byte order of the stored text. */
  predicate TextBefore(a: string, b: string) {
    if b == [] then false
    else if a == [] then true
    else a[0] < b[0] || (a[0] == b[0] && TextBefore(a[1..], b[1..]))
  }

  lemma {:induction false} TextBeforeConcat(p: string, q: string, x: string, y: string)
    requires |p| == |q|
    ensures TextBefore(p + x, q + y) <==> TextBefore(p, q) || (p == q && TextBefore(x, y))
  {
    if p == [] {
      assert p + x == x && q + y == y;
    } else {
      TextBeforeConcat(p[1..], q[1..], x, y);
      assert (p + x)[1..] == p[1..] + x && (q + y)[1..] == q[1..] + y;
      assert p == q <==> p[0] == q[0] && p[1..] == q[1..] by {
        assert p == [p[0]] + p[1..] && q == [q[0]] + q[1..];
      }
    }
  }

  lemma TwoOrder(a: nat, b: nat)
    requires a < 100 && b < 100
    ensures TextBefore(Two(a), Two(b)) <==> a < b
    ensures Two(a) == Two(b) <==> a == b
  {
    assert Two(a)[1..] == [Digit(a % 10)] && Two(b)[1..] == [Digit(b % 10)];
    assert Two(a)[0] == Digit(a / 10) && Two(b)[0] == Digit(b / 10);
    assert Two(a)[1] == Digit(a % 10) && Two(b)[1] == Digit(b % 10);
    assert TextBefore([Digit(a % 10)], [Digit(b % 10)]) <==> a % 10 < b % 10;
    assert a == a / 10 * 10 + a % 10 && b == b / 10 * 10 + b % 10;
  }

  /** A two-digit field decides the order, and leaves a tie to the rest, past one common separator. */
  lemma FieldOrder(a: nat, b: nat, sep: char, x: string, y: string)
    requires a < 100 && b < 100
    ensures TextBefore(Two(a) + ([sep] + x), Two(b) + ([sep] + y)) <==> a < b || (a == b && TextBefore(x, y))
  {
    TwoOrder(a, b);
    TextBeforeConcat(Two(a), Two(b), [sep] + x, [sep] + y);
    TextBeforeConcat([sep], [sep], x, y);
  }

  lemma PrintTimeOrder(a: Stamp, b: Stamp)
    requires Valid(a) && Valid(b)
    ensures TextBefore(PrintTime(a), PrintTime(b)) <==>
      a.hour < b.hour || (a.hour == b.hour && (a.minute < b.minute || (a.minute == b.minute && a.second < b.second)))
  {
    TwoOrder(a.second, b.second);
    TextBeforeConcat(Two(a.second), Two(b.second), ['Z'], ['Z']);
    FieldOrder(a.minute, b.minute, ':', Two(a.second) + ['Z'], Two(b.second) + ['Z']);
    FieldOrder(a.hour, b.hour, ':', Two(a.minute) + ([':'] + (Two(a.second) + ['Z'])),
      Two(b.minute) + ([':'] + (Two(b.second) + ['Z'])));
  }

  /** Text order is field by field order. */
  lemma PrintOrder(a: Stamp, b: Stamp)
    requires Printable(a) && Printable(b)
    ensures TextBefore(Print(a), Print(b)) <==> StampBefore(a, b)
  {
    var dayA, dayB := Two(a.date.day) + (['T'] + PrintTime(a)), Two(b.date.day) + (['T'] + PrintTime(b));
    var monthA, monthB := Two(a.date.month) + (['-'] + dayA), Two(b.date.month) + (['-'] + dayB);
    var yearA, yearB := Two(a.date.year % 100) + (['-'] + monthA), Two(b.date.year % 100) + (['-'] + monthB);
    PrintTimeOrder(a, b);
    FieldOrder(a.date.day, b.date.day, 'T', PrintTime(a), PrintTime(b));
    FieldOrder(a.date.month, b.date.month, '-', dayA, dayB);
    FieldOrder(a.date.year % 100, b.date.year % 100, '-', monthA, monthB);
    TwoOrder(a.date.year / 100, b.date.year / 100);
    TextBeforeConcat(Two(a.date.year / 100), Two(b.date.year / 100), yearA, yearB);
    assert Print(a) == Two(a.date.year / 100) + yearA && Print(b) == Two(b.date.year / 100) + yearB;
  }

  // ----- instants -----

  /** An instant as the program holds it, in nanoseconds from the same origin. */
  type Time = int

  const NANOS := 1_000_000_000

  /** The whole second an instant falls in. */
  function Seconds(t: Time): Second { t / NANOS }

  function Instant(s: Second): Time { s * NANOS }

  /** The instants the text can hold: the years 0000 to 9999. */
  predicate Storable(t: Time) {
    t >= 0 && StampOf(Seconds(t)).date.year < 10000
  }

  function FormatTime(t: Time): string
    requires Storable(t)
  {
    StampRoundTrip(Seconds(t));
    Print(StampOf(Seconds(t)))
  }

  function ParseTime(text: string): Option<Time> {
    var stamp := Read(text);
    if stamp.Some? then Some(Instant(SecondsOf(stamp.value))) else None
  }

  /** A decimal digit of the text. */
  predicate Shows(text: string, at: nat, digit: int) {
    at < |text| && 0 <= digit < 10 && text[at] as int == '0' as int + digit
  }

  lemma TwoShows(n: nat)
    requires n < 100
    ensures Shows(Two(n), 0, n / 10) && Shows(Two(n), 1, n % 10)
  {
  }

  lemma YearDigits(year: nat)
    ensures year / 100 / 10 == year / 1000
    ensures year % 100 / 10 == year / 10 % 10 && year % 100 % 10 == year % 10
  {
    var a, b := year / 100, year % 100;
    assert year / 10 == 10 * a + b / 10;
    assert a == 10 * (year / 1000) + a % 10;
  }

  lemma PrintShowsDate(s: Stamp)
    requires Printable(s)
    ensures var text := Print(s);
      && |text| == 20 && text[4] == '-' && text[7] == '-' && text[10] == 'T'
      && Shows(text, 0, s.date.year / 1000) && Shows(text, 1, s.date.year / 100 % 10)
      && Shows(text, 2, s.date.year / 10 % 10) && Shows(text, 3, s.date.year % 10)
      && Shows(text, 5, s.date.month / 10) && Shows(text, 6, s.date.month % 10)
      && Shows(text, 8, s.date.day / 10) && Shows(text, 9, s.date.day % 10)
  {
    PrintLayout(s);
    YearDigits(s.date.year);
    TwoShows(s.date.year / 100);
    TwoShows(s.date.year % 100);
    TwoShows(s.date.month);
    TwoShows(s.date.day);
    hide Two, Print;
  }

  lemma PrintShowsTime(s: Stamp)
    requires Printable(s)
    ensures var text := Print(s);
      && |text| == 20 && text[13] == ':' && text[16] == ':' && text[19] == 'Z'
      && Shows(text, 11, s.hour / 10) && Shows(text, 12, s.hour % 10)
      && Shows(text, 14, s.minute / 10) && Shows(text, 15, s.minute % 10)
      && Shows(text, 17, s.second / 10) && Shows(text, 18, s.second % 10)
  {
    PrintLayout(s);
    TwoShows(s.hour);
    TwoShows(s.minute);
    TwoShows(s.second);
    hide Two, Print;
  }

  /** The text of an instant is yyyy-mm-ddThh:mm:ssZ, of the date and time its whole seconds count. */
  lemma FormatShows(t: Time)
    requires Storable(t)
    ensures var text, s := FormatTime(t), StampOf(t / 1_000_000_000);
      && Valid(s) && SecondsOf(s) == t / 1_000_000_000
      && |text| == 20 && text[4] == '-' && text[7] == '-' && text[10] == 'T'
      && text[13] == ':' && text[16] == ':' && text[19] == 'Z'
      && Shows(text, 0, s.date.year / 1000) && Shows(text, 1, s.date.year / 100 % 10)
      && Shows(text, 2, s.date.year / 10 % 10) && Shows(text, 3, s.date.year % 10)
      && Shows(text, 5, s.date.month / 10) && Shows(text, 6, s.date.month % 10)
      && Shows(text, 8, s.date.day / 10) && Shows(text, 9, s.date.day % 10)
      && Shows(text, 11, s.hour / 10) && Shows(text, 12, s.hour % 10)
      && Shows(text, 14, s.minute / 10) && Shows(text, 15, s.minute % 10)
      && Shows(text, 17, s.second / 10) && Shows(text, 18, s.second % 10)
  {
    StampRoundTrip(Seconds(t));
    PrintShowsDate(StampOf(Seconds(t)));
    PrintShowsTime(StampOf(Seconds(t)));
    hide Shows, Print, StampOf, SecondsOf, Valid;
  }

  /** Storing an instant and reading it back truncates it to the second. */
  lemma StorageTruncates(t: Time)
    requires Storable(t)
    ensures ParseTime(FormatTime(t)) == Some(t - t % 1_000_000_000)
  {
    hide Read, Print, StampOf, SecondsOf, Valid;
    StampRoundTrip(Seconds(t));
    ReadPrint(StampOf(Seconds(t)));
  }

  /** Comparing stored texts, as the SQL conditions do, compares whole seconds. */
  lemma StoredOrder(a: Time, b: Time)
    requires Storable(a) && Storable(b)
    ensures TextBefore(FormatTime(a), FormatTime(b)) <==> Seconds(a) < Seconds(b)
    ensures FormatTime(a) == FormatTime(b) <==> Seconds(a) == Seconds(b)
  {
    StampRoundTrip(Seconds(a));
    StampRoundTrip(Seconds(b));
    StampOrder(StampOf(Seconds(a)), StampOf(Seconds(b)));
    PrintOrder(StampOf(Seconds(a)), StampOf(Seconds(b)));
    ReadPrint(StampOf(Seconds(a)));
    ReadPrint(StampOf(Seconds(b)));
  }
}
