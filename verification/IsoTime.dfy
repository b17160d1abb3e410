/** Timestamps as the backends store them. The SQL backends compare isoformat() text, Redis
    compares epoch time; this module shows when the two orders are one. */
module IsoTime {

  /** The fields of an aware datetime, without its offset. */
  datatype DateTime = DateTime(year: nat, month: nat, day: nat, hour: nat, minute: nat, second: nat, micro: nat)

  predicate Leap(year: nat) {
    year % 4 == 0 && (year % 100 != 0 || year % 400 == 0)
  }

  function DaysInMonth(year: nat, month: nat): nat
    requires 1 <= month <= 12
  {
    if month == 2 then if Leap(year) then 29 else 28
    else if month in {4, 6, 9, 11} then 30
    else 31
  }

  predicate Valid(d: DateTime) {
    && 1 <= d.year <= 9999 && 1 <= d.month <= 12 && 1 <= d.day <= DaysInMonth(d.year, d.month)
    && d.hour < 24 && d.minute < 60 && d.second < 60 && d.micro < 1000000
  }

  /** Calendar order, field by field. */
  predicate Earlier(a: DateTime, b: DateTime) {
    if a.year != b.year then a.year < b.year
    else if a.month != b.month then a.month < b.month
    else if a.day != b.day then a.day < b.day
    else if a.hour != b.hour then a.hour < b.hour
    else if a.minute != b.minute then a.minute < b.minute
    else if a.second != b.second then a.second < b.second
    else a.micro < b.micro
  }

  // ---- Text order ----

  /** Byte-wise order of text, as in a BINARY collation. */
  predicate LexLess(a: string, b: string) {
    if b == "" then false
    else if a == "" then true
    else a[0] < b[0] || (a[0] == b[0] && LexLess(a[1..], b[1..]))
  }

  function Digit(n: nat): char
    requires n < 10
  {
    '0' + n as char
  }

  /** n in width decimal digits. */
  function Pad(n: nat, width: nat): (s: string)
    ensures |s| == width
  {
    if width == 0 then "" else Pad(n / 10, width - 1) + [Digit(n % 10)]
  }

  function Power10(width: nat): nat {
    if width == 0 then 1 else 10 * Power10(width - 1)
  }

  /** The fraction is left out when it is zero. */
  function Fraction(micro: nat): string {
    if micro == 0 then "" else "." + Pad(micro, 6)
  }

  /** isoformat() of the fields with the given UTC-offset suffix. */
  function Iso(d: DateTime, offset: string): string {
    Pad(d.year, 4) + ("-" + (Pad(d.month, 2) + ("-" + (Pad(d.day, 2) + ("T" +
    (Pad(d.hour, 2) + (":" + (Pad(d.minute, 2) + (":" + (Pad(d.second, 2) + (Fraction(d.micro) + offset)))))))))))
  }

  predicate OffsetSuffix(offset: string) {
    |offset| == 6 && (offset[0] == '+' || offset[0] == '-')
  }

  const UTC := "+00:00"

  /** Equal-length heads decide first. */
  lemma {:induction false} LexConcat(a: string, b: string, s: string, t: string)
    requires |a| == |b|
    ensures LexLess(a + s, b + t) <==> LexLess(a, b) || (a == b && LexLess(s, t))
  {
    if a == "" {
      assert a + s == s && b + t == t;
    } else {
      assert (a + s)[1..] == a[1..] + s && (b + t)[1..] == b[1..] + t;
      LexConcat(a[1..], b[1..], s, t);
      assert a == [a[0]] + a[1..] && b == [b[0]] + b[1..];
    }
  }

  /** Zero-padded numbers of one width are ordered as numbers. */
  lemma {:induction false} PadOrder(n: nat, m: nat, width: nat)
    requires n < Power10(width) && m < Power10(width)
    ensures LexLess(Pad(n, width), Pad(m, width)) <==> n < m
    ensures Pad(n, width) == Pad(m, width) <==> n == m
  {
    if width > 0 {
      PadOrder(n / 10, m / 10, width - 1);
      var a, b := Pad(n / 10, width - 1), Pad(m / 10, width - 1);
      LexConcat(a, b, [Digit(n % 10)], [Digit(m % 10)]);
      var x, y := Pad(n, width), Pad(m, width);
      assert x[..width - 1] == a && y[..width - 1] == b;
      assert x[width - 1] == Digit(n % 10) && y[width - 1] == Digit(m % 10);
      assert x == y ==> a == b && n % 10 == m % 10;
    }
  }

  lemma FieldOrder(n: nat, m: nat, width: nat, s: string, t: string)
    requires n < Power10(width) && m < Power10(width)
    ensures LexLess(Pad(n, width) + s, Pad(m, width) + t) <==> n < m || (n == m && LexLess(s, t))
  {
    PadOrder(n, m, width);
    LexConcat(Pad(n, width), Pad(m, width), s, t);
  }

  lemma SeparatorOrder(c: char, s: string, t: string)
    ensures LexLess([c] + s, [c] + t) <==> LexLess(s, t)
  {
    assert ([c] + s)[1..] == s && ([c] + t)[1..] == t;
  }

  /** A missing fraction sorts before any fraction: '+' and '-' come before '.'. */
  lemma FractionOrder(n: nat, m: nat, s: string, t: string)
    requires n < 1000000 && m < 1000000 && OffsetSuffix(s) && OffsetSuffix(t)
    ensures LexLess(Fraction(n) + s, Fraction(m) + t) <==> n < m || (n == m && LexLess(s, t))
  {
    assert Power10(6) == 1000000 by {
      assert Power10(3) == 1000;
    }
    if n > 0 && m > 0 {
      assert Fraction(n) + s == ['.'] + (Pad(n, 6) + s);
      assert Fraction(m) + t == ['.'] + (Pad(m, 6) + t);
      SeparatorOrder('.', Pad(n, 6) + s, Pad(m, 6) + t);
      FieldOrder(n, m, 6, s, t);
    } else {
      FractionStarts(n, s);
      FractionStarts(m, t);
    }
  }

  /** The first letter after the seconds tells whether there is a fraction. */
  lemma FractionStarts(n: nat, s: string)
    requires OffsetSuffix(s)
    ensures Fraction(n) + s != "" && (Fraction(n) + s)[0] == (if n == 0 then s[0] else '.')
    ensures n == 0 ==> Fraction(n) + s == s
  {
    if n > 0 {
      assert Fraction(n)[0] == '.';
    }
  }

  /** Text order is calendar order of the written fields, offsets only breaking ties. */
  lemma IsoOrder(a: DateTime, b: DateTime, s: string, t: string)
    requires Valid(a) && Valid(b) && OffsetSuffix(s) && OffsetSuffix(t)
    ensures LexLess(Iso(a, s), Iso(b, t)) <==> Earlier(a, b) || (a == b && LexLess(s, t))
  {
    assert Power10(2) == 100 && Power10(4) == 10000 by {
      assert Power10(3) == 1000;
    }
    FractionOrder(a.micro, b.micro, s, t);
    var a6, b6 := Fraction(a.micro) + s, Fraction(b.micro) + t;
    FieldOrder(a.second, b.second, 2, a6, b6);
    var a5, b5 := Pad(a.second, 2) + a6, Pad(b.second, 2) + b6;
    SeparatorOrder(':', a5, b5);
    FieldOrder(a.minute, b.minute, 2, ":" + a5, ":" + b5);
    var a4, b4 := Pad(a.minute, 2) + (":" + a5), Pad(b.minute, 2) + (":" + b5);
    SeparatorOrder(':', a4, b4);
    FieldOrder(a.hour, b.hour, 2, ":" + a4, ":" + b4);
    var a3, b3 := Pad(a.hour, 2) + (":" + a4), Pad(b.hour, 2) + (":" + b4);
    SeparatorOrder('T', a3, b3);
    FieldOrder(a.day, b.day, 2, "T" + a3, "T" + b3);
    var a2, b2 := Pad(a.day, 2) + ("T" + a3), Pad(b.day, 2) + ("T" + b3);
    SeparatorOrder('-', a2, b2);
    FieldOrder(a.month, b.month, 2, "-" + a2, "-" + b2);
    var a1, b1 := Pad(a.month, 2) + ("-" + a2), Pad(b.month, 2) + ("-" + b2);
    SeparatorOrder('-', a1, b1);
    FieldOrder(a.year, b.year, 4, "-" + a1, "-" + b1);
  }

  // ---- Epoch order ----

  /** Days before 1 January of the year in the proleptic Gregorian calendar. */
  function DaysBeforeYear(year: nat): int
    requires year >= 1
  {
    var y := year - 1;
    y * 365 + y / 4 - y / 100 + y / 400
  }

  function DaysBeforeMonth(year: nat, month: nat): nat
    requires 1 <= month <= 12
  {
    if month == 1 then 0 else DaysBeforeMonth(year, month - 1) + DaysInMonth(year, month - 1)
  }

  function Ordinal(d: DateTime): int
    requires Valid(d)
  {
    DaysBeforeYear(d.year) + DaysBeforeMonth(d.year, d.month) + d.day
  }

  function MicrosOfDay(d: DateTime): nat {
    ((d.hour * 60 + d.minute) * 60 + d.second) * 1000000 + d.micro
  }

  const DAY := 86400000000

  /** Microseconds on the UTC time line, up to a fixed origin. */
  function Instant(d: DateTime): int
    requires Valid(d)
  {
    Ordinal(d) * DAY + MicrosOfDay(d)
  }

  /** Where each month starts in a year. */
  lemma MonthStarts(year: nat)
    ensures var leap := if year % 4 == 0 && (year % 100 != 0 || year % 400 == 0) then 1 else 0;
            && DaysBeforeMonth(year, 1) == 0 && DaysBeforeMonth(year, 2) == 31
            && DaysBeforeMonth(year, 3) == 59 + leap && DaysBeforeMonth(year, 4) == 90 + leap
            && DaysBeforeMonth(year, 5) == 120 + leap && DaysBeforeMonth(year, 6) == 151 + leap
            && DaysBeforeMonth(year, 7) == 181 + leap && DaysBeforeMonth(year, 8) == 212 + leap
            && DaysBeforeMonth(year, 9) == 243 + leap && DaysBeforeMonth(year, 10) == 273 + leap
            && DaysBeforeMonth(year, 11) == 304 + leap && DaysBeforeMonth(year, 12) == 334 + leap
  {
  }

  /** Days are counted from 1 January of year 1, which is day 1. */
  lemma KnownYears()
    ensures DaysBeforeYear(1) == 0 && DaysBeforeYear(1970) == 719162 && DaysBeforeYear(2024) == 738885
  {
  }

  /** A day has 24 hours, and so on down to the microsecond. */
  lemma InstantOf(d: DateTime)
    requires Valid(d)
    ensures var days := DaysBeforeYear(d.year) + DaysBeforeMonth(d.year, d.month) + d.day;
            Instant(d) == (days * 24 + d.hour) * 3600000000 + d.minute * 60000000 + d.second * 1000000 + d.micro
  {
  }

  lemma Quotient(n: nat, d: nat, q: nat)
    requires d > 0 && q * d <= n < q * d + d
    ensures n / d == q && n % d == n - q * d
  {
    var r := n / d;
    assert r * d <= n < r * d + d;
    assert r < q ==> (r + 1) * d <= q * d;
    assert q < r ==> (q + 1) * d <= r * d;
  }

  /** Counting the multiples of d up to a year. */
  lemma MultiplesStep(year: nat, d: nat)
    requires year >= 1 && d > 1
    ensures year / d == (year - 1) / d + if year % d == 0 then 1 else 0
  {
    var q := (year - 1) / d;
    if (year - 1) % d == d - 1 {
      assert (q + 1) * d == q * d + d;
      Quotient(year, d, q + 1);
    } else {
      Quotient(year, d, q);
    }
  }

  lemma YearStep(year: nat)
    requires year >= 1
    ensures DaysBeforeYear(year + 1) == DaysBeforeYear(year) + if Leap(year) then 366 else 365
  {
    MultiplesStep(year, 4);
    MultiplesStep(year, 100);
    MultiplesStep(year, 400);
    MultipleOfMultiple(year, 4, 100);
    MultipleOfMultiple(year, 25, 4);
  }

  lemma MultipleOfMultiple(n: nat, a: nat, b: nat)
    requires a > 0 && b > 0
    ensures n % (a * b) == 0 ==> n % b == 0
  {
    var q := n / (a * b);
    if n % (a * b) == 0 {
      assert n == q * (a * b) == (q * a) * b;
      Quotient(n, b, q * a);
    }
  }

  lemma {:induction false} MonthsFit(year: nat, month: nat, later: nat)
    requires 1 <= month < later <= 12
    ensures DaysBeforeMonth(year, month) + DaysInMonth(year, month) <= DaysBeforeMonth(year, later)
    decreases later
  {
    if month < later - 1 {
      MonthsFit(year, month, later - 1);
    }
  }

  lemma YearLength(year: nat)
    ensures DaysBeforeMonth(year, 12) + 31 == if Leap(year) then 366 else 365
  {
    assert DaysBeforeMonth(year, 2) == 31;
    assert DaysBeforeMonth(year, 4) == if Leap(year) then 91 else 90;
    assert DaysBeforeMonth(year, 6) == DaysBeforeMonth(year, 4) + 61;
    assert DaysBeforeMonth(year, 8) == DaysBeforeMonth(year, 6) + 61;
    assert DaysBeforeMonth(year, 10) == DaysBeforeMonth(year, 8) + 61;
    assert DaysBeforeMonth(year, 12) == DaysBeforeMonth(year, 10) + 61;
  }

  lemma {:induction false} YearsFit(year: nat, later: nat)
    requires 1 <= year < later
    ensures DaysBeforeYear(year) + (if Leap(year) then 366 else 365) <= DaysBeforeYear(later)
    decreases later
  {
    YearStep(later - 1);
    if year < later - 1 {
      YearsFit(year, later - 1);
    }
  }

  predicate EarlierDay(a: DateTime, b: DateTime) {
    a.year < b.year || (a.year == b.year && (a.month < b.month || (a.month == b.month && a.day < b.day)))
  }

  lemma DayOrder(a: DateTime, b: DateTime)
    requires Valid(a) && Valid(b) && EarlierDay(a, b)
    ensures Ordinal(a) < Ordinal(b)
  {
    if a.year < b.year {
      YearsFit(a.year, b.year);
      YearLength(a.year);
      if a.month < 12 {
        MonthsFit(a.year, a.month, 12);
      }
    } else if a.month < b.month {
      MonthsFit(a.year, a.month, b.month);
    }
  }

  lemma EarlierIsEarlier(a: DateTime, b: DateTime)
    requires Valid(a) && Valid(b) && Earlier(a, b)
    ensures Instant(a) < Instant(b)
  {
    assert MicrosOfDay(a) < DAY;
    if EarlierDay(a, b) {
      DayOrder(a, b);
      assert Ordinal(a) * DAY + DAY <= Ordinal(b) * DAY;
    } else {
      assert Ordinal(a) == Ordinal(b);
    }
  }

  /** Calendar order is time order. */
  lemma CalendarIsTime(a: DateTime, b: DateTime)
    requires Valid(a) && Valid(b)
    ensures Earlier(a, b) <==> Instant(a) < Instant(b)
    ensures a == b <==> Instant(a) == Instant(b)
  {
    if Earlier(a, b) {
      EarlierIsEarlier(a, b);
    } else if Earlier(b, a) {
      EarlierIsEarlier(b, a);
    } else {
      assert a == b;
    }
  }

  /** For UTC timestamps the text comparison fire_at <= before is the comparison of times. */
  lemma TextComparesAsTime(fireAt: DateTime, before: DateTime)
    requires Valid(fireAt) && Valid(before)
    ensures !LexLess(Iso(before, UTC), Iso(fireAt, UTC)) <==> Instant(fireAt) <= Instant(before)
  {
    IsoOrder(before, fireAt, UTC, UTC);
    CalendarIsTime(before, fireAt);
    assert !LexLess(UTC, UTC) by {
      LexIrreflexive(UTC);
    }
  }

  lemma {:induction false} LexIrreflexive(s: string)
    ensures !LexLess(s, s)
  {
    if s != "" {
      LexIrreflexive(s[1..]);
    }
  }

  // ---- Reading timestamps back ----

  function Number(s: string): nat {
    if s == "" then 0
    else
      var c := s[|s| - 1];
      10 * Number(s[..|s| - 1]) + if '0' <= c <= '9' then (c - '0') as nat else 0
  }

  lemma {:induction false} NumberOfPad(n: nat, width: nat)
    requires n < Power10(width)
    ensures Number(Pad(n, width)) == n
  {
    if width > 0 {
      var s, d := Pad(n, width), Digit(n % 10);
      NumberOfPad(n / 10, width - 1);
      assert s[..|s| - 1] == Pad(n / 10, width - 1) && s[|s| - 1] == d;
      assert '0' <= d <= '9' && (d - '0') as nat == n % 10;
      assert Number(s) == 10 * Number(s[..|s| - 1]) + n % 10;
    }
  }

  /** fromisoformat() on text with a UTC suffix: fixed columns, the fraction only if there. */
  function FromIso(s: string): DateTime
    requires |s| == 25 || |s| == 32
  {
    DateTime(Number(s[..4]), Number(s[5..7]), Number(s[8..10]), Number(s[11..13]), Number(s[14..16]),
             Number(s[17..19]), if |s| == 32 then Number(s[20..26]) else 0)
  }

  /** Where isoformat() puts each field. */
  ghost predicate HasColumns(s: string, d: DateTime) {
    && |s| == (if d.micro == 0 then 25 else 32)
    && s[..4] == Pad(d.year, 4) && s[5..7] == Pad(d.month, 2) && s[8..10] == Pad(d.day, 2)
    && s[11..13] == Pad(d.hour, 2) && s[14..16] == Pad(d.minute, 2) && s[17..19] == Pad(d.second, 2)
    && (d.micro != 0 ==> s[20..26] == Pad(d.micro, 6))
  }

  /** Three fields of widths n, 2, 2 with one-letter separators. */
  lemma ThreeColumns(a: string, b: string, c: string, x: string, y: string, rest: string)
    requires |b| == |c| == 2 && |x| == |y| == 1
    ensures var s, n := a + (x + (b + (y + (c + rest)))), |a|;
            && |s| == n + 6 + |rest| && s[..n] == a && s[n + 1..n + 3] == b && s[n + 4..n + 6] == c && s[n + 6..] == rest
  {
  }

  lemma IsoColumns(d: DateTime, offset: string)
    requires |offset| == 6
    ensures HasColumns(Iso(d, offset), d)
  {
    var s := Iso(d, offset);
    var tail := Fraction(d.micro) + offset;
    var time := Pad(d.hour, 2) + (":" + (Pad(d.minute, 2) + (":" + (Pad(d.second, 2) + tail))));
    ThreeColumns(Pad(d.year, 4), Pad(d.month, 2), Pad(d.day, 2), "-", "-", "T" + time);
    ThreeColumns(Pad(d.hour, 2), Pad(d.minute, 2), Pad(d.second, 2), ":", ":", tail);
    SkipTo(s, "T", time);
    assert s[11..13] == s[11..][..2] && s[14..16] == s[11..][3..5] && s[17..19] == s[11..][6..8];
    if d.micro != 0 {
      FractionColumn(s, d.micro, offset);
    }
  }

  lemma SkipTo(s: string, x: string, time: string)
    requires |s| >= 10 && s[10..] == x + time && |x| == 1
    ensures s[11..] == time
  {
    assert s[11..] == s[10..][1..];
  }

  lemma FractionColumn(s: string, micro: nat, offset: string)
    requires |s| >= 26 && s[11..][8..] == Fraction(micro) + offset && micro != 0
    ensures s[20..26] == Pad(micro, 6)
  {
    var tail := Fraction(micro) + offset;
    assert s[20..26] == s[11..][8..][1..7];
    assert tail[1..7] == Pad(micro, 6);
  }

  lemma ReadColumns(s: string, d: DateTime)
    requires Valid(d) && HasColumns(s, d)
    ensures FromIso(s) == d
  {
    assert Power10(2) == 100 && Power10(4) == 10000 && Power10(6) == 1000000 by {
      assert Power10(3) == 1000;
    }
    NumberOfPad(d.year, 4);
    NumberOfPad(d.month, 2);
    NumberOfPad(d.day, 2);
    NumberOfPad(d.hour, 2);
    NumberOfPad(d.minute, 2);
    NumberOfPad(d.second, 2);
    NumberOfPad(d.micro, 6);
  }

  /** Reading back what isoformat() wrote gives the same fields, with or without a fraction,
      and the offset behind them. */
  lemma IsoRoundTrip(d: DateTime, offset: string)
    requires Valid(d) && |offset| == 6
    ensures var s := Iso(d, offset);
            |s| == (if d.micro == 0 then 25 else 32) && FromIso(s) == d && s[|s| - 6..] == offset
  {
    IsoColumns(d, offset);
    ReadColumns(Iso(d, offset), d);
  }

  // ---- Timestamps that were not converted to UTC ----

  predicate IsDigit(c: char) {
    '0' <= c <= '9'
  }

  /** A sign, hours and minutes, as isoformat() writes an offset of whole minutes. */
  predicate OffsetText(offset: string) {
    && OffsetSuffix(offset) && offset[3] == ':'
    && IsDigit(offset[1]) && IsDigit(offset[2]) && IsDigit(offset[4]) && IsDigit(offset[5])
  }

  /** The offset in microseconds. */
  function Shift(offset: string): int
    requires OffsetText(offset)
  {
    var minutes := Number(offset[1..3]) * 60 + Number(offset[4..6]);
    (if offset[0] == '-' then -minutes else minutes) * 60000000
  }

  /** When the row is really due. */
  function TrueInstant(local: DateTime, offset: string): int
    requires Valid(local) && OffsetText(offset)
  {
    Instant(local) - Shift(offset)
  }

  /** fire_at <= before as the SQL backends compare it. */
  predicate Selected(local: DateTime, offset: string, before: DateTime) {
    !LexLess(Iso(before, UTC), Iso(local, offset))
  }

  /** On equal fields only the row written in UTC is selected: any other offset sorts after it. */
  lemma UtcSortsFirst(offset: string)
    requires OffsetText(offset)
    ensures LexLess(UTC, offset) <==> offset != UTC
  {
    if offset == UTC {
      LexIrreflexive(UTC);
    } else {
      var k :| 0 <= k < 6 && offset[k] != UTC[k] && offset[..k] == UTC[..k];
      FirstDifference(UTC, offset, k);
    }
  }

  /** The first different letter decides. */
  lemma {:induction false} FirstDifference(a: string, b: string, k: nat)
    requires k < |a| && k < |b| && a[..k] == b[..k] && a[k] < b[k]
    ensures LexLess(a, b)
  {
    if k > 0 {
      assert a[0] == a[..k][0] == b[..k][0] == b[0];
      assert a[1..][..k - 1] == a[..k][1..] == b[..k][1..] == b[1..][..k - 1];
      FirstDifference(a[1..], b[1..], k - 1);
    }
  }

  /** An aware timestamp that was not converted to UTC is compared by its local fields: it is
      selected as if its local time were UTC, and on a tie not at all. So the comparison is
      right exactly when the offset does not carry the row across the bound, the tie included. */
  lemma UnconvertedOffsetShiftsTheRow(local: DateTime, offset: string, before: DateTime)
    requires Valid(local) && Valid(before) && OffsetText(offset)
    ensures Selected(local, offset, before) <==> Earlier(local, before) || (local == before && offset == UTC)
    ensures var bound, due := Instant(before), TrueInstant(local, offset);
            (Selected(local, offset, before) <==> due <= bound) <==>
            offset == UTC || !(due <= bound <= Instant(local) || Instant(local) < bound < due)
  {
    IsoOrder(before, local, UTC, offset);
    UtcSortsFirst(offset);
    CalendarIsTime(before, local);
    CalendarIsTime(local, before);
    if offset == UTC {
      assert Number("00") == 0 by {
        assert "00"[..1] == "0" && "0"[..0] == "";
      }
      assert UTC[1..3] == "00" && UTC[4..6] == "00";
    }
  }

  /** Three rows on the wrong side of a bound at 10:00 UTC: one due for three hours that is not
      selected, one not due for four hours that is, and one that ties with the bound. */
  lemma MisplacedRows()
    ensures var before := DateTime(2024, 1, 1, 10, 0, 0, 0);
            var noon, eight := before.(hour := 12), before.(hour := 8);
            && Valid(before) && Valid(noon) && Valid(eight)
            && OffsetText("+05:00") && OffsetText("-06:00")
            && !Selected(noon, "+05:00", before) && TrueInstant(noon, "+05:00") == Instant(before) - 3 * 3600000000
            && Selected(eight, "-06:00", before) && TrueInstant(eight, "-06:00") == Instant(before) + 4 * 3600000000
            && !Selected(before, "+05:00", before) && TrueInstant(before, "+05:00") < Instant(before)
  {
    var before := DateTime(2024, 1, 1, 10, 0, 0, 0);
    var noon, eight := before.(hour := 12), before.(hour := 8);
    assert DaysInMonth(2024, 1) == 31;
    HoursApart(before, 12);
    HoursApart(before, 8);
    KnownShifts();
    UnconvertedOffsetShiftsTheRow(noon, "+05:00", before);
    UnconvertedOffsetShiftsTheRow(eight, "-06:00", before);
    UnconvertedOffsetShiftsTheRow(before, "+05:00", before);
  }

  lemma HoursApart(d: DateTime, hour: nat)
    requires Valid(d) && hour < 24
    ensures Instant(d.(hour := hour)) == Instant(d) + (hour - d.hour) * 3600000000
  {
    assert Ordinal(d.(hour := hour)) == Ordinal(d);
  }

  lemma KnownShifts()
    ensures OffsetText("+05:00") && Shift("+05:00") == 5 * 3600000000
    ensures OffsetText("-06:00") && Shift("-06:00") == -6 * 3600000000
  {
    assert "+05:00"[1..3] == "05" && "-06:00"[1..3] == "06" && "+05:00"[4..6] == "00" == "-06:00"[4..6];
    TwoDigits("05");
    TwoDigits("06");
    TwoDigits("00");
  }

  lemma TwoDigits(s: string)
    requires |s| == 2 && IsDigit(s[0]) && IsDigit(s[1])
    ensures Number(s) == (s[0] - '0') as nat * 10 + (s[1] - '0') as nat
  {
    var first := s[..1];
    assert first[..0] == "" && first[0] == s[0];
    assert Number(first) == (s[0] - '0') as nat;
  }
}
