/** Calendar dates as the handlers use them: proleptic Gregorian dates, their
    `YYYY-MM-DD` form (the date part of `toISOString()`, which is also the value of
    an `<input type="date">`), and day numbers counted from 1 January 1970, which
    is how `Date.setDate(getDate() + k)` moves a date. */
module Calendar {

  import opened Common
  import opened Strings

  datatype Date = Date(year: int, month: nat, day: nat)

  predicate IsLeap(y: int)
  {
    (y % 4 == 0 && y % 100 != 0) || y % 400 == 0
  }

  function DaysInMonth(y: int, m: nat): nat
  {
    if m == 2 then (if IsLeap(y) then 29 else 28)
    else if m == 4 || m == 6 || m == 9 || m == 11 then 30
    else 31
  }

  lemma AtMost31(y: int, m: nat)
    ensures DaysInMonth(y, m) <= 31
  {
  }

  predicate ValidDate(d: Date)
  {
    1 <= d.month <= 12 && 1 <= d.day <= DaysInMonth(d.year, d.month)
  }

  /** Calendar order: by year, then month, then day. */
  predicate DateLess(a: Date, b: Date)
  {
    a.year < b.year
    || (a.year == b.year && (a.month < b.month || (a.month == b.month && a.day < b.day)))
  }

  // ---------------------------------------------------------------------------
  // The YYYY-MM-DD form

  /** The year as `toISOString` writes it: four digits for years 0 to 9999,
      otherwise a sign and six digits. */
  function YearString(y: int): (s: string)
    ensures 0 <= y <= 9999 ==> |s| == 4 && AllDigits(s) && DecimalValue(s) == y
  {
    if 0 <= y <= 9999 then Pow10Four(); ZeroPad(y, 4)
    else (if y < 0 then "-" else "+") + ZeroPad(if y < 0 then -y else y, 6)
  }

  lemma Pow10Four()
    ensures Pow10(4) == 10000 && Pow10(2) == 100
  {
    assert Pow10(1) == 10;
    assert Pow10(2) == 100;
    assert Pow10(3) == 1000;
  }

  /** `date.toISOString().split("T")[0]`. */
  function IsoDate(d: Date): (s: string)
  {
    YearString(d.year) + "-" + Pad2(d.month) + "-" + Pad2(d.day)
  }

  /** Reads `YYYY-MM-DD`, alone or followed by a `T` and a time of day, as the
      ECMAScript date-time string format does; anything else, or a date that does
      not exist, is an invalid date. */
  function ParseIsoDate(s: string): (r: Option<Date>)
    ensures r.Some? ==> ValidDate(r.value) && 0 <= r.value.year <= 9999
  {
    if |s| >= 10 && (|s| == 10 || s[10] == 'T')
       && AllDigits(s[..4]) && s[4] == '-' && AllDigits(s[5..7]) && s[7] == '-' && AllDigits(s[8..10])
    then
      var d := Date(DecimalValue(s[..4]), DecimalValue(s[5..7]), DecimalValue(s[8..10]));
      DigitsBound(s[..4]);
      if ValidDate(d) then Some(d) else None
    else None
  }

  lemma DigitsBound(s: string)
    requires AllDigits(s) && |s| == 4
    ensures DecimalValue(s) <= 9999
  {
    DigitsBelow(s);
    Pow10Four();
  }

  lemma {:induction false} DigitsBelow(s: string)
    requires AllDigits(s)
    ensures DecimalValue(s) < Pow10(|s|)
    decreases |s|
  {
    if s != [] { DigitsBelow(s[..|s| - 1]); }
  }

  /** Concatenations of equal-length prefixes compare and coincide part by part. */
  lemma Lexicographic(p: string, q: string, x: string, y: string)
    requires |p| == |q|
    ensures Less(p + x, q + y) <==> Less(p, q) || (p == q && Less(x, y))
    ensures p + x == q + y <==> p == q && x == y
  {
    LessConcat(p, q, x, y);
    if p + x == q + y {
      assert p == (p + x)[..|p|] && q == (q + y)[..|q|];
      assert x == (p + x)[|p|..] && y == (q + y)[|q|..];
    }
  }

  /** The pieces of IsoDate(d) sit at fixed places. */
  lemma IsoDatePieces(d: Date)
    requires ValidDate(d) && 0 <= d.year <= 9999
    ensures |YearString(d.year)| == 4 && |Pad2(d.month)| == 2 && |Pad2(d.day)| == 2
    ensures |IsoDate(d)| == 10
    ensures IsoDate(d)[..4] == YearString(d.year) && IsoDate(d)[4] == '-'
    ensures IsoDate(d)[5..7] == Pad2(d.month) && IsoDate(d)[7] == '-'
    ensures IsoDate(d)[8..10] == Pad2(d.day)
  {
    AtMost31(d.year, d.month);
    var y, m, dd := YearString(d.year), Pad2(d.month), Pad2(d.day);
    assert |y| == 4 && |m| == 2 && |dd| == 2;
    DashedPieces(y, m, dd);
  }

  lemma DashedPieces(y: string, m: string, dd: string)
    requires |y| == 4 && |m| == 2 && |dd| == 2
    ensures |y + "-" + m + "-" + dd| == 10
    ensures (y + "-" + m + "-" + dd)[..4] == y && (y + "-" + m + "-" + dd)[4] == '-'
    ensures (y + "-" + m + "-" + dd)[5..7] == m && (y + "-" + m + "-" + dd)[7] == '-'
    ensures (y + "-" + m + "-" + dd)[8..10] == dd
  {
    var s := y + "-" + m + "-" + dd;
    assert s[..4] == y;
    assert s[5..7] == m;
    assert s[8..10] == dd;
  }

  /** Reading back what IsoDate writes gives the same date. */
  lemma IsoDateRoundTrip(d: Date)
    requires ValidDate(d) && 0 <= d.year <= 9999
    ensures ParseIsoDate(IsoDate(d)) == Some(d)
  {
    IsoDatePieces(d);
  }

  /** Two valid dates of years 0 to 9999 compare as their YYYY-MM-DD strings do:
      this is what makes comparing the strings a comparison of dates. */
  lemma IsoDateOrder(a: Date, b: Date)
    requires ValidDate(a) && ValidDate(b)
    requires 0 <= a.year <= 9999 && 0 <= b.year <= 9999
    ensures Less(IsoDate(a), IsoDate(b)) <==> DateLess(a, b)
    ensures IsoDate(a) == IsoDate(b) <==> a == b
  {
    AtMost31(a.year, a.month);
    AtMost31(b.year, b.month);
    var ya, ma, da := YearString(a.year), Pad2(a.month), Pad2(a.day);
    var yb, mb, db := YearString(b.year), Pad2(b.month), Pad2(b.day);
    LessDigits(ya, yb);
    LessDigits(ma, mb);
    LessDigits(da, db);
    DashedOrder(ya, ma, da, yb, mb, db);
  }

  /** Strings of the shape `Y-M-D` with pieces of fixed lengths compare piece
      by piece, most significant first. */
  lemma DashedOrder(ya: string, ma: string, da: string, yb: string, mb: string, db: string)
    requires |ya| == |yb| && |ma| == |mb|
    ensures Less(ya + "-" + ma + "-" + da, yb + "-" + mb + "-" + db) <==>
              (Less(ya, yb) || (ya == yb && (Less(ma, mb) || (ma == mb && Less(da, db)))))
    ensures ya + "-" + ma + "-" + da == yb + "-" + mb + "-" + db <==> ya == yb && ma == mb && da == db
  {
    LessIrreflexive("-");
    Lexicographic(ya, yb, "-", "-");
    Lexicographic(ya + "-", yb + "-", ma, mb);
    Lexicographic(ya + "-" + ma, yb + "-" + mb, "-", "-");
    Lexicographic(ya + "-" + ma + "-", yb + "-" + mb + "-", da, db);
  }

  // ---------------------------------------------------------------------------
  // Day numbers

  /** Days of months m..12 of year y. */
  function DaysFrom(y: int, m: nat): nat
    requires 1 <= m <= 12
    decreases 12 - m
  {
    DaysInMonth(y, m) + (if m == 12 then 0 else DaysFrom(y, m + 1))
  }

  /** Days of months 1..m-1 of year y. */
  function DaysBefore(y: int, m: nat): nat
    requires 1 <= m <= 12
  {
    if m == 1 then 0 else DaysBefore(y, m - 1) + DaysInMonth(y, m - 1)
  }

  /** Days of year y. */
  function DaysInYear(y: int): (n: nat)
    ensures n >= 365
  {
    if IsLeap(y) then 366 else 365
  }

  /** The year's length is the sum of its months' lengths. */
  lemma DaysInYearSum(y: int)
    ensures DaysFrom(y, 1) == DaysInYear(y)
  {
    assert DaysFrom(y, 9) == 122;
    assert DaysFrom(y, 5) == 245;
    assert DaysFrom(y, 2) == DaysInMonth(y, 2) + 306;
  }

  /** The day number of 1 January of year y; 1 January 1970 is day 0. */
  function Jan1(y: int): int
    decreases if y >= 1970 then y - 1970 else 1970 - y
  {
    if y == 1970 then 0
    else if y > 1970 then Jan1(y - 1) + DaysInYear(y - 1)
    else Jan1(y + 1) - DaysInYear(y)
  }

  function DayNumber(d: Date): int
    requires ValidDate(d)
  {
    Jan1(d.year) + DaysBefore(d.year, d.month) + d.day - 1
  }

  /** The date k days into month m of year y (k may run past the month's end). */
  function MonthDay(y: int, m: nat, k: nat): (d: Date)
    requires 1 <= m <= 12 && k < DaysFrom(y, m)
    ensures ValidDate(d) && d.year == y
    ensures DaysBefore(y, d.month) + d.day - 1 == DaysBefore(y, m) + k
    decreases 12 - m
  {
    if k < DaysInMonth(y, m) then Date(y, m, k + 1)
    else MonthDay(y, m + 1, k - DaysInMonth(y, m))
  }

  /** The date k days after 1 January of year y (k may be negative or run past
      the year's end). */
  function DateInYear(y: int, k: int): (d: Date)
    ensures ValidDate(d)
    ensures DayNumber(d) == Jan1(y) + k
    decreases if k < 0 then -k else 0, if k >= DaysInYear(y) then k else 0
  {
    if k < 0 then DateInYear(y - 1, k + DaysInYear(y - 1))
    else if k >= DaysInYear(y) then DateInYear(y + 1, k - DaysInYear(y))
    else
      DaysInYearSum(y);
      MonthDay(y, 1, k)
  }

  /** The date of day number n. */
  function DateOfDay(n: int): (d: Date)
    ensures ValidDate(d) && DayNumber(d) == n
  {
    DateInYear(1970, n)
  }

  /** Day of the week of day number n as `getDay()` gives it: 0 is Sunday;
      1 January 1970 was a Thursday. */
  function Weekday(n: int): (w: nat)
    ensures w < 7
  {
    (n + 4) % 7
  }
}
