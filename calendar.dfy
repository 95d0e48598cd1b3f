/** The proleptic Gregorian calendar of Python's `datetime.date`, reduced to
    what the analytics windows and the dashboard use: day numbers
    (`toordinal`), `weekday`, stepping by `timedelta(days=k)`, and the two
    text renderings the views emit (`isoformat` and `'%b %d'`). */
module Calendar {
  import opened Common

  datatype Date = Date(year: int, month: int, day: int)

  predicate IsLeap(y: int) {
    y % 4 == 0 && (y % 100 != 0 || y % 400 == 0)
  }

  function DaysInMonth(y: int, m: int): int
    requires 1 <= m <= 12
  {
    if m == 2 then (if IsLeap(y) then 29 else 28)
    else if m == 4 || m == 6 || m == 9 || m == 11 then 30
    else 31
  }

  predicate ValidDate(d: Date) {
    d.year >= 1 && 1 <= d.month <= 12 && 1 <= d.day <= DaysInMonth(d.year, d.month)
  }

  function DaysBeforeYear(y: int): int {
    var p := y - 1;
    p * 365 + p / 4 - p / 100 + p / 400
  }

  function DaysBeforeMonth(y: int, m: int): int
    requires 1 <= m <= 12
  {
    if m == 1 then 0 else DaysBeforeMonth(y, m - 1) + DaysInMonth(y, m - 1)
  }

  /** `date.toordinal()`: 1 January of year 1 is day 1. */
  function Ordinal(d: Date): int
    requires ValidDate(d)
  {
    DaysBeforeYear(d.year) + DaysBeforeMonth(d.year, d.month) + d.day
  }

  /** `date.weekday()`: Monday is 0 and Sunday is 6. */
  function Weekday(d: Date): int
    requires ValidDate(d)
  {
    (Ordinal(d) + 6) % 7
  }

  lemma YearLength(y: int)
    requires y >= 1
    ensures DaysBeforeYear(y + 1) == DaysBeforeYear(y) + (if IsLeap(y) then 366 else 365)
  {
    var p := y - 1;
    DivSteps(y);
    DivisorChain(y);
    var a, b, c := y / 4 - p / 4, y / 100 - p / 100, y / 400 - p / 400;
    assert DaysBeforeYear(y + 1) - DaysBeforeYear(y) == 365 + a - b + c;
  }

  /** A multiple of 400 is one of 100, and a multiple of 100 one of 4. */
  lemma DivisorChain(y: int)
    ensures y % 400 == 0 ==> y % 100 == 0
    ensures y % 100 == 0 ==> y % 4 == 0
  {
    if y % 400 == 0 {
      var k := y / 400;
      assert y == 100 * (4 * k);
    }
    if y % 100 == 0 {
      var k := y / 100;
      assert y == 4 * (25 * k);
    }
  }

  lemma DivSteps(y: int)
    ensures y / 4 == (y - 1) / 4 + (if y % 4 == 0 then 1 else 0)
    ensures y / 100 == (y - 1) / 100 + (if y % 100 == 0 then 1 else 0)
    ensures y / 400 == (y - 1) / 400 + (if y % 400 == 0 then 1 else 0)
  {
  }

  lemma DaysBeforeDecember(y: int)
    ensures DaysBeforeMonth(y, 12) + 31 == if IsLeap(y) then 366 else 365
  {
    var f := DaysInMonth(y, 2);
    assert DaysBeforeMonth(y, 2) == 31;
    assert DaysBeforeMonth(y, 3) == 31 + f;
    assert DaysBeforeMonth(y, 4) == 62 + f;
    assert DaysBeforeMonth(y, 5) == 92 + f;
    assert DaysBeforeMonth(y, 6) == 123 + f;
    assert DaysBeforeMonth(y, 7) == 153 + f;
    assert DaysBeforeMonth(y, 8) == 184 + f;
    assert DaysBeforeMonth(y, 9) == 215 + f;
    assert DaysBeforeMonth(y, 10) == 245 + f;
    assert DaysBeforeMonth(y, 11) == 276 + f;
    assert DaysBeforeMonth(y, 12) == 306 + f;
  }

  lemma OrdinalPositive(d: Date)
    requires ValidDate(d)
    ensures Ordinal(d) >= 1
  {
    var p := d.year - 1;
    assert p / 4 >= p / 100;
    assert DaysBeforeYear(d.year) >= 0;
    DaysBeforeMonthNonNegative(d.year, d.month);
  }

  lemma {:induction false} DaysBeforeMonthNonNegative(y: int, m: int)
    requires 1 <= m <= 12
    ensures DaysBeforeMonth(y, m) >= 0
  {
    if m > 1 {
      DaysBeforeMonthNonNegative(y, m - 1);
    }
  }

  /** The day before `d`, i.e. `d - timedelta(days=1)`. */
  function PrevDay(d: Date): (r: Date)
    requires ValidDate(d) && Ordinal(d) > 1
    ensures ValidDate(r) && Ordinal(r) == Ordinal(d) - 1
  {
    if d.day > 1 then Date(d.year, d.month, d.day - 1)
    else if d.month > 1 then Date(d.year, d.month - 1, DaysInMonth(d.year, d.month - 1))
    else
      YearLength(d.year - 1);
      DaysBeforeDecember(d.year - 1);
      Date(d.year - 1, 12, 31)
  }

  /** The day after `d`, i.e. `d + timedelta(days=1)`. */
  function NextDay(d: Date): (r: Date)
    requires ValidDate(d)
    ensures ValidDate(r) && Ordinal(r) == Ordinal(d) + 1
  {
    if d.day < DaysInMonth(d.year, d.month) then Date(d.year, d.month, d.day + 1)
    else if d.month < 12 then Date(d.year, d.month + 1, 1)
    else
      YearLength(d.year);
      DaysBeforeDecember(d.year);
      Date(d.year + 1, 1, 1)
  }

  /** `d - timedelta(days=k)`, defined while the result stays after year 0. */
  function SubDays(d: Date, k: nat): (r: Date)
    requires ValidDate(d) && k < Ordinal(d)
    ensures ValidDate(r) && Ordinal(r) == Ordinal(d) - k
    decreases k
  {
    if k == 0 then d else SubDays(PrevDay(d), k - 1)
  }

  /** `d + timedelta(days=k)`. */
  function AddDays(d: Date, k: nat): (r: Date)
    requires ValidDate(d)
    ensures ValidDate(r) && Ordinal(r) == Ordinal(d) + k
    decreases k
  {
    if k == 0 then d else AddDays(NextDay(d), k - 1)
  }

  /** A timezone-aware UTC timestamp as the ORM returns it. */
  datatype DateTime = DateTime(date: Date, hour: int, minute: int, second: int, micro: int)

  predicate ValidDateTime(t: DateTime) {
    ValidDate(t.date) && 0 <= t.hour < 24 && 0 <= t.minute < 60
    && 0 <= t.second < 60 && 0 <= t.micro < 1000000
  }

  /** A calendar day that exists. */
  type Day = d: Date | ValidDate(d) witness Date(1, 1, 1)

  /** A timestamp whose fields are in range. */
  type Instant = t: DateTime | ValidDateTime(t) witness DateTime(Date(1, 1, 1), 0, 0, 0, 0)

  /** Microseconds since the start of day 1: orders timestamps. */
  function Micros(t: DateTime): int
    requires ValidDateTime(t)
  {
    (((Ordinal(t.date) * 24 + t.hour) * 60 + t.minute) * 60 + t.second) * 1000000 + t.micro
  }

  /** `'%0*d' % (width, n)`. */
  function Pad(n: nat, width: nat): (r: string)
    ensures |r| >= width
  {
    var s := NatToString(n);
    if |s| >= width then s else seq(width - |s|, _ => '0') + s
  }

  /** `str(d)` of a date: `YYYY-MM-DD`. */
  function DateText(d: Date): string
    requires ValidDate(d)
  {
    Pad(d.year as nat, 4) + "-" + Pad(d.month as nat, 2) + "-" + Pad(d.day as nat, 2)
  }

  /** `datetime.isoformat()` of a UTC timestamp: microseconds are written
      only when they are not zero. */
  function IsoFormat(t: DateTime): string
    requires ValidDateTime(t)
  {
    DateText(t.date) + "T" + Pad(t.hour as nat, 2) + ":" + Pad(t.minute as nat, 2) + ":" + Pad(t.second as nat, 2)
    + (if t.micro == 0 then "" else "." + Pad(t.micro as nat, 6))
    + "+00:00"
  }

  function MonthAbbrev(m: int): string
    requires 1 <= m <= 12
  {
    ["Jan", "Feb", "Mar", "Apr", "May", "Jun", "Jul", "Aug", "Sep", "Oct", "Nov", "Dec"][m - 1]
  }

  /** `d.strftime('%b %d')` in the C locale. */
  function ShortLabel(d: Date): string
    requires ValidDate(d)
  {
    MonthAbbrev(d.month) + " " + Pad(d.day as nat, 2)
  }
}
