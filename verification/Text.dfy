/** The text forms the service stores: identifiers as 36 characters and UTC moments in ISO 8601,
    each with the reader that gives the value back. */
module Text {
  import opened Basics

  // ----- fixed-width numbers -----

  const HEX_DIGITS := "0123456789abcdef"

  function DigitValue(c: char): Option<nat> {
    if '0' <= c <= '9' then Some(c as int - '0' as int)
    else if 'a' <= c <= 'f' then Some(c as int - 'a' as int + 10)
    else None
  }

  function Hex(n: nat, width: nat): (s: string)
    ensures |s| == width
  {
    if width == 0 then "" else Hex(n / 16, width - 1) + [HEX_DIGITS[n % 16]]
  }

  function Decimal(n: nat, width: nat): (s: string)
    ensures |s| == width
  {
    if width == 0 then "" else Decimal(n / 10, width - 1) + [HEX_DIGITS[n % 10]]
  }

  function ParseHex(s: string): Option<nat> {
    if s == "" then Some(0)
    else
      var high, low := ParseHex(s[..|s| - 1]), DigitValue(s[|s| - 1]);
      if high.Some? && low.Some? then Some(16 * high.value + low.value) else None
  }

  function ParseDecimal(s: string): Option<nat> {
    if s == "" then Some(0)
    else
      var high, low := ParseDecimal(s[..|s| - 1]), DigitValue(s[|s| - 1]);
      if high.Some? && low.Some? && low.value < 10 then Some(10 * high.value + low.value) else None
  }

  function Pow16(width: nat): nat {
    if width == 0 then 1 else 16 * Pow16(width - 1)
  }

  function Pow10(width: nat): nat {
    if width == 0 then 1 else 10 * Pow10(width - 1)
  }

  lemma DigitRoundTrip(d: nat)
    requires d < 16
    ensures DigitValue(HEX_DIGITS[d]) == Some(d)
  {
  }

  lemma {:induction false} HexRoundTrip(n: nat, width: nat)
    requires n < Pow16(width)
    ensures ParseHex(Hex(n, width)) == Some(n)
  {
    if width > 0 {
      assert n / 16 < Pow16(width - 1);
      HexRoundTrip(n / 16, width - 1);
      DigitRoundTrip(n % 16);
      var s := Hex(n, width);
      assert s[..|s| - 1] == Hex(n / 16, width - 1);
    }
  }

  lemma {:induction false} DecimalRoundTrip(n: nat, width: nat)
    requires n < Pow10(width)
    ensures ParseDecimal(Decimal(n, width)) == Some(n)
  {
    if width > 0 {
      DecimalRoundTrip(n / 10, width - 1);
      DigitRoundTrip(n % 10);
      var s := Decimal(n, width);
      assert s[..|s| - 1] == Decimal(n / 10, width - 1);
    }
  }

  // ----- identifiers -----

  /** 32 hexadecimal digits in groups of 8, 4, 4, 4 and 12. */
  function UuidText(u: Uuid): (s: string)
    ensures |s| == 36
  {
    var h := Hex(u, 32);
    h[..8] + "-" + h[8..12] + "-" + h[12..16] + "-" + h[16..20] + "-" + h[20..]
  }

  function ParseUuid(s: string): Option<Uuid> {
    if |s| == 36 && s[8] == '-' && s[13] == '-' && s[18] == '-' && s[23] == '-' then
      var n := ParseHex(s[..8] + s[9..13] + s[14..18] + s[19..23] + s[24..]);
      if n.Some? && n.value < 0x1_0000_0000_0000_0000_0000_0000_0000_0000 then Some(n.value) else None
    else None
  }

  /** The canonical shape: 32 digits in groups of 8, 4, 4, 4 and 12. */
  lemma UuidTextShape(u: Uuid)
    ensures var s := UuidText(u);
            && |s| == 36 && s[8] == '-' && s[13] == '-' && s[18] == '-' && s[23] == '-'
            && s[..8] + s[9..13] + s[14..18] + s[19..23] + s[24..] == Hex(u, 32)
  {
    var h, s := Hex(u, 32), UuidText(u);
    assert s[..8] == h[..8] && s[9..13] == h[8..12] && s[14..18] == h[12..16] && s[19..23] == h[16..20] && s[24..] == h[20..];
  }

  lemma UuidRoundTrip(u: Uuid)
    ensures ParseUuid(UuidText(u)) == Some(u)
  {
    var h, s := Hex(u, 32), UuidText(u);
    assert Pow16(8) == 0x1_0000_0000;
    assert Pow16(16) == 0x1_0000_0000_0000_0000;
    assert Pow16(24) == 0x1_0000_0000_0000_0000_0000_0000;
    assert Pow16(32) == 0x1_0000_0000_0000_0000_0000_0000_0000_0000;
    HexRoundTrip(u, 32);
    assert s[..8] == h[..8] && s[9..13] == h[8..12] && s[14..18] == h[12..16];
    assert s[19..23] == h[16..20] && s[24..] == h[20..];
    assert h == h[..8] + h[8..12] + h[12..16] + h[16..20] + h[20..];
  }

  /** Different identifiers have different texts. */
  lemma UuidTextInjective(u: Uuid, v: Uuid)
    requires UuidText(u) == UuidText(v)
    ensures u == v
  {
    UuidRoundTrip(u);
    UuidRoundTrip(v);
  }

  // ----- moments -----

  datatype CalendarTime = CalendarTime(
    year: nat, month: nat, day: nat, hour: nat, minute: nat, second: nat, microsecond: nat)

  predicate IsLeap(year: nat) {
    year % 4 == 0 && (year % 100 != 0 || year % 400 == 0)
  }

  function DaysIn(year: nat, month: nat): nat {
    if month == 2 then if IsLeap(year) then 29 else 28
    else if month in {4, 6, 9, 11} then 30
    else 31
  }

  predicate InCalendar(t: CalendarTime) {
    && 1 <= t.year <= 9999 && 1 <= t.month <= 12 && 1 <= t.day <= DaysIn(t.year, t.month)
    && t.hour < 24 && t.minute < 60 && t.second < 60 && t.microsecond < 1_000_000
  }

  /** A UTC moment to the microsecond. */
  type Moment = t: CalendarTime | InCalendar(t) witness CalendarTime(1970, 1, 1, 0, 0, 0, 0)

  function DayRank(t: Moment): int {
    (t.year * 13 + t.month) * 32 + t.day
  }

  function ClockRank(t: Moment): int {
    ((t.hour * 60 + t.minute) * 60 + t.second) * 1_000_000 + t.microsecond
  }

  /** Orders moments as integers; earlier moments have smaller ranks. */
  function Rank(t: Moment): int {
    DayRank(t) * 86_400_000_000 + ClockRank(t)
  }

  predicate EarlierDay(a: Moment, b: Moment) {
    a.year < b.year || (a.year == b.year && (a.month < b.month || (a.month == b.month && a.day < b.day)))
  }

  predicate EarlierClock(a: Moment, b: Moment) {
    || a.hour < b.hour
    || (a.hour == b.hour &&
        (|| a.minute < b.minute
         || (a.minute == b.minute &&
             (a.second < b.second || (a.second == b.second && a.microsecond < b.microsecond)))))
  }

  /** Chronological order, field by field. */
  predicate Before(a: Moment, b: Moment) {
    || EarlierDay(a, b)
    || (a.year == b.year && a.month == b.month && a.day == b.day && EarlierClock(a, b))
  }

  lemma DayRankOrders(a: Moment, b: Moment)
    ensures DayRank(a) < DayRank(b) <==> EarlierDay(a, b)
    ensures DayRank(a) == DayRank(b) <==> a.year == b.year && a.month == b.month && a.day == b.day
  {
  }

  lemma ClockRankOrders(a: Moment, b: Moment)
    ensures 0 <= ClockRank(a) < 86_400_000_000
    ensures ClockRank(a) < ClockRank(b) <==> EarlierClock(a, b)
    ensures ClockRank(a) == ClockRank(b) <==>
              a.hour == b.hour && a.minute == b.minute && a.second == b.second && a.microsecond == b.microsecond
  {
  }

  lemma RankIsChronological(a: Moment, b: Moment)
    ensures Rank(a) < Rank(b) <==> Before(a, b)
    ensures Rank(a) == Rank(b) <==> a == b
  {
    DayRankOrders(a, b);
    ClockRankOrders(a, b);
    ClockRankOrders(b, a);
  }

  function DateText(t: Moment): (s: string)
    ensures |s| == 10
  {
    Decimal(t.year, 4) + "-" + Decimal(t.month, 2) + "-" + Decimal(t.day, 2)
  }

  function ClockText(t: Moment): (s: string)
    ensures |s| == 8
  {
    Decimal(t.hour, 2) + ":" + Decimal(t.minute, 2) + ":" + Decimal(t.second, 2)
  }

  function FractionText(t: Moment): (s: string)
    ensures |s| == if t.microsecond == 0 then 0 else 7
  {
    if t.microsecond == 0 then "" else "." + Decimal(t.microsecond, 6)
  }

  function IsoText(t: Moment): string {
    DateText(t) + "T" + ClockText(t) + FractionText(t) + "+00:00"
  }

  function ParseDate(s: string): Option<(nat, nat, nat)> {
    if |s| != 10 || s[4] != '-' || s[7] != '-' then None
    else
      var year, month, day := ParseDecimal(s[..4]), ParseDecimal(s[5..7]), ParseDecimal(s[8..]);
      if year.Some? && month.Some? && day.Some? then Some((year.value, month.value, day.value)) else None
  }

  function ParseClock(s: string): Option<(nat, nat, nat)> {
    if |s| != 8 || s[2] != ':' || s[5] != ':' then None
    else
      var hour, minute, second := ParseDecimal(s[..2]), ParseDecimal(s[3..5]), ParseDecimal(s[6..]);
      if hour.Some? && minute.Some? && second.Some? then Some((hour.value, minute.value, second.value)) else None
  }

  function ParseFraction(s: string): Option<nat> {
    if s == "" then Some(0)
    else if |s| == 7 && s[0] == '.' then ParseDecimal(s[1..])
    else None
  }

  /** Reads back what `IsoText` writes; None for anything that is not a moment in that form. */
  function ParseIso(s: string): Option<Moment> {
    if |s| < 25 || s[10] != 'T' || s[|s| - 6..] != "+00:00" then None
    else
      var date, clock, fraction := ParseDate(s[..10]), ParseClock(s[11..19]), ParseFraction(s[19..|s| - 6]);
      if date.None? || clock.None? || fraction.None? then None
      else
        var t := CalendarTime(date.value.0, date.value.1, date.value.2,
                              clock.value.0, clock.value.1, clock.value.2, fraction.value);
        if InCalendar(t) then Some(t) else None
  }

  lemma DateRoundTrip(t: Moment)
    ensures ParseDate(DateText(t)) == Some((t.year, t.month, t.day))
  {
    var s := DateText(t);
    assert Pow10(2) == 100 && Pow10(4) == 10_000;
    DecimalRoundTrip(t.year, 4);
    DecimalRoundTrip(t.month, 2);
    DecimalRoundTrip(t.day, 2);
    assert s[..4] == Decimal(t.year, 4) && s[5..7] == Decimal(t.month, 2) && s[8..] == Decimal(t.day, 2);
  }

  lemma ClockRoundTrip(t: Moment)
    ensures ParseClock(ClockText(t)) == Some((t.hour, t.minute, t.second))
  {
    var s := ClockText(t);
    assert Pow10(2) == 100;
    DecimalRoundTrip(t.hour, 2);
    DecimalRoundTrip(t.minute, 2);
    DecimalRoundTrip(t.second, 2);
    assert s[..2] == Decimal(t.hour, 2) && s[3..5] == Decimal(t.minute, 2) && s[6..] == Decimal(t.second, 2);
  }

  lemma FractionRoundTrip(t: Moment)
    ensures ParseFraction(FractionText(t)) == Some(t.microsecond)
  {
    assert Pow10(6) == 1_000_000;
    DecimalRoundTrip(t.microsecond, 6);
    if t.microsecond != 0 {
      assert FractionText(t)[1..] == Decimal(t.microsecond, 6);
    }
  }

  lemma IsoRoundTrip(t: Moment)
    ensures ParseIso(IsoText(t)) == Some(t)
  {
    var s := IsoText(t);
    DateRoundTrip(t);
    ClockRoundTrip(t);
    FractionRoundTrip(t);
    assert s[..10] == DateText(t) && s[11..19] == ClockText(t);
    assert s[19..|s| - 6] == FractionText(t) && s[|s| - 6..] == "+00:00";
  }
}
