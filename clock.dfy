/** Points in time as the core uses them: UTC instants with second resolution, their
    calendar fields and the two renderings the core writes (`strftime("%Y%m%d%H%M%S")` and
    `isoformat()`). */
module Clock {
  import opened Text

  /** Seconds since 1970-01-01T00:00:00 UTC. */
  type Instant = int

  const SecondsPerMinute: int := 60
  const SecondsPerHour: int := 3600
  const SecondsPerDay: int := 86400

  datatype Civil = Civil(year: int, month: int, day: int, hour: int, minute: int, second: int)

  /** The proleptic Gregorian calendar date and wall-clock time of instant `t`. */
  function ToCivil(t: Instant): (c: Civil)
    ensures 1 <= c.month <= 12 && 1 <= c.day <= 31
    ensures 0 <= c.hour < 24 && 0 <= c.minute < 60 && 0 <= c.second < 60
    ensures c.hour * 3600 + c.minute * 60 + c.second == t % SecondsPerDay
  {
    var (y, m, d) := CivilFromDays(t / 86400);
    var (hh, mm, ss) := TimeOfDay(t % 86400);
    Civil(y, m, d, hh, mm, ss)
  }

  /** Hours, minutes and seconds of the `secs`-th second of a day. */
  function TimeOfDay(secs: int): (r: (int, int, int))
    requires 0 <= secs < 86400
    ensures 0 <= r.0 < 24 && 0 <= r.1 < 60 && 0 <= r.2 < 60
    ensures r.0 * 3600 + r.1 * 60 + r.2 == secs
  {
    (secs / 3600, secs % 3600 / 60, secs % 60)
  }

  /** Year, month and day of the `days`-th day after 1970-01-01 (the days-to-civil
      conversion over the 400-year Gregorian cycle, with floor division): a month from 1
      to 12 and a day from 1 to 31. */
  function CivilFromDays(days: int): (r: (int, int, int))
    ensures 1 <= r.1 <= 12 && 1 <= r.2 <= 31
  {
    var z := days + 719468;
    var era := z / 146097;
    var doe := z - era * 146097;
    var yoe := (doe - doe / 1460 + doe / 36524 - doe / 146096) / 365;
    var y := yoe + era * 400;
    var doy := doe - (365 * yoe + yoe / 4 - yoe / 100);
    YearOfEraBounds(doe);
    var mp := (5 * doy + 2) / 153;
    var d := doy - (153 * mp + 2) / 5 + 1;
    var m := if mp < 10 then mp + 3 else mp - 9;
    (if m <= 2 then y + 1 else y, m, d)
  }

  /** The year of the era found from a day of the era leaves between 0 and 365 days of
      that year. */
  lemma YearOfEraBounds(doe: int)
    requires 0 <= doe < 146097
    ensures var yoe := (doe - doe / 1460 + doe / 36524 - doe / 146096) / 365;
      0 <= yoe < 400 && 0 <= doe - (365 * yoe + yoe / 4 - yoe / 100) <= 365
  {
    if doe < 146096 {
      var c, q, t, e := EraDaySplit(doe);
      YearFromSplit(c, q, t, e);
      assert doe - doe / 1460 + doe / 36524 - doe / 146096 == 365 * (100 * c + 4 * q) + (t - e);
    }
  }

  /** A day of the era before its last as its century `c`, four-year block `q` and day `t`
      of that block, with the correction `e` that `doe / 1460` picks up. */
  lemma EraDaySplit(doe: int) returns (c: int, q: int, t: int, e: int)
    requires 0 <= doe < 146096
    ensures doe == 36524 * c + 1461 * q + t && 0 <= c <= 3 && 0 <= q <= 24 && 0 <= t <= 1460
    ensures e == (if 24 * c + q + t >= 1460 then 1 else 0)
    ensures doe / 1460 == 25 * c + q + e && doe / 36524 == c && doe / 146096 == 0
  {
    c := doe / 36524;
    q := doe % 36524 / 1461;
    t := doe % 36524 % 1461;
    e := if 24 * c + q + t >= 1460 then 1 else 0;
    assert doe == 1460 * (25 * c + q + e) + (24 * c + q + t - 1460 * e);
  }

  /** The year of the era and the day of that year, in terms of the split. */
  lemma YearFromSplit(c: int, q: int, t: int, e: int)
    requires 0 <= c <= 3 && 0 <= q <= 24 && 0 <= t <= 1460
    requires e == (if 24 * c + q + t >= 1460 then 1 else 0)
    ensures var yoe := (365 * (100 * c + 4 * q) + (t - e)) / 365;
      yoe == 100 * c + 4 * q + (t - e) / 365 && 0 <= (t - e) / 365 <= 3
      && 0 <= 36524 * c + 1461 * q + t - (365 * yoe + yoe / 4 - yoe / 100) <= 365
  {
    var k := (t - e) / 365;
    assert 0 <= k <= 3;
    var yoe := 100 * c + 4 * q + k;
    assert yoe / 4 == 25 * c + q && yoe / 100 == c;
    assert 36524 * c + 1461 * q + t - (365 * yoe + yoe / 4 - yoe / 100) == t - 365 * k;
  }

  function Field(n: int, width: nat): string {
    if n < 0 then "-" + Pad(-n, width) else Pad(n, width)
  }

  /** `t.strftime("%Y%m%d%H%M%S")`. */
  function Stamp(t: Instant): string {
    var c := ToCivil(t);
    Field(c.year, 4) + Field(c.month, 2) + Field(c.day, 2)
      + Field(c.hour, 2) + Field(c.minute, 2) + Field(c.second, 2)
  }

  /** `t.isoformat()` for an instant without microseconds. */
  function Iso(t: Instant): string {
    var c := ToCivil(t);
    Field(c.year, 4) + "-" + Field(c.month, 2) + "-" + Field(c.day, 2) + "T"
      + Field(c.hour, 2) + ":" + Field(c.minute, 2) + ":" + Field(c.second, 2)
  }

  /** `str(t)` for an instant without microseconds: the date, a space and the time. */
  function Str(t: Instant): string {
    var c := ToCivil(t);
    Field(c.year, 4) + "-" + Field(c.month, 2) + "-" + Field(c.day, 2) + " "
      + Field(c.hour, 2) + ":" + Field(c.minute, 2) + ":" + Field(c.second, 2)
  }

  /** `t.hour`: the whole hours elapsed since midnight. */
  function Hour(t: Instant): (h: int)
    ensures 0 <= h < 24
    ensures h * SecondsPerHour <= t % SecondsPerDay < (h + 1) * SecondsPerHour
  {
    t % SecondsPerDay / SecondsPerHour
  }

  /** The hour is the calendar time's hour field. */
  lemma HourIsCivilHour(t: Instant)
    ensures Hour(t) == ToCivil(t).hour
  {
    var c := ToCivil(t);
    assert c.hour * 3600 <= t % SecondsPerDay < (c.hour + 1) * 3600;
  }

  /** `t.month`. */
  function Month(t: Instant): (m: int)
    ensures 1 <= m <= 12
  {
    ToCivil(t).month
  }

  /** The time-of-day fields are two digits and the stamp of a four-digit year is fourteen
      digits long. */
  lemma StampShape(t: Instant)
    requires 0 <= ToCivil(t).year < 10000
    ensures |Stamp(t)| == 14 && AllDigits(Stamp(t))
  {
    var c := ToCivil(t);
    assert Pow10(2) == 100 && Pow10(4) == 10000;
  }
}
