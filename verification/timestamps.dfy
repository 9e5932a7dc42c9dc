/** `_to_timestamp`: the fields of a timestamp read from the groups of the timestamp pattern, and
    the time zone applied so that the result is a naive `datetime` in UTC.

    The source applies the zone in two small steps, one borrow or carry per field, which goes wrong
    in two ways: the zone minutes are subtracted with the wrong sign when the zone is negative, and
    the carry at exactly 60 minutes or 24 hours, or across the end of a month, is missed.
    `ZoneAppliedAsWritten` models those steps as they are; `ZoneApplied`, which the loader uses,
    keeps their shape (so local fields out of range, such as minute 99 or day 32, are carried once
    as the source carries them) with the sign, the bounds and the month end put right. `ToUtc` is
    the arithmetic over the calendar both are measured against. */
module Timestamps {
  import opened Outcome
  import opened Values
  import opened Text
  import opened Patterns
  import Calendar

  /** The fields of a time stamp before they are handed to Python's `datetime`. */
  datatype Stamp = Stamp(date: Calendar.Date, hour: int, minute: int, second: int, micro: int)

  /** The hour and the minute are on the clock. */
  predicate OnClock(s: Stamp) {
    0 <= s.hour < 24 && 0 <= s.minute < 60
  }

  /** `datetime(...)` accepts the fields. */
  predicate ValidStamp(s: Stamp) {
    Calendar.ValidDate(s.date) && OnClock(s) && 0 <= s.second < 60 && 0 <= s.micro < 1000000
  }

  /** Minutes from midnight of 1 January of year 1. */
  function MinuteNumber(s: Stamp): int
    requires 1 <= s.date.month <= 12
  {
    Calendar.DayNumber(s.date) * 1440 + s.hour * 60 + s.minute
  }

  /** `PyDate_FromDate`: the date, or the ValueError of a field out of range. */
  function DateOf(d: Calendar.Date): (r: Result<Value>)
    ensures r.Ok? <==> Calendar.ValidDate(d)
    ensures r.Ok? ==> r.value == Date(d.year, d.month, d.day)
    ensures r.Err? ==> r.error == InvalidDate
  {
    if Calendar.ValidDate(d) then Ok(Date(d.year, d.month, d.day)) else Err(InvalidDate)
  }

  /** `PyDateTime_FromDateAndTime`: the date and time, or the ValueError of a field out of range. */
  function DateTimeOf(s: Stamp): (r: Result<Value>)
    ensures r.Ok? <==> ValidStamp(s)
    ensures r.Ok? ==> r.value == DateTime(s.date.year, s.date.month, s.date.day, s.hour, s.minute, s.second, s.micro)
    ensures r.Err? ==> r.error == InvalidDate
  {
    if ValidStamp(s) then Ok(DateTime(s.date.year, s.date.month, s.date.day, s.hour, s.minute, s.second, s.micro))
    else Err(InvalidDate)
  }

  /** The zone adjustment of `_to_timestamp` as written: the zone minutes `tzm` are taken off the
      minute with one borrow from the hour below 0 or one carry above 60, then the signed zone
      hour `tzh` is taken off the hour with one borrow from the day below 0 or one carry above 24.
      The day is moved within its month; nothing looks at the length of the month. */
  function ZoneAppliedAsWritten(s: Stamp, tzh: int, tzm: int): (r: Stamp)
    ensures r.date.year == s.date.year && r.date.month == s.date.month
    ensures r.second == s.second && r.micro == s.micro
    ensures (r.date.day * 24 + r.hour) * 60 + r.minute == (s.date.day * 24 + s.hour) * 60 + s.minute - (tzh * 60 + tzm)
  {
    var minute1 := s.minute - tzm;
    var hour1 := if minute1 < 0 then s.hour - 1 else s.hour;
    var minute2 := if minute1 < 0 then minute1 + 60 else minute1;
    var hour2 := if minute2 > 60 then hour1 + 1 else hour1;
    var minute3 := if minute2 > 60 then minute2 - 60 else minute2;
    var hour3 := hour2 - tzh;
    var day1 := if hour3 < 0 then s.date.day - 1 else s.date.day;
    var hour4 := if hour3 < 0 then hour3 + 24 else hour3;
    var day2 := if hour4 > 24 then day1 + 1 else day1;
    var hour5 := if hour4 > 24 then hour4 - 24 else hour4;
    Stamp(Calendar.Date(s.date.year, s.date.month, day2), hour5, minute3, s.second, s.micro)
  }

  /** The local time `s` moved to UTC, `offset` minutes east of it being taken off: the day moves
      over month and year ends as the calendar does. */
  function ToUtc(s: Stamp, offset: int): (r: Stamp)
    requires Calendar.OnCalendar(s.date)
    ensures Calendar.OnCalendar(r.date) && OnClock(r)
    ensures MinuteNumber(r) == MinuteNumber(s) - offset
    ensures r.second == s.second && r.micro == s.micro
  {
    var t := s.hour * 60 + s.minute - offset;
    var m := t % 1440;
    Stamp(Calendar.ShiftDays(s.date, t / 1440), m / 60, m % 60, s.second, s.micro)
  }

  /** A minute number names one minute: stamps on the calendar and on the clock with the same
      number have the same date, hour and minute. */
  lemma MinuteNumberInjective(a: Stamp, b: Stamp)
    requires Calendar.OnCalendar(a.date) && OnClock(a)
    requires Calendar.OnCalendar(b.date) && OnClock(b)
    requires MinuteNumber(a) == MinuteNumber(b)
    ensures a.date == b.date && a.hour == b.hour && a.minute == b.minute
  {
    Calendar.DayNumberInjective(a.date, b.date);
  }

  /** `ToUtc` is the only stamp on the calendar and the clock `offset` minutes before `s`. */
  lemma ToUtcUnique(s: Stamp, offset: int, r: Stamp)
    requires Calendar.OnCalendar(s.date)
    requires Calendar.OnCalendar(r.date) && OnClock(r) && r.second == s.second && r.micro == s.micro
    requires MinuteNumber(r) == MinuteNumber(s) - offset
    ensures r == ToUtc(s, offset)
  {
    MinuteNumberInjective(r, ToUtc(s, offset));
  }

  /** Whenever the source's adjustment yields a time stamp `datetime` accepts, it is the right one
      for the offset `tzh * 60 + tzm`: the two steps go wrong only by giving up on a carry, and by
      reading that offset from a zone such as `-05:30`. */
  lemma AsWrittenRightWhenValid(s: Stamp, tzh: int, tzm: int)
    requires Calendar.OnCalendar(s.date)
    requires ValidStamp(ZoneAppliedAsWritten(s, tzh, tzm))
    ensures ZoneAppliedAsWritten(s, tzh, tzm) == ToUtc(s, tzh * 60 + tzm)
  {
    var r := ZoneAppliedAsWritten(s, tzh, tzm);
    assert Calendar.DayNumber(r.date) - Calendar.DayNumber(s.date) == r.date.day - s.date.day;
    ToUtcUnique(s, tzh * 60 + tzm, r);
  }

  /** The day before `d` as the adjustment moves it: over the end of the month and the year for a
      day on the calendar, within the month (as the source does) for one that is not. */
  function DayBefore(d: Calendar.Date): Calendar.Date {
    if Calendar.OnCalendar(d) then Calendar.PreviousDay(d) else Calendar.Date(d.year, d.month, d.day - 1)
  }

  /** The day after `d`, moved the same way. */
  function DayAfter(d: Calendar.Date): Calendar.Date {
    if Calendar.OnCalendar(d) then Calendar.NextDay(d) else Calendar.Date(d.year, d.month, d.day + 1)
  }

  /** The zone adjustment with the source's steps put right: `tzm` carries the sign of the zone,
      the minute carries at 60 and the hour at 24, and the day moves over month and year ends.
      Like the source it borrows or carries at most once per field. */
  function ZoneApplied(s: Stamp, tzh: int, tzm: int): (r: Stamp)
    ensures r.second == s.second && r.micro == s.micro
    ensures Calendar.OnCalendar(s.date) && OnClock(s) && -24 < tzh < 24 && -60 < tzm < 60 ==>
              r == ToUtc(s, tzh * 60 + tzm)
  {
    var minute1 := s.minute - tzm;
    var hour1 := if minute1 < 0 then s.hour - 1 else s.hour;
    var minute2 := if minute1 < 0 then minute1 + 60 else minute1;
    var hour2 := if minute2 >= 60 then hour1 + 1 else hour1;
    var minute3 := if minute2 >= 60 then minute2 - 60 else minute2;
    var hour3 := hour2 - tzh;
    var hour4 := if hour3 < 0 then hour3 + 24 else hour3;
    var hour5 := if hour4 >= 24 then hour4 - 24 else hour4;
    var date := if hour3 < 0 then DayBefore(s.date) else if hour4 >= 24 then DayAfter(s.date) else s.date;
    var r := Stamp(date, hour5, minute3, s.second, s.micro);
    if Calendar.OnCalendar(s.date) && OnClock(s) && -24 < tzh < 24 && -60 < tzm < 60 then
      assert Calendar.OnCalendar(r.date) && OnClock(r);
      assert MinuteNumber(r) == MinuteNumber(s) - (tzh * 60 + tzm);
      ToUtcUnique(s, tzh * 60 + tzm, r);
      r
    else r
  }

  /** Where the source's steps carry correctly, the corrected ones do the same: they part only
      when the source leaves minute 60 or hour 24, or runs a day on the calendar off its month. */
  lemma ZoneAppliedAgrees(s: Stamp, tzh: int, tzm: int)
    requires ZoneAppliedAsWritten(s, tzh, tzm).minute != 60 && ZoneAppliedAsWritten(s, tzh, tzm).hour != 24
    requires Calendar.OnCalendar(s.date) ==> Calendar.OnCalendar(ZoneAppliedAsWritten(s, tzh, tzm).date)
    ensures ZoneApplied(s, tzh, tzm) == ZoneAppliedAsWritten(s, tzh, tzm)
  {
  }

  /** Local fields out of range are carried once, by the source and by the corrected steps alike:
      `10:99:00` is 11:39, `25:00:00` on the 14th is 01:00 on the 15th, and `01:00:00+05:00` on
      the 32nd of December is 20:00 on the 31st; each is a `datetime` Python accepts. */
  lemma CarriedLocalFields()
    ensures ZoneApplied(Stamp(Calendar.Date(2001, 12, 14), 10, 99, 0, 0), 0, 0)
         == ZoneAppliedAsWritten(Stamp(Calendar.Date(2001, 12, 14), 10, 99, 0, 0), 0, 0)
         == Stamp(Calendar.Date(2001, 12, 14), 11, 39, 0, 0)
    ensures ZoneApplied(Stamp(Calendar.Date(2001, 12, 14), 25, 0, 0, 0), 0, 0)
         == ZoneAppliedAsWritten(Stamp(Calendar.Date(2001, 12, 14), 25, 0, 0, 0), 0, 0)
         == Stamp(Calendar.Date(2001, 12, 15), 1, 0, 0, 0)
    ensures ZoneApplied(Stamp(Calendar.Date(2001, 12, 32), 1, 0, 0, 0), 5, 0)
         == ZoneAppliedAsWritten(Stamp(Calendar.Date(2001, 12, 32), 1, 0, 0, 0), 5, 0)
         == Stamp(Calendar.Date(2001, 12, 31), 20, 0, 0, 0)
    ensures ValidStamp(Stamp(Calendar.Date(2001, 12, 14), 11, 39, 0, 0))
    ensures ValidStamp(Stamp(Calendar.Date(2001, 12, 15), 1, 0, 0, 0))
    ensures ValidStamp(Stamp(Calendar.Date(2001, 12, 31), 20, 0, 0, 0))
  {
    assert !OnClock(Stamp(Calendar.Date(2001, 12, 14), 10, 99, 0, 0));
    assert !Calendar.OnCalendar(Calendar.Date(2001, 12, 32));
  }

  /** The two ways the adjustment as written goes wrong, each on a time stamp of 14 or 31 December
      2001 (the zone of the text in brackets):
      - `10:30:00-05:30` is read as 15:00, where 10:30 five and a half hours west of UTC is 16:00;
      - `20:00:00-04:00` gives the hour 24, which is not carried, so `datetime` refuses it, where
        the right answer is midnight on the 15th;
      - `23:00:00-05:00` on the 31st gives day 32, which `datetime` refuses, where the right answer
        is 04:00 on 1 January 2002.
      The corrected steps, given the zone minutes with their sign, give the right answers. */
  lemma ZoneFindings()
    ensures ZoneAppliedAsWritten(Stamp(Calendar.Date(2001, 12, 14), 10, 30, 0, 0), -5, 30)
         == Stamp(Calendar.Date(2001, 12, 14), 15, 0, 0, 0)
    ensures ToUtc(Stamp(Calendar.Date(2001, 12, 14), 10, 30, 0, 0), -330)
         == Stamp(Calendar.Date(2001, 12, 14), 16, 0, 0, 0)
    ensures DateTimeOf(ZoneAppliedAsWritten(Stamp(Calendar.Date(2001, 12, 14), 20, 0, 0, 0), -4, 0)).Err?
    ensures ToUtc(Stamp(Calendar.Date(2001, 12, 14), 20, 0, 0, 0), -240)
         == Stamp(Calendar.Date(2001, 12, 15), 0, 0, 0, 0)
    ensures DateTimeOf(ZoneAppliedAsWritten(Stamp(Calendar.Date(2001, 12, 31), 23, 0, 0, 0), -5, 0)).Err?
    ensures ToUtc(Stamp(Calendar.Date(2001, 12, 31), 23, 0, 0, 0), -300)
         == Stamp(Calendar.Date(2002, 1, 1), 4, 0, 0, 0)
    ensures ZoneApplied(Stamp(Calendar.Date(2001, 12, 14), 10, 30, 0, 0), -5, -30)
         == Stamp(Calendar.Date(2001, 12, 14), 16, 0, 0, 0)
    ensures ZoneApplied(Stamp(Calendar.Date(2001, 12, 14), 20, 0, 0, 0), -4, 0)
         == Stamp(Calendar.Date(2001, 12, 15), 0, 0, 0, 0)
    ensures ZoneApplied(Stamp(Calendar.Date(2001, 12, 31), 23, 0, 0, 0), -5, 0)
         == Stamp(Calendar.Date(2002, 1, 1), 4, 0, 0, 0)
  {
    var d14 := Calendar.Date(2001, 12, 14);
    ToUtcUnique(Stamp(d14, 10, 30, 0, 0), -330, Stamp(d14, 16, 0, 0, 0));
    var d15 := Calendar.NextDay(d14);
    ToUtcUnique(Stamp(d14, 20, 0, 0, 0), -240, Stamp(d15, 0, 0, 0, 0));
    var jan1 := Calendar.NextDay(Calendar.Date(2001, 12, 31));
    ToUtcUnique(Stamp(Calendar.Date(2001, 12, 31), 23, 0, 0, 0), -300, Stamp(jan1, 4, 0, 0, 0));
  }

  /** `2001-12-15T02:59:43.1Z` and `2001-12-14T21:59:43.10-05:00` name the same instant: both
      fractions are 100000 microseconds, and both stamps come out as 02:59:43.1 on 15 December
      2001, with the adjustment as written too. */
  lemma ZoneEquivalence()
    ensures Micros("1Z", 6) == 100000 && Micros("10-05:00", 6) == 100000
    ensures ToUtc(Stamp(Calendar.Date(2001, 12, 15), 2, 59, 43, 100000), 0)
         == ToUtc(Stamp(Calendar.Date(2001, 12, 14), 21, 59, 43, 100000), -300)
         == Stamp(Calendar.Date(2001, 12, 15), 2, 59, 43, 100000)
    ensures ZoneAppliedAsWritten(Stamp(Calendar.Date(2001, 12, 14), 21, 59, 43, 100000), -5, 0)
         == Stamp(Calendar.Date(2001, 12, 15), 2, 59, 43, 100000)
  {
    assert Ten(5) == 100000;
    assert Micros("1Z", 6) == 100000 by {
      assert "1Z"[1..] == "Z";
    }
    assert Micros("10-05:00", 6) == 100000 by {
      assert "10-05:00"[1..] == "0-05:00" && "0-05:00"[1..] == "-05:00";
    }
    var d15 := Stamp(Calendar.Date(2001, 12, 15), 2, 59, 43, 100000);
    ToUtcUnique(d15, 0, d15);
    assert Calendar.NextDay(Calendar.Date(2001, 12, 14)) == d15.date;
    ToUtcUnique(Stamp(Calendar.Date(2001, 12, 14), 21, 59, 43, 100000), -300, d15);
  }

  // ---------------------------------------------------------------------------------------------
  // Reading the groups

  /** `atoi` at group `i`, 0 when the group is unset (the pattern sets every group it requires). */
  function GroupInt(text: string, caps: Captures, i: nat): int
    requires Fits(caps, |text|)
  {
    match Group(caps, i)
    case None => 0
    case Some(g) => Atoi(text[g.start..])
  }

  /** 10 to the power `n`. */
  function Ten(n: nat): (t: nat)
    ensures t >= 1
  {
    if n == 0 then 1 else 10 * Ten(n - 1)
  }

  /** The first `n` digits of a fraction `.ddd…` as an integer of `n` places, the missing digits
      read as zeros: with `n` = 6 its microseconds. */
  function Micros(digits: string, n: nat): (m: nat)
    ensures m < Ten(n)
  {
    if n == 0 || digits == [] || !IsDigit(digits[0]) then 0
    else
      var d := DigitValue(digits[0]);
      assert d * Ten(n - 1) <= 9 * Ten(n - 1);
      d * Ten(n - 1) + Micros(digits[1..], n - 1)
  }

  /** The local time stamp of a full timestamp's groups 4 to 10. */
  function LocalStamp(text: string, caps: Captures): Stamp
    requires Fits(caps, |text|)
  {
    var micro := match Group(caps, 9)
      case None => 0
      case Some(g) => Micros(text[g.start + 1..], 6);
    Stamp(Calendar.Date(GroupInt(text, caps, 3), GroupInt(text, caps, 4), GroupInt(text, caps, 5)),
          GroupInt(text, caps, 6), GroupInt(text, caps, 7), GroupInt(text, caps, 8), micro)
  }

  /** Minutes east of UTC of the zone in groups 11 and 12: the sign of the zone hour applies to
      the zone minutes too, and `Z` or no zone is UTC. */
  function ZoneOffset(text: string, caps: Captures): (offset: int)
    requires Fits(caps, |text|)
    ensures Group(caps, 10).None? ==> offset == 0
  {
    match Group(caps, 10)
    case None => 0
    case Some(g) =>
      var h := Atoi(text[g.start..]);
      var magnitude := (if h < 0 then -h else h) * 60 + GroupInt(text, caps, 11);
      if text[g.start] == '-' then -magnitude else magnitude
  }

  /** The offset the source applies, `tzh * 60 + tzm` from the zone groups as `atoi` reads them,
      is the zone's own offset for a zone east of UTC, and misses it by twice the zone minutes for
      a zone west of UTC: `-05:30` is applied as -4:30. */
  lemma ZoneReadAsWritten(text: string, caps: Captures)
    requires Fits(caps, |text|) && Group(caps, 10).Some? && GroupInt(text, caps, 11) >= 0
    ensures text[Group(caps, 10).value.start] != '-' && GroupInt(text, caps, 10) >= 0 ==>
      ZoneOffset(text, caps) == GroupInt(text, caps, 10) * 60 + GroupInt(text, caps, 11)
    ensures text[Group(caps, 10).value.start] == '-' ==>
      ZoneOffset(text, caps) == GroupInt(text, caps, 10) * 60 - GroupInt(text, caps, 11)
  {
  }

  /** The zone minutes with the sign of the zone hour. */
  function SignedZoneMinutes(text: string, caps: Captures): int
    requires Fits(caps, |text|)
  {
    match Group(caps, 10)
    case Some(g) => if text[g.start] == '-' then -GroupInt(text, caps, 11) else GroupInt(text, caps, 11)
    case None => GroupInt(text, caps, 11)
  }

  /** The zone groups as the pattern sets them: the zone hour starts with its sign, the zone
      minutes are digits, and there are no zone minutes without a zone hour. */
  predicate ZoneWellFormed(text: string, caps: Captures)
    requires Fits(caps, |text|)
  {
    GroupInt(text, caps, 11) >= 0
    && match Group(caps, 10)
       case Some(g) => text[g.start] == '+' || text[g.start] == '-'
       case None => Group(caps, 11).None?
  }

  /** The zone's offset is the signed zone hour and the signed zone minutes together. */
  lemma ZoneOffsetIsSigned(text: string, caps: Captures)
    requires Fits(caps, |text|) && ZoneWellFormed(text, caps)
    ensures ZoneOffset(text, caps) == GroupInt(text, caps, 10) * 60 + SignedZoneMinutes(text, caps)
  {
  }

  /** `_to_timestamp` once the captures are known: a date-only text (group 1 set) is a `date`; a
      full one is the local time moved to UTC by its zone with the corrected steps, which carry
      local fields out of range once as the source does. Fields still out of range are the
      ValueError of Python's constructors. */
  function TimestampFromCaptures(text: string, caps: Captures): (r: Result<Value>)
    requires Fits(caps, |text|)
    ensures Group(caps, 0).Some? ==> r.Err? || r.value.Date?
    ensures Group(caps, 0).None? && r.Ok? ==> r.value.DateTime?
    ensures r.Err? ==> r.error == InvalidDate
  {
    if Group(caps, 0).Some? then
      DateOf(Calendar.Date(GroupInt(text, caps, 0), GroupInt(text, caps, 1), GroupInt(text, caps, 2)))
    else
      DateTimeOf(ZoneApplied(LocalStamp(text, caps), GroupInt(text, caps, 10), SignedZoneMinutes(text, caps)))
  }

  /** With no group set, as after a Python resolver accepted the text, every field reads as 0,
      and year 0 is not a date. */
  lemma NoGroupsIsInvalidDate(text: string)
    ensures TimestampFromCaptures(text, []) == Err(InvalidDate)
  {
    assert LocalStamp(text, []).date == Calendar.Date(0, 0, 0);
  }

  /** For local fields on the calendar and the clock and a zone under 24 hours, the result is the
      local time moved to UTC by the zone's offset. */
  lemma TimestampIsUtc(text: string, caps: Captures)
    requires Fits(caps, |text|) && Group(caps, 0).None?
    requires Calendar.OnCalendar(LocalStamp(text, caps).date) && OnClock(LocalStamp(text, caps))
    requires ZoneWellFormed(text, caps)
    requires -24 < GroupInt(text, caps, 10) < 24 && GroupInt(text, caps, 11) < 60
    ensures TimestampFromCaptures(text, caps) == DateTimeOf(ToUtc(LocalStamp(text, caps), ZoneOffset(text, caps)))
  {
    ZoneOffsetIsSigned(text, caps);
  }

  /** `_to_timestamp` as the source writes it, once the captures are known. */
  function TimestampAsWritten(text: string, caps: Captures): (r: Result<Value>)
    requires Fits(caps, |text|)
    ensures Group(caps, 0).Some? ==> r == TimestampFromCaptures(text, caps)
    ensures Group(caps, 0).None? && r.Ok? ==> r.value.DateTime?
    ensures r.Err? ==> r.error == InvalidDate
  {
    if Group(caps, 0).Some? then
      DateOf(Calendar.Date(GroupInt(text, caps, 0), GroupInt(text, caps, 1), GroupInt(text, caps, 2)))
    else
      DateTimeOf(ZoneAppliedAsWritten(LocalStamp(text, caps), GroupInt(text, caps, 10), GroupInt(text, caps, 11)))
  }

  /** `_to_timestamp` of a builder whose only matcher is the timestamp pattern, as the built-in
      one is: the captures are those of the builder's match, or found again when the tag was
      explicit; a text the pattern rejects is an error. */
  function ToTimestamp(text: string, caps: Option<Captures>): (r: Result<Value>)
    requires caps.Some? ==> Fits(caps.value, |text|)
    ensures caps.None? && Match(TimestampPattern, text).None? ==> r == Err(WrongTimestampFormat)
    ensures (caps.None? || caps == Match(TimestampPattern, text)) && Match(TimestampPattern, text).Some? ==>
              r == TimestampFromCaptures(text, Match(TimestampPattern, text).value)
  {
    match caps
    case Some(found) => TimestampFromCaptures(text, found)
    case None =>
      match Match(TimestampPattern, text)
      case None => Err(WrongTimestampFormat)
      case Some(found) => TimestampFromCaptures(text, found)
  }
}
