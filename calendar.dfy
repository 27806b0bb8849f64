/** The economic-calendar normaliser of the browser client: the record
    tree that the proxy serves (already parsed from the Forex Factory XML)
    becomes a list of `EconomicEvent`s. Each record is read inside its own
    `try`, so a record that throws is skipped and the others are kept;
    dates and times are combined by a 12-hour clock rule, and impact is
    classified by keyword.

    The clock (`new Date()`), the engine's parser for non-slash dates and
    the random part of generated ids are parameters. */
module Calendar {
  import opened Js
  import opened Numerals

  /** A JavaScript `Date` in local time: invalid (its time value is `NaN`)
      or a year, a 0-based month, a day, an hour and a minute. */
  datatype Moment = InvalidDate | Moment(year: int, month: int, day: int, hour: int, minute: int)

  datatype Impact = High | Medium | Low

  function ImpactName(impact: Impact): string {
    match impact
    case High => "High"
    case Medium => "Medium"
    case Low => "Low"
  }

  /** `parseImpact`: absent or empty input is `Low`; otherwise the text is
      lower-cased and searched for "high", then "medium", then "low". */
  function ParseImpact(impact: Option<string>): (r: Impact)
    ensures r == High <==> Truthy(impact) && Contains(ToLower(impact.value), "high")
    ensures r == Medium <==>
              Truthy(impact) && !Contains(ToLower(impact.value), "high") && Contains(ToLower(impact.value), "medium")
  {
    if !Truthy(impact) then Low
    else
      var text := ToLower(impact.value);
      if Contains(text, "high") then High
      else if Contains(text, "medium") then Medium
      else if Contains(text, "low") then Low
      else Low
  }

  /** The impact names the client itself writes read back unchanged. */
  lemma ImpactRoundTrip(impact: Impact)
    ensures ParseImpact(Some(ImpactName(impact))) == impact
  {
    match impact
    case High =>
      assert ToLower("High") == "high";
    case Medium =>
      assert ToLower("Medium") == "medium";
      AbsentFirst("medium", "high");
    case Low =>
      assert ToLower("Low") == "low";
      AbsentFirst("low", "high");
      AbsentFirst("low", "medium");
  }

  /** Classification ignores letter case. */
  lemma ImpactIgnoresCase(text: string)
    ensures ParseImpact(Some(ToUpper(text))) == ParseImpact(Some(text))
  {
    LowerOfUpper(text);
  }

  /** Any text that mentions "high", in any letter case and whatever else
      it says (even "medium"), is `High`. */
  lemma HighWins(before: string, keyword: string, after: string)
    requires ToLower(keyword) == "high"
    ensures ParseImpact(Some(before + keyword + after)) == High
  {
    LowerAppend(before + keyword, after);
    LowerAppend(before, keyword);
    ContainsInside(ToLower(before), "high", ToLower(after));
  }

  lemma ImpactExamples()
    ensures ParseImpact(Some("HIGH")) == ParseImpact(Some("high")) == High
    ensures ParseImpact(Some("")) == ParseImpact(None) == Low
    ensures ParseImpact(Some("Holiday")) == Low
  {
    HighExample();
    HolidayExample();
  }

  lemma HighExample()
    ensures ParseImpact(Some("HIGH")) == ParseImpact(Some("high")) == High
  {
    HighWins("", "high", "");
    assert "" + "high" + "" == "high";
    assert ToUpper("high") == "HIGH";
    ImpactIgnoresCase("high");
  }

  lemma HolidayExample()
    ensures ParseImpact(Some("Holiday")) == Low
  {
    HolidayLower();
    var text := "holiday";
    assert forall k :: 0 <= k < |text| ==> text[k] != 'g' && text[k] != 'm';
    NoLevel(text);
    LowWithoutLevels("Holiday");
  }

  /** A text naming neither "high" nor "medium" is `Low`. */
  lemma LowWithoutLevels(impact: string)
    requires !Contains(ToLower(impact), "high") && !Contains(ToLower(impact), "medium")
    ensures ParseImpact(Some(impact)) == Low
  {
    if impact != "" {
      assert Truthy(Some(impact));
    }
  }

  lemma HolidayLower()
    ensures ToLower("Holiday") == "holiday"
  {
  }

  /** A text without a 'g' cannot contain "high", and one without an 'm'
      cannot contain "medium": it names no level above `Low`. */
  lemma NoLevel(text: string)
    requires 'g' !in text && 'm' !in text
    ensures !Contains(text, "high") && !Contains(text, "medium")
  {
    assert "high"[2] == 'g' && "medium"[0] == 'm';
    AbsentChar(text, "high", 2);
    AbsentChar(text, "medium", 0);
  }

  // ---------------------------------------------------------------------
  // Dates and times

  /** What the time string says: nothing to apply (its time part is
      empty), an hour or minute that is `NaN`, or an hour and minute. */
  datatype Clock = NoClock | BadClock | Clock(hour: int, minute: int)

  /** The 12-hour conversion: "pm" below 12 adds 12, "am" at 12 is 0, any
      other period (including "PM") leaves the hour alone. */
  function To24(hour: int, period: Option<string>): (h: int)
    ensures period == Some("pm") && 1 <= hour <= 11 ==> h == hour + 12
    ensures period == Some("pm") && hour == 12 ==> h == 12
    ensures period == Some("am") && hour == 12 ==> h == 0
    ensures period != Some("pm") && period != Some("am") ==> h == hour
    ensures 1 <= hour <= 12 && (period == Some("am") || period == Some("pm")) ==> 0 <= h <= 23
  {
    var h := if period == Some("pm") && hour < 12 then hour + 12 else hour;
    if period == Some("am") && h == 12 then 0 else h
  }

  /** The time rule of `parseDate`: `timeString.split(' ')` into time and
      period, `time.split(':')` into hours and minutes, `parseInt` on both,
      missing minutes read as 0. */
  function ClockOf(timeString: string): (c: Clock)
    ensures timeString == "" || timeString[0] == ' ' ==> c == NoClock
  {
    var parts := Split(timeString, ' ');
    var time := parts[0];
    var period := if |parts| > 1 then Some(parts[1]) else None;
    if time == "" then NoClock
    else
      var fields := Split(time, ':');
      var hour := ParseInt(fields[0]);
      var minutes := if |fields| > 1 then Some(fields[1]) else None;
      var minute := if Truthy(minutes) then ParseInt(minutes.value) else Some(0);
      if hour.None? || minute.None? then BadClock
      else Clock(To24(hour.value, period), minute.value)
  }

  /** `new Date(year, month, day)` maps the years 0..99 to 1900..1999. */
  function FullYear(year: int): int {
    if 0 <= year <= 99 then 1900 + year else year
  }

  /** `new Date(year, month - 1, day)` from the pieces of "M/D/Y"; a piece
      that is missing or not a number makes the date invalid. */
  function SlashDate(dateString: string): (date: Moment)
    ensures date.Moment? ==> |Split(dateString, '/')| >= 3
    ensures date.Moment? ==> date.hour == 0 && date.minute == 0
    ensures date.Moment? ==> !(0 <= date.year <= 99)
  {
    var parts := Split(dateString, '/');
    var month := ToNumber(parts[0]);
    var day := if |parts| > 1 then ToNumber(parts[1]) else None;
    var year := if |parts| > 2 then ToNumber(parts[2]) else None;
    if month.None? || day.None? || year.None? then InvalidDate
    else Moment(FullYear(year.value), month.value - 1, day.value, 0, 0)
  }

  /** `date.setHours(hour, minute, 0, 0)`. */
  function SetTime(date: Moment, hour: int, minute: int): Moment {
    if date.InvalidDate? then InvalidDate else date.(hour := hour, minute := minute)
  }

  /** The date part of `parseDate`: "M/D/Y" when the text has a slash,
      the engine's own reading otherwise. */
  function DateOf(dateString: string, engineParse: string -> Moment): (date: Moment)
    ensures '/' in dateString ==> date == SlashDate(dateString)
    ensures '/' !in dateString ==> date == engineParse(dateString)
  {
    if '/' in dateString then SlashDate(dateString) else engineParse(dateString)
  }

  /** `parseDate(dateString, timeString)`. */
  function ParseDate(dateString: Option<string>, timeString: Option<string>,
                     now: Moment, engineParse: string -> Moment): (r: Moment)
    ensures !Truthy(dateString) ==> r == now
    ensures Truthy(dateString) && (!Truthy(timeString) || ClockOf(timeString.value).NoClock?) ==>
              r == DateOf(dateString.value, engineParse)
    ensures Truthy(dateString) && ClockOf(Or(timeString, "")).BadClock? && Truthy(timeString) ==> r == InvalidDate
    ensures Truthy(dateString) && Truthy(timeString) && ClockOf(timeString.value).Clock? ==>
              var date := DateOf(dateString.value, engineParse);
              (r.Moment? <==> date.Moment?)
              && (r.Moment? ==> r.year == date.year && r.month == date.month && r.day == date.day)
    ensures Truthy(dateString) && r.Moment? && Truthy(timeString) && ClockOf(timeString.value).Clock? ==>
              r.hour == ClockOf(timeString.value).hour && r.minute == ClockOf(timeString.value).minute
  {
    if !Truthy(dateString) then now
    else
      var date := DateOf(dateString.value, engineParse);
      if !Truthy(timeString) then date
      else
        match ClockOf(timeString.value)
        case NoClock => date
        case BadClock => InvalidDate
        case Clock(hour, minute) => SetTime(date, hour, minute)
  }

  /** "12:00 pm" is noon and "1:30 pm" is 13:30. */
  lemma ClockExamplesPm()
    ensures ClockOf("12:00 pm") == Clock(12, 0)
    ensures ClockOf("1:30 pm") == Clock(13, 30)
  {
    ClockExampleNoon();
    ClockExampleAfternoon();
  }

  lemma ClockExampleNoon()
    ensures ClockOf("12:00 pm") == Clock(12, 0)
  {
    TwelveHourClock(12, 0, "pm");
    assert TwelveHourText(12, 0, "pm") == "12:00 pm";
  }

  lemma ClockExampleAfternoon()
    ensures ClockOf("1:30 pm") == Clock(13, 30)
  {
    TwelveHourClock(1, 30, "pm");
    assert TwelveHourText(1, 30, "pm") == "1:30 pm";
  }

  /** "12:00 am" is midnight. */
  lemma ClockExampleMidnight()
    ensures ClockOf("12:00 am") == Clock(0, 0)
  {
    TwelveHourClock(12, 0, "am");
    assert TwelveHourText(12, 0, "am") == "12:00 am";
  }

  /** An upper-case "PM" is not converted. */
  lemma ClockExampleUpperCase()
    ensures ClockOf("1:30 PM") == Clock(1, 30)
  {
    TwelveHourClock(1, 30, "PM");
    assert TwelveHourText(1, 30, "PM") == "1:30 PM";
  }

  /** A hexadecimal hour is read as `parseInt` reads it: "0x10:00 pm" is
      16:00. */
  lemma ClockExampleHex()
    ensures ClockOf("0x10:00 pm") == Clock(16, 0)
  {
    HexHourText();
    HexSixteen();
    TwoDigitsRead(0);
    ClockOfParts("0x10", TwoDigits(0), "pm");
  }

  lemma HexHourText()
    ensures ' ' !in "0x10" && ':' !in "0x10" && ' ' !in "pm"
    ensures "0x10" + ":" + TwoDigits(0) + " " + "pm" == "0x10:00 pm"
  {
    assert TwoDigits(0) == "00";
    assert forall k :: 0 <= k < |"0x10"| ==> "0x10"[k] != ' ' && "0x10"[k] != ':';
  }

  function TwelveHourText(hour: nat, minute: nat, period: string): string
    requires minute < 100
  {
    NatToString(hour) + ":" + TwoDigits(minute) + " " + period
  }

  /** Any "H:MM period" reading. */
  lemma TwelveHourClock(hour: nat, minute: nat, period: string)
    requires minute < 100 && ' ' !in period
    ensures ClockOf(TwelveHourText(hour, minute, period)) == Clock(To24(hour, Some(period)), minute)
  {
    var shown := NatToString(hour);
    NatRoundTrip(hour);
    TwoDigitsRead(minute);
    assert forall i :: 0 <= i < |shown| ==> IsDigit(shown[i]);
    ClockOfParts(shown, TwoDigits(minute), period);
  }

  /** Missing minutes read as 0. */
  lemma ClockWithoutMinutes(hour: nat, period: string)
    requires ' ' !in period
    ensures ClockOf(NatToString(hour) + " " + period) == Clock(To24(hour, Some(period)), 0)
  {
    var shown := NatToString(hour);
    assert forall i :: 0 <= i < |shown| ==> IsDigit(shown[i]);
    assert ' ' !in shown && ':' !in shown;
    assert shown + " " + period == shown + [' '] + period;
    SplitAt(shown, ' ', period);
    SplitWithout(period, ' ');
    SplitWithout(shown, ':');
    NatRoundTrip(hour);
  }

  /** How "H:MM period" splits. */
  lemma ClockOfParts(hours: string, minutes: string, period: string)
    requires hours != "" && ' ' !in hours && ':' !in hours
    requires ' ' !in minutes && ':' !in minutes && ' ' !in period
    requires ParseInt(hours).Some?
    ensures var minute := if minutes == "" then Some(0) else ParseInt(minutes);
            minute.Some? ==>
              ClockOf(hours + ":" + minutes + " " + period)
                == Clock(To24(ParseInt(hours).value, Some(period)), minute.value)
  {
    var time := hours + ":" + minutes;
    assert hours + ":" + minutes + " " + period == time + [' '] + period;
    assert ' ' !in time;
    SplitAt(time, ' ', period);
    SplitWithout(period, ' ');
    assert time == hours + [':'] + minutes;
    SplitAt(hours, ':', minutes);
    SplitWithout(minutes, ':');
  }

  /** The hour shown on a 12-hour clock by the sample generator. */
  function DisplayHour(hour: nat): nat {
    if hour > 12 then hour - 12 else hour
  }

  function PeriodOf(hour: nat): string {
    if hour >= 12 then "pm" else "am"
  }

  /** Two-digit minutes, as the generator writes them ("00", "30"). */
  function TwoDigits(minute: nat): (r: string)
    requires minute < 100
  {
    if minute < 10 then "0" + NatToString(minute) else NatToString(minute)
  }

  /** `${displayHour}:${minutes} ${period}`. */
  function ClockText(hour: nat, minute: nat): string
    requires minute < 100
  {
    TwelveHourText(DisplayHour(hour), minute, PeriodOf(hour))
  }

  lemma TwoDigitsRead(minute: nat)
    requires minute < 100
    ensures ParseInt(TwoDigits(minute)) == Some(minute)
    ensures ' ' !in TwoDigits(minute) && ':' !in TwoDigits(minute) && TwoDigits(minute) != ""
  {
    if minute < 10 {
      var s := TwoDigits(minute);
      assert s == ['0', DigitChar(minute)];
      assert TrimStart(s) == s;
      LeadingDigitsOfDigits(s);
      assert s[..1] == "0" && s[..1][..0] == "";
      assert DigitsValue(s[..1]) == 0;
      assert DigitsValue(s) == minute;
    } else {
      NatRoundTrip(minute);
    }
  }

  /** Round trip: every time of day the generator can write, read back by
      the time rule of `parseDate`, gives the hour and minute it was
      written from. */
  lemma ClockRoundTrip(hour: nat, minute: nat)
    requires hour < 24 && minute < 60
    ensures ClockOf(ClockText(hour, minute)) == Clock(hour, minute)
  {
    TwelveHourClock(DisplayHour(hour), minute, PeriodOf(hour));
  }

  function SlashText(month: nat, day: nat, year: nat): string {
    NatToString(month) + "/" + NatToString(day) + "/" + NatToString(year)
  }

  /** "M/D/Y" is read with the month made 0-based. */
  lemma SlashDateRead(month: nat, day: nat, year: nat)
    ensures SlashDate(SlashText(month, day, year)) == Moment(FullYear(year), month - 1, day, 0, 0)
  {
    SlashPieces(month, day, year);
    NumberRoundTrip(month);
    NumberRoundTrip(day);
    NumberRoundTrip(year);
  }

  lemma SlashPieces(month: nat, day: nat, year: nat)
    ensures Split(SlashText(month, day, year), '/') == [NatToString(month), NatToString(day), NatToString(year)]
  {
    var m, d, y := NatToString(month), NatToString(day), NatToString(year);
    assert forall i :: 0 <= i < |m| ==> IsDigit(m[i]);
    assert forall i :: 0 <= i < |d| ==> IsDigit(d[i]);
    assert forall i :: 0 <= i < |y| ==> IsDigit(y[i]);
    assert SlashText(month, day, year) == m + ['/'] + (d + ['/'] + y);
    SplitAt(m, '/', d + ['/'] + y);
    SplitAt(d, '/', y);
    SplitWithout(y, '/');
  }

  lemma ScenarioTexts()
    ensures SlashText(11, 21, 2025) == "11/21/2025"
    ensures TwelveHourText(2, 30, "pm") == "2:30 pm"
  {
  }

  /** A slash date at a 12-hour time: the date from "M/D/Y", the hour
      converted, the minutes kept. */
  lemma SlashDateAtClock(month: nat, day: nat, year: nat, hour: nat, minute: nat, period: string,
                         now: Moment, engineParse: string -> Moment)
    requires minute < 100 && ' ' !in period
    ensures ParseDate(Some(SlashText(month, day, year)), Some(TwelveHourText(hour, minute, period)), now, engineParse)
              == Moment(FullYear(year), month - 1, day, To24(hour, Some(period)), minute)
  {
    var date := SlashText(month, day, year);
    var time := TwelveHourText(hour, minute, period);
    SlashDateRead(month, day, year);
    TwelveHourClock(hour, minute, period);
    assert '/' in date by { assert date[|NatToString(month)|] == '/'; }
    assert |time| > 0;
    SlashDateOnClock(date, time, now, engineParse);
  }

  /** A date with a slash at a readable time: the slash date, then the
      time set on it. */
  lemma SlashDateOnClock(date: string, time: string, now: Moment, engineParse: string -> Moment)
    requires '/' in date && time != "" && ClockOf(time).Clock?
    ensures ParseDate(Some(date), Some(time), now, engineParse)
              == SetTime(SlashDate(date), ClockOf(time).hour, ClockOf(time).minute)
  {
  }

  /** The documented example: "11/21/2025" at "2:30 pm" is 21 November
      2025, 14:30. */
  lemma ParseDateScenario(date: string, time: string, now: Moment, engineParse: string -> Moment)
    requires date == "11/21/2025" && time == "2:30 pm"
    ensures ParseDate(Some(date), Some(time), now, engineParse) == Moment(2025, 10, 21, 14, 30)
  {
    ScenarioTexts();
    SlashDateAtClock(11, 21, 2025, 2, 30, "pm", now, engineParse);
  }

  // ---------------------------------------------------------------------
  // Records

  /** The attribute bag `$` of a parsed `<event>` element. */
  datatype Attributes = Attributes(id: Option<string>, date: Option<string>, time: Option<string>,
                                   currency: Option<string>, country: Option<string>)

  /** One parsed `<event>` element. `bag` is its `$` member, present only
      when the XML parser keeps attributes apart; `merged` holds the
      attributes that a parser run with `mergeAttrs: true` places on the
      element itself instead, where the client never looks. */
  datatype RawEvent = RawEvent(bag: Option<Attributes>, merged: Attributes,
                               title: Option<string>, impact: Option<string>,
                               actual: Option<string>, forecast: Option<string>, previous: Option<string>)

  /** `weeklyevents.event` is one element or a list of them. */
  datatype EventField = Single(event: RawEvent) | Several(events: seq<RawEvent>)
  datatype WeeklyEvents = WeeklyEvents(event: Option<EventField>)
  datatype Feed = Feed(weeklyevents: Option<WeeklyEvents>)

  datatype EconomicEvent = EconomicEvent(
    id: string, date: Moment, time: Option<string>, currency: string, title: string,
    impact: Impact, actual: Option<string>, forecast: Option<string>, previous: Option<string>,
    country: string)

  /** What every event the client shows carries: an id, a currency and a
      title, and figures that are either `null` or non-empty text. */
  predicate WellFormed(e: EconomicEvent) {
    e.id != "" && e.currency != "" && e.title != ""
    && (e.actual.Some? ==> e.actual.value != "")
    && (e.forecast.Some? ==> e.forecast.value != "")
    && (e.previous.Some? ==> e.previous.value != "")
  }

  /** The records of a payload: none without `weeklyevents.event`, a
      single element wrapped as a one-element list. */
  function Records(data: Option<Feed>): (r: seq<RawEvent>)
    ensures data.Some? && data.value.weeklyevents.Some? && data.value.weeklyevents.value.event.Some? &&
            data.value.weeklyevents.value.event.value.Single? ==>
              r == [data.value.weeklyevents.value.event.value.event]
    ensures data.None? || data.value.weeklyevents.None? || data.value.weeklyevents.value.event.None? ==> r == []
  {
    if data.Some? && data.value.weeklyevents.Some? && data.value.weeklyevents.value.event.Some? then
      match data.value.weeklyevents.value.event.value
      case Single(e) => [e]
      case Several(es) => es
    else []
  }

  /** One pass of the `forEach` body: `None` when reading the record throws
      (`event.$.id` with no `$` bag), the normalised event otherwise.
      `token` is the random part a generated id would get. */
  function NormaliseEvent(raw: RawEvent, token: string, now: Moment, engineParse: string -> Moment)
    : (r: Option<EconomicEvent>)
    ensures r.Some? <==> raw.bag.Some?
    ensures r.Some? ==> WellFormed(r.value)
    ensures r.Some? && Truthy(raw.bag.value.id) ==> r.value.id == raw.bag.value.id.value
    ensures r.Some? && !Truthy(raw.bag.value.id) ==> r.value.id == "event-" + token
  {
    match raw.bag
    case None => None
    case Some(bag) =>
      Some(EconomicEvent(
        id := if Truthy(bag.id) then bag.id.value else "event-" + token,
        date := ParseDate(bag.date, bag.time, now, engineParse),
        time := bag.time,
        currency := Or(bag.currency, "USD"),
        title := Or(raw.title, "Economic Event"),
        impact := ParseImpact(raw.impact),
        actual := OrNull(raw.actual),
        forecast := OrNull(raw.forecast),
        previous := OrNull(raw.previous),
        country := Or(bag.country, "")))
  }

  /** The outcome of each record, in source order; record `i` draws
      `token(i)` if it needs a generated id. */
  function Attempts(records: seq<RawEvent>, token: nat -> string, now: Moment, engineParse: string -> Moment)
    : (r: seq<Option<EconomicEvent>>)
    ensures |r| == |records|
  {
    seq(|records|, i requires 0 <= i < |records| => NormaliseEvent(records[i], token(i), now, engineParse))
  }

  /** The batch `processForexFactoryData` returns for these records. */
  function Normalised(records: seq<RawEvent>, token: nat -> string, now: Moment, engineParse: string -> Moment)
    : seq<EconomicEvent>
  {
    Compact(Attempts(records, token, now, engineParse))
  }

  /** `processForexFactoryData`: every record is tried in turn, a record
      that throws is skipped, the others are pushed in source order. */
  method ProcessForexFactoryData(data: Option<Feed>, token: nat -> string, now: Moment,
                                 engineParse: string -> Moment)
    returns (events: seq<EconomicEvent>)
    ensures events == Normalised(Records(data), token, now, engineParse)
    ensures |events| <= |Records(data)|
    ensures forall k :: 0 <= k < |events| ==> WellFormed(events[k])
  {
    var eventsData := Records(data);
    ghost var attempts := Attempts(eventsData, token, now, engineParse);
    events := [];
    for i := 0 to |eventsData|
      invariant events == Compact(attempts[..i])
      invariant forall k :: 0 <= k < |events| ==> WellFormed(events[k])
    {
      var outcome := NormaliseEvent(eventsData[i], token(i), now, engineParse);
      assert attempts[..i + 1] == attempts[..i] + [outcome];
      CompactAppend(attempts[..i], [outcome]);
      if outcome.Some? {
        events := events + [outcome.value];
      }
    }
    assert attempts[..|eventsData|] == attempts;
  }

  /** Per-record isolation: a record that can be read is kept whatever
      the other records are, right after the events of the records before
      it (so the output keeps source order). */
  lemma RecordKeptInPlace(records: seq<RawEvent>, i: nat, token: nat -> string, now: Moment,
                          engineParse: string -> Moment)
    requires i < |records| && records[i].bag.Some?
    ensures var before := |Normalised(records[..i], token, now, engineParse)|;
            var out := Normalised(records, token, now, engineParse);
            before < |out| && Some(out[before]) == NormaliseEvent(records[i], token(i), now, engineParse)
  {
    var attempts := Attempts(records, token, now, engineParse);
    assert Attempts(records[..i], token, now, engineParse) == attempts[..i];
    assert attempts[i] == NormaliseEvent(records[i], token(i), now, engineParse);
    CompactAt(attempts, i);
  }

  /** Every event of the output comes from a record that has a `$` bag. */
  lemma EventsComeFromRecords(records: seq<RawEvent>, e: EconomicEvent, token: nat -> string, now: Moment,
                              engineParse: string -> Moment)
    requires e in Normalised(records, token, now, engineParse)
    ensures exists i :: 0 <= i < |records| && records[i].bag.Some?
                        && NormaliseEvent(records[i], token(i), now, engineParse) == Some(e)
  {
    var attempts := Attempts(records, token, now, engineParse);
    CompactMembers(attempts, e);
    var i :| 0 <= i < |attempts| && attempts[i] == Some(e);
    assert attempts[i] == NormaliseEvent(records[i], token(i), now, engineParse);
  }

  /** A record is dropped only when it has no `$` bag: a batch whose
      records all have one loses nothing. */
  lemma NothingDroppedWhenReadable(records: seq<RawEvent>, token: nat -> string, now: Moment,
                                   engineParse: string -> Moment)
    requires forall i :: 0 <= i < |records| ==> records[i].bag.Some?
    ensures |Normalised(records, token, now, engineParse)| == |records|
  {
    var attempts := Attempts(records, token, now, engineParse);
    forall i | 0 <= i < |attempts| ensures attempts[i].Some? {
      assert attempts[i] == NormaliseEvent(records[i], token(i), now, engineParse);
    }
    CompactLength(attempts);
    AllPresentCount(attempts);
  }

  /** Records whose attributes were merged onto the element (the proxy
      parses with `mergeAttrs: true`) have no `$` bag: every one of them
      throws, and the whole batch normalises to nothing. */
  lemma MergedAttributesGiveEmpty(records: seq<RawEvent>, token: nat -> string, now: Moment,
                                  engineParse: string -> Moment)
    requires forall i :: 0 <= i < |records| ==> records[i].bag.None?
    ensures Normalised(records, token, now, engineParse) == []
  {
    var attempts := Attempts(records, token, now, engineParse);
    forall i | 0 <= i < |attempts| ensures attempts[i].None? {
      assert attempts[i] == NormaliseEvent(records[i], token(i), now, engineParse);
    }
    CompactLength(attempts);
    NonePresentCount(attempts);
  }

  /** A record with an empty `$` bag and no children gets every default. */
  lemma FieldDefaults(token: string, now: Moment, engineParse: string -> Moment)
    ensures var bare := Attributes(None, None, None, None, None);
            NormaliseEvent(RawEvent(Some(bare), bare, None, None, None, None, None), token, now, engineParse)
              == Some(EconomicEvent("event-" + token, now, None, "USD", "Economic Event", Low,
                                    None, None, None, ""))
  {
  }

  /** The documented scenario: one event element dated "11/21/2025" at
      "2:30 pm" with no id becomes one event at 21 November 2025, 14:30,
      with a generated id and `Low` impact. */
  lemma SingleEventScenario(raw: RawEvent, token: nat -> string, now: Moment, engineParse: string -> Moment)
    requires raw.bag == Some(Attributes(None, Some("11/21/2025"), Some("2:30 pm"), None, None))
    requires raw.impact == None
    ensures var out := Normalised(Records(Some(Feed(Some(WeeklyEvents(Some(Single(raw))))))),
                                  token, now, engineParse);
            |out| == 1 && out[0].id == "event-" + token(0) && out[0].id != ""
            && out[0].date == Moment(2025, 10, 21, 14, 30) && out[0].impact == Low
  {
    ParseDateScenario("11/21/2025", "2:30 pm", now, engineParse);
    var attempts := Attempts([raw], token, now, engineParse);
    assert attempts == [NormaliseEvent(raw, token(0), now, engineParse)];
    assert Compact(attempts) == [NormaliseEvent(raw, token(0), now, engineParse).value] + Compact(attempts[1..]);
  }
}
