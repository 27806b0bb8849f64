/** `generateSampleData`: the synthetic calendar week the client shows
    when the proxy cannot be used. The successive values of
    `Math.random()` are the parameter `random` (each in [0, 1)); the seven
    dates of the current week (Sunday first, at the current time of day)
    come from the clock and are the parameter `week`. */
module SampleCalendar {
  import opened Js
  import opened Numerals
  import opened Calendar

  const Impacts: seq<Impact> := [High, Medium, Low]
  const Currencies: seq<string> := ["USD", "EUR", "GBP", "JPY", "CAD", "AUD", "NZD", "CHF"]
  const EventTypes: seq<string> := [
    "Interest Rate Decision", "GDP", "CPI", "Employment Change",
    "Retail Sales", "PMI", "Trade Balance", "Central Bank Speech"]

  /** `Math.floor(Math.random() * n)`. */
  function Pick(r: real, n: nat): (k: nat)
    requires 0.0 <= r < 1.0 && n > 0
    ensures k < n
  {
    assert r * n as real < n as real by {
      assert (1.0 - r) * n as real > 0.0;
    }
    (r * n as real).Floor
  }

  /** The country column: a fixed function of the currency, with "CH" for
      anything not listed before it. */
  function CountryOf(currency: string): (country: string)
    ensures |country| == 2
    ensures currency in Currencies && currency != "GBP" ==> country == currency[..2]
    ensures currency == "GBP" ==> country == "UK"
    ensures currency !in Currencies ==> country == "CH"
  {
    if currency == "USD" then "US"
    else if currency == "EUR" then "EU"
    else if currency == "GBP" then "UK"
    else if currency == "JPY" then "JP"
    else if currency == "CAD" then "CA"
    else if currency == "AUD" then "AU"
    else if currency == "NZD" then "NZ"
    else "CH"
  }

  /** `(Math.random() * 5).toFixed(1)`: tenths rounded half up. */
  function Figure(r: real): (s: string)
    requires 0.0 <= r < 1.0
    ensures s != ""
  {
    var tenths := (r * 50.0 + 0.5).Floor;
    assert 0 <= tenths <= 50;
    NatToString(tenths / 10) + "." + [DigitChar(tenths % 10)]
  }

  /** `sample-${i}-${j}`. */
  function SampleId(day: nat, index: nat): string {
    "sample-" + NatToString(day) + "-" + NatToString(index)
  }

  /** Ids name their day and position: different slots, different ids. */
  lemma SampleIdInjective(day: nat, index: nat, day': nat, index': nat)
    requires SampleId(day, index) == SampleId(day', index')
    ensures day == day' && index == index'
  {
    var a, b := NatToString(day), NatToString(index);
    var a', b' := NatToString(day'), NatToString(index');
    assert forall k :: 0 <= k < |a| ==> IsDigit(a[k]);
    assert forall k :: 0 <= k < |b| ==> IsDigit(b[k]);
    assert forall k :: 0 <= k < |a'| ==> IsDigit(a'[k]);
    assert forall k :: 0 <= k < |b'| ==> IsDigit(b'[k]);
    assert '-' !in a && '-' !in b && '-' !in a' && '-' !in b';
    var rest, rest' := a + ['-'] + b, a' + ['-'] + b';
    assert SampleId(day, index) == "sample-" + rest;
    assert SampleId(day', index') == "sample-" + rest';
    assert rest == SampleId(day, index)[7..] == rest';
    SplitAt(a, '-', b);
    SplitAt(a', '-', b');
    SplitWithout(b, '-');
    SplitWithout(b', '-');
    assert [a, b] == Split(rest, '-') == [a', b'];
    NatToStringInjective(day, day');
    NatToStringInjective(index, index');
  }

  /** `${displayHour}:${minutes} ${period}` for an hour between 8 and 16
      and minutes "00" or "30". */
  predicate SampleTime(time: Option<string>) {
    exists hour: nat, minute: nat {:trigger ClockText(hour, minute)} ::
      8 <= hour <= 16 && minute <= 30 && (minute == 0 || minute == 30)
      && time == Some(ClockText(hour, minute))
  }

  /** A listed currency, the title `${currency} ${eventType}` and the
      currency's country. */
  predicate SampleLabel(e: EconomicEvent) {
    exists c, t :: 0 <= c < |Currencies| && 0 <= t < |EventTypes|
      && e.currency == Currencies[c]
      && e.title == Currencies[c] + " " + EventTypes[t]
      && e.country == CountryOf(Currencies[c])
  }

  /** Figures are given exactly for `High` impact, as non-empty text. */
  predicate SampleFigures(e: EconomicEvent) {
    && (e.actual.Some? <==> e.impact == High)
    && (e.forecast.Some? <==> e.impact == High)
    && (e.previous.Some? <==> e.impact == High)
    && (e.actual.Some? ==> e.actual.value != "")
    && (e.forecast.Some? ==> e.forecast.value != "")
    && (e.previous.Some? ==> e.previous.value != "")
  }

  /** What the generator writes as the `index`-th event of day `day`. */
  predicate IsSampleEvent(e: EconomicEvent, day: nat, index: nat, date: Moment) {
    && e.id == SampleId(day, index)
    && e.date == date
    && SampleTime(e.time)
    && SampleLabel(e)
    && SampleFigures(e)
  }

  /** A title is a currency, a space and one of the event types. */
  predicate TitleOf(title: string, currency: string) {
    |title| > |currency| + 1 && title[..|currency| + 1] == currency + " "
    && title[|currency| + 1..] in EventTypes
  }

  /** A sample time reads back through the calendar's clock parser as a
      time between 8:00 and 16:30 on the hour or half hour. */
  lemma SampleTimeReadable(time: Option<string>)
    requires SampleTime(time)
    ensures time.Some? && ClockOf(time.value).Clock?
    ensures 8 <= ClockOf(time.value).hour <= 16
    ensures ClockOf(time.value).minute == 0 || ClockOf(time.value).minute == 30
  {
    var hour: nat, minute: nat :| 8 <= hour <= 16 && minute <= 30 && (minute == 0 || minute == 30)
      && time == Some(ClockText(hour, minute));
    ClockRoundTrip(hour, minute);
  }

  /** A sample label names a listed currency with its own country, and the
      title starts with the currency. */
  lemma SampleLabelReadable(e: EconomicEvent)
    requires SampleLabel(e)
    ensures e.currency in Currencies && e.country == CountryOf(e.currency)
    ensures TitleOf(e.title, e.currency)
    ensures e.currency != "" && e.title != ""
  {
    var c, t :| 0 <= c < |Currencies| && 0 <= t < |EventTypes|
      && e.currency == Currencies[c]
      && e.title == Currencies[c] + " " + EventTypes[t]
      && e.country == CountryOf(Currencies[c]);
    assert e.title[..|e.currency| + 1] == e.currency + " ";
    assert e.title[|e.currency| + 1..] == EventTypes[t];
  }

  /** Every sample event is well formed like a normalised feed event. */
  lemma SampleEventWellFormed(e: EconomicEvent, day: nat, index: nat, date: Moment)
    requires IsSampleEvent(e, day, index, date)
    ensures WellFormed(e)
  {
    SampleLabelReadable(e);
  }

  datatype Drawn = Drawn(event: EconomicEvent, next: nat)

  /** One pass of the inner loop, drawing from `random(cursor)` on:
      impact, currency, event type, hour, half hour, and for `High` impact
      the three figures. */
  function SampleEvent(day: nat, index: nat, date: Moment, random: nat -> real, cursor: nat): (r: Drawn)
    requires forall n :: 0.0 <= random(n) < 1.0
    ensures IsSampleEvent(r.event, day, index, date)
    ensures r.next > cursor
  {
    var impact := Impacts[Pick(random(cursor), 3)];
    var currency := Currencies[Pick(random(cursor + 1), 8)];
    var eventType := EventTypes[Pick(random(cursor + 2), 8)];
    var hour := 8 + Pick(random(cursor + 3), 9);
    var minute := if random(cursor + 4) > 0.5 then 30 else 0;
    var high := impact == High;
    var title := currency + " " + eventType;
    Drawn(
      EconomicEvent(
        id := SampleId(day, index),
        date := date,
        time := Some(ClockText(hour, minute)),
        currency := currency,
        title := title,
        impact := impact,
        actual := if high then Some(Figure(random(cursor + 5))) else None,
        forecast := if high then Some(Figure(random(cursor + 6))) else None,
        previous := if high then Some(Figure(random(cursor + 7))) else None,
        country := CountryOf(currency)),
      if high then cursor + 8 else cursor + 5)
  }

  function Sum(counts: seq<nat>): nat {
    if |counts| == 0 then 0 else Sum(counts[..|counts| - 1]) + counts[|counts| - 1]
  }

  lemma {:induction false} SumBounds(counts: seq<nat>)
    requires forall d :: 0 <= d < |counts| ==> 2 <= counts[d] <= 5
    ensures 2 * |counts| <= Sum(counts) <= 5 * |counts|
  {
    if |counts| > 0 {
      SumBounds(counts[..|counts| - 1]);
    }
  }

  /** Slot order: earlier day, or same day and earlier position. */
  predicate Before(a: (nat, nat), b: (nat, nat)) {
    a.0 < b.0 || (a.0 == b.0 && a.1 < b.1)
  }

  /** The inner loop of `generateSampleData`: the `count` events of day
      `day`, drawn one after another from `random(cursor)` on. */
  method GenerateDay(day: nat, date: Moment, count: nat, random: nat -> real, cursor: nat)
    returns (dayEvents: seq<EconomicEvent>, next: nat)
    requires forall n :: 0.0 <= random(n) < 1.0
    ensures |dayEvents| == count
    ensures forall j :: 0 <= j < count ==> IsSampleEvent(dayEvents[j], day, j, date)
    ensures next >= cursor
  {
    dayEvents, next := [], cursor;
    for j := 0 to count
      invariant |dayEvents| == j && next >= cursor
      invariant forall k :: 0 <= k < j ==> IsSampleEvent(dayEvents[k], day, k, date)
    {
      var drawn := SampleEvent(day, j, date, random, next);
      dayEvents := dayEvents + [drawn.event];
      next := drawn.next;
    }
  }

  /** The events written so far, `slots[k]` being the day and position of
      `events[k]`: each is that slot's sample event, and slots strictly
      increase. */
  ghost predicate Laid(events: seq<EconomicEvent>, slots: seq<(nat, nat)>, counts: seq<nat>, week: seq<Moment>) {
    && |events| == |slots|
    && |counts| <= |week|
    && (forall k :: 0 <= k < |events| ==>
          slots[k].0 < |counts| && slots[k].1 < counts[slots[k].0]
          && IsSampleEvent(events[k], slots[k].0, slots[k].1, week[slots[k].0]))
    && (forall k, l :: 0 <= k < l < |events| ==> Before(slots[k], slots[l]))
  }

  /** Appending the next day's events keeps the layout. */
  lemma LayDay(events: seq<EconomicEvent>, slots: seq<(nat, nat)>, counts: seq<nat>, week: seq<Moment>,
               dayEvents: seq<EconomicEvent>)
    requires Laid(events, slots, counts, week) && |counts| < |week|
    requires forall j :: 0 <= j < |dayEvents| ==> IsSampleEvent(dayEvents[j], |counts|, j, week[|counts|])
    ensures Laid(events + dayEvents, slots + DaySlots(|counts|, |dayEvents|), counts + [|dayEvents|], week)
  {
    LayEvents(events, slots, counts, week, dayEvents);
    LayOrder(slots, |counts|, |dayEvents|);
  }

  /** Each appended event is the sample event of its slot. */
  lemma LayEvents(events: seq<EconomicEvent>, slots: seq<(nat, nat)>, counts: seq<nat>, week: seq<Moment>,
                  dayEvents: seq<EconomicEvent>)
    requires Laid(events, slots, counts, week) && |counts| < |week|
    requires forall j :: 0 <= j < |dayEvents| ==> IsSampleEvent(dayEvents[j], |counts|, j, week[|counts|])
    ensures var events', slots', counts' := events + dayEvents, slots + DaySlots(|counts|, |dayEvents|), counts + [|dayEvents|];
            forall k :: 0 <= k < |events'| ==>
              slots'[k].0 < |counts'| && slots'[k].1 < counts'[slots'[k].0]
              && IsSampleEvent(events'[k], slots'[k].0, slots'[k].1, week[slots'[k].0])
  {
    var i := |counts|;
    var events', slots', counts' := events + dayEvents, slots + DaySlots(i, |dayEvents|), counts + [|dayEvents|];
    forall k | 0 <= k < |events'|
      ensures slots'[k].0 < |counts'| && slots'[k].1 < counts'[slots'[k].0]
      ensures IsSampleEvent(events'[k], slots'[k].0, slots'[k].1, week[slots'[k].0])
    {
      if k < |events| {
        assert events'[k] == events[k] && slots'[k] == slots[k];
        assert counts'[slots[k].0] == counts[slots[k].0];
      } else {
        assert events'[k] == dayEvents[k - |events|] && slots'[k] == (i, k - |events|);
      }
    }
  }

  /** The slots of a new day come after every earlier slot. */
  lemma LayOrder(slots: seq<(nat, nat)>, day: nat, count: nat)
    requires forall k :: 0 <= k < |slots| ==> slots[k].0 < day
    requires forall k, l :: 0 <= k < l < |slots| ==> Before(slots[k], slots[l])
    ensures var slots' := slots + DaySlots(day, count);
            forall k, l :: 0 <= k < l < |slots'| ==> Before(slots'[k], slots'[l])
  {
    var slots' := slots + DaySlots(day, count);
    forall k, l | 0 <= k < l < |slots'| ensures Before(slots'[k], slots'[l]) {
      if l < |slots| {
        assert slots'[k] == slots[k] && slots'[l] == slots[l];
      } else if k < |slots| {
        assert slots'[k] == slots[k] && slots'[l] == (day, l - |slots|);
      } else {
        assert slots'[k] == (day, k - |slots|) && slots'[l] == (day, l - |slots|);
      }
    }
  }

  ghost function DaySlots(day: nat, count: nat): (r: seq<(nat, nat)>)
    ensures |r| == count && forall j :: 0 <= j < count ==> r[j] == (day, j)
  {
    seq(count, (j: nat) requires j < count => (day, j))
  }

  /** Slots that increase name different events, so the ids differ. */
  lemma LaidIdsDistinct(events: seq<EconomicEvent>, slots: seq<(nat, nat)>, counts: seq<nat>, week: seq<Moment>)
    requires Laid(events, slots, counts, week)
    ensures forall k, l :: 0 <= k < l < |events| ==> events[k].id != events[l].id
  {
    forall k, l | 0 <= k < l < |events| ensures events[k].id != events[l].id {
      if events[k].id == events[l].id {
        SampleIdInjective(slots[k].0, slots[k].1, slots[l].0, slots[l].1);
      }
    }
  }

  /** `generateSampleData`: seven days of two to five events each; `counts`
      holds the seven draws of `eventsCount` and `slots` the day and
      position of each event. */
  method GenerateSampleData(week: seq<Moment>, random: nat -> real)
    returns (events: seq<EconomicEvent>, counts: seq<nat>, ghost slots: seq<(nat, nat)>)
    requires |week| == 7
    requires forall n :: 0.0 <= random(n) < 1.0
    ensures |counts| == 7 && forall d :: 0 <= d < 7 ==> 2 <= counts[d] <= 5
    ensures |events| == Sum(counts) && 14 <= |events| <= 35
    ensures Laid(events, slots, counts, week)
    ensures forall k, l :: 0 <= k < l < |events| ==> events[k].id != events[l].id
  {
    events, counts, slots := [], [], [];
    var cursor: nat := 0;
    for i := 0 to 7
      invariant |counts| == i && forall d :: 0 <= d < i ==> 2 <= counts[d] <= 5
      invariant |events| == Sum(counts)
      invariant Laid(events, slots, counts, week)
    {
      var eventsCount := 2 + Pick(random(cursor), 4);
      var dayEvents;
      dayEvents, cursor := GenerateDay(i, week[i], eventsCount, random, cursor + 1);
      LayDay(events, slots, counts, week, dayEvents);
      events, slots := events + dayEvents, slots + DaySlots(i, eventsCount);
      counts := counts + [eventsCount];
      assert counts[..|counts| - 1] == counts[..i];
    }
    SumBounds(counts);
    LaidIdsDistinct(events, slots, counts, week);
  }

  /** A batch `generateSampleData` can return for the seven days of
      `week`: two to five events per day, each the sample event of its
      day and position, in day order. */
  ghost predicate SampleWeek(events: seq<EconomicEvent>, week: seq<Moment>) {
    exists counts: seq<nat>, slots: seq<(nat, nat)> ::
      && |counts| == 7
      && (forall d :: 0 <= d < 7 ==> 2 <= counts[d] <= 5)
      && |events| == Sum(counts)
      && Laid(events, slots, counts, week)
  }

  /** Any such batch holds 14 to 35 well-formed events with distinct ids. */
  lemma SampleWeekShape(events: seq<EconomicEvent>, week: seq<Moment>)
    requires SampleWeek(events, week)
    ensures 14 <= |events| <= 35
    ensures forall k, l :: 0 <= k < l < |events| ==> events[k].id != events[l].id
    ensures forall k :: 0 <= k < |events| ==> WellFormed(events[k])
  {
    var counts: seq<nat>, slots: seq<(nat, nat)> :|
      && |counts| == 7
      && (forall d :: 0 <= d < 7 ==> 2 <= counts[d] <= 5)
      && |events| == Sum(counts)
      && Laid(events, slots, counts, week);
    SumBounds(counts);
    LaidIdsDistinct(events, slots, counts, week);
    forall k | 0 <= k < |events| ensures WellFormed(events[k]) {
      SampleEventWellFormed(events[k], slots[k].0, slots[k].1, week[slots[k].0]);
    }
  }
}
