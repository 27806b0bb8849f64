/** The client's calendar loaders, `loadRealForexFactoryData` and
    `loadCalendarWeek`: ask the proxy, normalise what it returns, and fall
    back to the sample week of `generateSampleData` on any failure. The
    network answers, the week's days and `Math.random` are inputs. What
    the loaders show the user is the `Notice`. */
module CalendarLoader {
  import opened Js
  import opened Numerals
  import opened Calendar
  import opened SampleCalendar

  const ProxyBaseUrl := "http://localhost:3001/api"

  /** The body of a response: the JSON value, or the message of the error
      `response.json()` throws. */
  datatype Body = Parsed(data: Option<Feed>) | Unparsable(message: string)

  /** What a `fetch` gives: a rejected promise with its error message, or
      a response with its status and body. */
  datatype Fetch = Unreachable(message: string) | Answered(status: int, body: Body)

  /** `response.ok`. */
  predicate Ok(f: Fetch) {
    f.Answered? && 200 <= f.status <= 299
  }

  /** Nothing shown, the proxy notice (`showProxyError`), or an error
      banner with its text (`showLoadError`). */
  datatype Notice = NoNotice | ProxyNotice | LoadError(message: string)

  datatype Loaded = Loaded(events: seq<EconomicEvent>, notice: Notice)

  const ProxyDownPhrase := "Proxy server is not available"
  const ProxyDown := ProxyDownPhrase + ". Please make sure it's running on port 3001."

  /** The catch block's choice of notice. */
  function NoticeFor(message: string): (n: Notice)
    ensures n == ProxyNotice <==> Contains(message, ProxyDownPhrase)
    ensures n != ProxyNotice ==> n == LoadError(message)
  {
    if Contains(message, ProxyDownPhrase) then ProxyNotice else LoadError(message)
  }

  /** `loadRealForexFactoryData`: the health probe, then the calendar
      request; `health` and `calendar` are the two answers. On any failure
      the fallback runs `generateSampleData` over the seven `days` of the
      current week with the draws of `random`. */
  method LoadRealForexFactoryData(health: Fetch, calendar: Fetch, days: seq<Moment>, random: nat -> real,
                                  token: nat -> string, now: Moment, engineParse: string -> Moment)
    returns (r: Loaded)
    requires |days| == 7
    requires forall n :: 0.0 <= random(n) < 1.0
    ensures !Ok(health) ==> r.notice == ProxyNotice
    ensures Ok(health) && calendar.Unreachable? ==> r.notice == NoticeFor(calendar.message)
    ensures Ok(health) && calendar.Answered? && !Ok(calendar) ==> r.notice == LoadError(HttpError(calendar.status))
    ensures Ok(health) && Ok(calendar) && calendar.body.Unparsable? ==> r.notice == NoticeFor(calendar.body.message)
    ensures Ok(health) && Ok(calendar) && calendar.body.Parsed? ==>
              r == Loaded(Normalised(Records(calendar.body.data), token, now, engineParse), NoNotice)
    ensures !(Ok(health) && Ok(calendar) && calendar.body.Parsed?) ==>
              SampleWeek(r.events, days) && 14 <= |r.events| <= 35
              && forall k, l :: 0 <= k < l < |r.events| ==> r.events[k].id != r.events[l].id
  {
    var notice;
    if !Ok(health) {
      ProxyDownNotice(". Please make sure it's running on port 3001.");
      notice := NoticeFor(ProxyDown);
    } else if calendar.Unreachable? {
      notice := NoticeFor(calendar.message);
    } else if !Ok(calendar) {
      var message := HttpError(calendar.status);
      HttpErrorNotice(calendar.status);
      notice := NoticeFor(message);
    } else if calendar.body.Unparsable? {
      notice := NoticeFor(calendar.body.message);
    } else {
      var events := ProcessForexFactoryData(calendar.body.data, token, now, engineParse);
      return Loaded(events, NoNotice);
    }
    var sample := Fallback(days, random);
    return Loaded(sample, notice);
  }

  /** The catch blocks' `return generateSampleData()`. */
  method Fallback(days: seq<Moment>, random: nat -> real) returns (sample: seq<EconomicEvent>)
    requires |days| == 7
    requires forall n :: 0.0 <= random(n) < 1.0
    ensures SampleWeek(sample, days) && 14 <= |sample| <= 35
    ensures forall k, l :: 0 <= k < l < |sample| ==> sample[k].id != sample[l].id
  {
    var counts;
    ghost var slots;
    sample, counts, slots := GenerateSampleData(days, random);
  }

  /** `HTTP error! status: ${response.status}`. */
  function HttpError(status: int): (message: string)
    ensures |message| > 20 && message[..20] == "HTTP error! status: "
    ensures ParseInt(message[20..]) == Some(status)
  {
    IntRoundTrip(status);
    assert ("HTTP error! status: " + IntToString(status))[20..] == IntToString(status);
    "HTTP error! status: " + IntToString(status)
  }

  /** A message that starts with the proxy-down phrase, as the health
      failure's does, is shown as the proxy notice. */
  lemma ProxyDownNotice(rest: string)
    ensures NoticeFor(ProxyDownPhrase + rest) == ProxyNotice
  {
    ContainsInside("", ProxyDownPhrase, rest);
    assert "" + ProxyDownPhrase + rest == ProxyDownPhrase + rest;
  }

  /** An HTTP status error is shown as it is, never as the proxy notice. */
  lemma HttpErrorNotice(status: int)
    ensures NoticeFor(HttpError(status)) == LoadError(HttpError(status))
  {
    var digits := IntToString(status);
    assert forall k :: 0 <= k < |digits| ==> digits[k] == '-' || IsDigit(digits[k]);
    assert ProxyDownPhrase[9] == 'v';
    AbsentChar(HttpError(status), ProxyDownPhrase, 9);
  }

  /** A feed without events normalises to the empty batch. Such a feed is
      a parsed answer, so by their `Parsed` postconditions the loaders
      return that empty batch with no notice: the sample week is not
      substituted. */
  lemma EmptyBatchKept(body: Option<Feed>, token: nat -> string, now: Moment, engineParse: string -> Moment)
    requires body.None? || body.value.weeklyevents.None? || body.value.weeklyevents.value.event.None?
    ensures Normalised(Records(body), token, now, engineParse) == []
  {
  }

  /** `${week}` in a template: `undefined` when the argument is missing. */
  function Interpolated(week: Option<string>): (s: string)
    ensures week.Some? ==> s == week.value
  {
    if week.Some? then week.value else "undefined"
  }

  /** The request `loadCalendarWeek` sends: a missing or empty week asks
      for this week. */
  function CalendarWeekUrl(week: Option<string>): (url: string)
    ensures Truthy(week) ==> url == ProxyBaseUrl + "/forexfactory/calendar?week=" + week.value
    ensures !Truthy(week) ==> url == ProxyBaseUrl + "/forexfactory/calendar?week=this"
  {
    ProxyBaseUrl + "/forexfactory/calendar?week=" + Or(week, "this")
  }

  /** `loadCalendarWeek`: one request for `CalendarWeekUrl(week)`, whose
      answer is `calendar`. Every error is reported as
      `Failed to load ${week} week data: <message>`, with the argument as
      given, not the week that was asked for, and the sample week of
      `days` and `random` is shown instead. */
  method LoadCalendarWeek(week: Option<string>, calendar: Fetch, days: seq<Moment>, random: nat -> real,
                          token: nat -> string, now: Moment, engineParse: string -> Moment)
    returns (r: Loaded)
    requires |days| == 7
    requires forall n :: 0.0 <= random(n) < 1.0
    ensures Ok(calendar) && calendar.body.Parsed? ==>
              r == Loaded(Normalised(Records(calendar.body.data), token, now, engineParse), NoNotice)
    ensures !(Ok(calendar) && calendar.body.Parsed?) ==>
              SampleWeek(r.events, days) && 14 <= |r.events| <= 35 && r.notice.LoadError?
              && forall k, l :: 0 <= k < l < |r.events| ==> r.events[k].id != r.events[l].id
    ensures calendar.Answered? && !Ok(calendar) ==>
              var failed := "Failed to load " + Interpolated(week) + " week data";
              r.notice == LoadError(failed + ": " + failed)
    ensures calendar.Unreachable? ==>
              r.notice == LoadError("Failed to load " + Interpolated(week) + " week data: " + calendar.message)
    ensures Ok(calendar) && calendar.body.Unparsable? ==>
              r.notice == LoadError("Failed to load " + Interpolated(week) + " week data: " + calendar.body.message)
  {
    var prefix := "Failed to load " + Interpolated(week) + " week data";
    var message;
    if calendar.Unreachable? {
      message := calendar.message;
    } else if !Ok(calendar) {
      message := prefix;
    } else if calendar.body.Unparsable? {
      message := calendar.body.message;
    } else {
      var events := ProcessForexFactoryData(calendar.body.data, token, now, engineParse);
      return Loaded(events, NoNotice);
    }
    var sample := Fallback(days, random);
    return Loaded(sample, LoadError(prefix + ": " + message));
  }

  /** Without an argument the request asks for this week while a failure
      names the week "undefined". */
  lemma MissingWeekMessage()
    ensures CalendarWeekUrl(None) == ProxyBaseUrl + "/forexfactory/calendar?week=this"
    ensures Contains("Failed to load " + Interpolated(None) + " week data", "undefined")
  {
    ContainsInside("Failed to load ", "undefined", " week data");
  }
}
