/** The two proxy servers in front of Forex Factory: the backend one with
    a fixed `switch` over the requested week, and the older one that puts
    the week into the file name as given. Fetching and XML parsing are
    inputs: `fetch(url)` is what the upstream request and the parser
    produce for a URL, a parsed tree of type `T` or an error message. */
module Proxy {
  import opened Js

  const ForexFactoryBase := "https://www.forexfactory.com"
  const WeekPrefix := "/ffcal_week_"
  const XmlSuffix := ".xml"
  const EventPath := "/event/"
  const HistoryPath := "/history/"

  /** What fetching and parsing one upstream URL gives. */
  datatype Outcome<T> = Fetched(data: T) | Failed(message: string)

  /** A JSON body a route sends. */
  datatype Reply<T> =
    | Data(data: T)
    | Failure(error: string, message: string, details: Option<string>)
    | Health(status: string, timestamp: string, banner: Option<string>)

  /** A response: its status code and JSON body. */
  datatype Response<T> = Response(status: int, body: Reply<T>)

  /** The weekly calendar file named `name`. */
  function WeekFile(name: string): (url: string)
    ensures |url| == |ForexFactoryBase| + |WeekPrefix| + |name| + |XmlSuffix|
    ensures url[..|ForexFactoryBase|] == ForexFactoryBase
  {
    ForexFactoryBase + WeekPrefix + name + XmlSuffix
  }

  /** Different names give different files. */
  lemma {:induction false} WeekFileInjective(a: string, b: string)
    requires WeekFile(a) == WeekFile(b)
    ensures a == b
  {
    var start := |ForexFactoryBase| + |WeekPrefix|;
    assert |a| == |b|;
    assert WeekFile(a)[start..start + |a|] == a;
    assert WeekFile(b)[start..start + |b|] == b;
  }

  // ---------------------------------------------------------------------
  // backend/server.js

  const CalendarFailure := "Failed to fetch calendar data"
  const CalendarDetails := "Make sure the Forex Factory URL is correct and accessible"
  const RunningMessage := "Forex Factory proxy server is running"

  /** The `switch (week)`: "next" and "last" pick their files, anything
      else, a missing week included, picks this week's. */
  function BackendCalendarUrl(week: Option<string>): (url: string)
    ensures week == Some("next") ==> url == WeekFile("next")
    ensures week == Some("last") ==> url == WeekFile("last")
    ensures week != Some("next") && week != Some("last") ==> url == WeekFile("this")
  {
    match week
    case Some("next") => WeekFile("next")
    case Some("last") => WeekFile("last")
    case _ => WeekFile("this")
  }

  /** Whatever the query, the backend asks for one of three fixed files. */
  lemma BackendFixedFiles(week: Option<string>)
    ensures exists name :: name in ["this", "next", "last"] && BackendCalendarUrl(week) == WeekFile(name)
  {
    if week == Some("next") {
      assert "next" in ["this", "next", "last"];
    } else if week == Some("last") {
      assert "last" in ["this", "next", "last"];
    } else {
      assert "this" in ["this", "next", "last"];
    }
  }

  /** The calendar route: the parsed tree with status 200, or status 500
      with the error, the failure's message and a hint. */
  function BackendCalendar<T>(week: Option<string>, fetch: string -> Outcome<T>): (r: Response<T>)
    ensures r.status == 200 <==> fetch(BackendCalendarUrl(week)).Fetched?
    ensures r.status == 200 ==> r.body == Data(fetch(BackendCalendarUrl(week)).data)
    ensures r.status != 200 ==>
              r == Response(500, Failure(CalendarFailure, fetch(BackendCalendarUrl(week)).message, Some(CalendarDetails)))
  {
    match fetch(BackendCalendarUrl(week))
    case Fetched(data) => Response(200, Data(data))
    case Failed(message) => Response(500, Failure(CalendarFailure, message, Some(CalendarDetails)))
  }

  /** The health route, with the clock's ISO text as `timestamp`. */
  function BackendHealth<T>(timestamp: string): (r: Response<T>)
    ensures r.status == 200 && r.body.Health? && r.body.status == "OK" && r.body.timestamp == timestamp
    ensures r.body.banner == Some(RunningMessage)
  {
    Response(200, Health("OK", timestamp, Some(RunningMessage)))
  }

  // ---------------------------------------------------------------------
  // js/server.js

  const EventFailure := "Failed to fetch event data"
  const HistoryFailure := "Failed to fetch event history"

  /** `week ? .../ffcal_week_${week}.xml : .../ffcal_week_this.xml`: a
      non-empty week goes into the file name as it is. */
  function CalendarUrl(week: Option<string>): (url: string)
    ensures !Truthy(week) ==> url == WeekFile("this")
    ensures Truthy(week) ==> url == WeekFile(week.value)
  {
    if Truthy(week) then WeekFile(week.value) else WeekFile("this")
  }

  /** The two servers ask for the same file exactly when the week is
      missing, empty, "this", "next" or "last". */
  lemma CalendarUrlsAgree(week: Option<string>)
    ensures CalendarUrl(week) == BackendCalendarUrl(week) <==>
              !Truthy(week) || week.value == "this" || week.value == "next" || week.value == "last"
  {
    if CalendarUrl(week) == BackendCalendarUrl(week) && Truthy(week) {
      if week.value != "next" && week.value != "last" {
        WeekFileInjective(week.value, "this");
      }
    }
  }

  /** `${base}/event/${eventId}`. */
  function EventUrl(eventId: string): (url: string)
    ensures |url| == |ForexFactoryBase| + |EventPath| + |eventId|
    ensures url[..|ForexFactoryBase| + |EventPath|] == ForexFactoryBase + EventPath
    ensures url[|ForexFactoryBase| + |EventPath|..] == eventId
  {
    ForexFactoryBase + EventPath + eventId
  }

  /** `${base}/history/${eventId}`. */
  function HistoryUrl(eventId: string): (url: string)
    ensures |url| == |ForexFactoryBase| + |HistoryPath| + |eventId|
    ensures url[..|ForexFactoryBase| + |HistoryPath|] == ForexFactoryBase + HistoryPath
    ensures url[|ForexFactoryBase| + |HistoryPath|..] == eventId
  {
    ForexFactoryBase + HistoryPath + eventId
  }

  /** Each id has its own event and history URL, and no event URL is a
      history URL. */
  lemma {:induction false} EventUrlsDistinct(a: string, b: string)
    ensures EventUrl(a) == EventUrl(b) <==> a == b
    ensures HistoryUrl(a) == HistoryUrl(b) <==> a == b
    ensures EventUrl(a) != HistoryUrl(b)
  {
    var n := |ForexFactoryBase|;
    if EventUrl(a) == EventUrl(b) {
      assert EventUrl(a)[n + |EventPath|..] == a;
      assert EventUrl(b)[n + |EventPath|..] == b;
    }
    if HistoryUrl(a) == HistoryUrl(b) {
      assert HistoryUrl(a)[n + |HistoryPath|..] == a;
      assert HistoryUrl(b)[n + |HistoryPath|..] == b;
    }
    assert EventUrl(a)[n + 1] == EventPath[1] == 'e';
    assert HistoryUrl(b)[n + 1] == HistoryPath[1] == 'h';
  }

  /** One route of this server: fetch `url`, answer the tree, or status
      500 with the route's error text and the failure's message. */
  function Route<T>(url: string, failure: string, fetch: string -> Outcome<T>): (r: Response<T>)
    ensures r.status == 200 <==> fetch(url).Fetched?
    ensures r.status == 200 ==> r.body == Data(fetch(url).data)
    ensures r.status != 200 ==> r == Response(500, Failure(failure, fetch(url).message, None))
  {
    match fetch(url)
    case Fetched(data) => Response(200, Data(data))
    case Failed(message) => Response(500, Failure(failure, message, None))
  }

  function CalendarRoute<T>(week: Option<string>, fetch: string -> Outcome<T>): (r: Response<T>)
    ensures r.status == 200 <==> fetch(CalendarUrl(week)).Fetched?
    ensures r.status == 200 ==> r.body == Data(fetch(CalendarUrl(week)).data)
    ensures r.status != 200 ==> r.status == 500 && r.body.Failure? && r.body.error == CalendarFailure
                                && r.body.message == fetch(CalendarUrl(week)).message && r.body.details.None?
  {
    Route(CalendarUrl(week), CalendarFailure, fetch)
  }

  function EventRoute<T>(eventId: string, fetch: string -> Outcome<T>): (r: Response<T>)
    ensures r.status == 200 <==> fetch(EventUrl(eventId)).Fetched?
    ensures r.status == 200 ==> r.body == Data(fetch(EventUrl(eventId)).data)
    ensures r.status != 200 ==> r.status == 500 && r.body.Failure? && r.body.error == EventFailure
                                && r.body.message == fetch(EventUrl(eventId)).message && r.body.details.None?
  {
    Route(EventUrl(eventId), EventFailure, fetch)
  }

  function HistoryRoute<T>(eventId: string, fetch: string -> Outcome<T>): (r: Response<T>)
    ensures r.status == 200 <==> fetch(HistoryUrl(eventId)).Fetched?
    ensures r.status == 200 ==> r.body == Data(fetch(HistoryUrl(eventId)).data)
    ensures r.status != 200 ==> r.status == 500 && r.body.Failure? && r.body.error == HistoryFailure
                                && r.body.message == fetch(HistoryUrl(eventId)).message && r.body.details.None?
  {
    Route(HistoryUrl(eventId), HistoryFailure, fetch)
  }

  /** The health route of this server: no message. */
  function ServerHealth<T>(timestamp: string): (r: Response<T>)
    ensures r.status == 200 && r.body.Health? && r.body.status == "OK" && r.body.timestamp == timestamp
    ensures r.body.banner.None?
  {
    Response(200, Health("OK", timestamp, None))
  }

  /** For the weeks both servers map alike, their calendar routes answer
      alike, except that the backend adds the hint to a failure. */
  lemma CalendarRoutesAgree<T>(week: Option<string>, fetch: string -> Outcome<T>)
    requires !Truthy(week) || week.value == "this" || week.value == "next" || week.value == "last"
    ensures var mine := CalendarRoute(week, fetch);
            var backend := BackendCalendar(week, fetch);
            mine.status == backend.status
            && (mine.body.Data? <==> backend.body.Data?)
            && (mine.body.Data? ==> mine.body == backend.body)
            && (mine.body.Failure? ==> backend.body == mine.body.(details := Some(CalendarDetails)))
  {
    CalendarUrlsAgree(week);
  }

  /** Each route names its own failure, so a client can tell which
      request failed from the error text alone. */
  lemma {:induction false} RouteFailuresDistinct<T>(week: Option<string>, eventId: string, fetch: string -> Outcome<T>)
    ensures CalendarRoute(week, fetch).body.Failure? ==>
              CalendarRoute(week, fetch).body.error == CalendarFailure
    ensures EventRoute(eventId, fetch).body.Failure? ==>
              EventRoute(eventId, fetch).body.error == EventFailure
    ensures HistoryRoute(eventId, fetch).body.Failure? ==>
              HistoryRoute(eventId, fetch).body.error == HistoryFailure
    ensures CalendarFailure != EventFailure && CalendarFailure != HistoryFailure && EventFailure != HistoryFailure
  {
    assert CalendarFailure[16] == 'c' && EventFailure[16] == 'e';
    assert |EventFailure| != |HistoryFailure|;
    assert HistoryFailure[16] == 'e' && CalendarFailure[16] != HistoryFailure[16];
  }
}
