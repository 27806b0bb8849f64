# Forex and markets site: the rules under the plumbing

This project models the deterministic core of a small Forex and markets
web site and proves properties of that model. The site has a browser
client and a proxy server in front of Forex Factory's weekly calendar
feeds. The modelled rules are:

- the economic-calendar normaliser, `processForexFactoryData`, with its
  helpers `parseDate` and `parseImpact`;
- the sample-week generator, `generateSampleData`;
- the two calendar loaders, which fall back to the sample week;
- the Yahoo Finance quote list: the symbol catalogue, display names, the
  per-symbol quote and the null filter after the join;
- the display-precision rule and the empty-list decision of `loadMarketData`;
- the news page: the eight-article demo catalogue, its category filter,
  the choice between fetched news and the three-article demo list, and the
  card defaults;
- `formatTimeAgo`, the tab bar and the mobile-menu toggle;
- the two proxy servers: the week-to-URL rules, the event and history
  URLs, and the error and health response shapes.

Inputs that the site gets from the outside world are parameters:

- the clock (`now`);
- `Math.random` (a function from draw number to a real in [0, 1));
- `generateId` (a token per record);
- the engine's own date parser (`engineParse`);
- every network answer;
- the upstream fetch-and-parse step of the proxies (`fetch`).

Modules, one per concern:

| module | file | models |
|---|---|---|
| `Js` | js.dfy | JavaScript semantics used throughout: truthiness, `\|\|`, `includes`, `toLowerCase`/`toUpperCase`, `split`, the `!== null` filter |
| `Numerals` | numerals.dfy | number-to-text conversion, `parseInt` for decimal and "0x" hexadecimal text, `Number` for decimal integers |
| `Calendar` | calendar.dfy | `parseImpact`, `parseDate`, `processForexFactoryData` (frontend/js/data.js) |
| `SampleCalendar` | sample_calendar.dfy | `generateSampleData` (frontend/js/data.js) |
| `CalendarLoader` | calendar_loader.dfy | `loadRealForexFactoryData`, `loadCalendarWeek` (frontend/js/data.js) |
| `Quotes` | quotes.dfy | `MARKET_SYMBOLS`, `getSymbolName`, `fetchYahooFinanceData`, the precision rule, `loadMarketData` (js/data.js, duplicated in frontend/js/data.js) |
| `PageScripts` | page_scripts.dfy | `formatTimeAgo`, the tab handler, the hamburger handler (js/main.js) |
| `News` | news.dfy | `getDemoNewsData`, `loadNews`, `renderNews`, `renderDemoNews` (js/loader.js) |
| `Proxy` | proxy.dfy | the calendar, event, history and health routes of backend/server.js and js/server.js |

The imperative parts are methods:

- `ProcessForexFactoryData` is a loop that pushes one event per readable
  record.
- `GenerateSampleData` and `GenerateDay` are the nested loops of the
  generator.
- `TabBar.Click` clears and sets flags in two arrays.
- `MobileMenu.Toggle` flips two fields.

Each method is proved against a specification function (`Normalised`,
`IsSampleEvent`/`Laid`, `OnlyAt`/`ContentsAfter`), and the properties of
the site are lemmas about those functions.

Where the code does something one might not expect, the model follows
the code:

- `changePercent` has no guard against a zero previous close. The model's
  `Quotes.Percent` is non-finite there.
- An empty normalised calendar batch is returned as it is. It is not
  replaced by sample data (`CalendarLoader.EmptyBatchKept`).
- `fetchNewsData` always answers with the demo catalogue.
  `News.LoadNews` therefore shows the filtered catalogue whenever it is
  non-empty, and the demo list only for a category with no article.
- The backend proxy parses the feed with `mergeAttrs: true`
  (backend/server.js:38). That puts the attributes on the element, not
  under `$`. The client reads `event.$.id`, so every such record throws and
  is skipped (`Calendar.MergedAttributesGiveEmpty`).

## Model

| member | source | states |
|---|---|---|
| Calendar.ImpactRoundTrip | frontend/js/data.js:174-182 | each impact name ("High", "Medium", "Low") is classified as itself |
| Calendar.ImpactIgnoresCase | frontend/js/data.js:177 | classification is the same for a text and its ASCII upper-case form, so "HIGH" and "high" agree |
| Calendar.HighWins | frontend/js/data.js:177-178 | any text containing "high" in any letter case is High, whatever else it says |
| Calendar.HighExample | frontend/js/data.js:177-178 | "HIGH" and "high" are both High |
| Calendar.HolidayExample | frontend/js/data.js:177-181 | "Holiday" names no level and is Low |
| Calendar.LowWithoutLevels | frontend/js/data.js:175-181 | a text naming neither "high" nor "medium" in any letter case is Low |
| Calendar.ImpactExamples | frontend/js/data.js:174-182 | "HIGH" and "high" are High; missing and empty input is Low; a text naming no level is Low |
| Calendar.ParseImpact | frontend/js/data.js:174-182 | High exactly when the lower-cased text contains "high"; Medium exactly when it contains "medium" but not "high"; Low otherwise, missing and empty input included |
| Calendar.NoLevel | frontend/js/data.js:177-178 | a text without a 'g' or an 'm' names neither "high" nor "medium" |
| Calendar.ParseDate | frontend/js/data.js:140-172 | a missing or empty date gives the current time; without a time, or with an empty time part, the parsed date (a slash date at midnight) is returned unchanged; an unreadable hour or minute gives an invalid date; a readable time keeps the parsed year, month and day, and sets exactly the hour and minute the clock rule reads |
| Calendar.DateOf | frontend/js/data.js:145-150 | a date with a slash is read as "M/D/Y", any other by the engine's parser |
| Calendar.To24 | frontend/js/data.js:160-161 | "pm" adds 12 to the hours 1 to 11 and leaves 12; "am" turns 12 into 0; any other period leaves the hour; so 1..12 with "am" or "pm" gives an hour of the day |
| Calendar.ClockOf | frontend/js/data.js:153-155 | an empty time, or one starting with a space, has no time part to apply |
| Calendar.SlashDate | frontend/js/data.js:146-147 | a valid slash date has three pieces, is at midnight, and never has a year in 0..99, which map to the 1900s |
| Calendar.ClockExamplesPm | frontend/js/data.js:155-163 | "12:00 pm" reads as 12:00 and "1:30 pm" as 13:30 |
| Calendar.ClockExampleNoon | frontend/js/data.js:160 | "12:00 pm" reads as 12:00: noon is not moved |
| Calendar.ClockExampleAfternoon | frontend/js/data.js:160 | "1:30 pm" reads as 13:30 |
| Calendar.ClockExampleMidnight | frontend/js/data.js:161 | "12:00 am" reads as 0:00 |
| Calendar.ClockExampleHex | frontend/js/data.js:155-162 | a hexadecimal hour is read as `parseInt` reads it: "0x10:00 pm" is 16:00 |
| Calendar.ClockExampleUpperCase | frontend/js/data.js:160-161 | an upper-case "PM" is not converted: "1:30 PM" reads as 1:30 |
| Calendar.TwelveHourClock | frontend/js/data.js:155-163 | any "H:MM period" reads as the 12-hour conversion of H, with minute MM |
| Calendar.ClockWithoutMinutes | frontend/js/data.js:157-163 | a time without minutes reads with minute 0 |
| Calendar.ClockOfParts | frontend/js/data.js:155-163 | how a time splits at the space and the colon into hour, minutes and period |
| Calendar.TwoDigitsRead | frontend/js/data.js:270 | the generator's two-digit minutes read back as the same number |
| Calendar.ClockRoundTrip | frontend/js/data.js:269-277 | every time of day the generator can write reads back as the same hour and minute |
| Calendar.SlashDateRead | frontend/js/data.js:146-148 | "M/D/Y" is read with the month made 0-based |
| Calendar.SlashDateAtClock | frontend/js/data.js:146-163 | a slash date at a 12-hour time gives that date at the converted hour and the minute |
| Calendar.SlashDateOnClock | frontend/js/data.js:146-163 | a date with a slash at a readable time is the slash date with that hour and minute set |
| Calendar.ParseDateScenario | frontend/js/data.js:140-167 | "11/21/2025" at "2:30 pm" is 21 November 2025, 14:30 |
| Calendar.Records | frontend/js/data.js:53-55 | no records without `weeklyevents.event`; a single event object becomes a one-element list |
| Calendar.NormaliseEvent | frontend/js/data.js:58-76 | a record is kept exactly when it has a `$` bag; a kept record is well formed and keeps its id, or gets "event-" plus the generated token |
| Calendar.Attempts | frontend/js/data.js:57-77 | one outcome per record, in source order |
| Calendar.ProcessForexFactoryData | frontend/js/data.js:46-86 | the loop returns the normalised batch of the payload's records; it is no longer than the record list and every event is well formed |
| Calendar.RecordKeptInPlace | frontend/js/data.js:57-77 | a readable record is kept whatever the other records do, at the position after the events kept before it |
| Calendar.EventsComeFromRecords | frontend/js/data.js:57-77 | every output event is the normalisation of some input record that has a `$` bag |
| Calendar.NothingDroppedWhenReadable | frontend/js/data.js:57-77 | when every record has a `$` bag the batch is as long as the record list |
| Calendar.MergedAttributesGiveEmpty | frontend/js/data.js:61 | records without a `$` bag, as the merged-attribute parse produces, all throw, and the batch is empty |
| Calendar.FieldDefaults | frontend/js/data.js:61-70 | a bare record gets the id "event-" plus the token, currency "USD", title "Economic Event", country "" and null figures |
| Calendar.SingleEventScenario | frontend/js/data.js:53-73 | one event element dated "11/21/2025" at "2:30 pm" with no impact gives one Low event at 2025-11-21 14:30 |
| SampleCalendar.Pick | frontend/js/data.js:262-266 | `Math.floor(Math.random() * n)` is an index below n |
| SampleCalendar.CountryOf | frontend/js/data.js:284-290 | a two-letter country: the first two letters of each listed currency except GBP, which is "UK"; any other currency is "CH" |
| SampleCalendar.Figure | frontend/js/data.js:281-283 | a figure written with one decimal is never empty |
| SampleCalendar.SampleIdInjective | frontend/js/data.js:275 | ids `sample-i-j` determine i and j |
| SampleCalendar.SampleTimeReadable | frontend/js/data.js:269-277 | a sample time reads back through the time rule as an hour in 8..16 and minute 0 or 30 |
| SampleCalendar.SampleLabelReadable | frontend/js/data.js:278-290 | a sample's currency is one of the eight, its country is the fixed function of the currency, and its title is the currency and an event type |
| SampleCalendar.SampleEventWellFormed | frontend/js/data.js:274-291 | every sample event is well formed, like a normalised one |
| SampleCalendar.SampleEvent | frontend/js/data.js:263-291 | one drawn event has the expected id, date, time, label and figures, which are present exactly for High impact |
| SampleCalendar.SumBounds | frontend/js/data.js:261-262 | days of 2 to 5 events sum to between 2 and 5 events per day |
| SampleCalendar.GenerateDay | frontend/js/data.js:263-292 | the inner loop produces `count` events, event j being the sample event of slot (day, j) |
| SampleCalendar.LayDay | frontend/js/data.js:257-293 | appending a generated day keeps the batch laid out slot by slot |
| SampleCalendar.LayEvents | frontend/js/data.js:257-293 | each appended event is the sample event of its day and position |
| SampleCalendar.LayOrder | frontend/js/data.js:257-263 | the slots of a new day come after every earlier slot |
| SampleCalendar.LaidIdsDistinct | frontend/js/data.js:275 | the ids of a laid-out batch are pairwise distinct |
| SampleCalendar.GenerateSampleData | frontend/js/data.js:241-296 | seven days of 2 to 5 events each, so 14 to 35 events, laid out slot by slot, with distinct ids |
| SampleCalendar.SampleWeekShape | frontend/js/data.js:241-296 | any batch the generator can return holds 14 to 35 well-formed events with distinct ids |
| CalendarLoader.NoticeFor | frontend/js/data.js:34-38 | the proxy notice exactly when the message contains "Proxy server is not available", else the error banner with the message |
| CalendarLoader.LoadRealForexFactoryData | frontend/js/data.js:5-43 | a failed health probe shows the proxy notice; a failed, non-ok or unparsable calendar answer shows its message; each failure returns a freshly generated sample week of 14 to 35 events with distinct ids; a parsed answer returns the normalised batch with no notice |
| CalendarLoader.Fallback | frontend/js/data.js:41 | the fallback is a batch the sample generator returns for the current week, of 14 to 35 events with distinct ids |
| CalendarLoader.HttpError | frontend/js/data.js:23 | the message starts with "HTTP error! status: " and `parseInt` reads the status back from the rest |
| CalendarLoader.ProxyDownNotice | frontend/js/data.js:17 | the health failure's message selects the proxy notice |
| CalendarLoader.HttpErrorNotice | frontend/js/data.js:23 | an HTTP status error never selects the proxy notice |
| CalendarLoader.EmptyBatchKept | frontend/js/data.js:53-81 | a payload without events normalises to the empty batch; being a parsed answer, the loaders return it as it is (their `Parsed` postconditions), not replaced by sample data |
| CalendarLoader.Interpolated | frontend/js/data.js:95 | a given week is interpolated as itself |
| CalendarLoader.CalendarWeekUrl | frontend/js/data.js:91-92 | a non-empty week is asked for as given; a missing or empty week asks for "this" week |
| CalendarLoader.LoadCalendarWeek | frontend/js/data.js:89-105 | a parsed answer gives the normalised batch; every failure gives a freshly generated sample week and a "Failed to load <week> week data: <message>" banner, whose message is the network error, the prefix again for a non-ok answer, or the JSON error for an unreadable body |
| CalendarLoader.MissingWeekMessage | frontend/js/data.js:91-102 | without an argument the request asks for this week while the banner names the week "undefined" |
| Quotes.SymbolsFor | js/data.js:31 | exactly the four category names have a ticker list, of eight tickers |
| Quotes.CatalogueShape | js/data.js:2-7 | four categories, each of eight distinct tickers |
| Quotes.NamesCoverCatalogue | js/data.js:103-139 | the name table covers exactly the 32 catalogue tickers, and each name differs from its ticker |
| Quotes.NamesKeys | js/data.js:103-137 | the name table has exactly the 32 catalogue tickers as keys |
| Quotes.NamesOwn | js/data.js:103-139 | each catalogue ticker is shown by its own name, which differs from the ticker |
| Quotes.UnlistedShownAsIs | js/data.js:139 | an unlisted symbol is shown as itself |
| Quotes.SymbolName | js/data.js:103-139 | a listed symbol with a non-empty name is shown by that name; an unlisted symbol as itself |
| Quotes.MetaOf | js/data.js:63-71 | a meta block comes only from a 2xx JSON answer whose `chart.result` is a non-empty array, and is its first element's `meta` |
| Quotes.Numeric | js/data.js:74-75 | in arithmetic a missing figure is `NaN` and `null` is 0 |
| Quotes.Percent | js/data.js:75 | the change percentage is finite exactly when both figures are and the previous close is not zero |
| Quotes.QuoteOf | js/data.js:67-86 | a quote exists exactly when the answer has a chart result; it carries the symbol, its display name, the price and previous close as given, and the volume or 0 |
| Quotes.VolumeDefault | js/data.js:84 | the volume is `regularMarketVolume` when truthy, else 0, so a missing, `null` or zero volume is 0 |
| Quotes.ChangeFigures | js/data.js:72-75 | the change is price minus previous close with `null` as 0, finite exactly when neither figure is missing; the percentage is finite exactly when the change is and the close is a non-zero number |
| Quotes.NullCloseChange | js/data.js:72-75 | a `null` close gives the price itself as the change and a non-finite percentage |
| Quotes.MissingChartDropped | js/data.js:68 | a payload without `chart` or `chart.result` gives no quote |
| Quotes.Results | js/data.js:59-91 | one result per symbol, in symbol order |
| Quotes.FetchYahooFinanceData | js/data.js:56-100 | a list exactly when the category exists, never longer than the symbol list |
| Quotes.QuotesComeFromSymbols | js/data.js:93-94 | every listed quote is the quote of some requested symbol |
| Quotes.QuotesKeepSymbolOrder | js/data.js:94 | a symbol's quote sits after the quotes of the symbols before it |
| Quotes.FailedSymbolAbsent | js/data.js:87-94 | a symbol whose request fails has no entry in the list |
| Quotes.AllAnswered | js/data.js:93-94 | when every symbol answers, every symbol is listed |
| Js.CompactMembers | js/data.js:94 | a quote survives the null filter exactly when it was among the results |
| Js.CompactAppend | js/data.js:94 | the filter distributes over concatenation, so survivors keep their order |
| Js.CompactAt | js/data.js:94 | each present result lands right after the survivors of the results before it |
| Js.CompactLength | js/data.js:94 | the filtered list is as long as the number of present results |
| Quotes.Precision | js/data.js:159 | the precision is 2 or 4 |
| Quotes.PrecisionOfPair | js/data.js:159 | a ticker ending in "=X" gets 4 decimals |
| Quotes.PrecisionWithout | js/data.js:159 | a ticker that cannot contain "=X" or "JPY=" gets 2 decimals |
| Quotes.ForexPrecision | js/data.js:159 | every forex ticker gets 4 decimals |
| Quotes.CryptoPrecision | js/data.js:159 | every crypto ticker gets 2 decimals |
| Quotes.IndexPrecision | js/data.js:159 | every index ticker gets 2 decimals |
| Quotes.CommodityPrecision | js/data.js:159 | every commodity ticker gets 2 decimals |
| Quotes.LoadMarketData | js/data.js:18-53 | nothing without a container; the table exactly when the list is non-empty, else "Failed to load <type> data" |
| Quotes.UnknownCategoryFails | js/data.js:31-43 | an unknown category shows the failure message |
| Quotes.AllFailedFails | js/data.js:34-43 | when every symbol fails, the failure message is shown |
| PageScripts.ElapsedOf | js/main.js:96-99 | minutes below an hour, hours 1..23 below a day, days from one day on, each the floor of the difference; a future time is a negative minute count |
| PageScripts.FormatTimeAgo | js/main.js:93-108 | below an hour the floored minutes with " min ago", below a day the floored hours with " hr ago", else the floored days with " day ago" or " days ago" |
| PageScripts.TimeAgoCount | js/main.js:101-107 | the label starts with the bucket's count, which `parseInt` reads back |
| Numerals.IntRoundTrip | frontend/js/data.js:157-162 | `parseInt` reads back any integer as written |
| Numerals.IntStopsAtNonDigit | frontend/js/data.js:157-162 | `parseInt` reads a written integer from the front of a text and stops at the first non-digit, except that a 0 followed by "x" or "X" starts a hexadecimal number |
| Numerals.ParseIntDigits | frontend/js/data.js:157-162 | `parseInt` gives a number only for a text holding a digit; a text starting with a digit gives a non-negative number, always unless it starts with "0x" or "0X", which gives a number exactly when a hexadecimal digit follows |
| Numerals.HexExamples | frontend/js/data.js:157-162 | "0x10" reads as 16, "0X" and "0xg" as NaN, "-0x1f" as -31 |
| Numerals.NumberRoundTrip | frontend/js/data.js:146-147 | `Number` reads back any natural number as written |
| Numerals.ToNumberDigits | frontend/js/data.js:146-147 | `Number` gives a non-zero number only for a text holding a digit, and reads a text of digits as their value |
| PageScripts.DayPlural | js/main.js:106 | the day label is singular exactly for one day |
| PageScripts.Lookup | js/main.js:28 | the first element with the id, and none for the empty id |
| PageScripts.OnlyAt | js/main.js:21-27 | exactly one flag is set, at the given position |
| PageScripts.ContentChosenById | js/main.js:28-31 | a content is active exactly when it is the first whose id is the button's `data-tab` |
| PageScripts.AtMostOneContent | js/main.js:22-31 | at most one content is active after a click |
| PageScripts.TabBar.constructor | js/main.js:15-22 | a tab bar starts with no active button or content |
| PageScripts.TabBar.Click | js/main.js:17-32 | after a click the clicked button is the only active button, and the content found by id is the only active content, or none |
| PageScripts.MobileMenu.constructor | js/main.js:4-7 | the menu starts with the given flags |
| PageScripts.MobileMenu.Toggle | js/main.js:8-11 | a click flips both flags, so two clicks restore them |
| News.Publish | js/loader.js:56-65 | an article carries its story's category and the given time |
| News.Catalogue | js/loader.js:56-129 | eight articles, article k published 2(k+1) hours before now |
| News.CatalogueCategories | js/loader.js:56-129 | the categories of the catalogue, in order |
| News.Filter | js/loader.js:133 | exactly the items with that category, never more items than given |
| News.GetDemoNewsData | js/loader.js:55-137 | a truthy category other than "all" selects its items; anything else returns the whole catalogue |
| News.CatalogueNewestFirst | js/loader.js:62-125 | the catalogue is ordered newest first |
| News.FilterNewestFirst | js/loader.js:133 | filtering a newest-first list keeps it newest first |
| News.DemoNewestFirst | js/loader.js:132-136 | every result of `getDemoNewsData` is newest first |
| News.CategoryCounts | js/loader.js:56-133 | business selects 2 articles, finance 2, technology 1, economics 1, crypto 2 |
| News.SelectionCount | js/loader.js:132-133 | a selection is as long as the number of catalogue articles with that category |
| News.TagCounts | js/loader.js:56-129 | the category counts of the catalogue partition its eight articles |
| News.CatalogueTagged | js/loader.js:2-129 | every catalogue article has a category from `NEWS_CATEGORIES` |
| News.CategoriesCovered | js/loader.js:2-136 | every listed category selects at least one article; "all", missing and empty select the whole catalogue |
| News.CategoryOf | js/loader.js:5 | the default "business" replaces only a missing argument; `null` stays falsy |
| News.DemoList | js/loader.js:166-195 | the demo list has three articles |
| News.RenderCard | js/loader.js:143-154 | the placeholder image for a falsy image, "General" for a falsy category, the title, source and relative time of the article |
| News.RenderNews | js/loader.js:140-163 | one card per article, in order |
| News.ShowNews | js/loader.js:21-31 | non-empty news is rendered as it is, anything else as the demo list with the warning |
| News.LoadNews | js/loader.js:5-32 | nothing without a container, else the decision applied to the demo data for the argument's category |
| News.ListedCategoryShown | js/loader.js:17-26 | a listed category shows its own filtered articles and no warning |
| News.UnlistedCategoryDemo | js/loader.js:17-26 | an unlisted category selects nothing, so the demo list and the warning are shown |
| News.DefaultIsBusiness | js/loader.js:5 | without an argument the business articles are shown |
| News.DemoListTimes | js/loader.js:173-191 | the three demo cards are labelled "2 hr ago", "5 hr ago" and "8 hr ago" |
| Proxy.WeekFileInjective | js/server.js:48-50 | different week names give different calendar files |
| Proxy.BackendCalendarUrl | backend/server.js:64-73 | "next" and "last" pick their files; every other week, a missing one included, picks this week's file |
| Proxy.BackendFixedFiles | backend/server.js:64-73 | the backend only ever asks for one of three fixed files |
| Proxy.BackendCalendar | backend/server.js:59-86 | the parsed feed with status 200, or status 500 with the error text, the failure's message and the hint |
| Proxy.BackendHealth | backend/server.js:91-97 | status "OK", the timestamp, and the running message |
| Proxy.CalendarUrl | js/server.js:48-50 | a missing or empty week asks for this week; any other week goes into the file name verbatim |
| Proxy.CalendarUrlsAgree | js/server.js:48-50 | the two servers ask for the same file exactly when the week is missing, empty, "this", "next" or "last" |
| Proxy.EventUrlsDistinct | js/server.js:65-80 | event and history URLs determine their id, and no event URL is a history URL |
| Proxy.EventUrl | js/server.js:65 | the base, then "/event/", then the id as given |
| Proxy.HistoryUrl | js/server.js:80 | the base, then "/history/", then the id as given |
| Proxy.CalendarRoute | js/server.js:45-60 | status 200 with the tree exactly when the week's file is fetched, else 500 with "Failed to fetch calendar data" and the failure's message |
| Proxy.EventRoute | js/server.js:62-75 | status 200 with the tree exactly when the event page is fetched, else 500 with "Failed to fetch event data" and the failure's message |
| Proxy.HistoryRoute | js/server.js:77-90 | status 200 with the tree exactly when the history page is fetched, else 500 with "Failed to fetch event history" and the failure's message |
| Proxy.Route | js/server.js:52-58 | the parsed tree with status 200, or status 500 with the route's error text and the failure's message |
| Proxy.ServerHealth | js/server.js:94 | status "OK" and the timestamp, with no message |
| Proxy.CalendarRoutesAgree | js/server.js:45-60 | where the URLs agree, both calendar routes answer alike for the same upstream answer, except that the backend adds the hint to a failure |
| Proxy.RouteFailuresDistinct | js/server.js:55-88 | each route fails with its own error text, and the three texts differ |

## Left out

- Network, Express and browser plumbing. `fetch`, `axios`, routing,
  middleware, CORS, static serving, `app.listen` and every DOM write are
  I/O. Their outcomes are inputs.
- The `Promise.all` fan-out is concurrency. Only the order-preserving null
  filter after the join is modelled.
- xml2js is a foreign library. The parsed tree is an input: `Calendar.Feed`
  on the client, a type parameter in `Proxy`.
- `formatNumber`, `formatCurrency` and `formatPercent` depend on `Intl`,
  which is locale dependent. Only the number of decimals is modelled
  (`Quotes.Precision`).
- Floating point. Prices are reals. The random figures are rounded half up
  to tenths; the binary rounding of `toFixed` is not modelled.
- `Date` arithmetic is not modelled. A `Moment` holds the fields as set:
  - day and month overflow are not normalised;
  - seconds and the time zone are not modelled;
  - `new Date(text)` for a non-slash date is the parameter `engineParse`;
  - the ISO string round trip of `publishedAt` is not modelled, because
    articles carry milliseconds.
- Calendar.ParseDate: an hour or minute text that `parseInt` cannot read gives an invalid date; NaN arithmetic is not modelled beyond that.
- Calendar.ImpactIgnoresCase: proved for ASCII upper-casing only. JavaScript's `toUpperCase` also maps non-ASCII letters, such as U+0131 (dotless i) to "I", so "hıgh" is Low while its upper-case form "HIGH" is High.
- Numerals.ToNumber: `Number` is modelled for optionally signed decimal integers only. Decimal fractions, exponents, hexadecimal, binary and octal literals and "Infinity" read as NaN in the model, so a slash date such as "0x1/2/2025" is invalid here but 2 January 2025 in JavaScript.
- Numerals.ParseInt: white space before the number is space, tab, line feed and carriage return only. JavaScript also skips vertical tab, form feed, U+00A0, U+FEFF and the other Unicode spaces, so a time such as "\u00a02:30 pm" is invalid here but 14:30 in JavaScript. The same holds for the trimming in `Numerals.ToNumber`.
- Quotes.Numeric: a meta figure is missing, `null` or a number. Other JSON values there (strings, booleans, objects) are not modelled.
- Proxy.CalendarRoutesAgree: both servers share one `fetch` input. The backend's 10-second timeout and extra request headers (backend/server.js:25-33), against the plain request with one header in js/server.js:20-24, are not modelled, so the same URL can get different upstream answers from the two servers.
- Quotes.SymbolName: inherited `Object.prototype` keys (such as "toString") are not modelled.
- PageScripts.Lookup: `getElementById` is modelled over the tab contents only. Other elements with the same id are not modelled.
- PageScripts.ElapsedOf: the difference is a whole number of milliseconds. An invalid date, which gives NaN, is not modelled.
- The generator's `startOfWeek` computation is not modelled. It is the parameter `week` of `GenerateSampleData` (`days` in the loaders), the seven dates.
- `generateId` is a parameter, `token`, drawn per record index.
- `showProxyError` and `showLoadError` are not modelled as HTML. Only their choice and message are modelled (`CalendarLoader.Notice`).
- The outer `catch` of `processForexFactoryData` cannot be reached once per-record errors are caught.
- The "Error loading" branch of `loadMarketData` cannot be reached, because `fetchYahooFinanceData` catches its own errors.
- `fetchNewsData` has a one-second delay and a `catch` that cannot be reached. It always returns the demo data.
- `getEventDetails` and `getEventHistory` are thin wrappers around `fetch`.
- The whole of `signals.js` and `scripts.js` is left out; both only render HTML.
- `setupNewsFilters` is left out; it is only event wiring.
- The `*` route and the error middleware of backend/server.js are left out; both are server plumbing.
- A `week` query given as an array is not modelled. The model takes the query as missing or as one text.
