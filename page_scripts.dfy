/** The site-wide page script: the "time ago" label, the tab bar and the
    mobile menu toggle. The difference between the clock and a timestamp
    is given in whole milliseconds. */
module PageScripts {
  import opened Js
  import opened Numerals

  const MinuteMs := 60000
  const HourMs := 3600000
  const DayMs := 86400000

  /** The bucket `formatTimeAgo` picks, with its count. */
  datatype Elapsed = Minutes(count: int) | Hours(count: int) | Days(count: int)

  /** `Math.floor(diffMs / 60000)`, then hours and days likewise; minutes
      below 60, else hours below 24, else days. */
  function ElapsedOf(diffMs: int): (e: Elapsed)
    ensures e.Minutes? <==> diffMs < HourMs
    ensures e.Minutes? ==> e.count * MinuteMs <= diffMs < (e.count + 1) * MinuteMs
    ensures e.Hours? <==> HourMs <= diffMs < DayMs
    ensures e.Hours? ==> 1 <= e.count <= 23 && e.count * HourMs <= diffMs < (e.count + 1) * HourMs
    ensures e.Days? <==> DayMs <= diffMs
    ensures e.Days? ==> 1 <= e.count && e.count * DayMs <= diffMs < (e.count + 1) * DayMs
    ensures diffMs < 0 ==> e.Minutes? && e.count < 0
  {
    var diffMins := diffMs / MinuteMs;
    var diffHours := diffMs / HourMs;
    var diffDays := diffMs / DayMs;
    if diffMins < 60 then Minutes(diffMins)
    else if diffHours < 24 then Hours(diffHours)
    else Days(diffDays)
  }

  /** `formatTimeAgo`: "<n> min ago", "<n> hr ago" or "<n> day(s) ago". */
  function FormatTimeAgo(diffMs: int): (s: string)
    ensures diffMs < HourMs ==> s == IntToString(diffMs / MinuteMs) + " min ago"
    ensures HourMs <= diffMs < DayMs ==> s == IntToString(diffMs / HourMs) + " hr ago"
    ensures DayMs <= diffMs ==>
              s == IntToString(diffMs / DayMs) + (if diffMs / DayMs == 1 then " day ago" else " days ago")
  {
    match ElapsedOf(diffMs)
    case Minutes(n) => IntToString(n) + " min ago"
    case Hours(n) => IntToString(n) + " hr ago"
    case Days(n) => IntToString(n) + " day" + (if n != 1 then "s" else "") + " ago"
  }

  /** The label starts with the bucket's count, which `parseInt` reads
      back. */
  lemma TimeAgoCount(diffMs: int)
    ensures ParseInt(FormatTimeAgo(diffMs)) == Some(ElapsedOf(diffMs).count)
  {
    var e := ElapsedOf(diffMs);
    match e
    case Minutes(n) => IntStopsAtNonDigit(n, " min ago");
    case Hours(n) => IntStopsAtNonDigit(n, " hr ago");
    case Days(n) =>
      var rest := " day" + (if n != 1 then "s" else "") + " ago";
      assert FormatTimeAgo(diffMs) == IntToString(n) + rest;
      IntStopsAtNonDigit(n, rest);
  }

  /** The day label is singular exactly for one day. */
  lemma DayPlural(diffMs: int)
    requires DayMs <= diffMs
    ensures var n := ElapsedOf(diffMs).count;
            FormatTimeAgo(diffMs) == IntToString(n) + (if n == 1 then " day ago" else " days ago")
  {
  }

  // ---------------------------------------------------------------------
  // Tabs

  /** `data-tab` as `getElementById` receives it: a missing attribute is
      `null`, which becomes the text "null". */
  function TabKey(tab: Option<string>): string {
    if tab.Some? then tab.value else "null"
  }

  /** `getElementById(key)` over the tab contents: the first with that id;
      never an element for the empty key. */
  function Lookup(ids: seq<Option<string>>, key: string): (r: Option<nat>)
    ensures r.Some? ==> key != "" && r.value < |ids| && ids[r.value] == Some(key)
                        && forall j :: 0 <= j < r.value ==> ids[j] != Some(key)
    ensures r.None? ==> key == "" || forall j :: 0 <= j < |ids| ==> ids[j] != Some(key)
  {
    if key == "" || |ids| == 0 then None
    else if ids[0] == Some(key) then Some(0)
    else
      var rest := Lookup(ids[1..], key);
      if rest.Some? then Some(rest.value + 1) else None
  }

  /** Flags with exactly one set, at `at`. */
  function OnlyAt(n: nat, at: int): (flags: seq<bool>)
    ensures |flags| == n && forall i :: 0 <= i < n ==> (flags[i] <==> i == at)
  {
    seq(n, i requires 0 <= i < n => i == at)
  }

  /** The content flags after a click on a button whose `data-tab` is
      `tab`: only the content found by id, or none. */
  function ContentsAfter(ids: seq<Option<string>>, tab: Option<string>): (flags: seq<bool>)
    ensures |flags| == |ids|
  {
    var found := Lookup(ids, TabKey(tab));
    OnlyAt(|ids|, if found.Some? then found.value else -1)
  }

  /** The active content is the first whose id is the button's `data-tab`;
      with no such content (or an empty key) none is active. */
  lemma ContentChosenById(ids: seq<Option<string>>, tab: Option<string>, k: nat)
    requires k < |ids|
    ensures ContentsAfter(ids, tab)[k] <==>
              TabKey(tab) != "" && ids[k] == Some(TabKey(tab))
              && forall j :: 0 <= j < k ==> ids[j] != Some(TabKey(tab))
  {
  }

  /** At most one content is active after a click. */
  lemma AtMostOneContent(ids: seq<Option<string>>, tab: Option<string>, k: nat, l: nat)
    requires k < l < |ids|
    ensures !(ContentsAfter(ids, tab)[k] && ContentsAfter(ids, tab)[l])
  {
  }

  /** The tab bar: the `active` flag of each `.tab-btn` and its `data-tab`,
      and the `active` flag of each `.tab-content` and its id. */
  class TabBar {
    var buttons: array<bool>
    var tabs: seq<Option<string>>
    var contents: array<bool>
    var ids: seq<Option<string>>

    ghost predicate Valid()
      reads this
    {
      buttons.Length == |tabs| && contents.Length == |ids| && buttons != contents
    }

    constructor (tabs: seq<Option<string>>, ids: seq<Option<string>>)
      ensures Valid() && this.tabs == tabs && this.ids == ids
      ensures fresh(buttons) && fresh(contents)
      ensures forall i :: 0 <= i < buttons.Length ==> !buttons[i]
      ensures forall i :: 0 <= i < contents.Length ==> !contents[i]
    {
      this.tabs := tabs;
      this.ids := ids;
      buttons := new bool[|tabs|](_ => false);
      contents := new bool[|ids|](_ => false);
    }

    /** A click on button `b`: every flag cleared, then the button and the
        content it names set. */
    method Click(b: nat)
      requires Valid() && b < buttons.Length
      modifies buttons, contents
      ensures Valid()
      ensures buttons[..] == OnlyAt(buttons.Length, b)
      ensures contents[..] == ContentsAfter(ids, tabs[b])
    {
      for i := 0 to buttons.Length
        invariant forall k :: 0 <= k < i ==> !buttons[k]
      {
        buttons[i] := false;
      }
      for i := 0 to contents.Length
        invariant forall k :: 0 <= k < i ==> !contents[k]
        invariant forall k :: 0 <= k < buttons.Length ==> !buttons[k]
      {
        contents[i] := false;
      }
      buttons[b] := true;
      var found := Lookup(ids, TabKey(tabs[b]));
      if found.Some? {
        contents[found.value] := true;
      }
    }
  }

  // ---------------------------------------------------------------------
  // Mobile menu

  /** The `active` flags of the navigation menu and the hamburger button. */
  class MobileMenu {
    var menuActive: bool
    var hamburgerActive: bool

    constructor (menuActive: bool, hamburgerActive: bool)
      ensures this.menuActive == menuActive && this.hamburgerActive == hamburgerActive
    {
      this.menuActive := menuActive;
      this.hamburgerActive := hamburgerActive;
    }

    /** A hamburger click toggles both flags, so a second click restores
        them. */
    method Toggle()
      modifies this
      ensures menuActive == !old(menuActive) && hamburgerActive == !old(hamburgerActive)
    {
      menuActive := !menuActive;
      hamburgerActive := !hamburgerActive;
    }
  }
}
