/** The news page: the eight-article demo catalogue and its category
    filter, the choice between fetched news and the three-article demo
    list, and the defaults applied when a card is rendered. The clock is
    the parameter `now`, in milliseconds. */
module News {
  import opened Js
  import opened PageScripts

  const HourMs := 3600000

  datatype Article = Article(title: string, description: string, url: string,
                             urlToImage: Option<string>, publishedAt: int,
                             source: string, category: Option<string>)

  /** `NEWS_CATEGORIES`. */
  const NewsCategories: seq<string> := ["business", "finance", "technology", "economics", "crypto"]

  function Unsplash(photo: string): string {
    "https://images.unsplash.com/photo-" + photo + "?ixlib=rb-4.0.3&auto=format&fit=crop&w=500&q=80"
  }

  /** The fixed part of an article: everything but its publication time. */
  datatype Story = Story(title: string, description: string, photo: string, source: string, category: string)

  function Publish(s: Story, publishedAt: int): (a: Article)
    ensures a.category == Some(s.category) && a.publishedAt == publishedAt
  {
    Article(s.title, s.description, "#", Some(Unsplash(s.photo)), publishedAt, s.source, Some(s.category))
  }

  const BitcoinSurges := Story(
    "Bitcoin Surges Past $40,000 as Institutional Adoption Grows",
    "Major financial institutions continue to expand cryptocurrency offerings, driving prices higher amid increasing adoption.",
    "1620336655055-bd87ca8f1370", "Financial Times", "crypto")
  const FedHoldsRates := Story(
    "Federal Reserve Holds Rates Steady, Signals Caution on Inflation",
    "The Federal Reserve maintained interest rates at current levels while acknowledging persistent inflationary pressures in the economy.",
    "1590283603385-17ffb3a7f29f", "Bloomberg", "finance")
  const TechRally := Story(
    "Tech Stocks Rally as Earnings Season Exceeds Expectations",
    "Technology companies report stronger-than-expected earnings, driving a broad rally in tech stocks across major indices.",
    "1611974789855-9c2a0a7236a3", "CNBC", "business")
  const OilVolatile := Story(
    "Oil Prices Volatile Amid Middle East Tensions and Supply Concerns",
    "Crude oil prices swing wildly as geopolitical tensions rise and OPEC+ considers production adjustments.",
    "1603665274855-b4f1e5e0ba27", "Reuters", "business")
  const EuroStrengthens := Story(
    "Euro Strengthens Against Dollar as ECB Hints at Policy Shift",
    "The European Central Bank signals a more hawkish stance, boosting the euro against major currencies.",
    "1553877522-43269d4ea984", "Financial Times", "finance")
  const AiPlatform := Story(
    "New AI Trading Platform Promises Revolution in Algorithmic Trading",
    "A startup unveils a new artificial intelligence platform that claims to predict market movements with unprecedented accuracy.",
    "1677442135135-416f8aa26a5b", "TechCrunch", "technology")
  const HousingCools := Story(
    "Housing Market Shows Signs of Cooling After Record Year",
    "After unprecedented growth, housing market indicators suggest a return to more normal patterns.",
    "1560518883-ce09059eeffa", "Bloomberg", "economics")
  const CentralBanksDigital := Story(
    "Central Banks Explore Digital Currencies as Crypto Adoption Grows",
    "Major central banks worldwide are accelerating research into central bank digital currencies (CBDCs) as cryptocurrency adoption continues to expand.",
    "1622630998477-20aa696ecb05", "Wall Street Journal", "crypto")

  /** The stories of `allNews`, in order. */
  const Stories: seq<Story> := [BitcoinSurges, FedHoldsRates, TechRally, OilVolatile,
                                EuroStrengthens, AiPlatform, HousingCools, CentralBanksDigital]

  /** The catalogue's categories, in order. */
  const CatalogueTags: seq<string> := ["crypto", "finance", "business", "business",
                                       "finance", "technology", "economics", "crypto"]

  /** `allNews` of `getDemoNewsData`: the `k`-th story (from 0) published
      `2 * (k + 1)` hours before `now`. */
  function Catalogue(now: int): (items: seq<Article>)
    ensures |items| == 8
    ensures forall k :: 0 <= k < 8 ==> items[k] == Publish(Stories[k], now - 2 * (k + 1) * HourMs)
  {
    seq(8, k requires 0 <= k < 8 => Publish(Stories[k], now - 2 * (k + 1) * HourMs))
  }

  lemma CatalogueCategories(now: int)
    ensures forall k :: 0 <= k < 8 ==> Catalogue(now)[k].category == Some(CatalogueTags[k])
  {
    assert forall k :: 0 <= k < 8 ==> Stories[k].category == CatalogueTags[k];
  }

  /** `items.filter(item => item.category === category)`. */
  function Filter(items: seq<Article>, category: string): (r: seq<Article>)
    ensures |r| <= |items|
    ensures forall a :: a in r <==> a in items && a.category == Some(category)
  {
    if |items| == 0 then []
    else (if items[0].category == Some(category) then [items[0]] else []) + Filter(items[1..], category)
  }

  /** `getDemoNewsData(category)`: the articles of that category for a
      truthy category other than "all", otherwise all of them. */
  function GetDemoNewsData(category: Option<string>, now: int): (r: seq<Article>)
    ensures Truthy(category) && category.value != "all" ==>
              forall a :: a in r <==> a in Catalogue(now) && a.category == category
    ensures !(Truthy(category) && category.value != "all") ==> r == Catalogue(now)
  {
    if Truthy(category) && category.value != "all" then Filter(Catalogue(now), category.value)
    else Catalogue(now)
  }

  /** Newest first: publication times strictly decrease along the list. */
  predicate NewestFirst(items: seq<Article>) {
    forall i, j :: 0 <= i < j < |items| ==> items[i].publishedAt > items[j].publishedAt
  }

  lemma CatalogueNewestFirst(now: int)
    ensures NewestFirst(Catalogue(now))
  {
    var items := Catalogue(now);
    forall i, j | 0 <= i < j < |items| ensures items[i].publishedAt > items[j].publishedAt {
      assert items[i].publishedAt == now - 2 * (i + 1) * HourMs;
      assert items[j].publishedAt == now - 2 * (j + 1) * HourMs;
    }
  }

  lemma TailNewestFirst(items: seq<Article>)
    requires NewestFirst(items) && |items| > 0
    ensures NewestFirst(items[1..])
    ensures forall a :: a in items[1..] ==> a.publishedAt < items[0].publishedAt
  {
    var tail := items[1..];
    forall i, j | 0 <= i < j < |tail| ensures tail[i].publishedAt > tail[j].publishedAt {
      assert tail[i] == items[i + 1] && tail[j] == items[j + 1];
    }
    forall a | a in tail ensures a.publishedAt < items[0].publishedAt {
      var m :| 0 <= m < |tail| && tail[m] == a;
      assert items[m + 1] == a;
    }
  }

  lemma ConsNewestFirst(first: Article, rest: seq<Article>)
    requires NewestFirst(rest)
    requires forall a :: a in rest ==> a.publishedAt < first.publishedAt
    ensures NewestFirst([first] + rest)
  {
    var r := [first] + rest;
    forall i, j | 0 <= i < j < |r| ensures r[i].publishedAt > r[j].publishedAt {
      assert r[j] == rest[j - 1] && r[j] in rest;
      if i > 0 {
        assert r[i] == rest[i - 1];
      }
    }
  }

  /** Filtering keeps a newest-first list newest first. */
  lemma {:induction false} FilterNewestFirst(items: seq<Article>, category: string)
    requires NewestFirst(items)
    ensures NewestFirst(Filter(items, category))
  {
    if |items| > 0 {
      TailNewestFirst(items);
      FilterNewestFirst(items[1..], category);
      if items[0].category == Some(category) {
        ConsNewestFirst(items[0], Filter(items[1..], category));
      }
    }
  }

  /** Any demo selection is newest first. */
  lemma DemoNewestFirst(category: Option<string>, now: int)
    ensures NewestFirst(GetDemoNewsData(category, now))
  {
    CatalogueNewestFirst(now);
    if Truthy(category) && category.value != "all" {
      FilterNewestFirst(Catalogue(now), category.value);
    }
  }

  /** The filter keeps catalogue order: the survivors form a subsequence. */
  lemma {:induction false} FilterAppend(xs: seq<Article>, ys: seq<Article>, category: string)
    ensures Filter(xs + ys, category) == Filter(xs, category) + Filter(ys, category)
  {
    if |xs| == 0 {
      assert xs + ys == ys;
    } else {
      assert (xs + ys)[0] == xs[0] && (xs + ys)[1..] == xs[1..] + ys;
      FilterAppend(xs[1..], ys, category);
    }
  }

  function Count(tags: seq<string>, category: string): nat {
    if |tags| == 0 then 0 else (if tags[0] == category then 1 else 0) + Count(tags[1..], category)
  }

  /** The filter keeps as many articles as carry the category. */
  lemma {:induction false} FilterCount(items: seq<Article>, tags: seq<string>, category: string)
    requires |items| == |tags| && forall k :: 0 <= k < |items| ==> items[k].category == Some(tags[k])
    ensures |Filter(items, category)| == Count(tags, category)
  {
    if |items| > 0 {
      FilterCount(items[1..], tags[1..], category);
    }
  }

  /** Per-category counts: business 2, finance 2, technology 1,
      economics 1, crypto 2, which together are all eight articles. */
  lemma CategoryCounts(now: int)
    ensures |GetDemoNewsData(Some("business"), now)| == 2
    ensures |GetDemoNewsData(Some("finance"), now)| == 2
    ensures |GetDemoNewsData(Some("technology"), now)| == 1
    ensures |GetDemoNewsData(Some("economics"), now)| == 1
    ensures |GetDemoNewsData(Some("crypto"), now)| == 2
  {
    TagCounts();
    SelectionCount("business", now);
    SelectionCount("finance", now);
    SelectionCount("technology", now);
    SelectionCount("economics", now);
    SelectionCount("crypto", now);
  }

  /** A category selects as many articles as the catalogue tags with it. */
  lemma SelectionCount(category: string, now: int)
    requires category != "" && category != "all"
    ensures |GetDemoNewsData(Some(category), now)| == Count(CatalogueTags, category)
  {
    CatalogueCategories(now);
    FilterCount(Catalogue(now), CatalogueTags, category);
  }

  lemma TagCounts()
    ensures Count(CatalogueTags, "business") == 2 && Count(CatalogueTags, "finance") == 2
    ensures Count(CatalogueTags, "technology") == 1 && Count(CatalogueTags, "economics") == 1
    ensures Count(CatalogueTags, "crypto") == 2
  {
  }

  /** Every demo article carries one of the listed categories. */
  lemma CatalogueTagged(now: int)
    ensures forall a :: a in Catalogue(now) ==> a.category.Some? && a.category.value in NewsCategories
  {
    CatalogueCategories(now);
    assert forall k :: 0 <= k < 8 ==> CatalogueTags[k] in NewsCategories;
  }

  /** Every listed category selects at least one demo article; "all", an
      empty and a missing category give the whole catalogue. */
  lemma CategoriesCovered(now: int)
    ensures forall c :: c in NewsCategories ==> |GetDemoNewsData(Some(c), now)| >= 1
    ensures GetDemoNewsData(Some("all"), now) == Catalogue(now)
    ensures GetDemoNewsData(None, now) == Catalogue(now)
    ensures GetDemoNewsData(Some(""), now) == Catalogue(now)
  {
    CategoryCounts(now);
  }

  // ---------------------------------------------------------------------
  // Loading and rendering

  /** The argument `loadNews` receives: none (the default applies), `null`
      (a filter button without `data-category`), or a text. */
  datatype Argument = Undefined | Null | Text(text: string)

  /** `category = 'business'`: the default replaces only a missing argument. */
  function CategoryOf(arg: Argument): (c: Option<string>)
    ensures arg.Undefined? ==> c == Some("business")
    ensures arg.Null? ==> c == None
    ensures arg.Text? ==> c == Some(arg.text)
  {
    match arg
    case Undefined => Some("business")
    case Null => None
    case Text(t) => Some(t)
  }

  const MarketsRecord := Story(
    "Stock Markets Reach Record Highs Amid Economic Recovery",
    "Global stock markets continue their upward trajectory as economic indicators show strong recovery signals.",
    "1611974789855-9c2a0a7236a3", "MarketWatch", "business")
  const CryptoRegulation := Story(
    "Cryptocurrency Regulations Expected to Tighten Following G20 Meeting",
    "Finance ministers from G20 countries discuss coordinated approach to cryptocurrency regulation.",
    "1620336655055-bd87ca8f1370", "Reuters", "crypto")

  /** `renderDemoNews`'s three articles, published 2, 5 and 8 hours
      before `now`. */
  function DemoList(now: int): (items: seq<Article>)
    ensures |items| == 3
  {
    [Publish(MarketsRecord, now - 2 * HourMs), Publish(CryptoRegulation, now - 5 * HourMs),
     Publish(HousingCools, now - 8 * HourMs)]
  }

  const PlaceholderImage := Unsplash("1588681664899-f142ff2dc9b1")

  /** What a news card shows. */
  datatype Card = Card(image: string, category: string, title: string, url: string,
                       description: string, time: string, source: string)

  /** One card of `renderNews`: the placeholder image for a falsy
      `urlToImage`, "General" for a falsy category. */
  function RenderCard(a: Article, now: int): (c: Card)
    ensures Truthy(a.urlToImage) ==> c.image == a.urlToImage.value
    ensures !Truthy(a.urlToImage) ==> c.image == PlaceholderImage
    ensures Truthy(a.category) ==> c.category == a.category.value
    ensures !Truthy(a.category) ==> c.category == "General"
    ensures c.title == a.title && c.source == a.source
    ensures c.time == FormatTimeAgo(now - a.publishedAt)
  {
    Card(Or(a.urlToImage, PlaceholderImage), Or(a.category, "General"), a.title, a.url,
         a.description, FormatTimeAgo(now - a.publishedAt), a.source)
  }

  function RenderNews(items: seq<Article>, now: int): (cards: seq<Card>)
    ensures |cards| == |items|
    ensures forall i :: 0 <= i < |items| ==> cards[i] == RenderCard(items[i], now)
  {
    seq(|items|, i requires 0 <= i < |items| => RenderCard(items[i], now))
  }

  /** What `loadNews` leaves in the news container. */
  datatype NewsView = Untouched | Cards(cards: seq<Card>, demoWarning: bool)

  /** The decision of `loadNews` on what `fetchNewsData` gave: `None` for
      `null` or a thrown error. */
  function ShowNews(fetched: Option<seq<Article>>, now: int): (v: NewsView)
    ensures fetched.Some? && |fetched.value| > 0 ==> v == Cards(RenderNews(fetched.value, now), false)
    ensures !(fetched.Some? && |fetched.value| > 0) ==> v == Cards(RenderNews(DemoList(now), now), true)
  {
    if fetched.Some? && |fetched.value| > 0 then Cards(RenderNews(fetched.value, now), false)
    else Cards(RenderNews(DemoList(now), now), true)
  }

  /** `loadNews(category)`: nothing without a container; otherwise
      `fetchNewsData`, which returns the demo selection. */
  function LoadNews(arg: Argument, hasContainer: bool, now: int): (v: NewsView)
    ensures !hasContainer ==> v == Untouched
    ensures hasContainer ==> v == ShowNews(Some(GetDemoNewsData(CategoryOf(arg), now)), now)
  {
    if !hasContainer then Untouched else ShowNews(Some(GetDemoNewsData(CategoryOf(arg), now)), now)
  }

  lemma {:induction false} CountAbsent(tags: seq<string>, category: string)
    requires category !in tags
    ensures Count(tags, category) == 0
  {
    if |tags| > 0 {
      CountAbsent(tags[1..], category);
    }
  }

  /** A listed category shows its own articles. */
  lemma ListedCategoryShown(c: string, now: int)
    requires c in NewsCategories
    ensures LoadNews(Text(c), true, now) == Cards(RenderNews(Filter(Catalogue(now), c), now), false)
  {
    TagCounts();
    SelectionCount(c, now);
  }

  /** A category no article has shows the three demo articles with the
      warning. */
  lemma UnlistedCategoryDemo(c: string, now: int)
    requires c != "" && c != "all" && c !in NewsCategories
    ensures LoadNews(Text(c), true, now) == Cards(RenderNews(DemoList(now), now), true)
  {
    assert c !in CatalogueTags;
    CountAbsent(CatalogueTags, c);
    SelectionCount(c, now);
  }

  /** With no argument the business articles are shown. */
  lemma DefaultIsBusiness(now: int)
    ensures LoadNews(Undefined, true, now) == Cards(RenderNews(Filter(Catalogue(now), "business"), now), false)
  {
    CategoryCounts(now);
  }

  /** The demo articles are labelled with their age in hours. */
  lemma DemoListTimes(now: int)
    ensures RenderNews(DemoList(now), now)[0].time == FormatTimeAgo(2 * HourMs) == "2 hr ago"
    ensures RenderNews(DemoList(now), now)[1].time == FormatTimeAgo(5 * HourMs) == "5 hr ago"
    ensures RenderNews(DemoList(now), now)[2].time == FormatTimeAgo(8 * HourMs) == "8 hr ago"
    ensures ElapsedOf(2 * HourMs) == Hours(2)
    ensures ElapsedOf(5 * HourMs) == Hours(5)
    ensures ElapsedOf(8 * HourMs) == Hours(8)
  {
  }
}
