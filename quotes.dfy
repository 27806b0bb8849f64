/** The market tables: the fixed ticker catalogue, display names, the
    per-symbol reading of a Yahoo Finance chart answer, the null filter
    after all requests are joined, the display precision and the choice
    between table and failure message. Prices are exact reals; a division
    by a zero close is the non-finite number. */
module Quotes {
  import opened Js

  const Crypto: seq<string> := ["BTC-USD", "ETH-USD", "SOL-USD", "BNB-USD", "XRP-USD", "ADA-USD", "DOGE-USD", "AVAX-USD"]
  const Forex: seq<string> := ["EURUSD=X", "GBPUSD=X", "JPY=X", "AUDUSD=X", "CADUSD=X", "CHFUSD=X", "CNYUSD=X", "NZDUSD=X"]
  const Indices: seq<string> := ["^GSPC", "^DJI", "^IXIC", "^RUT", "^FTSE", "^N225", "^HSI", "^STOXX50E"]
  const Commodities: seq<string> := ["GC=F", "SI=F", "CL=F", "NG=F", "ZC=F", "ZS=F", "KE=F", "HG=F"]

  /** `MARKET_SYMBOLS`. */
  const MarketSymbols: map<string, seq<string>> :=
    map["crypto" := Crypto, "forex" := Forex, "indices" := Indices, "commodities" := Commodities]

  /** `MARKET_SYMBOLS[marketType]`: `undefined` for any other key. */
  function SymbolsFor(marketType: string): (r: Option<seq<string>>)
    ensures r.Some? <==> marketType in {"crypto", "forex", "indices", "commodities"}
    ensures r.Some? ==> |r.value| == 8
  {
    if marketType in MarketSymbols then Some(MarketSymbols[marketType]) else None
  }

  predicate Distinct(tickers: seq<string>) {
    forall i, j :: 0 <= i < j < |tickers| ==> tickers[i] != tickers[j]
  }

  /** Four categories of eight distinct tickers. */
  lemma CatalogueShape()
    ensures |MarketSymbols.Keys| == 4
    ensures forall c :: c in MarketSymbols ==> |MarketSymbols[c]| == 8 && Distinct(MarketSymbols[c])
  {
    assert MarketSymbols.Keys == {"crypto", "forex", "indices", "commodities"};
    assert Distinct(Crypto);
    assert Distinct(Forex);
    assert Distinct(Indices);
    assert Distinct(Commodities);
  }

  /** The display names of `getSymbolName`. */
  const Names: map<string, string> := map[
    "BTC-USD" := "Bitcoin", "ETH-USD" := "Ethereum", "SOL-USD" := "Solana",
    "BNB-USD" := "Binance Coin", "XRP-USD" := "Ripple", "ADA-USD" := "Cardano",
    "DOGE-USD" := "Dogecoin", "AVAX-USD" := "Avalanche",
    "EURUSD=X" := "EUR/USD", "GBPUSD=X" := "GBP/USD", "JPY=X" := "USD/JPY",
    "AUDUSD=X" := "AUD/USD", "CADUSD=X" := "CAD/USD", "CHFUSD=X" := "CHF/USD",
    "CNYUSD=X" := "CNY/USD", "NZDUSD=X" := "NZD/USD",
    "^GSPC" := "S&P 500", "^DJI" := "Dow Jones", "^IXIC" := "NASDAQ",
    "^RUT" := "Russell 2000", "^FTSE" := "FTSE 100", "^N225" := "Nikkei 225",
    "^HSI" := "Hang Seng", "^STOXX50E" := "STOXX 50",
    "GC=F" := "Gold", "SI=F" := "Silver", "CL=F" := "Crude Oil",
    "NG=F" := "Natural Gas", "ZC=F" := "Corn", "ZS=F" := "Soybeans",
    "KE=F" := "Wheat", "HG=F" := "Copper"]

  /** `symbolNames[symbol] || symbol`. */
  function SymbolName(symbol: string): (name: string)
    ensures symbol in Names && Names[symbol] != "" ==> name == Names[symbol]
    ensures symbol !in Names ==> name == symbol
  {
    if symbol in Names && Names[symbol] != "" then Names[symbol] else symbol
  }

  /** Every catalogue ticker, and nothing else, has a display name of its
      own, different from the ticker. */
  lemma NamesCoverCatalogue()
    ensures Names.Keys == set t | t in Crypto + Forex + Indices + Commodities
    ensures forall t :: t in Crypto + Forex + Indices + Commodities ==>
              SymbolName(t) == Names[t] && SymbolName(t) != t
  {
    NamesKeys();
    NamesOwn();
  }

  lemma NamesKeys()
    ensures Names.Keys == set t | t in Crypto + Forex + Indices + Commodities
  {
    NamedCrypto();
    NamedForex();
    NamedIndices();
    NamedCommodities();
    NamesListed();
    var listed := set t | t in Crypto + Forex + Indices + Commodities;
    assert forall t :: t in listed ==> t in Names;
    assert forall t :: t in Names ==> t in listed;
  }

  lemma NamesOwn()
    ensures forall t :: t in Crypto + Forex + Indices + Commodities ==>
              SymbolName(t) == Names[t] && SymbolName(t) != t
  {
    NamedCrypto();
    NamedForex();
    NamedIndices();
    NamedCommodities();
  }

  /** Present, non-empty and not the ticker itself. */
  predicate OwnName(t: string) {
    t in Names && Names[t] != "" && Names[t] != t
  }

  lemma NamedCrypto() ensures forall t :: t in Crypto ==> OwnName(t) {}
  lemma NamedForex() ensures forall t :: t in Forex ==> OwnName(t) {}
  lemma NamedIndices() ensures forall t :: t in Indices ==> OwnName(t) {}
  lemma NamedCommodities() ensures forall t :: t in Commodities ==> OwnName(t) {}

  /** The name table lists catalogue tickers only. */
  lemma NamesListed()
    ensures forall t :: t in Names ==> t in Crypto || t in Forex || t in Indices || t in Commodities
  {
  }

  /** A ticker outside the catalogue is shown as itself. */
  lemma UnlistedShownAsIs(symbol: string)
    requires symbol !in Crypto + Forex + Indices + Commodities
    ensures SymbolName(symbol) == symbol
  {
    NamesCoverCatalogue();
  }

  // ---------------------------------------------------------------------
  // Reading one chart answer

  /** A JavaScript number: a finite value, or `NaN`/`Infinity`. */
  datatype Num = Finite(value: real) | NonFinite

  function Sub(a: Num, b: Num): Num {
    if a.Finite? && b.Finite? then Finite(a.value - b.value) else NonFinite
  }

  /** `(change / previousClose) * 100`, unguarded: a zero close gives a
      non-finite percentage. */
  function Percent(change: Num, previousClose: Num): (r: Num)
    ensures r.Finite? <==> change.Finite? && previousClose.Finite? && previousClose.value != 0.0
  {
    if change.Finite? && previousClose.Finite? && previousClose.value != 0.0
    then Finite(change.value / previousClose.value * 100.0)
    else NonFinite
  }

  /** A figure of the chart's `meta` as JSON gives it: missing
      (`undefined`), `null`, or a number. */
  datatype Figure = Undefined | Null | Number(value: real)

  /** The figure as arithmetic sees it: `undefined` is `NaN`, `null` is 0. */
  function Numeric(f: Figure): (n: Num)
    ensures n.Finite? <==> !f.Undefined?
    ensures f.Null? ==> n == Finite(0.0)
    ensures f.Number? ==> n == Finite(f.value)
  {
    match f
    case Undefined => NonFinite
    case Null => Finite(0.0)
    case Number(v) => Finite(v)
  }

  datatype Meta = Meta(previousClose: Figure, regularMarketPrice: Figure, regularMarketVolume: Figure)
  datatype ChartResult = ChartResult(meta: Option<Meta>)
  datatype Chart = Chart(result: Option<seq<ChartResult>>)
  datatype Payload = Payload(chart: Option<Chart>)

  /** The JSON body, or a body `response.json()` cannot read. */
  datatype Body = Json(data: Option<Payload>) | Unparsable

  /** A rejected request, or a response with its status and body. */
  datatype Fetch = Rejected | Answered(status: int, body: Body)

  /** A quote: `price` and `previousClose` are the meta figures as they
      are, `change` and `changePercent` the numbers computed from them. */
  datatype Quote = Quote(symbol: string, name: string, price: Figure, change: Num,
                         changePercent: Num, previousClose: Figure, volume: real)

  /** The meta block a usable answer carries: a 2xx response whose JSON
      has a `chart.result` array whose first element has `meta`. */
  function MetaOf(answer: Fetch): (r: Option<Meta>)
    ensures r.Some? ==> answer.Answered? && 200 <= answer.status <= 299
    ensures r.Some? ==> answer.body.Json? && answer.body.data.Some?
    ensures r.Some? ==> var chart := answer.body.data.value.chart;
                        chart.Some? && chart.value.result.Some? && |chart.value.result.value| > 0
                        && chart.value.result.value[0].meta == r
  {
    if !(answer.Answered? && 200 <= answer.status <= 299) then None
    else if answer.body.Unparsable? || answer.body.data.None? then None
    else
      var chart := answer.body.data.value.chart;
      if chart.None? || chart.value.result.None? then None
      else if |chart.value.result.value| == 0 then None
      else chart.value.result.value[0].meta
  }

  /** The per-symbol promise of `fetchYahooFinanceData`: a quote, or
      `null` when the request fails, the status is not 2xx, the body is
      not JSON, `chart` or `chart.result` is missing, or reading the first
      result's `meta` throws. */
  function QuoteOf(symbol: string, answer: Fetch): (r: Option<Quote>)
    ensures r.Some? <==> MetaOf(answer).Some?
    ensures r.Some? ==> r.value.symbol == symbol && r.value.name == SymbolName(symbol)
    ensures r.Some? ==> r.value.price == MetaOf(answer).value.regularMarketPrice
                        && r.value.previousClose == MetaOf(answer).value.previousClose
    ensures r.Some? ==> r.value.volume == 0.0 || MetaOf(answer).value.regularMarketVolume == Number(r.value.volume)
  {
    var meta := MetaOf(answer);
    if meta.None? then None
    else
      var previousClose := meta.value.previousClose;
      var price := meta.value.regularMarketPrice;
      var change := Sub(Numeric(price), Numeric(previousClose));
      var volume := meta.value.regularMarketVolume;
      Some(Quote(symbol, SymbolName(symbol), price, change, Percent(change, Numeric(previousClose)),
                 previousClose, if volume.Number? && volume.value != 0.0 then volume.value else 0.0))
  }

  /** `volume` is `regularMarketVolume` when that is truthy, else 0: a
      missing, `null` or zero volume is 0. */
  lemma VolumeDefault(symbol: string, answer: Fetch)
    requires MetaOf(answer).Some?
    ensures var v := MetaOf(answer).value.regularMarketVolume;
            QuoteOf(symbol, answer).value.volume == (if v.Number? && v.value != 0.0 then v.value else 0.0)
  {
  }

  /** The change is price minus close, `null` counting as 0; it is `NaN`
      exactly when a figure is missing. The percentage is non-finite
      exactly when the change is, or the close is `null` or zero. */
  lemma ChangeFigures(symbol: string, answer: Fetch)
    requires MetaOf(answer).Some?
    ensures var m := MetaOf(answer).value;
            var q := QuoteOf(symbol, answer).value;
            && (q.change.Finite? <==> !m.previousClose.Undefined? && !m.regularMarketPrice.Undefined?)
            && (q.change.Finite? ==>
                  q.change.value == Numeric(m.regularMarketPrice).value - Numeric(m.previousClose).value)
            && (q.changePercent.Finite? <==>
                  q.change.Finite? && m.previousClose.Number? && m.previousClose.value != 0.0)
  {
  }

  /** A `null` close still gives a finite change, the price itself, but
      never a finite percentage. */
  lemma NullCloseChange(symbol: string, answer: Fetch, price: real)
    requires MetaOf(answer).Some?
    requires MetaOf(answer).value.previousClose.Null? && MetaOf(answer).value.regularMarketPrice == Number(price)
    ensures QuoteOf(symbol, answer).value.change == Finite(price)
    ensures QuoteOf(symbol, answer).value.changePercent.NonFinite?
  {
  }

  /** Answers without a usable chart are dropped from the list. */
  lemma MissingChartDropped(symbol: string, status: int, payload: Payload)
    requires payload.chart.None? || payload.chart.value.result.None?
             || payload.chart.value.result.value == []
             || payload.chart.value.result.value[0].meta.None?
    ensures QuoteOf(symbol, Answered(status, Json(Some(payload)))) == None
  {
  }

  // ---------------------------------------------------------------------
  // The joined list

  /** The per-symbol results in symbol order, `answers(i)` being the
      answer to the `i`-th symbol's request. */
  function Results(symbols: seq<string>, answers: nat -> Fetch): (r: seq<Option<Quote>>)
    ensures |r| == |symbols|
    ensures forall i :: 0 <= i < |symbols| ==> r[i] == QuoteOf(symbols[i], answers(i))
  {
    seq(|symbols|, (i: nat) requires i < |symbols| => QuoteOf(symbols[i], answers(i)))
  }

  /** `fetchYahooFinanceData(symbols)`: the results with the nulls
      removed; `null` when there are no symbols to map over. */
  function FetchYahooFinanceData(symbols: Option<seq<string>>, answers: nat -> Fetch): (r: Option<seq<Quote>>)
    ensures r.Some? <==> symbols.Some?
    ensures r.Some? ==> |r.value| <= |symbols.value|
  {
    if symbols.None? then None else Some(Compact(Results(symbols.value, answers)))
  }

  /** Every quote in the list is the quote of some symbol, for that symbol. */
  lemma QuotesComeFromSymbols(symbols: seq<string>, answers: nat -> Fetch, q: Quote)
    requires q in FetchYahooFinanceData(Some(symbols), answers).value
    ensures exists i :: 0 <= i < |symbols| && QuoteOf(symbols[i], answers(i)) == Some(q) && q.symbol == symbols[i]
  {
    CompactMembers(Results(symbols, answers), q);
  }

  /** Every symbol whose answer is usable has its quote in the list, placed
      after the quotes of the symbols before it. */
  lemma QuotesKeepSymbolOrder(symbols: seq<string>, answers: nat -> Fetch, i: nat)
    requires i < |symbols| && QuoteOf(symbols[i], answers(i)).Some?
    ensures var list := FetchYahooFinanceData(Some(symbols), answers).value;
            var before := FetchYahooFinanceData(Some(symbols[..i]), answers).value;
            |before| < |list| && list[|before|] == QuoteOf(symbols[i], answers(i)).value
  {
    var results := Results(symbols, answers);
    assert Results(symbols[..i], answers) == results[..i];
    CompactAt(results, i);
  }

  /** With distinct symbols, a symbol whose request failed has no quote
      in the list. */
  lemma FailedSymbolAbsent(symbols: seq<string>, answers: nat -> Fetch, i: nat)
    requires Distinct(symbols) && i < |symbols| && QuoteOf(symbols[i], answers(i)).None?
    ensures forall q :: q in FetchYahooFinanceData(Some(symbols), answers).value ==> q.symbol != symbols[i]
  {
    forall q | q in FetchYahooFinanceData(Some(symbols), answers).value ensures q.symbol != symbols[i] {
      QuotesComeFromSymbols(symbols, answers, q);
    }
  }

  /** When every request succeeds, every symbol has its quote, in order. */
  lemma AllAnswered(symbols: seq<string>, answers: nat -> Fetch)
    requires forall i :: 0 <= i < |symbols| ==> MetaOf(answers(i)).Some?
    ensures |FetchYahooFinanceData(Some(symbols), answers).value| == |symbols|
  {
    var results := Results(symbols, answers);
    CompactLength(results);
    AllPresentCount(results);
  }


  // ---------------------------------------------------------------------
  // Display

  /** Decimals for price and change: 4 when the ticker contains "=X" or
      "JPY=", else 2. */
  function Precision(symbol: string): (d: nat)
    ensures d == 2 || d == 4
  {
    if Contains(symbol, "=X") || Contains(symbol, "JPY=") then 4 else 2
  }

  lemma PrecisionOfPair(symbol: string)
    requires |symbol| >= 2 && symbol[|symbol| - 2] == '=' && symbol[|symbol| - 1] == 'X'
    ensures Precision(symbol) == 4
  {
    var base := symbol[..|symbol| - 2];
    assert symbol == base + "=X" + "";
    ContainsInside(base, "=X", "");
  }

  lemma PrecisionWithout(symbol: string)
    requires '=' !in symbol || 'X' !in symbol
    requires 'Y' !in symbol
    ensures Precision(symbol) == 2
  {
    if '=' !in symbol {
      AbsentChar(symbol, "=X", 0);
    } else {
      AbsentChar(symbol, "=X", 1);
    }
    AbsentChar(symbol, "JPY=", 2);
  }

  /** Every forex ticker is shown with 4 decimals. */
  lemma ForexPrecision()
    ensures forall t :: t in Forex ==> Precision(t) == 4
  {
    forall t | t in Forex ensures Precision(t) == 4 {
      PrecisionOfPair(t);
    }
  }

  /** Every crypto ticker is shown with 2 decimals. */
  lemma CryptoPrecision()
    ensures forall t :: t in Crypto ==> Precision(t) == 2
  {
    forall t | t in Crypto ensures Precision(t) == 2 {
      PrecisionWithout(t);
    }
  }

  /** Every index ticker is shown with 2 decimals. */
  lemma IndexPrecision()
    ensures forall t :: t in Indices ==> Precision(t) == 2
  {
    forall t | t in Indices ensures Precision(t) == 2 {
      PrecisionWithout(t);
    }
  }

  /** Every commodity ticker is shown with 2 decimals. */
  lemma CommodityPrecision()
    ensures forall t :: t in Commodities ==> Precision(t) == 2
  {
    forall t | t in Commodities ensures Precision(t) == 2 {
      PrecisionWithout(t);
    }
  }

  /** What `loadMarketData` leaves in the category's container. */
  datatype View = Untouched | Table(quotes: seq<Quote>) | Failure(message: string)

  /** `loadMarketData(marketType)`: nothing without a container, the table
      for a non-empty list, otherwise the failure message. */
  function LoadMarketData(marketType: string, hasContainer: bool, answers: nat -> Fetch): (v: View)
    ensures !hasContainer ==> v == Untouched
    ensures hasContainer ==> (v.Table? <==> var data := FetchYahooFinanceData(SymbolsFor(marketType), answers);
                                             data.Some? && |data.value| > 0)
    ensures v.Table? ==> v.quotes == FetchYahooFinanceData(SymbolsFor(marketType), answers).value
    ensures hasContainer && !v.Table? ==> v == Failure("Failed to load " + marketType + " data")
  {
    if !hasContainer then Untouched
    else
      var data := FetchYahooFinanceData(SymbolsFor(marketType), answers);
      if data.Some? && |data.value| > 0 then Table(data.value)
      else Failure("Failed to load " + marketType + " data")
  }

  /** An unknown category shows the failure message. */
  lemma UnknownCategoryFails(marketType: string, answers: nat -> Fetch)
    requires marketType !in {"crypto", "forex", "indices", "commodities"}
    ensures LoadMarketData(marketType, true, answers) == Failure("Failed to load " + marketType + " data")
  {
  }

  /** A category whose every request fails shows the failure message. */
  lemma AllFailedFails(marketType: string, answers: nat -> Fetch)
    requires forall i :: 0 <= i < 8 ==> MetaOf(answers(i)).None?
    ensures LoadMarketData(marketType, true, answers) == Failure("Failed to load " + marketType + " data")
  {
    var symbols := SymbolsFor(marketType);
    if symbols.Some? {
      var results := Results(symbols.value, answers);
      CompactLength(results);
      NonePresentCount(results);
    }
  }
}
