/**
 * The state and display rules of the crypto dashboard
 * (src/components/crypto_component/CryptoDashboard.jsx): pagination of the
 * market list, the search box, the trending list, the description excerpt,
 * the candle time labels, and the arguments the charts pass to their queries.
 */
module CryptoDashboard {
  import opened Wrappers
  import opened JsText
  import opened CryptoApi

  const InitialCoin: string := "bitcoin"
  const MinSearchLength: nat := 2
  const TrendingLimit: nat := 3
  const DescriptionLimit: nat := 300
  const LabelEvery: nat := 5

  // ---------------------------------------------------------------- pagination

  /** "Previous": `Math.max(1, page - 1)`. */
  function PrevPage(page: int): (p: int)
    ensures p >= 1
    ensures page >= 2 ==> p == page - 1
    ensures page <= 1 ==> p == 1
  {
    if page - 1 > 1 then page - 1 else 1
  }

  /** "Next": `page + 1`, with no upper bound. */
  function NextPage(page: int): (p: int)
    ensures p > page
    ensures page >= 1 ==> p >= 2 && PrevPage(p) == page
  {
    page + 1
  }

  /** Previous undoes Next on every page; Next undoes Previous except on page 1, where Previous does nothing. */
  lemma PagingRoundTrips(page: int)
    requires page >= 1
    ensures PrevPage(NextPage(page)) == page
    ensures page >= 2 ==> NextPage(PrevPage(page)) == page
    ensures PrevPage(1) == 1
  {
  }

  /** The market list asks for `{page}`: the other fields take their defaults. */
  function MarketsQuery(page: int): (args: MarketsArgs)
    ensures MarketsPath(args) == MarketsPath(MarketsArgs(Some(page), Some(DefaultPerPage), Some(DefaultCurrency)))
  {
    MarketsArgs(Some(page), None, None)
  }

  /** Moving to another page always issues a different request. */
  lemma PagingChangesRequest(page: int)
    requires page >= 1
    ensures MarketsPath(MarketsQuery(NextPage(page))) != MarketsPath(MarketsQuery(page))
    ensures page >= 2 ==> MarketsPath(MarketsQuery(PrevPage(page))) != MarketsPath(MarketsQuery(page))
  {
    PagesGiveDistinctPaths(NextPage(page), page, None, None);
    if page >= 2 {
      PagesGiveDistinctPaths(PrevPage(page), page, None, None);
    }
  }

  class Dashboard {
    var selectedCoin: string
    var page: int

    predicate Valid()
      reads this
    {
      page >= 1
    }

    constructor ()
      ensures selectedCoin == InitialCoin && page == 1 && Valid()
    {
      selectedCoin := InitialCoin;
      page := 1;
    }

    method Previous()
      requires Valid()
      modifies this
      ensures page == PrevPage(old(page)) && Valid()
      ensures selectedCoin == old(selectedCoin)
    {
      page := PrevPage(page);
    }

    method Next()
      requires Valid()
      modifies this
      ensures page == NextPage(old(page)) && Valid()
      ensures selectedCoin == old(selectedCoin)
    {
      page := NextPage(page);
    }

    /** `setSelectedCoin`, handed to the search and trending lists as `onSelectCoin`. */
    method SelectCoin(id: string)
      modifies this
      ensures selectedCoin == id && page == old(page)
    {
      selectedCoin := id;
    }
  }

  // -------------------------------------------------------------------- search

  /** The search query is skipped while the term is shorter than two characters. */
  function SearchRequest(term: string): (r: Option<string>)
    ensures r.None? <==> |term| < MinSearchLength
    ensures r.Some? ==> r.value == SearchPath(term)
  {
    if |term| < MinSearchLength then None else Some(SearchPath(term))
  }

  /**
   * The clear button is shown for any non-empty term, and so whenever a
   * search is requested.
   */
  function ClearButtonShown(term: string): (shown: bool)
    ensures shown <==> term != ""
    ensures SearchRequest(term).Some? ==> shown
  {
    |term| > 0
  }

  /** What appears under the search box. */
  datatype SearchView = Results(ids: seq<string>) | NoResults | Blank

  /**
   * `data?.coins && data.coins.length > 0 ? <list> : term.length >= 2 &&
   * !isLoading && "No results found"`; `coins` is None while there is no
   * response.
   */
  function SearchViewOf(term: string, isLoading: bool, coins: Option<seq<string>>): (v: SearchView)
    ensures v.Results? <==> coins.Some? && coins.value != []
    ensures v.Results? ==> v.ids == coins.value
    ensures v == NoResults <==> (coins.None? || coins.value == []) && |term| >= MinSearchLength && !isLoading
  {
    if coins.Some? && coins.value != [] then Results(coins.value)
    else if |term| >= MinSearchLength && !isLoading then NoResults
    else Blank
  }

  /** After clearing, nothing is requested, no clear button is shown, and "No results found" cannot appear. */
  lemma ClearedSearchIsQuiet(isLoading: bool, coins: Option<seq<string>>)
    ensures SearchRequest("") == None && !ClearButtonShown("")
    ensures SearchViewOf("", isLoading, coins) != NoResults
  {
  }

  /** A one-character term: the request is skipped, yet the clear button is shown. */
  lemma OneCharacterTerm(c: char)
    ensures SearchRequest([c]) == None && ClearButtonShown([c])
  {
  }

  class CryptoSearch {
    var searchTerm: string

    constructor ()
      ensures searchTerm == ""
    {
      searchTerm := "";
    }

    /** Typing in the box. */
    method Type(value: string)
      modifies this
      ensures searchTerm == value
    {
      searchTerm := value;
    }

    /** The clear button. */
    method Clear()
      modifies this
      ensures searchTerm == ""
    {
      searchTerm := "";
    }

    /** Clicking a result: the dashboard selects that coin and the box is emptied. */
    method SelectResult(dashboard: Dashboard, id: string)
      modifies this, dashboard
      ensures dashboard.selectedCoin == id && dashboard.page == old(dashboard.page)
      ensures searchTerm == ""
      ensures SearchRequest(searchTerm) == None
    {
      dashboard.SelectCoin(id);
      searchTerm := "";
    }
  }

  // ------------------------------------------------------- trending, description

  /** `data?.coins.slice(0, 3)`: nothing while there is no response. */
  function TrendingShown<T>(coins: Option<seq<T>>): (r: seq<T>)
    ensures coins.None? ==> r == []
    ensures coins.Some? ==> |r| == if |coins.value| < TrendingLimit then |coins.value| else TrendingLimit
    ensures coins.Some? ==> r == coins.value[..|r|]
  {
    match coins
    case None => []
    case Some(cs) => if |cs| < TrendingLimit then cs else cs[..TrendingLimit]
  }

  /**
   * `data?.description?.en?.slice(0, 300) + '...'`: at most 300 characters of
   * the description and an ellipsis; with no description the text is
   * "undefined...".
   */
  function Description(en: Option<string>): (r: string)
    ensures |r| <= DescriptionLimit + 3 && |r| >= 3
    ensures r[|r| - 3..] == "..."
    ensures en.Some? ==> |r| - 3 == (if |en.value| < DescriptionLimit then |en.value| else DescriptionLimit)
    ensures en.Some? ==> r[..|r| - 3] == en.value[..|r| - 3]
    ensures en.None? ==> r == "undefined..."
  {
    var excerpt := match en
      case None => None
      case Some(s) => Some(if |s| < DescriptionLimit then s else s[..DescriptionLimit]);
    TemplateText(excerpt) + "..."
  }

  // ------------------------------------------------------------ candle labels
  // The time labels belong to the candle chart, which the dashboard does not
  // render (see the chart queries below).

  /** The time label appears under every fifth candle, starting with the first. */
  function ShowsTimeLabel(i: nat): (shown: bool)
    ensures shown <==> i == LabelEvery * (i / LabelEvery)
  {
    i % LabelEvery == 0
  }

  /** The number of labelled candles among the first `n`: at most `n`, and at least one when there are candles. */
  function LabelCount(n: nat): (count: nat)
    ensures count <= n
    ensures n > 0 ==> count >= 1
  {
    if n == 0 then 0 else LabelCount(n - 1) + (if ShowsTimeLabel(n - 1) then 1 else 0)
  }

  /** Among `n` candles, `ceil(n / 5)` carry a label. */
  lemma {:induction false} LabelCountFormula(n: nat)
    ensures LabelCount(n) == (n + LabelEvery - 1) / LabelEvery
  {
    if n > 0 {
      LabelCountFormula(n - 1);
    }
  }

  // -------------------------------------------------------------- chart queries

  /**
   * The history and candle charts pass `{coinId, days}`, but the builders
   * read the field `id`: as written, the id the builder sees is `undefined`.
   * Neither chart component is rendered by the dashboard, which mounts only
   * the market stats, coin detail, search, trending and coin list panels, so
   * the defect is latent: it shows once a chart is mounted.
   */
  function ChartArgsAsWritten(coinId: string, days: int): (a: SeriesArgs)
    ensures a.id == None && a.days == Some(days) && a.currency == None
  {
    SeriesArgs(None, Some(days), None)
  }

  /** The evidently intended record: the coin under the field the builders read. */
  function ChartArgs(coinId: string, days: int): (a: SeriesArgs)
    ensures a.id == Some(coinId) && a.days == Some(days) && a.currency == None
  {
    SeriesArgs(Some(coinId), Some(days), None)
  }

  /**
   * As written, both charts request the coin called "undefined" whatever
   * coin is selected: two different coins give the same requests.
   */
  lemma ChartQueriesIgnoreCoin(c1: string, c2: string, days: int)
    ensures CoinHistoryPath(ChartArgsAsWritten(c1, days)) == CoinHistoryPath(ChartArgsAsWritten(c2, days))
    ensures OhlcPath(ChartArgsAsWritten(c1, days)) == OhlcPath(ChartArgsAsWritten(c2, days))
    ensures CoinIdOf(CoinHistoryPath(ChartArgsAsWritten(c1, days))) == Some("undefined")
    ensures CoinIdOf(OhlcPath(ChartArgsAsWritten(c1, days))) == Some("undefined")
  {
    SeriesPathsCarryId(ChartArgsAsWritten(c1, days));
  }

  /** Corrected, each chart requests the selected coin, so different coins give different requests. */
  lemma ChartQueriesFollowCoin(c1: string, c2: string, days: int)
    requires '/' !in c1 && '/' !in c2
    ensures CoinIdOf(CoinHistoryPath(ChartArgs(c1, days))) == Some(c1)
    ensures CoinIdOf(OhlcPath(ChartArgs(c1, days))) == Some(c1)
    ensures c1 != c2 ==> CoinHistoryPath(ChartArgs(c1, days)) != CoinHistoryPath(ChartArgs(c2, days))
    ensures c1 != c2 ==> OhlcPath(ChartArgs(c1, days)) != OhlcPath(ChartArgs(c2, days))
  {
    SeriesPathsCarryId(ChartArgs(c1, days));
    SeriesPathsCarryId(ChartArgs(c2, days));
  }

  /** A chart with its own range buttons: history starts at 30 days, candles at 1. */
  class Chart {
    const coinId: string
    var days: int

    constructor (coinId: string, initialDays: int)
      ensures this.coinId == coinId && days == initialDays
    {
      this.coinId := coinId;
      days := initialDays;
    }

    /** A range button: `setDays(d)`. */
    method SetDays(d: int)
      modifies this
      ensures days == d
    {
      days := d;
    }

    /** The record the component passes to its query hook, as written. */
    function QueryArgsAsWritten(): SeriesArgs
      reads this
    {
      ChartArgsAsWritten(coinId, days)
    }

    /** The record it evidently means to pass. */
    function QueryArgs(): SeriesArgs
      reads this
    {
      ChartArgs(coinId, days)
    }
  }

  /** `CoinHistoryChart`'s state on mounting; the dashboard never mounts it. */
  method NewHistoryChart(coinId: string) returns (chart: Chart)
    ensures fresh(chart) && chart.coinId == coinId && chart.days == DefaultHistoryDays
  {
    chart := new Chart(coinId, DefaultHistoryDays);
  }

  /** `OHLCChart`'s state on mounting; the dashboard never mounts it. */
  method NewOhlcChart(coinId: string) returns (chart: Chart)
    ensures fresh(chart) && chart.coinId == coinId && chart.days == DefaultOhlcDays
  {
    chart := new Chart(coinId, DefaultOhlcDays);
  }
}
