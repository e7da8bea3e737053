/**
 * The request paths of the CoinGecko endpoints
 * (src/app/features/crypto/cryptoApi.jsx), relative to the fixed base URL.
 * Each `query` is a template string over its argument; a field the caller
 * leaves out is `undefined` (None here), which a destructuring default
 * replaces and which a template otherwise renders as "undefined". Numbers
 * are integers here.
 */
module CryptoApi {
  import opened Wrappers
  import opened JsText

  const BaseUrl: string := "https://api.coingecko.com/api/v3/"
  const MarketStatsPath: string := "global"
  const TrendingPath: string := "search/trending"
  const CoinsListPath: string := "coins/list"

  const DefaultPage: int := 1
  const DefaultPerPage: int := 100
  const DefaultCurrency: string := "usd"
  const DefaultHistoryDays: int := 30
  const DefaultOhlcDays: int := 1

  const DetailsFlags: string := "?localization=false&tickers=false&market_data=true"

  /** A destructuring default: the value when given, the default when `undefined`. */
  function OrDefault<T>(v: Option<T>, default: T): (r: T)
    ensures v.Some? ==> r == v.value
    ensures v.None? ==> r == default
  {
    match v
    case Some(x) => x
    case None => default
  }

  /** `search?query=${term}`: the term goes in as it is, not URL-encoded. */
  function SearchPath(term: string): (p: string)
    ensures |p| == 13 + |term| && p[..13] == "search?query=" && p[13..] == term
  {
    "search?query=" + term
  }

  /** The argument record of `getCryptos`. */
  datatype MarketsArgs = MarketsArgs(page: Option<int>, perPage: Option<int>, currency: Option<string>)

  /**
   * `getCryptos`: the currency, the page and the page size, each defaulted
   * when left out, in that order; the page number sits between the fixed
   * head and the per-page tail.
   */
  function MarketsPath(args: MarketsArgs): (p: string)
    ensures var head, page, tail := MarketsHead(OrDefault(args.currency, DefaultCurrency)),
                                    Decimal(OrDefault(args.page, DefaultPage)),
                                    MarketsTail(OrDefault(args.perPage, DefaultPerPage));
      && |p| == |head| + |page| + |tail|
      && p[..|head|] == head && p[|head|..|head| + |page|] == page && p[|head| + |page|..] == tail
  {
    MarketsHead(OrDefault(args.currency, DefaultCurrency))
    + Decimal(OrDefault(args.page, DefaultPage))
    + MarketsTail(OrDefault(args.perPage, DefaultPerPage))
  }

  /** The markets path up to the page number. */
  function MarketsHead(currency: string): string {
    "coins/markets?vs_currency=" + currency + "&page="
  }

  /** The markets path after the page number. */
  function MarketsTail(perPage: int): string {
    "&per_page=" + Decimal(perPage)
  }

  /**
   * `getCoinDetails` takes the id itself, not a record: the path is "coins/",
   * the rendered id, then the fixed flags, which ask for market data only.
   */
  function CoinDetailsPath(id: Option<string>): (p: string)
    ensures |p| == 6 + |TemplateText(id)| + |DetailsFlags|
    ensures p[..6] == "coins/" && p[|p| - |DetailsFlags|..] == DetailsFlags
    ensures p[6..|p| - |DetailsFlags|] == TemplateText(id)
  {
    "coins/" + TemplateText(id) + DetailsFlags
  }

  /** The argument record of `getCoinHistory` and `getOHLC`, as the builders read it. */
  datatype SeriesArgs = SeriesArgs(id: Option<string>, days: Option<int>, currency: Option<string>)

  /**
   * `getCoinHistory`: the rendered id is the segment after "coins/", and
   * the number of days, 30 when left out, ends the path.
   */
  function CoinHistoryPath(args: SeriesArgs): (p: string)
    ensures var id := TemplateText(args.id);
      |p| > 6 + |id| && p[..6] == "coins/" && p[6..6 + |id|] == id && p[6 + |id|] == '/'
    ensures var days := Decimal(OrDefault(args.days, DefaultHistoryDays));
      |p| > |days| && p[|p| - |days|..] == days
  {
    "coins/" + TemplateText(args.id)
    + SeriesRest("market_chart", OrDefault(args.currency, DefaultCurrency), OrDefault(args.days, DefaultHistoryDays))
  }

  /**
   * `getOHLC`: the rendered id is the segment after "coins/", and the
   * number of days, 1 when left out, ends the path.
   */
  function OhlcPath(args: SeriesArgs): (p: string)
    ensures var id := TemplateText(args.id);
      |p| > 6 + |id| && p[..6] == "coins/" && p[6..6 + |id|] == id && p[6 + |id|] == '/'
    ensures var days := Decimal(OrDefault(args.days, DefaultOhlcDays));
      |p| > |days| && p[|p| - |days|..] == days
  {
    "coins/" + TemplateText(args.id)
    + SeriesRest("ohlc", OrDefault(args.currency, DefaultCurrency), OrDefault(args.days, DefaultOhlcDays))
  }

  /** A series path after the coin id: the endpoint, the currency, then the days. */
  function SeriesRest(endpoint: string, currency: string, days: int): (r: string)
    ensures |r| > |Decimal(days)| && r[0] == '/'
    ensures r[|r| - |Decimal(days)|..] == Decimal(days)
  {
    "/" + endpoint + "?vs_currency=" + currency + "&days=" + Decimal(days)
  }

  /** An empty record asks for page 1 of 100 coins priced in dollars. */
  lemma MarketsDefaults()
    ensures MarketsPath(MarketsArgs(None, None, None)) == MarketsPath(MarketsArgs(Some(1), Some(100), Some("usd")))
    ensures MarketsPath(MarketsArgs(None, None, None)) == "coins/markets?vs_currency=usd&page=" + Decimal(1) + "&per_page=" + Decimal(100)
  {
  }

  /** Leaving out days or currency is the same as giving the documented defaults. */
  lemma SeriesDefaults(id: Option<string>)
    ensures CoinHistoryPath(SeriesArgs(id, None, None)) == CoinHistoryPath(SeriesArgs(id, Some(30), Some("usd")))
    ensures OhlcPath(SeriesArgs(id, None, None)) == OhlcPath(SeriesArgs(id, Some(1), Some("usd")))
  {
  }

  /**
   * The coin id in a path of the form "coins/<id>/...", if there is one.
   * The page never parses a path; this reader states what a path carries.
   */
  function CoinIdOf(path: string): (r: Option<string>)
    ensures r.Some? ==> |path| >= 6 && path[..6] == "coins/" && '/' !in r.value
  {
    if |path| < 6 || path[..6] != "coins/" then None
    else match SplitAtFirst(path[6..], '/')
      case None => None
      case Some((id, _)) => Some(id)
  }

  /** A path "coins/<id><rest>", with `rest` starting at a '/', gives back `id` when `id` has no '/'. */
  lemma CoinIdOfJoin(id: string, rest: string)
    requires '/' !in id && rest != [] && rest[0] == '/'
    ensures CoinIdOf("coins/" + id + rest) == Some(id)
  {
    var p := "coins/" + id + rest;
    assert p[..6] == "coins/";
    assert p[6..] == id + ['/'] + rest[1..];
    SplitAtFirstJoin(id, rest[1..], '/');
  }

  /**
   * The history and OHLC paths carry the rendered id as their first segment:
   * for an id without '/', it can be read back out, and so different ids
   * give different paths.
   */
  lemma SeriesPathsCarryId(args: SeriesArgs)
    requires '/' !in TemplateText(args.id)
    ensures CoinIdOf(CoinHistoryPath(args)) == Some(TemplateText(args.id))
    ensures CoinIdOf(OhlcPath(args)) == Some(TemplateText(args.id))
  {
    var id := TemplateText(args.id);
    var currency := OrDefault(args.currency, DefaultCurrency);
    CoinIdOfJoin(id, SeriesRest("market_chart", currency, OrDefault(args.days, DefaultHistoryDays)));
    CoinIdOfJoin(id, SeriesRest("ohlc", currency, OrDefault(args.days, DefaultOhlcDays)));
  }

  /** Different page numbers ask for different paths. */
  lemma PagesGiveDistinctPaths(p1: int, p2: int, perPage: Option<int>, currency: Option<string>)
    requires p1 != p2
    ensures MarketsPath(MarketsArgs(Some(p1), perPage, currency)) != MarketsPath(MarketsArgs(Some(p2), perPage, currency))
  {
    var head := MarketsHead(OrDefault(currency, DefaultCurrency));
    var tail := MarketsTail(OrDefault(perPage, DefaultPerPage));
    var d1, d2 := Decimal(p1), Decimal(p2);
    var m1, m2 := head + d1 + tail, head + d2 + tail;
    if m1 == m2 {
      assert |d1| == |d2|;
      assert d1 == m1[|head|..|head| + |d1|];
      assert d2 == m2[|head|..|head| + |d2|];
      DecimalInjective(p1, p2);
    }
  }
}
