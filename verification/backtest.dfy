/** The ticker-driven variant of the monitor: the tickers come from the
    command line, upper-cased, and are looked up in a table of market names.
    Its article record declares no `source` or `description` field, so the
    fetch step fails on the first article it would build, and nothing is
    ever reported. */
module Backtest {
  import opened Text
  import opened NewsApi
  import opened SearchQuery
  import opened KeywordMatch
  import opened ArticleSink

  // ---------------------------------------------------------------------------
  // Configuration

  /** The default keyword list, in four groups. Each group heading is a string
      literal with no comma after it, so it is glued to the keyword that
      follows it: the list has 31 entries, four of them fused. */
  const Wildcards: seq<string> := [
    "coringascommodities", "biodiesel", "biocombustíveis", "estoques",
    "produção", "consumo", "preço", "preços"
  ]

  const NaturalFactors: seq<string> := [
    "fatores naturaisclima", "chuva", "seca", "pragas", "doenças"
  ]

  const MarketFactors: seq<string> := [
    "fatores de estrito mercadooferta", "demanda", "dólar", "câmbio",
    "safra", "exportação", "importação", "fundos de investimento",
    "bolsa de Chicago", "especulação", "tick de soja", "cotação da soja"
  ]

  const GeopoliticalFactors: seq<string> := [
    "fatores geopolíticosGuerra", "sanções", "China", "guerra comercial",
    "política agrícola", "subsídios"
  ]

  const DefaultKeywords: seq<string> := Wildcards + NaturalFactors + MarketFactors + GeopoliticalFactors

  /** `MonitorConfig`. */
  datatype MonitorConfig = MonitorConfig(
    tickers: seq<string>,
    apiKey: string,
    refreshInterval: int,
    priceMovingKeywords: seq<string>)

  /** The `--interval` default. */
  const DefaultInterval: int := 60

  /** `main`: the positional tickers upper-cased, the default keywords. */
  function CliTickers(args: seq<string>): (tickers: seq<string>)
    ensures |tickers| == |args|
    ensures forall i :: 0 <= i < |args| ==> tickers[i] == Upper(args[i])
  {
    seq(|args|, i requires 0 <= i < |args| => Upper(args[i]))
  }

  /** The configuration `main` builds from the command line. */
  function MainConfig(args: seq<string>, apiKey: string, interval: int): (c: MonitorConfig)
    ensures c.refreshInterval == interval && c.priceMovingKeywords == DefaultKeywords
    ensures |c.tickers| == |args|
    ensures forall i :: 0 <= i < |args| ==> c.tickers[i] == Upper(args[i])
  {
    MonitorConfig(CliTickers(args), apiKey, interval, DefaultKeywords)
  }

  // ---------------------------------------------------------------------------
  // Ticker mapping

  /** `common_mappings` of `_build_ticker_mapping`. */
  const CommonMappings: map<string, string> := map[
    "FUT SJC" := "Futuro de soja na B3",
    "CME" := "CME Group",
    "NYSE" := "NYSE indice composto",
    "B3" := "Bolsa B3",
    "ADM" := "Archer Daniels Midland",
    "CARG" := "Cargill",
    "Bunge" := "Bunge",
    "Louis Dreyfus" := "Louis Dreyfus",
    "Amaggi" := "Amaggi",
    "SLC Agrícola" := "SLC Agrícola",
    "BrasilAgro" := "BrasilAgro",
    "Viterra" := "Viterra",
    "COFCO International" := "COFCO International",
    "Syngenta" := "Syngenta",
    "Bayer" := "Bayer",
    "BASF" := "BASF",
    "Mosaic" := "Mosaic",
    "Nutrien" := "Nutrien",
    "ILPF" := "relacao de preco soja e boi"
  ]

  /** The keys of the table written without lower-case letters. */
  const UppercaseKeys: set<string> := {"FUT SJC", "CME", "NYSE", "B3", "ADM", "CARG", "BASF", "ILPF"}

  /** `_build_ticker_mapping`: one entry per configured ticker, the table's
      name when it has one, the ticker itself otherwise. */
  function BuildTickerMapping(tickers: seq<string>): (m: map<string, string>)
    ensures m.Keys == set t | t in tickers
    ensures forall t :: t in tickers && t in CommonMappings ==> m[t] == CommonMappings[t]
    ensures forall t :: t in tickers && t !in CommonMappings ==> m[t] == t
  {
    map t | t in tickers :: AliasOf(CommonMappings, t)
  }

  predicate HasAsciiLower(s: string)
  {
    exists i :: 0 <= i < |s| && 'a' <= s[i] <= 'z'
  }

  lemma MixedCaseKeys(k: string)
    requires k in CommonMappings && k !in UppercaseKeys
    ensures HasAsciiLower(k)
  {
    if k == "SLC Agrícola" {
      assert 'a' <= k[5] <= 'z';
    } else if k == "COFCO International" {
      assert 'a' <= k[7] <= 'z';
    } else {
      assert 'a' <= k[1] <= 'z';
    }
  }

  /** An upper-cased ticker can only hit the table's all-capital keys: a
      ticker typed as `Bunge` becomes `BUNGE`, which has no entry, so it is
      searched under its own name. */
  lemma UppercasedTickerKeys(arg: string)
    ensures Upper(arg) in CommonMappings ==> Upper(arg) in UppercaseKeys
  {
    var t := Upper(arg);
    if t in CommonMappings && t !in UppercaseKeys {
      MixedCaseKeys(t);
      var i :| 0 <= i < |t| && 'a' <= t[i] <= 'z';
      UpperHasNoAsciiLower(arg, i);
    }
  }

  /** The alias a command-line ticker gets: the table's name when the
      upper-cased ticker is one of the all-capital keys, the upper-cased
      ticker itself otherwise. */
  lemma CliTickerAlias(args: seq<string>, i: int)
    requires 0 <= i < |args|
    ensures var tickers := CliTickers(args);
            var t := tickers[i];
            && t in BuildTickerMapping(tickers)
            && BuildTickerMapping(tickers)[t] == (if t in UppercaseKeys then CommonMappings[t] else t)
  {
  }

  // ---------------------------------------------------------------------------
  // Article records

  /** The `NewsArticle` dataclass: no `source`, no `description`. */
  datatype NewsArticle = NewsArticle(
    title: string,
    url: string,
    publishedAt: string,
    matchedKeywords: seq<string>,
    ticker: string)

  /** The keyword arguments `NewsArticle` accepts. */
  const NewsArticleFields: set<string> := {"title", "url", "published_at", "matched_keywords", "ticker"}

  /** The keyword arguments `fetch_news_for_ticker` passes, in call order. */
  const FetchArguments: seq<string> := ["title", "url", "published_at", "source", "description", "matched_keywords", "ticker"]

  /** The first keyword argument the dataclass does not declare. */
  function FirstUnexpected(arguments: seq<string>): (r: Option<string>)
    ensures r.None? <==> forall k :: 0 <= k < |arguments| ==> arguments[k] in NewsArticleFields
    ensures r.Some? ==> exists j :: 0 <= j < |arguments| && arguments[j] == r.value && r.value !in NewsArticleFields
                          && forall k :: 0 <= k < j ==> arguments[k] in NewsArticleFields
    decreases |arguments|
  {
    if |arguments| == 0 then None
    else if arguments[0] !in NewsArticleFields then Some(arguments[0])
    else FirstUnexpected(arguments[1..])
  }

  /** A dataclass constructor call: the record, or `TypeError` naming the
      first unexpected keyword argument. */
  datatype Construction = Built(article: NewsArticle) | Rejected(unexpected: string)

  function ConstructNewsArticle(arguments: seq<string>, title: string, url: string, publishedAt: string,
                                ticker: string): (c: Construction)
    ensures c.Built? <==> forall k :: 0 <= k < |arguments| ==> arguments[k] in NewsArticleFields
    ensures c.Rejected? ==> c.unexpected in arguments && c.unexpected !in NewsArticleFields
  {
    match FirstUnexpected(arguments)
    case None => Built(NewsArticle(title, url, publishedAt, [], ticker))
    case Some(name) => Rejected(name)
  }

  /** The call in `fetch_news_for_ticker` is always rejected, on `source`. */
  lemma FetchArgumentsRejected(title: string, url: string, publishedAt: string, ticker: string)
    ensures ConstructNewsArticle(FetchArguments, title, url, publishedAt, ticker) == Rejected("source")
  {
  }

  // ---------------------------------------------------------------------------
  // The fetch step as a function of the reply and the seen-URL set

  /** What the `except` of `fetch_news_for_ticker` catches. */
  datatype FetchError = ApiError | MissingUrl | UnexpectedArgument(name: string)

  /** The walk over the raw articles: an article without a URL raises
      `KeyError`; one whose URL is seen is skipped; any other raises the
      constructor's `TypeError` before its URL is marked seen. */
  function FirstFailure(raws: seq<RawArticle>, seen: set<string>): (r: Option<FetchError>)
    ensures r.Some? ==> r.value == MissingUrl || r.value == UnexpectedArgument("source")
    decreases |raws|
  {
    if |raws| == 0 then None
    else match raws[0].url
      case None => Some(MissingUrl)
      case Some(url) =>
        if url in seen then FirstFailure(raws[1..], seen)
        else Some(UnexpectedArgument("source"))
  }

  /** The exception `fetch_news_for_ticker` ends in, if any. */
  function FetchFailure(reply: ApiReply, seen: set<string>): (r: Option<FetchError>)
    ensures r == Some(ApiError) <==> reply.ApiFailure?
  {
    match reply
    case ApiFailure => Some(ApiError)
    case Response(_) => FirstFailure(ArticlesOf(reply), seen)
  }

  /** The fetch step ends without an exception exactly when every raw article
      has a URL and that URL was seen before. */
  lemma {:induction false} FirstFailureNoneIff(raws: seq<RawArticle>, seen: set<string>)
    ensures FirstFailure(raws, seen).None? <==> forall r :: r in raws ==> r.url.Some? && r.url.value in seen
    decreases |raws|
  {
    if |raws| > 0 {
      FirstFailureNoneIff(raws[1..], seen);
      assert forall r :: r in raws <==> r == raws[0] || r in raws[1..];
    }
  }

  /** The first raw article that is not a seen URL decides the exception:
      `KeyError` when it has no URL, the constructor's `TypeError` otherwise. */
  lemma {:induction false} FirstFailureAt(raws: seq<RawArticle>, seen: set<string>, j: int)
    requires 0 <= j < |raws|
    requires forall k :: 0 <= k < j ==> raws[k].url.Some? && raws[k].url.value in seen
    requires raws[j].url.None? || raws[j].url.value !in seen
    ensures FirstFailure(raws, seen) == if raws[j].url.None? then Some(MissingUrl) else Some(UnexpectedArgument("source"))
    decreases j
  {
    if j > 0 {
      assert forall k :: 0 <= k < j - 1 ==> raws[1..][k] == raws[k + 1];
      FirstFailureAt(raws[1..], seen, j - 1);
    }
  }

  /** From the empty seen set, which is where the monitor starts and stays, a
      fetch fails unless the reply holds no article at all. */
  lemma FetchFailsUnlessEmpty(reply: ApiReply)
    ensures FetchFailure(reply, {}).None? <==> reply.Response? && ArticlesOf(reply) == []
  {
  }

  /** The search request: English articles, newest first, at most 20. */
  function SearchRequestFor(query: string, window: DateWindow): (r: SearchRequest)
    ensures r.query == query && r.fromDate == window.fromDate && r.toDate == window.toDate
    ensures r.language == "en" && r.sortBy == "publishedAt" && r.pageSize == 20
  {
    SearchRequest(query, "en", "publishedAt", window.fromDate, window.toDate, 20)
  }

  // ---------------------------------------------------------------------------
  // The monitor

  class NewsMonitor {
    const config: MonitorConfig
    const tickerToCompany: map<string, string>
    /** The URLs already reported. */
    var processedArticles: set<string>

    constructor (config: MonitorConfig)
      ensures this.config == config && processedArticles == {}
      ensures tickerToCompany == BuildTickerMapping(config.tickers)
    {
      this.config := config;
      processedArticles := {};
      tickerToCompany := BuildTickerMapping(config.tickers);
    }

    /** `_build_search_query`: the query names the ticker, then its alias
        (the ticker itself when none is registered), then every configured
        keyword, each in double quotes. */
    function BuildSearchQuery(ticker: string): (q: string)
      ensures OccursAt(q, Quoted(ticker), 1)
      ensures OccursAt(q, Quoted(AliasOf(tickerToCompany, ticker)), |Quoted(ticker)| + 5)
      ensures forall k :: 0 <= k < |config.priceMovingKeywords| ==> Contains(q, Quoted(config.priceMovingKeywords[k]))
    {
      BuildQuery(ticker, AliasOf(tickerToCompany, ticker), config.priceMovingKeywords)
    }

    /** `fetch_news_for_ticker`: the result is always empty; the exception the
        handler logs is returned beside it. The seen set is not touched: the
        `add` comes after the constructor that raises. */
    method FetchNewsForTicker(ticker: string, api: NewsService, window: DateWindow)
      returns (news: seq<NewsArticle>, error: Option<FetchError>)
      ensures news == []
      ensures error == FetchFailure(api(SearchRequestFor(BuildSearchQuery(ticker), window)), processedArticles)
    {
      var query := BuildSearchQuery(ticker);
      var reply := api(SearchRequestFor(query, window));
      if reply.ApiFailure? {
        return [], Some(ApiError);
      }
      var raws := ArticlesOf(reply);
      var i := 0;
      while i < |raws|
        invariant 0 <= i <= |raws|
        invariant FirstFailure(raws, processedArticles) == FirstFailure(raws[i..], processedArticles)
      {
        var raw := raws[i];
        assert raws[i..][1..] == raws[i + 1..];
        if raw.url.None? {
          // `article['url']` raises KeyError
          return [], Some(MissingUrl);
        }
        var url := raw.url.value;
        if url !in processedArticles {
          FetchArgumentsRejected(raw.title.GetOr("No title"), url, raw.publishedAt.GetOr(""), ticker);
          var built := ConstructNewsArticle(FetchArguments, raw.title.GetOr("No title"), url,
                                            raw.publishedAt.GetOr(""), ticker);
          return [], Some(UnexpectedArgument(built.unexpected));
        }
        i := i + 1;
      }
      assert raws[i..] == [];
      return [], None;
    }

    /** `check_news`: every configured ticker in order; each fetch returns
        nothing, so the total stays 0 and the cycle always ends with "No new
        relevant articles found". The exception logged for each ticker is
        returned in ticker order. */
    method CheckNews(api: NewsService, window: DateWindow)
      returns (errors: seq<Option<FetchError>>, total: nat, summary: Summary)
      ensures |errors| == |config.tickers|
      ensures forall i :: 0 <= i < |config.tickers| ==>
                errors[i] == FetchFailure(api(SearchRequestFor(BuildSearchQuery(config.tickers[i]), window)), processedArticles)
      ensures total == 0 && summary == NoneFound
    {
      errors, total := [], 0;
      for i := 0 to |config.tickers|
        invariant |errors| == i && total == 0
        invariant forall k :: 0 <= k < i ==>
                    errors[k] == FetchFailure(api(SearchRequestFor(BuildSearchQuery(config.tickers[k]), window)), processedArticles)
      {
        var articles, error := FetchNewsForTicker(config.tickers[i], api, window);
        errors := errors + [error];
        total := total + |articles|;
      }
      summary := SummaryOf(total);
    }
  }

  // ---------------------------------------------------------------------------
  // The default keywords

  // Within each group, no keyword holds a double quote or is listed twice.

  lemma WildcardsWellFormed()
    ensures AllQuoteFree(Wildcards) && NoDuplicates(Wildcards)
  {
  }

  lemma NaturalFactorsWellFormed()
    ensures AllQuoteFree(NaturalFactors) && NoDuplicates(NaturalFactors)
  {
  }

  lemma MarketFactorsWellFormed()
    ensures AllQuoteFree(MarketFactors) && NoDuplicates(MarketFactors)
  {
  }

  lemma GeopoliticalFactorsWellFormed()
    ensures AllQuoteFree(GeopoliticalFactors) && NoDuplicates(GeopoliticalFactors)
  {
  }

  /** No keyword of a group repeats one of an earlier group. */
  lemma GroupsApart()
    ensures Apart(Wildcards, NaturalFactors)
    ensures Apart(Wildcards + NaturalFactors, MarketFactors)
    ensures Apart(Wildcards + NaturalFactors + MarketFactors, GeopoliticalFactors)
  {
  }

  /** 31 keywords, none holding a double quote or listed twice. */
  lemma DefaultKeywordsShape()
    ensures |DefaultKeywords| == 31
    ensures AllQuoteFree(DefaultKeywords)
    ensures NoDuplicates(DefaultKeywords)
  {
    WildcardsWellFormed();
    NaturalFactorsWellFormed();
    MarketFactorsWellFormed();
    GeopoliticalFactorsWellFormed();
    AllQuoteFreeConcat(Wildcards, NaturalFactors);
    AllQuoteFreeConcat(Wildcards + NaturalFactors, MarketFactors);
    AllQuoteFreeConcat(Wildcards + NaturalFactors + MarketFactors, GeopoliticalFactors);
    GroupsApart();
    NoDuplicatesConcat(Wildcards, NaturalFactors);
    NoDuplicatesConcat(Wildcards + NaturalFactors, MarketFactors);
    NoDuplicatesConcat(Wildcards + NaturalFactors + MarketFactors, GeopoliticalFactors);
  }
  /** With the default list, an article's matched keywords never repeat one. */
  lemma DefaultMatchesDistinct(text: string)
    ensures NoDuplicates(MatchedKeywords(text, DefaultKeywords))
  {
    DefaultKeywordsShape();
    MatchedKeywordsNoDuplicates(text, DefaultKeywords);
  }


  // The keywords the group headings were glued to are not list entries.

  lemma CommoditiesAbsent()
    ensures "commodities" !in DefaultKeywords
  {
  }

  lemma ClimaAbsent()
    ensures "clima" !in DefaultKeywords
  {
  }

  lemma OfertaAbsent()
    ensures "oferta" !in DefaultKeywords
  {
  }

  lemma GuerraAbsent()
    ensures "Guerra" !in DefaultKeywords
  {
  }

  /** The fused entries are matched only as a whole: `commodities`, `clima`,
      `oferta` and `Guerra` on their own are never in the result, whatever
      the text, while `coringascommodities` is, exactly when the text holds
      it. */
  lemma FusedHeadingsNeverMatch(text: string)
    ensures var r := MatchedKeywords(text, DefaultKeywords);
            && "commodities" !in r && "clima" !in r && "oferta" !in r && "Guerra" !in r
            && ("coringascommodities" in r <==> exists i :: OccursAt(Lower(text), Lower("coringascommodities"), i))
  {
    CommoditiesAbsent();
    ClimaAbsent();
    OfertaAbsent();
    GuerraAbsent();
    var r := MatchedKeywords(text, DefaultKeywords);
    MatchedKeywordsSubsequence(text, DefaultKeywords);
    SubsequenceMembers(r, DefaultKeywords);
    assert DefaultKeywords[0] == "coringascommodities";
    MatchedKeywordsMembers(text, DefaultKeywords, "coringascommodities");
  }

  /** With the default interval of 60 seconds, the query for `adm` typed on
      the command line reads back as `ADM`, the table's name for it, and all
      31 keywords in list order. */
  lemma AdmQuery(apiKey: string)
    ensures var c := MainConfig(["adm"], apiKey, DefaultInterval);
            && c.refreshInterval == 60
            && ParseQuery(BuildQuery(c.tickers[0], AliasOf(BuildTickerMapping(c.tickers), c.tickers[0]), c.priceMovingKeywords))
               == Some(Terms("ADM", "Archer Daniels Midland", DefaultKeywords))
  {
    var c := MainConfig(["adm"], apiKey, DefaultInterval);
    assert c.tickers[0] == "ADM";
    assert c.tickers == ["ADM"];
    DefaultKeywordsShape();
    ParseBuildQuery("ADM", "Archer Daniels Midland", DefaultKeywords);
  }

}
