/** The soy-news variant of the monitor: a fixed one-topic mapping supplies the
    tickers, and every matched article not seen before is reported once. */
module StockNewsMonitor {
  import opened Text
  import opened NewsApi
  import opened SearchQuery
  import opened KeywordMatch
  import opened ArticleSink

  // ---------------------------------------------------------------------------
  // Configuration

  /** The default keyword list, 30 keywords in four groups; the group
      headings in the source are `#` comments, not list items. */
  const Wildcards: seq<string> := ["commodities", "plantio", "colheita"]

  const NaturalFactors: seq<string> := [
    "clima", "chuva", "seca", "pragas", "doenças",
    "elninho", "geada", "temperatura", "granizo", "inundações"
  ]

  const MarketFactors: seq<string> := [
    "oferta", "demanda", "safra", "exportação", "importação",
    "especulação", "tick de soja", "cotação da soja", "contrato futuro soja"
  ]

  const GeopoliticalFactors: seq<string> := [
    "Guerra", "sanções", "China", "guerra comercial",
    "política agrícola", "subsídios", "tarifas", "acordo comercial"
  ]

  const DefaultKeywords: seq<string> := Wildcards + NaturalFactors + MarketFactors + GeopoliticalFactors

  /** `MonitorConfig`; the `tickers` attribute the monitor attaches later is
      the `tickers` field of NewsMonitor. */
  datatype MonitorConfig = MonitorConfig(apiKey: string, refreshInterval: int, priceMovingKeywords: seq<string>)

  function DefaultConfig(apiKey: string): (c: MonitorConfig)
    ensures c.refreshInterval == 30 && c.priceMovingKeywords == DefaultKeywords
  {
    MonitorConfig(apiKey, 30, DefaultKeywords)
  }

  /** `_build_ticker_mapping`: one topic and its alias. */
  function TickerMapping(): (m: map<string, string>)
    ensures m.Keys == {"Brasil"} && m["Brasil"] == "comercio de soja"
  {
    map["Brasil" := "comercio de soja"]
  }

  /** The search request `fetch_news_for_ticker` sends: Portuguese articles,
      newest first, at most 20. */
  function SearchRequestFor(query: string, window: DateWindow): (r: SearchRequest)
    ensures r.query == query && r.fromDate == window.fromDate && r.toDate == window.toDate
    ensures r.language == "pt" && r.sortBy == "publishedAt" && r.pageSize == 20
  {
    SearchRequest(query, "pt", "publishedAt", window.fromDate, window.toDate, 20)
  }

  // ---------------------------------------------------------------------------
  // Articles

  datatype NewsArticle = NewsArticle(
    title: string,
    url: string,
    publishedAt: string,
    description: string,
    matchedKeywords: seq<string>,
    ticker: string)

  /** The text keywords are matched against: `f"{title} {description}"`, each
      part defaulting to the empty string (not to "No title"). */
  function ArticleText(raw: RawArticle): (t: string)
    ensures |t| == |raw.title.GetOr("")| + 1 + |raw.description.GetOr("")|
    ensures OccursAt(t, raw.title.GetOr(""), 0)
    ensures OccursAt(t, " " + raw.description.GetOr(""), |raw.title.GetOr("")|)
  {
    raw.title.GetOr("") + " " + raw.description.GetOr("")
  }

  /** The record built for a raw article with URL `url`, its matched keywords
      filled in. */
  function ArticleFor(raw: RawArticle, url: string, ticker: string, keywords: seq<string>): (a: NewsArticle)
    ensures a.url == url && a.ticker == ticker
    ensures raw.title.None? ==> a.title == "No title"
    ensures raw.title.Some? ==> a.title == raw.title.value
    ensures a.publishedAt == raw.publishedAt.GetOr("")
    ensures a.description == raw.description.GetOr("")
    ensures a.matchedKeywords == MatchedKeywords(ArticleText(raw), keywords)
    ensures IsSubsequence(a.matchedKeywords, keywords)
  {
    MatchedKeywordsSubsequence(ArticleText(raw), keywords);
    NewsArticle(raw.title.GetOr("No title"), url, raw.publishedAt.GetOr(""), raw.description.GetOr(""),
                MatchedKeywords(ArticleText(raw), keywords), ticker)
  }

  function Urls(articles: seq<NewsArticle>): (r: seq<string>)
    ensures |r| == |articles|
    ensures forall i :: 0 <= i < |articles| ==> r[i] == articles[i].url
  {
    seq(|articles|, i requires 0 <= i < |articles| => articles[i].url)
  }

  function UrlSet(articles: seq<NewsArticle>): set<string>
  {
    set a | a in articles :: a.url
  }

  // ---------------------------------------------------------------------------
  // The fetch step as a function of the reply and the seen-URL set

  /** The state of the walk over a reply: the articles kept so far, the seen
      set, and whether an article without a URL stopped the walk. */
  datatype Walk = Walk(kept: seq<NewsArticle>, seen: set<string>, failed: bool)

  /** The loop of `fetch_news_for_ticker` over the raw articles: an article
      without a URL raises; one whose URL is seen is skipped; the others are
      kept, and their URL marked seen, when some keyword matches. */
  function WalkArticles(ticker: string, keywords: seq<string>, raws: seq<RawArticle>, seen: set<string>): (w: Walk)
    ensures seen <= w.seen && |w.kept| <= |raws|
    decreases |raws|
  {
    if |raws| == 0 then Walk([], seen, false)
    else match raws[0].url
      case None => Walk([], seen, true)
      case Some(url) =>
        if url in seen then WalkArticles(ticker, keywords, raws[1..], seen)
        else
          var article := ArticleFor(raws[0], url, ticker, keywords);
          if article.matchedKeywords == [] then WalkArticles(ticker, keywords, raws[1..], seen)
          else
            var rest := WalkArticles(ticker, keywords, raws[1..], seen + {url});
            Walk([article] + rest.kept, rest.seen, rest.failed)
  }

  /** What one fetch returns and the seen set it leaves. */
  datatype FetchOutcome = FetchOutcome(articles: seq<NewsArticle>, seen: set<string>)

  /** `fetch_news_for_ticker`: any exception (the service failing, an article
      without a URL) turns the result into `[]`, but URLs marked seen before
      the exception stay marked. */
  function Fetch(ticker: string, mapping: map<string, string>, keywords: seq<string>,
                 api: NewsService, window: DateWindow, seen: set<string>): (f: FetchOutcome)
    ensures seen <= f.seen
    ensures api(SearchRequestFor(BuildQuery(ticker, AliasOf(mapping, ticker), keywords), window)).ApiFailure?
            ==> f == FetchOutcome([], seen)
  {
    var reply := api(SearchRequestFor(BuildQuery(ticker, AliasOf(mapping, ticker), keywords), window));
    match reply
    case ApiFailure => FetchOutcome([], seen)
    case Response(_) =>
      var w := WalkArticles(ticker, keywords, ArticlesOf(reply), seen);
      FetchOutcome(if w.failed then [] else w.kept, w.seen)
  }

  // ---------------------------------------------------------------------------
  // The cycle of check_news as a function

  /** The articles reported for each ticker, in ticker order, and the seen set
      after the cycle. */
  datatype CycleOutcome = CycleOutcome(batches: seq<seq<NewsArticle>>, seen: set<string>)

  function RunCycle(tickers: seq<string>, mapping: map<string, string>, keywords: seq<string>,
                    api: NewsService, window: DateWindow, seen: set<string>): (c: CycleOutcome)
    ensures |c.batches| == |tickers| && seen <= c.seen
    decreases |tickers|
  {
    if |tickers| == 0 then CycleOutcome([], seen)
    else
      var f := Fetch(tickers[0], mapping, keywords, api, window, seen);
      var rest := RunCycle(tickers[1..], mapping, keywords, api, window, f.seen);
      CycleOutcome([f.articles] + rest.batches, rest.seen)
  }

  function Flatten(batches: seq<seq<NewsArticle>>): seq<NewsArticle>
  {
    if |batches| == 0 then [] else Flatten(batches[..|batches| - 1]) + batches[|batches| - 1]
  }

  function SumLengths(batches: seq<seq<NewsArticle>>): nat
  {
    if |batches| == 0 then 0 else SumLengths(batches[..|batches| - 1]) + |batches[|batches| - 1]|
  }

  // ---------------------------------------------------------------------------
  // The alert block

  /** The alert block `process_article` logs for one article (the timestamp
      and the separator lines are not modelled). */
  datatype Alert = Alert(
    ticker: string,
    title: string,
    publishedAt: string,
    url: string,
    matchedKeywords: string,
    description: Option<string>,
    aiSummary: string)

  /** The alert names the article's ticker and URL, carries a description
      line exactly when the description is non-empty (the description itself
      up to 200 characters, else its first 200 followed by "..."), and ends
      with the analysis stub's summary. */
  function ProcessArticle(article: NewsArticle): (alert: Alert)
    ensures alert.url == article.url && alert.ticker == article.ticker
    ensures alert.description.None? <==> article.description == ""
    ensures alert.description.Some? && |article.description| <= DescriptionLimit
            ==> alert.description.value == article.description
    ensures alert.description.Some? && |article.description| > DescriptionLimit
            ==> alert.description.value == article.description[..DescriptionLimit] + "..."
    ensures alert.aiSummary == "AI analysis not yet implemented"
  {
    Alert(article.ticker, article.title, article.publishedAt, article.url,
          Join(", ", article.matchedKeywords), DescriptionLine(article.description),
          AnalyzeWithAi(article.url).summary)
  }

  function AlertsFor(articles: seq<NewsArticle>): (r: seq<Alert>)
    ensures |r| == |articles|
    ensures forall i :: 0 <= i < |articles| ==> r[i] == ProcessArticle(articles[i])
  {
    seq(|articles|, i requires 0 <= i < |articles| => ProcessArticle(articles[i]))
  }

  // ---------------------------------------------------------------------------
  // The monitor

  class NewsMonitor {
    const config: MonitorConfig
    /** `config.tickers`, set from the mapping's keys. */
    const tickers: seq<string>
    const tickerToCompany: map<string, string>
    /** The URLs already reported. */
    var processedArticles: set<string>

    constructor (config: MonitorConfig)
      ensures this.config == config && processedArticles == {}
      ensures tickerToCompany == TickerMapping()
      ensures tickers == ["Brasil"]
      ensures (set t | t in tickers) == tickerToCompany.Keys && |tickers| == |tickerToCompany|
    {
      this.config := config;
      processedArticles := {};
      tickerToCompany := TickerMapping();
      tickers := ["Brasil"];
    }

    /** `_build_search_query`: the query names the ticker, then its alias
        (the ticker itself when none is registered), then every configured
        keyword, each in double quotes. */
    function BuildSearchQuery(ticker: string): (q: string)
      ensures OccursAt(q, Quoted(ticker), 1)
      ensures OccursAt(q, Quoted(AliasOf(tickerToCompany, ticker)), |Quoted(ticker)| + 5)
      ensures forall k :: 0 <= k < |config.priceMovingKeywords| ==> Contains(q, Quoted(config.priceMovingKeywords[k]))
    {
      BuildQuery(ticker, AliasOf(tickerToCompany, ticker), config.priceMovingKeywords)
    }

    /** `fetch_news_for_ticker`. */
    method FetchNewsForTicker(ticker: string, api: NewsService, window: DateWindow) returns (news: seq<NewsArticle>)
      modifies this
      ensures var f := Fetch(ticker, tickerToCompany, config.priceMovingKeywords, api, window, old(processedArticles));
              news == f.articles && processedArticles == f.seen
      ensures old(processedArticles) <= processedArticles
      ensures forall a :: a in news ==> a.url !in old(processedArticles) && a.matchedKeywords != [] && a.ticker == ticker
    {
      ghost var seen0 := processedArticles;
      var keywords := config.priceMovingKeywords;
      var query := BuildSearchQuery(ticker);
      var reply := api(SearchRequestFor(query, window));
      if reply.ApiFailure? {
        return [];
      }
      var raws := ArticlesOf(reply);
      news := [];
      var i := 0;
      while i < |raws|
        invariant 0 <= i <= |raws|
        invariant var rest := WalkArticles(ticker, keywords, raws[i..], processedArticles);
                  WalkArticles(ticker, keywords, raws, seen0) == Walk(news + rest.kept, rest.seen, rest.failed)
      {
        var raw := raws[i];
        assert raws[i..][1..] == raws[i + 1..];
        if raw.url.None? {
          // `article['url']` raises KeyError; the handler returns []
          WalkProperties(ticker, keywords, raws, seen0);
          return [];
        }
        var url := raw.url.value;
        if url !in processedArticles {
          var article := NewsArticle(raw.title.GetOr("No title"), url, raw.publishedAt.GetOr(""),
                                     raw.description.GetOr(""), [], ticker);
          var articleText := raw.title.GetOr("") + " " + raw.description.GetOr("");
          var matched := ExtractMatchedKeywords(articleText, keywords);
          article := article.(matchedKeywords := matched);
          if matched != [] {
            news := news + [article];
            processedArticles := processedArticles + {url};
          }
        }
        i := i + 1;
      }
      assert raws[i..] == [];
      WalkProperties(ticker, keywords, raws, seen0);
    }

    /** The inner loop of `check_news`: each article of one batch written as
        an alert, in order. */
    method ProcessArticles(articles: seq<NewsArticle>) returns (alerts: seq<Alert>)
      ensures alerts == AlertsFor(articles)
    {
      alerts := [];
      for j := 0 to |articles|
        invariant alerts == AlertsFor(articles[..j])
      {
        assert articles[..j + 1] == articles[..j] + [articles[j]];
        alerts := alerts + [ProcessArticle(articles[j])];
      }
      assert articles[..|articles|] == articles;
    }

    /** `check_news`: every configured ticker in order, each reported article
        written as an alert and counted. */
    method CheckNews(api: NewsService, window: DateWindow) returns (alerts: seq<Alert>, total: nat, summary: Summary)
      modifies this
      ensures var c := RunCycle(tickers, tickerToCompany, config.priceMovingKeywords, api, window, old(processedArticles));
              processedArticles == c.seen && total == SumLengths(c.batches) && alerts == AlertsFor(Flatten(c.batches))
      ensures summary == SummaryOf(total)
      ensures summary.NoneFound? <==> total == 0
      ensures total == |alerts|
    {
      ghost var seen0 := processedArticles;
      ghost var done: seq<seq<NewsArticle>> := [];
      alerts, total := [], 0;
      var i := 0;
      while i < |tickers|
        invariant 0 <= i <= |tickers|
        invariant var rest := RunCycle(tickers[i..], tickerToCompany, config.priceMovingKeywords, api, window, processedArticles);
                  RunCycle(tickers, tickerToCompany, config.priceMovingKeywords, api, window, seen0)
                  == CycleOutcome(done + rest.batches, rest.seen)
        invariant total == |alerts| && alerts == AlertsFor(Flatten(done))
      {
        CycleStep(tickers, i, tickerToCompany, config.priceMovingKeywords, api, window, seen0, processedArticles, done);
        var articles := FetchNewsForTicker(tickers[i], api, window);
        var batchAlerts := ProcessArticles(articles);
        alerts, total := alerts + batchAlerts, total + |articles|;
        AlertsForSnoc(done, articles);
        done := done + [articles];
        i := i + 1;
      }
      assert tickers[i..] == [];
      assert done + [] == done;
      FlattenLength(done);
      assert |alerts| == |Flatten(done)|;
      summary := SummaryOf(total);
    }
  }

  // ---------------------------------------------------------------------------
  // Properties of the fetch step

  /** What one walk over a reply guarantees: the seen set grows by exactly the
      URLs of the kept articles; kept URLs are pairwise distinct and were not
      seen before; every kept article matched some keyword and carries the
      ticker. */
  lemma {:induction false} WalkProperties(ticker: string, keywords: seq<string>, raws: seq<RawArticle>, seen: set<string>)
    ensures var w := WalkArticles(ticker, keywords, raws, seen);
            && w.seen == seen + UrlSet(w.kept)
            && NoDuplicates(Urls(w.kept))
            && (forall a :: a in w.kept ==> a.url !in seen && a.matchedKeywords != [] && a.ticker == ticker)
    decreases |raws|
  {
    if |raws| > 0 && raws[0].url.Some? {
      var url := raws[0].url.value;
      if url in seen {
        WalkProperties(ticker, keywords, raws[1..], seen);
      } else {
        var article := ArticleFor(raws[0], url, ticker, keywords);
        if article.matchedKeywords == [] {
          WalkProperties(ticker, keywords, raws[1..], seen);
        } else {
          var rest := WalkArticles(ticker, keywords, raws[1..], seen + {url});
          WalkProperties(ticker, keywords, raws[1..], seen + {url});
          var kept := [article] + rest.kept;
          assert UrlSet(kept) == {url} + UrlSet(rest.kept);
          assert Urls(kept) == [url] + Urls(rest.kept);
          assert url !in Urls(rest.kept);
        }
      }
    }
  }

  /** A walk stops on an article without a URL, and only there. */
  lemma {:induction false} WalkFailsIffUrlMissing(ticker: string, keywords: seq<string>, raws: seq<RawArticle>, seen: set<string>)
    ensures WalkArticles(ticker, keywords, raws, seen).failed <==> exists j :: 0 <= j < |raws| && raws[j].url.None?
    decreases |raws|
  {
    if |raws| > 0 && raws[0].url.Some? {
      var url := raws[0].url.value;
      var seen' := if url in seen || ArticleFor(raws[0], url, ticker, keywords).matchedKeywords == [] then seen else seen + {url};
      WalkFailsIffUrlMissing(ticker, keywords, raws[1..], seen');
      if exists j :: 0 <= j < |raws| && raws[j].url.None? {
        var j :| 0 <= j < |raws| && raws[j].url.None?;
        assert raws[1..][j - 1].url.None?;
      }
    }
  }

  /** Every kept article is the record built from some raw article of the
      reply with that URL, and its keywords are those its text matches. */
  lemma {:induction false} WalkKeptFromReply(ticker: string, keywords: seq<string>, raws: seq<RawArticle>, seen: set<string>, a: NewsArticle)
    requires a in WalkArticles(ticker, keywords, raws, seen).kept
    ensures exists j :: 0 <= j < |raws| && raws[j].url == Some(a.url) && a == ArticleFor(raws[j], a.url, ticker, keywords)
    decreases |raws|
  {
    var url := raws[0].url.value;
    var article := ArticleFor(raws[0], url, ticker, keywords);
    if a == article && url !in seen && article.matchedKeywords != [] {
      assert raws[0].url == Some(a.url);
    } else {
      var seen' := if url in seen || article.matchedKeywords == [] then seen else seen + {url};
      WalkKeptFromReply(ticker, keywords, raws[1..], seen', a);
      var j :| 0 <= j < |raws[1..]| && raws[1..][j].url == Some(a.url) && a == ArticleFor(raws[1..][j], a.url, ticker, keywords);
      assert raws[j + 1] == raws[1..][j];
    }
  }

  /** On a walk that does not stop, every URL not seen before whose raw
      article matches some keyword ends up among the kept articles. */
  lemma {:induction false} WalkKeepsEveryMatch(ticker: string, keywords: seq<string>, raws: seq<RawArticle>, seen: set<string>, j: nat)
    requires j < |raws| && raws[j].url.Some? && raws[j].url.value !in seen
    requires MatchedKeywords(ArticleText(raws[j]), keywords) != []
    requires !WalkArticles(ticker, keywords, raws, seen).failed
    ensures raws[j].url.value in UrlSet(WalkArticles(ticker, keywords, raws, seen).kept)
    decreases |raws|
  {
    var url := raws[0].url.value;
    var article := ArticleFor(raws[0], url, ticker, keywords);
    var w := WalkArticles(ticker, keywords, raws, seen);
    if j == 0 {
      assert w.kept[0] == article;
    } else {
      var u := raws[j].url.value;
      var seen' := if url in seen || article.matchedKeywords == [] then seen else seen + {url};
      assert raws[1..][j - 1] == raws[j];
      if u in seen' {
        assert u == url && w.kept[0] == article;
      } else {
        WalkKeepsEveryMatch(ticker, keywords, raws[1..], seen', j - 1);
        var rest := WalkArticles(ticker, keywords, raws[1..], seen');
        assert forall b :: b in rest.kept ==> b in w.kept;
      }
    }
  }

  /** The properties of one fetch. The seen set only grows, and what it gains
      are URLs of raw articles that matched some keyword. Returned articles
      have URLs not seen before and pairwise distinct, each matched some
      keyword; when the fetch succeeds the seen set grows by exactly their
      URLs. When the service fails, or some article lacks a URL, nothing is
      returned. */
  lemma FetchProperties(ticker: string, mapping: map<string, string>, keywords: seq<string>,
                        api: NewsService, window: DateWindow, seen: set<string>)
    ensures var f := Fetch(ticker, mapping, keywords, api, window, seen);
            var reply := api(SearchRequestFor(BuildQuery(ticker, AliasOf(mapping, ticker), keywords), window));
            && seen <= f.seen
            && NoDuplicates(Urls(f.articles))
            && (forall a :: a in f.articles ==> a.url !in seen && a.matchedKeywords != [] && a.ticker == ticker)
            && (forall u :: u in f.seen && u !in seen ==>
                  exists r :: r in ArticlesOf(reply) && r.url == Some(u) && MatchedKeywords(ArticleText(r), keywords) != [])
            && (reply.ApiFailure? || (exists r :: r in ArticlesOf(reply) && r.url.None?) ==> f.articles == [])
            && (reply.Response? && (forall r :: r in ArticlesOf(reply) ==> r.url.Some?) ==> f.seen == seen + UrlSet(f.articles))
  {
    var reply := api(SearchRequestFor(BuildQuery(ticker, AliasOf(mapping, ticker), keywords), window));
    if reply.Response? {
      var raws := ArticlesOf(reply);
      var w := WalkArticles(ticker, keywords, raws, seen);
      WalkProperties(ticker, keywords, raws, seen);
      WalkFailsIffUrlMissing(ticker, keywords, raws, seen);
      forall u | u in w.seen && u !in seen
        ensures exists r :: r in raws && r.url == Some(u) && MatchedKeywords(ArticleText(r), keywords) != []
      {
        var a :| a in w.kept && a.url == u;
        WalkKeptFromReply(ticker, keywords, raws, seen, a);
      }
      if exists r :: r in raws && r.url.None? {
        var r :| r in raws && r.url.None?;
        var j :| 0 <= j < |raws| && raws[j] == r;
      }
      if forall r :: r in raws ==> r.url.Some? {
        assert !w.failed;
      }
    }
  }

  /** A matching article followed, in the same reply, by an article without a
      URL is marked seen but not returned: no later fetch reports it. */
  lemma MatchedThenMissingUrlIsLost(ticker: string, keywords: seq<string>, raw: RawArticle, missing: RawArticle, seen: set<string>)
    requires raw.url.Some? && raw.url.value !in seen
    requires MatchedKeywords(ArticleText(raw), keywords) != []
    requires missing.url.None?
    ensures var w := WalkArticles(ticker, keywords, [raw, missing], seen);
            w.failed && raw.url.value in w.seen
  {
  }

  // ---------------------------------------------------------------------------
  // Properties of a cycle

  lemma {:induction false} FlattenLength(batches: seq<seq<NewsArticle>>)
    ensures |Flatten(batches)| == SumLengths(batches)
    decreases |batches|
  {
    if |batches| > 0 {
      FlattenLength(batches[..|batches| - 1]);
    }
  }

  /** One ticker further into a cycle: if the batches reported so far, followed
      by the rest of the cycle from `seen`, make up the whole cycle, then so do
      those batches with this ticker's fetch appended, followed by the rest of
      the cycle from the set that fetch leaves. */
  lemma CycleStep(tickers: seq<string>, i: nat, mapping: map<string, string>, keywords: seq<string>,
                  api: NewsService, window: DateWindow, seen0: set<string>, seen: set<string>,
                  done: seq<seq<NewsArticle>>)
    requires i < |tickers|
    requires var rest := RunCycle(tickers[i..], mapping, keywords, api, window, seen);
             RunCycle(tickers, mapping, keywords, api, window, seen0) == CycleOutcome(done + rest.batches, rest.seen)
    ensures var f := Fetch(tickers[i], mapping, keywords, api, window, seen);
            var rest := RunCycle(tickers[i + 1..], mapping, keywords, api, window, f.seen);
            RunCycle(tickers, mapping, keywords, api, window, seen0) == CycleOutcome((done + [f.articles]) + rest.batches, rest.seen)
  {
    var f := Fetch(tickers[i], mapping, keywords, api, window, seen);
    var rest := RunCycle(tickers[i + 1..], mapping, keywords, api, window, f.seen);
    assert tickers[i..][0] == tickers[i] && tickers[i..][1..] == tickers[i + 1..];
    assert RunCycle(tickers[i..], mapping, keywords, api, window, seen) == CycleOutcome([f.articles] + rest.batches, rest.seen);
    assert done + ([f.articles] + rest.batches) == (done + [f.articles]) + rest.batches;
  }

  lemma AlertsForSnoc(batches: seq<seq<NewsArticle>>, b: seq<NewsArticle>)
    ensures AlertsFor(Flatten(batches + [b])) == AlertsFor(Flatten(batches)) + AlertsFor(b)
  {
  }

  lemma {:induction false} FlattenCons(b: seq<NewsArticle>, batches: seq<seq<NewsArticle>>)
    ensures Flatten([b] + batches) == b + Flatten(batches)
    decreases |batches|
  {
    if |batches| > 0 {
      assert ([b] + batches)[..|batches|] == [b] + batches[..|batches| - 1];
      FlattenCons(b, batches[..|batches| - 1]);
    } else {
      assert [b][..0] == [];
    }
  }

  /** Appending a batch whose URLs are distinct and new keeps the URLs of the
      whole report distinct. */
  lemma UrlsAppendDistinct(x: seq<NewsArticle>, y: seq<NewsArticle>)
    requires NoDuplicates(Urls(x)) && NoDuplicates(Urls(y))
    requires forall a :: a in y ==> a.url !in UrlSet(x)
    ensures NoDuplicates(Urls(x + y))
  {
  }

  /** A cycle visits every ticker once, in order: batch i is what fetching
      ticker i returns from the seen set the earlier tickers left, so a
      ticker whose request fails contributes an empty batch and the cycle
      goes on to the next; the seen set only grows. */
  lemma {:induction false} CycleShape(tickers: seq<string>, mapping: map<string, string>, keywords: seq<string>,
                                      api: NewsService, window: DateWindow, seen: set<string>)
    ensures var c := RunCycle(tickers, mapping, keywords, api, window, seen);
            && |c.batches| == |tickers|
            && seen <= c.seen
            && (forall i :: 0 <= i < |tickers| &&
                  api(SearchRequestFor(BuildQuery(tickers[i], AliasOf(mapping, tickers[i]), keywords), window)).ApiFailure?
                  ==> c.batches[i] == [])
            && (forall i :: 0 <= i < |tickers| ==>
                  c.batches[i] == Fetch(tickers[i], mapping, keywords, api, window,
                                        RunCycle(tickers[..i], mapping, keywords, api, window, seen).seen).articles)
    decreases |tickers|
  {
    if |tickers| > 0 {
      var f := Fetch(tickers[0], mapping, keywords, api, window, seen);
      var rest := RunCycle(tickers[1..], mapping, keywords, api, window, f.seen);
      var c := RunCycle(tickers, mapping, keywords, api, window, seen);
      FetchProperties(tickers[0], mapping, keywords, api, window, seen);
      CycleShape(tickers[1..], mapping, keywords, api, window, f.seen);
      forall i | 0 < i < |tickers| ensures tickers[i] == tickers[1..][i - 1] && c.batches[i] == rest.batches[i - 1] {
      }
      forall i | 0 <= i < |tickers|
        ensures c.batches[i] == Fetch(tickers[i], mapping, keywords, api, window,
                                      RunCycle(tickers[..i], mapping, keywords, api, window, seen).seen).articles
      {
        CycleBatchIsFetch(tickers, mapping, keywords, api, window, seen, i);
      }
    }
  }

  /** Batch i of a cycle is what fetching ticker i returns from the set the
      first i tickers left. */
  lemma {:induction false} CycleBatchIsFetch(tickers: seq<string>, mapping: map<string, string>, keywords: seq<string>,
                                             api: NewsService, window: DateWindow, seen: set<string>, i: nat)
    requires i < |tickers|
    ensures RunCycle(tickers, mapping, keywords, api, window, seen).batches[i]
            == Fetch(tickers[i], mapping, keywords, api, window, RunCycle(tickers[..i], mapping, keywords, api, window, seen).seen).articles
    decreases i
  {
    var f := Fetch(tickers[0], mapping, keywords, api, window, seen);
    if i == 0 {
      assert tickers[..0] == [];
    } else {
      var rest := RunCycle(tickers[1..], mapping, keywords, api, window, f.seen);
      CycleBatchIsFetch(tickers[1..], mapping, keywords, api, window, f.seen, i - 1);
      assert RunCycle(tickers, mapping, keywords, api, window, seen).batches[i] == rest.batches[i - 1];
      assert tickers[..i][0] == tickers[0] && tickers[..i][1..] == tickers[1..][..i - 1];
      assert RunCycle(tickers[..i], mapping, keywords, api, window, seen).seen
             == RunCycle(tickers[1..][..i - 1], mapping, keywords, api, window, f.seen).seen;
      assert tickers[1..][i - 1] == tickers[i];
    }
  }


  /** Across a whole cycle no URL is reported twice, none that was seen
      before is reported, every reported URL is seen afterwards, and every
      reported article matched some keyword. */
  lemma {:induction false} CycleReportsFresh(tickers: seq<string>, mapping: map<string, string>, keywords: seq<string>,
                                             api: NewsService, window: DateWindow, seen: set<string>)
    ensures var c := RunCycle(tickers, mapping, keywords, api, window, seen);
            && NoDuplicates(Urls(Flatten(c.batches)))
            && (forall a :: a in Flatten(c.batches) ==> a.url !in seen && a.url in c.seen && a.matchedKeywords != [])
    decreases |tickers|
  {
    if |tickers| > 0 {
      var f := Fetch(tickers[0], mapping, keywords, api, window, seen);
      var rest := RunCycle(tickers[1..], mapping, keywords, api, window, f.seen);
      FetchProperties(tickers[0], mapping, keywords, api, window, seen);
      CycleReportsFresh(tickers[1..], mapping, keywords, api, window, f.seen);
      CycleShape(tickers[1..], mapping, keywords, api, window, f.seen);
      FlattenCons(f.articles, rest.batches);
      assert UrlSet(f.articles) <= f.seen;
      UrlsAppendDistinct(f.articles, Flatten(rest.batches));
    } else {
      assert Flatten([]) == [];
    }
  }

  /** Two consecutive cycles never report the same URL: the second starts from
      the seen set the first left. */
  lemma TwoCyclesReportDisjoint(tickers: seq<string>, mapping: map<string, string>, keywords: seq<string>,
                                api1: NewsService, api2: NewsService, window1: DateWindow, window2: DateWindow,
                                seen: set<string>)
    ensures var c1 := RunCycle(tickers, mapping, keywords, api1, window1, seen);
            var c2 := RunCycle(tickers, mapping, keywords, api2, window2, c1.seen);
            forall a, b :: a in Flatten(c1.batches) && b in Flatten(c2.batches) ==> a.url != b.url
  {
    var c1 := RunCycle(tickers, mapping, keywords, api1, window1, seen);
    CycleReportsFresh(tickers, mapping, keywords, api1, window1, seen);
    CycleReportsFresh(tickers, mapping, keywords, api2, window2, c1.seen);
  }

  // ---------------------------------------------------------------------------
  // The configured monitor

  // Within each group, no keyword holds a double quote or is listed twice.

  lemma WildcardsWellFormed()
    ensures AllQuoteFree(Wildcards) && NoDuplicates(Wildcards)
  {
  }

  lemma NaturalFactorsWellFormed()
    ensures AllQuoteFree(NaturalFactors) && NoDuplicates(NaturalFactors)
  {
  }

  lemma MarketFactorsWellFormed()
    ensures AllQuoteFree(MarketFactors) && NoDuplicates(MarketFactors)
  {
  }

  lemma GeopoliticalFactorsWellFormed()
    ensures AllQuoteFree(GeopoliticalFactors) && NoDuplicates(GeopoliticalFactors)
  {
  }

  /** No keyword of a group repeats one of an earlier group. */
  lemma GroupsApart()
    ensures Apart(Wildcards, NaturalFactors)
    ensures Apart(Wildcards + NaturalFactors, MarketFactors)
    ensures Apart(Wildcards + NaturalFactors + MarketFactors, GeopoliticalFactors)
  {
  }

  lemma DefaultKeywordsShape()
    ensures |DefaultKeywords| == 30
    ensures AllQuoteFree(DefaultKeywords)
    ensures NoDuplicates(DefaultKeywords)
  {
    WildcardsWellFormed();
    NaturalFactorsWellFormed();
    MarketFactorsWellFormed();
    GeopoliticalFactorsWellFormed();
    AllQuoteFreeConcat(Wildcards, NaturalFactors);
    AllQuoteFreeConcat(Wildcards + NaturalFactors, MarketFactors);
    AllQuoteFreeConcat(Wildcards + NaturalFactors + MarketFactors, GeopoliticalFactors);
    GroupsApart();
    NoDuplicatesConcat(Wildcards, NaturalFactors);
    NoDuplicatesConcat(Wildcards + NaturalFactors, MarketFactors);
    NoDuplicatesConcat(Wildcards + NaturalFactors + MarketFactors, GeopoliticalFactors);
  }


  /** Both war keywords are configured, and "guerra" is the lower-case form of
      the first and the start of the second. */
  lemma GuerraSpellings()
    ensures "Guerra" in DefaultKeywords && "guerra comercial" in DefaultKeywords
    ensures Lower("Guerra") == "guerra" && Lower("guerra comercial") == "guerra comercial"
    ensures OccursAt("guerra comercial", "guerra", 0)
  {
    assert GeopoliticalFactors[0] == "Guerra" && GeopoliticalFactors[3] == "guerra comercial";
    assert "Guerra" in GeopoliticalFactors && "guerra comercial" in GeopoliticalFactors;
  }

  /** A text that mentions "guerra comercial" in any case matches both
      `Guerra` (whose lower-case form it contains) and `guerra comercial`,
      each reported once, in its configured spelling. */
  lemma GuerraComercialMatchesBoth(text: string)
    requires exists i :: OccursAt(Lower(text), "guerra comercial", i)
    ensures var r := MatchedKeywords(text, DefaultKeywords);
            "Guerra" in r && "guerra comercial" in r && NoDuplicates(r)
  {
    assert NoDuplicates(MatchedKeywords(text, DefaultKeywords)) by {
      DefaultKeywordsShape();
      MatchedKeywordsNoDuplicates(text, DefaultKeywords);
    }
    var i :| OccursAt(Lower(text), "guerra comercial", i);
    GuerraSpellings();
    OccursTransitive(Lower(text), "guerra comercial", "guerra", i, 0);
    MatchedKeywordsMembers(text, DefaultKeywords, "Guerra");
    MatchedKeywordsMembers(text, DefaultKeywords, "guerra comercial");
  }

  /** The query for the one configured topic reads back as the topic, its
      alias and all 30 keywords in list order. */
  lemma BrasilQuery()
    ensures ParseQuery(BuildQuery("Brasil", AliasOf(TickerMapping(), "Brasil"), DefaultKeywords))
            == Some(Terms("Brasil", "comercio de soja", DefaultKeywords))
  {
    DefaultKeywordsShape();
    ParseBuildQuery("Brasil", "comercio de soja", DefaultKeywords);
  }
}
