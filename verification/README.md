# News monitor: filter and deduplicate pipeline

This project models the core of `NewsMonitor`, a monitor for soy-market news. The
monitor exists in two near-identical copies, `backtest.py` and
`stock_news_monitor.py`. One check cycle works like this:

- For each configured ticker, the monitor builds a search query of the form
  `("T" OR "alias") AND ("k1" OR ... OR "kn")` and sends it to a news-search
  service.
- It walks the raw articles of the reply and skips URLs it has already
  reported.
- It builds an article record with defaults for absent fields.
- It keeps the record only when some configured keyword occurs,
  case-insensitively, in `title + " " + description`.
- It marks the kept URL as processed.
- It writes one alert block per kept article, counts them, and closes the
  cycle with "No new relevant articles found" or "Found N new relevant
  articles".

The news service is a parameter: a function from the search request to a reply.
The reply is either a failure (any exception of the client call) or a
dictionary whose `articles` key may be absent. Raw articles are records whose
`title`, `url`, `publishedAt` and `description` keys may each be absent.

Modules:

- `Text` (text.dfy): the case mapping and the substring test the matcher
  uses, with a reference definition of substring occurrence.
- `NewsApi` (news_api.dfy): the request and reply of the news service.
- `SearchQuery` (search_query.dfy): the query builder and the alias lookup.
  Its partner is a reader for the query format, and a round-trip lemma shows
  that the reader recovers ticker, alias and keywords.
- `KeywordMatch` (keyword_match.dfy): the keyword matcher. It has a
  specification function and the loop proved against it, plus membership,
  order and no-duplicate lemmas.
- `ArticleSink` (article_sink.dfy): description truncation, the AI-analysis
  stub's reply and the closing summary line.
- `StockNewsMonitor` (stock_news_monitor.dfy): the soy variant.
  - The tickers come from the fixed mapping `{"Brasil": "comercio de soja"}`.
  - The fetch step and the cycle are specified by functions (`WalkArticles`,
    `Fetch`, `RunCycle`).
  - The `NewsMonitor` class holds the processed-URL set and has the loops of
    `fetch_news_for_ticker` and `check_news` as methods proved against those
    functions.
  - Lemmas give the deduplication invariants: the set only grows, reported
    URLs are distinct and new, and two cycles never report the same URL.
- `Backtest` (backtest.dfy): the ticker-driven variant.
  - Tickers come from the command line, upper-cased, and are looked up in a
    table of market names.
  - Its `NewsArticle` dataclass declares neither `source` nor `description`.
    Yet the fetch step passes both as keyword arguments. The constructor
    therefore raises `TypeError` on the first unseen article, and the handler
    returns `[]`.
  - The model follows the code here, not the intent: the backtest fetch always
    returns nothing and never adds to the processed set. A `check_news` cycle
    always ends with "No new relevant articles found".

## Model

| member | source | states |
|---|---|---|
| Text.Lower | backtest.py:135 | `str.lower()`, the defining model: the result has the length of the input and maps each character to its lower-case form. |
| Text.Upper | backtest.py:320 | `str.upper()`, the defining model: the result has the length of the input and maps each character to its upper-case form. |
| Text.Contains | backtest.py:138 | `needle in hay`, the defining model: a needle is found only in a text at least as long as itself. |
| Text.Join | backtest.py:128 | `sep.join(items)`, the defining model (also the `', '.join` of stock_news_monitor.py:202): no items give the empty string, otherwise the result begins with the first item. |
| Text.JoinHoldsItems | backtest.py:128 | Every item occurs somewhere in the joined string. |
| Text.ContainsIffOccurs | backtest.py:138 | The substring test used for `keyword.lower() in text_lower` holds exactly when the needle occurs at some index of the text. |
| Text.UpperHasNoAsciiLower | backtest.py:320 | An upper-cased ticker holds no ASCII lower-case letter. |
| SearchQuery.AliasOf | backtest.py:122 | `ticker_to_company.get(ticker, ticker)`, the defining model: the registered alias when the ticker is a key, the ticker itself otherwise. |
| NewsApi.ArticlesOf | stock_news_monitor.py:142 | `articles.get('articles', [])`, the defining model (also backtest.py:168): the reply's article list, or `[]` when the key is absent. |
| SearchQuery.BuildQuery | backtest.py:120-130 | `_build_search_query`, the defining model (the same builder is stock_news_monitor.py:94-104): the quoted ticker follows the opening parenthesis, the quoted alias follows ` OR `, and every configured keyword occurs quoted in the query. |
| SearchQuery.ParseBuildQuery | backtest.py:120-130 | The built query reads back as exactly the ticker, the alias and the keywords in configured order, whenever none of them holds a double quote. |
| SearchQuery.BuildQueryInjective | backtest.py:120-130 | Different quote-free (ticker, alias, keywords) triples never give the same query. |
| SearchQuery.QuoteInAliasCollides | backtest.py:125 | Quotes are not escaped: an alias holding `" OR "` gives the same query as a different ticker/alias pair. |
| KeywordMatch.MatchedKeywords | backtest.py:132-141 | The matched list is never longer than the keyword list. |
| KeywordMatch.ExtractMatchedKeywords | backtest.py:132-141 | The loop over the configured keywords returns exactly the matched list of the specification (the same loop is stock_news_monitor.py:106-115). |
| KeywordMatch.MatchedKeywordsMembers | backtest.py:137-139 | A keyword is in the result if and only if it is configured and its lower-case form occurs in the lower-cased text; it is returned in its configured spelling. |
| KeywordMatch.MatchedKeywordsSubsequence | backtest.py:132-141 | The result is an order-preserving subsequence of the configured list; with `MatchedKeywordsMembers`, for a list without repeats (both shipped lists, see `DefaultKeywordsShape`) it is exactly the list with the non-matching keywords left out. |
| KeywordMatch.MatchedKeywordsNoDuplicates | stock_news_monitor.py:111-113 | A keyword list without repeats gives a result without repeats, however often a keyword occurs in the text. |
| ArticleSink.TruncateDescription | backtest.py:234-236 | A description of at most 200 characters is kept; a longer one becomes its first 200 characters plus `...`; the result is never longer than 203 characters (the same truncation is stock_news_monitor.py:204-207). |
| ArticleSink.DescriptionLine | stock_news_monitor.py:204-207 | A description line is written if and only if the description is non-empty, and it holds the truncated text. |
| ArticleSink.AnalyzeWithAi | stock_news_monitor.py:176-190 | `analyze_with_ai`, the defining model: the same reply for every URL, sentiment `neutral`, recommendation `monitor` and summary `AI analysis not yet implemented`. |
| ArticleSink.SummaryOf | stock_news_monitor.py:231-234 | The closing line is "No new relevant articles found" if and only if the total is 0; otherwise it carries the total. |
| StockNewsMonitor.DefaultConfig | stock_news_monitor.py:37-71 | The default refresh interval is 30 seconds and the keywords are the default list. |
| StockNewsMonitor.DefaultKeywordsShape | stock_news_monitor.py:40-71 | The default list has 30 keywords (the `#` headings are not entries), none holds a double quote, and none is listed twice. |
| StockNewsMonitor.GuerraSpellings | stock_news_monitor.py:64-68 | `Guerra` and `guerra comercial` are both configured, and `guerra` is the lower-case form of the first and the start of the second. |
| StockNewsMonitor.TickerMapping | stock_news_monitor.py:74-80 | The mapping has the single key `Brasil`, aliased to `comercio de soja`. |
| StockNewsMonitor.SearchRequestFor | stock_news_monitor.py:128-135 | The `get_everything` arguments: the query, Portuguese articles (`pt`), sorted by `publishedAt`, the window's from and to dates, at most 20 per page. |
| StockNewsMonitor.NewsMonitor.BuildSearchQuery | stock_news_monitor.py:94-104 | `_build_search_query`: the query names the quoted ticker, then the quoted alias from the mapping (the ticker when none is registered), and every configured keyword quoted. |
| StockNewsMonitor.NewsMonitor.constructor | stock_news_monitor.py:83-89 | The monitor starts with an empty processed set; its tickers are the mapping's keys, `["Brasil"]`. |
| StockNewsMonitor.BrasilQuery | stock_news_monitor.py:94-104 | The query for `Brasil` reads back as `Brasil`, `comercio de soja` and all 30 keywords in list order. |
| StockNewsMonitor.ArticleText | stock_news_monitor.py:157 | The matched text, the defining model: the title (empty when absent), a space, then the description (empty when absent). |
| StockNewsMonitor.ArticleFor | stock_news_monitor.py:147-157 | The record built for a raw article, the defining model: the given URL and ticker, the title or `No title`, the publication date or `''`, the description or `''`, and exactly the keywords matched on `title + " " + description`, an order-preserving subsequence of the configured list. |
| StockNewsMonitor.WalkArticles | stock_news_monitor.py:142-168 | The loop over the reply's articles, the defining model: the processed set only grows and no more articles are kept than the reply holds. |
| StockNewsMonitor.Fetch | stock_news_monitor.py:117-174 | `fetch_news_for_ticker` as a function, the defining model: the processed set only grows, and a failing service call returns `[]` with the set unchanged. |
| StockNewsMonitor.GuerraComercialMatchesBoth | stock_news_monitor.py:106-115 | A text mentioning "guerra comercial" in any case matches both `Guerra` and `guerra comercial`, each once and in its configured spelling. |
| StockNewsMonitor.NewsMonitor.FetchNewsForTicker | stock_news_monitor.py:117-174 | The fetch returns exactly the specified articles and leaves exactly the specified processed set; the set only grows; every returned article has a new URL, matched keywords and the ticker. |
| StockNewsMonitor.WalkProperties | stock_news_monitor.py:142-168 | The processed set grows by exactly the URLs of the kept articles; kept URLs are pairwise distinct and new; every kept article matched some keyword and carries the ticker. |
| StockNewsMonitor.WalkFailsIffUrlMissing | stock_news_monitor.py:142-149 | The walk stops with an exception if and only if some raw article has no URL. |
| StockNewsMonitor.WalkKeptFromReply | stock_news_monitor.py:147-158 | Every kept article is the record built from a raw article of the reply with that URL: `No title` and empty-string defaults, keywords matched on `title + " " + description`. |
| StockNewsMonitor.WalkKeepsEveryMatch | stock_news_monitor.py:164-168 | When the walk does not stop, every raw article with a new URL and a keyword match is kept. |
| StockNewsMonitor.FetchProperties | stock_news_monitor.py:117-174 | One fetch: the set only grows; returned URLs are distinct, new, matched and carry the ticker; each URL the set gains comes from a matching raw article; a service failure or a missing URL gives `[]`; without an exception the set grows by exactly the returned URLs. |
| StockNewsMonitor.MatchedThenMissingUrlIsLost | stock_news_monitor.py:166-174 | A matching article followed by one without a URL is marked processed although the fetch returns `[]`, so no later fetch reports it. |
| StockNewsMonitor.ProcessArticle | stock_news_monitor.py:192-215 | `process_article`, the defining model of the alert block: it names the article's ticker and URL, carries a description line exactly for a non-empty description (the description itself up to 200 characters, else its first 200 followed by `...`), and ends with the stub's summary. |
| StockNewsMonitor.NewsMonitor.ProcessArticles | stock_news_monitor.py:227-229 | The inner loop writes one alert per article, in order. |
| StockNewsMonitor.RunCycle | stock_news_monitor.py:218-229 | The loop of `check_news` as a function, the defining model: one batch per ticker, and the processed set only grows. |
| StockNewsMonitor.NewsMonitor.CheckNews | stock_news_monitor.py:218-234 | The cycle leaves the processed set, total and alerts of the specified cycle over the tickers in order; the total is the sum of the per-ticker result lengths and the number of alerts; the summary line is the one for that total: "none found" if and only if the total is 0, else "found" with the total. |
| StockNewsMonitor.FlattenLength | stock_news_monitor.py:224-229 | The number of articles processed in a cycle equals the sum of the per-ticker result lengths. |
| StockNewsMonitor.CycleShape | stock_news_monitor.py:224-225 | A cycle fetches every ticker once, in order, from the set the earlier tickers left; a ticker whose request fails contributes an empty batch; the set only grows. |
| StockNewsMonitor.CycleBatchIsFetch | stock_news_monitor.py:224-225 | Batch i of a cycle is what fetching ticker i returns from the processed set the first i tickers left. |
| StockNewsMonitor.CycleReportsFresh | stock_news_monitor.py:218-234 | Across a cycle no URL is reported twice, none processed before is reported, every reported URL is processed afterwards, and every reported article matched a keyword. |
| StockNewsMonitor.TwoCyclesReportDisjoint | stock_news_monitor.py:218-229 | Two consecutive cycles never report the same URL. |
| Backtest.CliTickers | backtest.py:320 | The tickers are the command-line arguments upper-cased, one for one. |
| Backtest.MainConfig | backtest.py:310-327 | The configuration `main` builds, the defining model: the upper-cased tickers one for one, the given interval and the default keywords. |
| Backtest.BuildTickerMapping | backtest.py:76-108 | The mapping's keys are exactly the configured tickers; each value is the table's entry when there is one, the ticker itself otherwise. |
| Backtest.SearchRequestFor | backtest.py:154-161 | The `get_everything` arguments: the query, English articles (`en`), sorted by `publishedAt`, the window's from and to dates, at most 20 per page. |
| Backtest.NewsMonitor.BuildSearchQuery | backtest.py:120-130 | `_build_search_query`: the query names the quoted ticker, then the quoted alias from the mapping (the ticker when the table has none), and every configured keyword quoted. |
| Backtest.UppercasedTickerKeys | backtest.py:79-108 | An upper-cased ticker can only hit the table's all-capital keys (`FUT SJC`, `CME`, `NYSE`, `B3`, `ADM`, `CARG`, `BASF`, `ILPF`); the mixed-case entries such as `Bunge` are unreachable. |
| Backtest.CliTickerAlias | backtest.py:107-108 | A command-line ticker is aliased to the table's name when its upper-cased form is an all-capital key, and to itself otherwise; so `bunge` is searched as `BUNGE`, not as `Bunge`. |
| Backtest.DefaultKeywordsShape | backtest.py:38-65 | The default list has 31 entries, none holding a double quote and none listed twice. |
| Backtest.DefaultMatchesDistinct | backtest.py:132-141 | With the default list, an article's matched keywords never repeat one. |
| Backtest.FusedHeadingsNeverMatch | backtest.py:38-65 | The group headings are glued to the next keyword, so `commodities`, `clima`, `oferta` and `Guerra` alone are never matched, whatever the text; `coringascommodities` is matched exactly when the text holds it. |
| Backtest.AdmQuery | backtest.py:310-327 | With the default interval of 60 seconds, the configuration built for `adm` on the command line gives a query that reads back as `ADM`, `Archer Daniels Midland` and all 31 keywords in list order. |
| Backtest.FirstUnexpected | backtest.py:23-30 | No unexpected argument exists if and only if every keyword argument is a declared field; otherwise the result is the first undeclared one, all arguments before it being declared. |
| Backtest.ConstructNewsArticle | backtest.py:173-181 | The dataclass call builds a record if and only if every keyword argument is a declared field; otherwise it names an undeclared argument that was passed. |
| Backtest.FetchArgumentsRejected | backtest.py:173-181 | The call in the fetch step, whatever the article, is rejected on `source`. |
| Backtest.FirstFailure | backtest.py:168-201 | The walk of the fetch step, the defining model: it can only end in the `KeyError` of a missing URL or the constructor's `TypeError` on `source`. |
| Backtest.FetchFailure | backtest.py:143-201 | The exception of one fetch, the defining model: it is the service failure exactly when the service call fails. |
| Backtest.FirstFailureNoneIff | backtest.py:168-201 | The fetch step ends without an exception if and only if every raw article has a URL that is already processed. |
| Backtest.FirstFailureAt | backtest.py:168-181 | The first raw article that is not an already-processed URL decides the exception: `KeyError` without a URL, the constructor's `TypeError` otherwise. |
| Backtest.FetchFailsUnlessEmpty | backtest.py:168-201 | From the empty processed set a fetch ends in an exception unless the reply holds no article at all. |
| Backtest.NewsMonitor.constructor | backtest.py:70-74 | The monitor starts with an empty processed set and the ticker mapping of its configured tickers. |
| Backtest.NewsMonitor.FetchNewsForTicker | backtest.py:143-201 | The fetch always returns `[]`, changes no state, and reports the exception specified for the reply. |
| Backtest.NewsMonitor.CheckNews | backtest.py:251-267 | One exception result per configured ticker, in order; the total is 0 and the summary is always "No new relevant articles found". |

## Left out

- The news-search client (`NewsApiClient.get_everything`): it is a parameter of
  the model; its network behaviour and the API key are outside the model.
- The date window: `datetime.now()` and the 7-day (backtest) or 14-day (soy)
  lookback are wall-clock values. The from/to strings are opaque inputs.
- One date window per cycle: in both variants the window passed to
  `CheckNews` serves every ticker of the cycle, while the source reads the
  clock again on every fetch (stock_news_monitor.py:124, backtest.py:150).
  A cycle that spans a change of date sends later tickers a later window,
  which the model does not capture.
- All file and `logging` output: the banners, the timestamps, the separator
  lines and the `articles.log` writes. The soy variant's alert block is
  modelled as a value (`Alert`). The backtest alert block is not modelled,
  because `process_article` is never reached there.
- Backtest `process_article`: it is unreachable, because every fetch returns
  `[]`. As written it would also fail on `article.source`, which the record
  lacks. Only its truncation, shared with the soy variant, is modelled.
- The `source` key of a raw article: the backtest call evaluates
  `article.get('source', {}).get('name', 'Unknown')` before the constructor.
  A `source` that is not a dictionary would raise `AttributeError` there
  instead of `TypeError`. The result, `[]`, is the same.
- JSON `null` values: a raw article's fields are either absent or a string.
- `Text.Lower`: covers ASCII and the Latin-1 letters only. Full Unicode case
  mapping, and lower-casing that changes the length, are not modelled.
- `Text.Upper`: covers ASCII and the Latin-1 letters only. `ß` upper-cases to
  the two letters `SS` in Python, a change of length the model does not
  capture; `ÿ` and `µ` upper-case to letters outside Latin-1. The model leaves
  all three unchanged.
- `start_monitoring`, `schedule`, `time.sleep`, `KeyboardInterrupt`, `argparse`
  and `main`: time- and signal-driven, or I/O. Only the upper-casing of the
  tickers and the configuration built from them are modelled.
- The `apikeys` module is not part of this model.
- The news service is a function of the request, so a ticker listed twice in
  one cycle (`adm ADM` on the command line gives `["ADM", "ADM"]`) gets the
  same reply both times, where the source calls the service twice and may
  get two different replies.
- The AI-analysis stub's `impact_score` (a float) and its `except` branch: the
  stub returns a constant and cannot raise.
- The soy variant assigns `config.tickers` on a shared configuration object.
  The model keeps the tickers as a field of the monitor.
- `NewsArticle.ticker` is `Optional` in the source. The fetch step always sets
  it, so the model uses a plain string.
