/** The external news-search service as the monitor sees it: the request it
    sends and the reply it gets back. The service itself is not modelled; its
    reply is an input. */
module NewsApi {

  datatype Option<T> = None | Some(value: T)
  {
    /** Python's `d.get(key, default)` for a key that may be absent. */
    function GetOr(default: T): T
    {
      match this
      case Some(v) => v
      case None => default
    }
  }

  /** One raw article of the reply: a dictionary whose keys may be absent. */
  datatype RawArticle = RawArticle(
    title: Option<string>,
    url: Option<string>,
    publishedAt: Option<string>,
    description: Option<string>)

  /** The reply of `get_everything`: the call raised (network, authentication,
      quota), or it returned a dictionary that may lack the `articles` key. */
  datatype ApiReply = ApiFailure | Response(articles: Option<seq<RawArticle>>)

  /** `articles.get('articles', [])`. */
  function ArticlesOf(reply: ApiReply): (raws: seq<RawArticle>)
    requires reply.Response?
    ensures reply.articles.None? ==> raws == []
    ensures reply.articles.Some? ==> raws == reply.articles.value
  {
    reply.articles.GetOr([])
  }

  /** The date window of a search, as the two `%Y-%m-%d` strings the monitor
      computes from the wall clock. */
  datatype DateWindow = DateWindow(fromDate: string, toDate: string)

  /** The arguments of one `get_everything` call. */
  datatype SearchRequest = SearchRequest(
    query: string,
    language: string,
    sortBy: string,
    fromDate: string,
    toDate: string,
    pageSize: nat)

  /** The news service: a reply for every request. */
  type NewsService = SearchRequest -> ApiReply
}
