/** The search query `_build_search_query` sends to the news service, and a
    reader for that query format. The reader is the builder's partner: as long
    as no ticker, alias or keyword holds a double quote, it recovers exactly
    what the query was built from. */
module SearchQuery {
  import opened Text
  import opened NewsApi

  /** `f'"{s}"'`. */
  function Quoted(s: string): string
  {
    "\"" + s + "\""
  }

  function QuoteAll(items: seq<string>): (r: seq<string>)
    ensures |r| == |items|
    ensures forall i :: 0 <= i < |items| ==> r[i] == Quoted(items[i])
  {
    seq(|items|, i requires 0 <= i < |items| => Quoted(items[i]))
  }

  /** `ticker_to_company.get(ticker, ticker)`: the registered alias, or the
      ticker itself when none is registered. */
  function AliasOf(mapping: map<string, string>, ticker: string): (alias: string)
    ensures ticker in mapping ==> alias == mapping[ticker]
    ensures ticker !in mapping ==> alias == ticker
  {
    if ticker in mapping then mapping[ticker] else ticker
  }

  /** `({base_query}) AND ({keyword_query})` with `base_query` the quoted
      ticker OR the quoted alias and `keyword_query` the quoted keywords joined
      by ` OR `, in configured order. */
  function BuildQuery(ticker: string, alias: string, keywords: seq<string>): (q: string)
    ensures OccursAt(q, Quoted(ticker), 1)
    ensures OccursAt(q, Quoted(alias), |Quoted(ticker)| + 5)
    ensures forall k :: 0 <= k < |keywords| ==> Contains(q, Quoted(keywords[k]))
  {
    var q := "(" + Quoted(ticker) + " OR " + Quoted(alias) + ") AND (" + Join(" OR ", QuoteAll(keywords)) + ")";
    QueryHoldsTerms(ticker, alias, keywords, q);
    q
  }

  /** Where the quoted ticker, alias and keywords sit in a built query. */
  lemma QueryHoldsTerms(ticker: string, alias: string, keywords: seq<string>, q: string)
    requires q == "(" + Quoted(ticker) + " OR " + Quoted(alias) + ") AND (" + Join(" OR ", QuoteAll(keywords)) + ")"
    ensures OccursAt(q, Quoted(ticker), 1)
    ensures OccursAt(q, Quoted(alias), |Quoted(ticker)| + 5)
    ensures forall k :: 0 <= k < |keywords| ==> Contains(q, Quoted(keywords[k]))
  {
    var qt, qa, kq := Quoted(ticker), Quoted(alias), Join(" OR ", QuoteAll(keywords));
    OccursInMiddle("(", qt, "");
    assert "(" + qt + "" == "(" + qt;
    OccursExtended("(" + qt, " OR ", qt, 1);
    OccursExtended("(" + qt + " OR ", qa, qt, 1);
    OccursInMiddle("(" + qt + " OR ", qa, ") AND (");
    OccursExtended("(" + qt + " OR " + qa, ") AND (", qt, 1);
    var pre := "(" + qt + " OR " + qa + ") AND (";
    OccursExtended(pre, kq, qt, 1);
    OccursExtended(pre, kq, qa, |qt| + 5);
    OccursExtended(pre + kq, ")", qt, 1);
    OccursExtended(pre + kq, ")", qa, |qt| + 5);
    JoinedItemsOccur(pre, " OR ", QuoteAll(keywords), ")");
  }

  lemma JoinedItemsOccur(pre: string, sep: string, items: seq<string>, post: string)
    ensures forall k :: 0 <= k < |items| ==> Contains(pre + Join(sep, items) + post, items[k])
  {
    forall k | 0 <= k < |items|
      ensures Contains(pre + Join(sep, items) + post, items[k])
    {
      JoinHoldsItems(sep, items, k);
      var j :| OccursAt(Join(sep, items), items[k], j);
      OccursWithin(pre, Join(sep, items), post, items[k], j);
      ContainsIffOccurs(pre + Join(sep, items) + post, items[k]);
    }
  }

  // ---------------------------------------------------------------------------
  // Reading a query back

  /** What a query was built from. */
  datatype Terms = Terms(ticker: string, alias: string, keywords: seq<string>)

  /** No double quote inside, so quoting cannot be confused with the query's own quotes. */
  predicate QuoteFree(s: string)
  {
    '"' !in s
  }

  predicate AllQuoteFree(items: seq<string>)
  {
    forall i :: 0 <= i < |items| ==> QuoteFree(items[i])
  }

  lemma AllQuoteFreeConcat(a: seq<string>, b: seq<string>)
    requires AllQuoteFree(a) && AllQuoteFree(b)
    ensures AllQuoteFree(a + b)
  {
  }

  /** Splits at the first double quote: the text before it and the rest after it. */
  function ReadToQuote(s: string): (r: Option<(string, string)>)
    ensures r.Some? ==> |r.value.1| < |s|
    decreases |s|
  {
    if |s| == 0 then None
    else if s[0] == '"' then Some(("", s[1..]))
    else match ReadToQuote(s[1..])
      case None => None
      case Some((item, rest)) => Some(([s[0]] + item, rest))
  }

  /** Reads one quoted item off the front. */
  function ReadQuoted(s: string): (r: Option<(string, string)>)
    ensures r.Some? ==> |r.value.1| < |s|
  {
    if |s| > 0 && s[0] == '"' then ReadToQuote(s[1..]) else None
  }

  /** Reads `"i1" OR "i2" OR ... OR "in"`, n at least 1, off the front. */
  function ReadItems(s: string): (r: Option<(seq<string>, string)>)
    ensures r.Some? ==> |r.value.1| < |s|
    decreases |s|
  {
    match ReadQuoted(s)
    case None => None
    case Some((item, rest)) =>
      if " OR " <= rest then
        match ReadItems(rest[4..])
        case None => None
        case Some((items, tail)) => Some(([item] + items, tail))
      else Some(([item], rest))
  }

  /** Reads a possibly empty list of quoted items: empty when no quote opens it. */
  function ReadList(s: string): Option<(seq<string>, string)>
  {
    if |s| > 0 && s[0] == '"' then ReadItems(s) else Some(([], s))
  }

  /** Reads `("t" OR "a") AND ("k1" OR ... OR "kn")`. */
  function ParseQuery(q: string): Option<Terms>
  {
    if |q| == 0 || q[0] != '(' then None
    else match ReadList(q[1..])
      case None => None
      case Some((names, rest)) =>
        if |names| != 2 || !(") AND (" <= rest) then None
        else match ReadList(rest[7..])
          case None => None
          case Some((keywords, tail)) =>
            if tail == ")" then Some(Terms(names[0], names[1], keywords)) else None
  }

  lemma {:induction false} ReadToQuoteOf(a: string, rest: string)
    requires QuoteFree(a)
    ensures ReadToQuote(a + "\"" + rest) == Some((a, rest))
    decreases |a|
  {
    if |a| == 0 {
      assert a + "\"" + rest == "\"" + rest;
    } else {
      assert (a + "\"" + rest)[1..] == a[1..] + "\"" + rest;
      ReadToQuoteOf(a[1..], rest);
      assert [a[0]] + a[1..] == a;
    }
  }

  lemma ReadQuotedOf(a: string, rest: string)
    requires QuoteFree(a)
    ensures ReadQuoted(Quoted(a) + rest) == Some((a, rest))
  {
    assert (Quoted(a) + rest)[1..] == a + "\"" + rest;
    ReadToQuoteOf(a, rest);
  }

  lemma {:induction false} ReadItemsOf(items: seq<string>, rest: string)
    requires |items| >= 1 && AllQuoteFree(items)
    requires !(" OR " <= rest)
    ensures ReadItems(Join(" OR ", QuoteAll(items)) + rest) == Some((items, rest))
    decreases |items|
  {
    var q := QuoteAll(items);
    if |items| == 1 {
      ReadQuotedOf(items[0], rest);
      assert [items[0]] == items;
    } else {
      var more := Join(" OR ", QuoteAll(items[1..]));
      assert QuoteAll(items)[1..] == QuoteAll(items[1..]);
      assert Join(" OR ", q) + rest == Quoted(items[0]) + (" OR " + more + rest);
      ReadQuotedOf(items[0], " OR " + more + rest);
      assert (" OR " + more + rest)[4..] == more + rest;
      ReadItemsOf(items[1..], rest);
      assert [items[0]] + items[1..] == items;
    }
  }

  lemma ReadListOf(items: seq<string>, rest: string)
    requires AllQuoteFree(items)
    requires !(" OR " <= rest) && (|rest| == 0 || rest[0] != '"')
    ensures ReadList(Join(" OR ", QuoteAll(items)) + rest) == Some((items, rest))
  {
    if |items| == 0 {
      assert Join(" OR ", QuoteAll(items)) + rest == rest;
    } else {
      ReadItemsOf(items, rest);
      if |items| == 1 {
        assert Join(" OR ", QuoteAll(items)) == Quoted(items[0]);
      } else {
        assert QuoteAll(items)[0] == Quoted(items[0]);
      }
    }
  }

  /** Reading a built query gives back the ticker, the alias and the keywords,
      in order, whenever none of them holds a double quote. */
  lemma ParseBuildQuery(ticker: string, alias: string, keywords: seq<string>)
    requires QuoteFree(ticker) && QuoteFree(alias) && AllQuoteFree(keywords)
    ensures ParseQuery(BuildQuery(ticker, alias, keywords)) == Some(Terms(ticker, alias, keywords))
  {
    ParseQueryOf(ticker, alias, keywords, BuildQuery(ticker, alias, keywords));
  }

  lemma ParseQueryOf(ticker: string, alias: string, keywords: seq<string>, q: string)
    requires QuoteFree(ticker) && QuoteFree(alias) && AllQuoteFree(keywords)
    requires q == "(" + Quoted(ticker) + " OR " + Quoted(alias) + ") AND (" + Join(" OR ", QuoteAll(keywords)) + ")"
    ensures ParseQuery(q) == Some(Terms(ticker, alias, keywords))
  {
    var kq := Join(" OR ", QuoteAll(keywords));
    var names := [ticker, alias];
    assert QuoteAll(names)[1..] == [Quoted(alias)];
    assert Join(" OR ", QuoteAll(names)) == Quoted(ticker) + " OR " + Quoted(alias);
    var after := ") AND (" + kq + ")";
    assert q[1..] == Join(" OR ", QuoteAll(names)) + after;
    assert AllQuoteFree(names);
    assert after[0] == ')' != " OR "[0];
    ReadListOf(names, after);
    assert after[7..] == kq + ")";
    ReadListOf(keywords, ")");
  }

  /** Different quote-free terms never give the same query. */
  lemma BuildQueryInjective(t1: string, a1: string, k1: seq<string>, t2: string, a2: string, k2: seq<string>)
    requires QuoteFree(t1) && QuoteFree(a1) && AllQuoteFree(k1)
    requires QuoteFree(t2) && QuoteFree(a2) && AllQuoteFree(k2)
    requires BuildQuery(t1, a1, k1) == BuildQuery(t2, a2, k2)
    ensures t1 == t2 && a1 == a2 && k1 == k2
  {
    ParseBuildQuery(t1, a1, k1);
    ParseBuildQuery(t2, a2, k2);
  }

  /** Quotes are not escaped: an alias holding `" OR "` gives the same query
      as a different ticker/alias pair. */
  lemma QuoteInAliasCollides()
    ensures BuildQuery("A", "B\" OR \"C", ["k"]) == BuildQuery("A\" OR \"B", "C", ["k"])
  {
  }
}
