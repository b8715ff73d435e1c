/** What the monitor writes: the description line of the alert block
    `process_article` writes for a matched article, the analysis stub's reply,
    and the summary line that closes a `check_news` cycle. */
module ArticleSink {
  import opened NewsApi

  /** Descriptions longer than this many characters are cut. */
  const DescriptionLimit: nat := 200

  /** `desc[:200] + "..." if len(desc) > 200 else desc`. */
  function TruncateDescription(desc: string): (r: string)
    ensures |r| <= DescriptionLimit + 3
    ensures |desc| <= DescriptionLimit ==> r == desc
    ensures |desc| > DescriptionLimit ==>
              |r| == DescriptionLimit + 3 && r[..DescriptionLimit] == desc[..DescriptionLimit] && r[DescriptionLimit..] == "..."
  {
    if |desc| > DescriptionLimit then desc[..DescriptionLimit] + "..." else desc
  }

  /** `if article.description:` a description line is written only for a
      non-empty description, and it holds the truncated text. */
  function DescriptionLine(description: string): (line: Option<string>)
    ensures line.None? <==> description == ""
    ensures line.Some? ==> line.value == TruncateDescription(description) && line.value != ""
  {
    if description == "" then None else Some(TruncateDescription(description))
  }

  /** The reply of the `analyze_with_ai` stub: the same for every URL (its
      numeric `impact_score` is not modelled). */
  datatype AiResult = AiResult(sentiment: string, summary: string, recommendation: string)

  function AnalyzeWithAi(url: string): (r: AiResult)
    ensures r.sentiment == "neutral" && r.recommendation == "monitor"
    ensures r.summary == "AI analysis not yet implemented"
  {
    AiResult("neutral", "AI analysis not yet implemented", "monitor")
  }

  /** The closing line of `check_news`: "No new relevant articles found" or
      "Found N new relevant articles". */
  datatype Summary = NoneFound | Found(count: nat)

  function SummaryOf(total: nat): (s: Summary)
    ensures s.NoneFound? <==> total == 0
    ensures s.Found? ==> s.count == total
  {
    if total == 0 then NoneFound else Found(total)
  }
}
