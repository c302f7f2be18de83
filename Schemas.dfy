/** The two structured results the model is asked to produce, and the
    "summary or error text" value the summarise pipelines hand back. */
module Schemas {

  /** The outcome of a research query: all four fields are present once the
      parser accepted the model's text. */
  datatype ResearchResponse = ResearchResponse(
    topic: string,
    summary: string,
    sources: seq<string>,
    toolsUsed: seq<string>)

  /** A summary of fetched, pasted or extracted content. */
  datatype ContentSummary = ContentSummary(
    title: string,
    summary: string,
    keyPoints: seq<string>,
    source: string)

  /** What a summarise pipeline returns: a parsed summary, or the error text
      shown to the user in its place. */
  datatype SummaryOrError = Summary(value: ContentSummary) | ErrorText(text: string)
}
