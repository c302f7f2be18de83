/** The page's session state: the last research result, the last URL or
    pasted-text summary, the last PDF summary and the last report file
    written, with the actions that set them and the action that clears them. */
module Session {
  import opened Wrappers
  import opened Schemas
  import opened Lines
  import opened Filenames
  import opened Reports
  import opened Pipelines

  const RESEARCH_ERROR: string := "Error processing research: "

  /** What the "Start Research" action shows: a warning for an empty query,
      an error, or the report that was written and where. */
  datatype ResearchOutcome =
    | TopicMissing
    | ResearchFailed(message: string)
    | ReportSaved(path: string, report: string)

  /** The agent's final text parsed into a research result. */
  function ResearchResult(query: string, agent: string -> Result<string>,
                          parseResearch: string -> Result<ResearchResponse>): Result<ResearchResponse>
  {
    var output :- agent(query);
    parseResearch(output)
  }

  class SessionState {
    var researchResults: Option<ResearchResponse>
    var linkSummary: Option<SummaryOrError>
    var pdfSummary: Option<SummaryOrError>
    var lastSavedFile: Option<string>

    predicate Cleared()
      reads this
    {
      researchResults.None? && linkSummary.None? && pdfSummary.None? && lastSavedFile.None?
    }

    /** The stored report file, if any, is the one written for the stored
        research result: what the download under the results relies on. */
    predicate FileMatchesResults()
      reads this
    {
      lastSavedFile.Some? && researchResults.Some? ==>
        lastSavedFile.value == ResearchFileName(researchResults.value.topic)
    }

    /** A new session starts with nothing stored. */
    constructor ()
      ensures Cleared()
    {
      researchResults := None;
      linkSummary := None;
      pdfSummary := None;
      lastSavedFile := None;
    }

    /** "Clear All Results": every stored result is dropped. */
    method ClearAllResults()
      modifies this
      ensures Cleared()
    {
      researchResults := None;
      linkSummary := None;
      pdfSummary := None;
      lastSavedFile := None;
    }

    /** "Start Research": run the agent on a non-empty query, parse its
        final text, store the result, then write the report to
        `<topic base name>.txt` and remember that path. `write` stands for
        opening and writing the file. */
    method StartResearch(query: string, agent: string -> Result<string>,
                         parseResearch: string -> Result<ResearchResponse>,
                         write: (string, string) -> Result<()>)
      returns (outcome: ResearchOutcome)
      modifies this
      ensures linkSummary == old(linkSummary) && pdfSummary == old(pdfSummary)
      ensures query == "" ==> outcome == TopicMissing && unchanged(this)
      ensures query != "" && ResearchResult(query, agent, parseResearch).Err? ==>
                outcome == ResearchFailed(RESEARCH_ERROR + ResearchResult(query, agent, parseResearch).message) &&
                unchanged(this)
      ensures query != "" && ResearchResult(query, agent, parseResearch).Ok? ==>
                var r := ResearchResult(query, agent, parseResearch).value;
                var path := ResearchFileName(r.topic);
                researchResults == Some(r) &&
                (write(path, ResearchReport(r)).Ok? ==>
                   outcome == ReportSaved(path, ResearchReport(r)) && lastSavedFile == Some(path)) &&
                (write(path, ResearchReport(r)).Err? ==>
                   outcome == ResearchFailed(RESEARCH_ERROR + write(path, ResearchReport(r)).message) &&
                   lastSavedFile == old(lastSavedFile))
    {
      if query == "" {
        return TopicMissing;
      }
      match ResearchResult(query, agent, parseResearch)
      case Err(message) =>
        outcome := ResearchFailed(RESEARCH_ERROR + message);
      case Ok(r) =>
        researchResults := Some(r);
        var path := ResearchFileName(r.topic);
        var report := WriteResearchReport(r);
        match write(path, report)
        case Err(message) =>
          outcome := ResearchFailed(RESEARCH_ERROR + message);
        case Ok(_) =>
          lastSavedFile := Some(path);
          outcome := ReportSaved(path, report);
    }

    /** "Start Research" as it is evidently meant to behave: when the report
        cannot be written, the path of an earlier report is forgotten rather
        than left beside the new result. */
    method StartResearchInSync(query: string, agent: string -> Result<string>,
                               parseResearch: string -> Result<ResearchResponse>,
                               write: (string, string) -> Result<()>)
      returns (outcome: ResearchOutcome)
      requires FileMatchesResults()
      modifies this
      ensures FileMatchesResults()
      ensures linkSummary == old(linkSummary) && pdfSummary == old(pdfSummary)
      ensures query == "" ==> outcome == TopicMissing && unchanged(this)
      ensures query != "" && ResearchResult(query, agent, parseResearch).Err? ==>
                outcome == ResearchFailed(RESEARCH_ERROR + ResearchResult(query, agent, parseResearch).message) &&
                unchanged(this)
      ensures query != "" && ResearchResult(query, agent, parseResearch).Ok? ==>
                var r := ResearchResult(query, agent, parseResearch).value;
                var path := ResearchFileName(r.topic);
                researchResults == Some(r) &&
                (write(path, ResearchReport(r)).Ok? ==>
                   outcome == ReportSaved(path, ResearchReport(r)) && lastSavedFile == Some(path)) &&
                (write(path, ResearchReport(r)).Err? ==>
                   outcome == ResearchFailed(RESEARCH_ERROR + write(path, ResearchReport(r)).message) &&
                   lastSavedFile == None)
    {
      if query == "" {
        return TopicMissing;
      }
      match ResearchResult(query, agent, parseResearch)
      case Err(message) =>
        outcome := ResearchFailed(RESEARCH_ERROR + message);
      case Ok(r) =>
        researchResults := Some(r);
        var path := ResearchFileName(r.topic);
        var report := WriteResearchReport(r);
        match write(path, report)
        case Err(message) =>
          lastSavedFile := None;
          outcome := ResearchFailed(RESEARCH_ERROR + message);
        case Ok(_) =>
          lastSavedFile := Some(path);
          outcome := ReportSaved(path, report);
    }

    /** "Summarize URL": a non-empty URL is fetched and summarised; the
        summary or its error text replaces the stored link summary. */
    method SummarizeUrl(url: string, svc: Services)
      modifies this
      ensures url != "" ==> linkSummary == Some(SummarizeUrlContent(url, svc))
      ensures url == "" ==> linkSummary == old(linkSummary)
      ensures researchResults == old(researchResults) && pdfSummary == old(pdfSummary)
      ensures lastSavedFile == old(lastSavedFile)
    {
      if url != "" {
        linkSummary := Some(SummarizeUrlContent(url, svc));
      }
    }

    /** "Summarize Pasted Content": non-empty pasted text is summarised with
        the URL field, or "Manual input", as its source. */
    method SummarizePasted(url: string, manualText: string, svc: Services)
      modifies this
      ensures manualText != "" ==> linkSummary == Some(SummarizeTextInput(manualText, Some(PastedLabel(url)), svc))
      ensures manualText == "" ==> linkSummary == old(linkSummary)
      ensures researchResults == old(researchResults) && pdfSummary == old(pdfSummary)
      ensures lastSavedFile == old(lastSavedFile)
    {
      if manualText != "" {
        linkSummary := Some(SummarizeTextInput(manualText, Some(PastedLabel(url)), svc));
      }
    }

    /** "Summarize PDF": an uploaded document is summarised; the summary or
        its error text replaces the stored PDF summary. */
    method SummarizePdf(upload: Option<Result<seq<Result<string>>>>, svc: Services)
      modifies this
      ensures upload.Some? ==> pdfSummary == Some(SummarizePdfContent(upload.value, svc))
      ensures upload.None? ==> pdfSummary == old(pdfSummary)
      ensures researchResults == old(researchResults) && linkSummary == old(linkSummary)
      ensures lastSavedFile == old(lastSavedFile)
    {
      if upload.Some? {
        pdfSummary := Some(SummarizePdfContent(upload.value, svc));
      }
    }

    /** The download offered under a stored link summary: its file name and
        text; nothing when no summary is stored or it is an error. */
    method LinkDownload() returns (download: Option<(string, string)>)
      ensures download.Some? <==> linkSummary.Some? && linkSummary.value.Summary?
      ensures download.Some? ==>
                download.value == (ContentSummaryFileName(linkSummary.value.value.title),
                                   SummaryText(linkSummary.value.value))
    {
      download := None;
      if linkSummary.Some? && linkSummary.value.Summary? {
        var s := linkSummary.value.value;
        var text := BuildSummaryText(s);
        download := Some((ContentSummaryFileName(s.title), text));
      }
    }

    /** The download offered under a stored PDF summary. */
    method PdfDownload() returns (download: Option<(string, string)>)
      ensures download.Some? <==> pdfSummary.Some? && pdfSummary.value.Summary?
      ensures download.Some? ==>
                download.value == (PdfSummaryFileName(pdfSummary.value.value.title),
                                   SummaryText(pdfSummary.value.value))
    {
      download := None;
      if pdfSummary.Some? && pdfSummary.value.Summary? {
        var s := pdfSummary.value.value;
        var text := BuildSummaryText(s);
        download := Some((PdfSummaryFileName(s.title), text));
      }
    }
  }

  /** As written, a report that cannot be written leaves the previous
      report's path beside the new result. Researching a topic whose name is
      writable, then one whose name holds a '?' on a file system that refuses
      '?' in names ("Telegraph", then "What is AI?" on Windows), leaves the
      first topic's file offered under the second topic's result. */
  method StaleReportFile(earlier: string, later: string) returns (s: SessionState)
    requires earlier != "" && later != ""
    requires '?' !in earlier && '?' in Prefix(later, NAME_LENGTH)
    ensures s.researchResults == Some(ResearchResponse(later, "", [], []))
    ensures s.lastSavedFile == Some(ResearchFileName(earlier))
    ensures !s.FileMatchesResults()
  {
    s := new SessionState();
    var agent := (query: string) => Ok(query);
    var parseResearch := (output: string) => Ok(ResearchResponse(output, "", [], []));
    var write := (path: string, content: string) =>
      if '?' in path then Err("[Errno 22] Invalid argument") else Ok(());
    FileNameKeeps(earlier, '?');
    FileNameKeeps(later, '?');
    assert '?' !in Prefix(earlier, NAME_LENGTH);
    var first := s.StartResearch(earlier, agent, parseResearch, write);
    var second := s.StartResearch(later, agent, parseResearch, write);
  }
}
