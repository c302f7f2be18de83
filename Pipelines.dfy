/** The three summarise pipelines: fetch a URL, take pasted text, or extract
    a PDF; then cap the content, ask the model for a summary and parse it.
    The HTTP client, the model and the output parser are parameters: each is
    a function from its input to what it returns or the message of the
    exception it raises. */
module Pipelines {
  import opened Wrappers
  import opened Schemas
  import opened Lines
  import opened Decimal
  import opened Truncation
  import opened PdfText

  /** The part of an HTTP response the pipeline reads. */
  datatype Response = Response(statusCode: nat, text: string)

  /** The collaborators of the pipelines. `fetch` is the GET with the
      browser-like headers and the 15-second timeout; `complete` is the
      summary prompt piped into the model, giving the text of its reply;
      `parse` is the ContentSummary output parser. */
  datatype Services = Services(
    fetch: string -> Result<Response>,
    complete: string -> Result<string>,
    parse: string -> Result<ContentSummary>)

  const STATUS_OK: nat := 200
  const URL_ERROR: string := "Error processing URL: "
  const TEXT_ERROR: string := "Error processing text: "
  const PDF_ERROR: string := "Error processing PDF: "

  const STATUS_ERROR: string := "Error: Unable to fetch content (Status code: "

  /** The message for a response whose status is not 200. */
  function StatusError(code: nat): string
  {
    STATUS_ERROR + NatToString(code) + ")"
  }

  /** Truncate, ask the model, parse its reply: the steps all three
      pipelines share. */
  function Summarize(content: string, svc: Services): Result<ContentSummary>
  {
    var reply :- svc.complete(Truncate(content));
    svc.parse(reply)
  }

  /** The caught exception becomes `prefix` followed by its message. */
  function Tagged(outcome: Result<ContentSummary>, prefix: string): (r: SummaryOrError)
    ensures r.Summary? <==> outcome.Ok?
    ensures outcome.Ok? ==> r.value == outcome.value
    ensures outcome.Err? ==> StartsWith(r.text, prefix) && r.text[|prefix|..] == outcome.message
  {
    match outcome
    case Ok(summary) => Summary(summary)
    case Err(message) => ErrorText(prefix + message)
  }

  /** `summarize_url_content(url)` */
  function SummarizeUrlContent(url: string, svc: Services): (r: SummaryOrError)
    ensures r.Summary? <==>
              svc.fetch(url).Ok? && svc.fetch(url).value.statusCode == STATUS_OK &&
              Summarize(svc.fetch(url).value.text, svc).Ok?
    ensures r.Summary? ==> r.value == Summarize(svc.fetch(url).value.text, svc).value
    ensures svc.fetch(url).Ok? && svc.fetch(url).value.statusCode != STATUS_OK ==>
              r == ErrorText(StatusError(svc.fetch(url).value.statusCode))
    ensures r.ErrorText? && (svc.fetch(url).Err? || svc.fetch(url).value.statusCode == STATUS_OK) ==>
              StartsWith(r.text, URL_ERROR)
  {
    match svc.fetch(url)
    case Err(message) => ErrorText(URL_ERROR + message)
    case Ok(response) =>
      if response.statusCode == STATUS_OK then Tagged(Summarize(response.text, svc), URL_ERROR)
      else ErrorText(StatusError(response.statusCode))
  }

  /** `summarize_text_input(text, url)`; `url` None stands for the default
      argument, and only a non-empty string replaces the parsed source. */
  function SummarizeTextInput(text: string, url: Option<string>, svc: Services): (r: SummaryOrError)
    ensures r.Summary? <==> Summarize(text, svc).Ok?
    ensures r.Summary? && url.Some? && url.value != "" ==>
              var parsed := Summarize(text, svc).value;
              r.value.source == url.value && r.value.title == parsed.title &&
              r.value.summary == parsed.summary && r.value.keyPoints == parsed.keyPoints
    ensures r.Summary? && (url.None? || url.value == "") ==> r.value == Summarize(text, svc).value
    ensures r.ErrorText? ==> StartsWith(r.text, TEXT_ERROR)
  {
    match Summarize(text, svc)
    case Err(message) => ErrorText(TEXT_ERROR + message)
    case Ok(parsed) =>
      if url.Some? && url.value != "" then Summary(parsed.(source := url.value)) else Summary(parsed)
  }

  /** `summarize_pdf_content(pdf_file)`: `pdf` is the outcome of opening the
      document, and on success the outcome of extracting each page. */
  function SummarizePdfContent(pdf: Result<seq<Result<string>>>, svc: Services): (r: SummaryOrError)
    ensures r.Summary? <==>
              pdf.Ok? && ExtractText(pdf.value).Ok? && Summarize(ExtractText(pdf.value).value, svc).Ok?
    ensures r.ErrorText? ==> StartsWith(r.text, PDF_ERROR)
    ensures pdf.Err? ==> r == ErrorText(PDF_ERROR + pdf.message)
  {
    match pdf
    case Err(message) => ErrorText(PDF_ERROR + message)
    case Ok(pages) =>
      match ExtractText(pages)
      case Err(message) => ErrorText(PDF_ERROR + message)
      case Ok(text) => Tagged(Summarize(text, svc), PDF_ERROR)
  }

  /** A status other than 200 decides the outcome alone: the model and the
      parser are never consulted. */
  lemma UrlStatusGate(url: string, svc: Services, other: Services)
    requires svc.fetch(url) == other.fetch(url)
    requires svc.fetch(url).Ok? && svc.fetch(url).value.statusCode != STATUS_OK
    ensures SummarizeUrlContent(url, svc) == SummarizeUrlContent(url, other)
    ensures SummarizeUrlContent(url, svc) == ErrorText(StatusError(svc.fetch(url).value.statusCode))
  {
  }

  /** The status code can be read back from its error message. */
  lemma StatusErrorNamesCode(code: nat)
    ensures var e := StatusError(code);
            StartsWith(e, STATUS_ERROR) && e[|e| - 1] == ')' &&
            |e| == |STATUS_ERROR| + |NatToString(code)| + 1 &&
            DigitsValue(e[|STATUS_ERROR|..|e| - 1]) == code
  {
    var e := StatusError(code);
    assert e[|STATUS_ERROR|..|e| - 1] == NatToString(code);
    NatToStringRoundTrip(code);
  }

  /** A 403 response is reported with its code. */
  lemma Forbidden(url: string, svc: Services)
    requires svc.fetch(url).Ok? && svc.fetch(url).value.statusCode == 403
    ensures SummarizeUrlContent(url, svc) == ErrorText("Error: Unable to fetch content (Status code: 403)")
  {
    assert NatToString(403) == NatToString(40) + ['3'];
    assert NatToString(40) == NatToString(4) + ['0'];
  }

  /** A 200 response is summarised exactly as the same text pasted without a
      label would be; only the error prefix differs. */
  lemma UrlAgreesWithPastedBody(url: string, svc: Services)
    requires svc.fetch(url).Ok? && svc.fetch(url).value.statusCode == STATUS_OK
    ensures var byUrl := SummarizeUrlContent(url, svc);
            var byText := SummarizeTextInput(svc.fetch(url).value.text, None, svc);
            (byUrl.Summary? <==> byText.Summary?) &&
            (byUrl.Summary? ==> byUrl.value == byText.value) &&
            (byUrl.ErrorText? ==> byUrl.text[|URL_ERROR|..] == byText.text[|TEXT_ERROR|..])
  {
  }

  /** A non-empty origin label changes nothing but the source of a successful
      summary. */
  lemma LabelOnlySetsSource(text: string, origin: string, svc: Services)
    requires origin != ""
    ensures var labelled := SummarizeTextInput(text, Some(origin), svc);
            var plain := SummarizeTextInput(text, None, svc);
            labelled == (if plain.Summary? then Summary(plain.value.(source := origin)) else plain)
  {
  }

  /** Only the capped content reaches the model: in the pasted-text
      pipeline, a model that agrees on that one string gives the same
      outcome. */
  lemma ModelSeesTruncatedContent(text: string, url: Option<string>, svc: Services, complete: string -> Result<string>)
    requires complete(Truncate(text)) == svc.complete(Truncate(text))
    ensures SummarizeTextInput(text, url, svc.(complete := complete)) == SummarizeTextInput(text, url, svc)
    ensures |Truncate(text)| <= MAX_CONTENT_LENGTH + |TRUNCATION_MARKER|
  {
  }

  /** The first page that fails to extract decides the error, whatever the
      model would have said. */
  lemma PdfPageFailure(pages: seq<Result<string>>, k: nat, svc: Services)
    requires k < |pages| && pages[k].Err? && AllExtracted(pages[..k])
    ensures SummarizePdfContent(Ok(pages), svc) == ErrorText(PDF_ERROR + pages[k].message)
  {
    ExtractTextFirstFailure(pages, k);
  }

  /** When every page extracts, the model is given the pages joined in
      order, each followed by a newline. */
  lemma PdfSummarisesJoinedPages(pages: seq<Result<string>>, svc: Services)
    requires AllExtracted(pages)
    ensures SummarizePdfContent(Ok(pages), svc) ==
              Tagged(Summarize(Terminated("", PageTexts(pages)), svc), PDF_ERROR)
  {
    ExtractTextJoinsPages(pages);
  }

  /** The page pastes its text with the URL field as label, or "Manual
      input" when that is empty, so a pasted summary always carries one of
      the two as its source. */
  function PastedLabel(url: string): (origin: string)
    ensures origin != ""
    ensures url != "" ==> origin == url
    ensures url == "" ==> origin == "Manual input"
  {
    if url != "" then url else "Manual input"
  }

  lemma PastedSummarySource(text: string, url: string, svc: Services)
    ensures var r := SummarizeTextInput(text, Some(PastedLabel(url)), svc);
            r.Summary? ==> r.value.source == (if url != "" then url else "Manual input")
  {
  }
}
