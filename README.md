# Enhanced Research Assistant — the deterministic core, in Dafny

The Enhanced Research Assistant is a Streamlit page. It sends a research query to a
tool-calling language-model agent, summarises a fetched URL, pasted text or an
uploaded PDF, and offers the results as plain-text downloads. Almost all of it is
calls into other libraries. This project models the deterministic layer of
`main.py` that sits between those calls, and proves its properties:

- **Truncation** (`Truncation`): content longer than 50,000 characters keeps its
  first 50,000 characters and gets the 23-character marker `... (content truncated)`.
- **File names** (`Filenames`): the first 20 characters of a topic or title, with
  `' '` and `'/'` replaced by `'_'`. Research reports are written to `<base>.txt`.
  Summaries download as `content_summary_<base>.txt` or `pdf_summary_<base>.txt`.
- **Report texts** (`Reports`, over `Lines`): the research report written to disk and
  the content-summary text offered for download. Each is a specification function.
  A method builds the text line by line with loops, as the page does, and is proved
  equal to that function. A decoder reads the text back, and a round-trip lemma
  shows that, when no field except the summary's source contains a line break,
  the text determines the record, lists in order.
- **PDF text** (`PdfText`): each page's text followed by `"\n"`, in page order. The
  first page whose extraction raises aborts the extraction.
- **The three summarise pipelines** (`Pipelines`): URL, pasted text and PDF. The
  HTTP GET, the prompt-plus-model call and the output parser are function-typed
  fields of a `Services` record. Each returns the text it produced or the message of
  the exception it raised. A pipeline returns `Summary(...)` or `ErrorText(...)`.
  This tag replaces the page's `isinstance(summary, str)` test.
- **Session state** (`Session`): a class with the four session fields, the actions
  that set them, the downloads read from them, and "Clear All Results".

`Wrappers` holds `Option` and `Result`. `Decimal` renders an HTTP status code as
the f-string does and proves the rendering can be read back.

## Model

| member | source | states |
|---|---|---|
| Truncation.Truncate | wiki_pedia_data_retrieve-main/main.py:115-116 | result is at most 50,023 characters; text within 50,000 characters is returned unchanged; longer text becomes exactly its first 50,000 characters followed by the marker (length 50,023) |
| Truncation.TruncateIdempotent | wiki_pedia_data_retrieve-main/main.py:132-133 | truncating an already truncated text changes nothing |
| Truncation.TruncateFixedPoints | wiki_pedia_data_retrieve-main/main.py:157-158 | truncation leaves a text unchanged iff it is within the cap, or is already a 50,000-character prefix followed by the marker |
| Truncation.TruncateKeepsPrefix | wiki_pedia_data_retrieve-main/main.py:115-116 | every character among the first 50,000 survives truncation at its position |
| Filenames.ReplaceChar | wiki_pedia_data_retrieve-main/main.py:194 | `str.replace` of one character: same length; each position holds the replacement where the input held the replaced character, the input character elsewhere |
| Filenames.BaseName | wiki_pedia_data_retrieve-main/main.py:194 | length is min(length of title, 20); no space and no slash; position i holds `'_'` where the title holds a space or slash and the title's character otherwise |
| Filenames.BaseNameIdempotent | wiki_pedia_data_retrieve-main/main.py:194 | sanitising a sanitised name changes nothing |
| Filenames.BaseNameCollision | wiki_pedia_data_retrieve-main/main.py:194-196 | titles that agree on their first 20 characters, up to spaces, slashes and underscores, get the same base name, so the second report overwrites the first |
| Filenames.ResearchFileName | wiki_pedia_data_retrieve-main/main.py:194-195 | the sanitised prefix followed by `.txt`; no space and no `/`, so on a POSIX file system the file is written into the working directory (a `\` or a drive prefix is not replaced) |
| Filenames.ContentSummaryFileName | wiki_pedia_data_retrieve-main/main.py:292 | `content_summary_`, then the sanitised 20-character title prefix, then `.txt`; no space and no slash |
| Filenames.PdfSummaryFileName | wiki_pedia_data_retrieve-main/main.py:332 | `pdf_summary_`, then the sanitised 20-character title prefix, then `.txt`; no space and no slash |
| Filenames.TelegraphFileName | wiki_pedia_data_retrieve-main/main.py:194-195 | the topic "History of the Telegraph" is written to `History_of_the_Teleg.txt` |
| Filenames.FileNameKeeps | wiki_pedia_data_retrieve-main/main.py:194-195 | a character other than space, slash, underscore and those of `.txt` occurs in the file name iff it occurs among the topic's first 20 characters |
| Lines.TerminatedSnoc | wiki_pedia_data_retrieve-main/main.py:200-201 | writing one more item appends exactly its line `lead + item + "\n"` |
| Lines.TerminatedLength | wiki_pedia_data_retrieve-main/main.py:284-285 | the bulleted text is as long as the items together plus the lead and a newline per item |
| Lines.ParseTerminatedRoundTrip | wiki_pedia_data_retrieve-main/main.py:200-204 | with a non-empty lead that holds no line break, newline-free items written one line each read back as the same items in the same order, and the text after them is left unread provided it is empty or starts with a line break (a following line that starts with the lead would be read as one more item) |
| Reports.WriteResearchReport | wiki_pedia_data_retrieve-main/main.py:197-204 | the text written line by line is the research report: `Research Topic: ` + topic, a blank line, `Summary:` and the summary, a blank line, `Sources:`, one `- s` line per source in order, a blank line, `Tools Used:`, one `- t` line per tool in order |
| Reports.BuildSummaryText | wiki_pedia_data_retrieve-main/main.py:281-286 | the text grown line by line is `Title: ` + title, a blank line, `Summary:` and the summary, a blank line, `Key Points:`, one `- p` line per key point in order, a blank line, `Source: ` + source |
| Reports.ResearchReportRoundTrip | wiki_pedia_data_retrieve-main/main.py:197-204 | when topic, summary, sources and tools hold no line break, the report decodes back to the same research result |
| Reports.SourcesAndToolsRoundTrip | wiki_pedia_data_retrieve-main/main.py:199-204 | the two bullet lists, separated by the `Tools Used:` heading, read back as the same two lists in order |
| Reports.SummaryTextRoundTrip | wiki_pedia_data_retrieve-main/main.py:321-326 | when title, summary and key points hold no line break, the summary text decodes back to the same summary; the source, written last, may hold anything |
| PdfText.ExtractPdfText | wiki_pedia_data_retrieve-main/main.py:152-154 | the accumulation loop returns the extraction outcome: the joined page texts, or the first page's exception |
| PdfText.ExtractTextJoinsPages | wiki_pedia_data_retrieve-main/main.py:152-154 | when every page extracts, the text is the concatenation over pages, in order, of the page's text followed by a newline |
| PdfText.ExtractTextFirstFailure | wiki_pedia_data_retrieve-main/main.py:153-154 | the first page whose extraction raises decides the error; no partial text is returned |
| PdfText.JoinedLength | wiki_pedia_data_retrieve-main/main.py:153-154 | the joined text's length is the sum of the page-text lengths plus the number of pages |
| PdfText.ThreePages | wiki_pedia_data_retrieve-main/main.py:153-154 | three pages a, b, c give `a\nb\nc\n` |
| Decimal.NatToString | wiki_pedia_data_retrieve-main/main.py:124 | the rendered status code is a non-empty string of digits without a leading zero |
| Decimal.NatToStringRoundTrip | wiki_pedia_data_retrieve-main/main.py:124 | reading the digits back gives the code |
| Decimal.NatToStringInjective | wiki_pedia_data_retrieve-main/main.py:124 | different codes render differently |
| Pipelines.Tagged | wiki_pedia_data_retrieve-main/main.py:125-126 | a caught exception becomes the prefix followed by its message; a parsed summary passes through untouched |
| Pipelines.SummarizeUrlContent | wiki_pedia_data_retrieve-main/main.py:96-126 | a summary comes back iff the GET returned, its status is 200, and the shared `Summarize` step (truncate, model call, parse) succeeded on the body; a status other than 200 gives `StatusError(code)`; every other failure gives text starting `Error processing URL: ` |
| Pipelines.SummarizeTextInput | wiki_pedia_data_retrieve-main/main.py:129-146 | a summary comes back iff the shared `Summarize` step (truncate, model call, parse) succeeds on the text; with a non-empty url its source is the url and title, summary and key points are the parsed ones; without one the parsed summary is returned untouched; failures start with `Error processing text: ` |
| Pipelines.SummarizePdfContent | wiki_pedia_data_retrieve-main/main.py:149-166 | a summary comes back iff the reader opened the document, every page extracted and the shared `Summarize` step (truncate, model call, parse) succeeded on the joined text; every failure starts with `Error processing PDF: ` |
| Pipelines.UrlStatusGate | wiki_pedia_data_retrieve-main/main.py:112-124 | with a status other than 200 the outcome is the status message whatever the model and parser would do: they are not consulted |
| Pipelines.StatusErrorNamesCode | wiki_pedia_data_retrieve-main/main.py:124 | `StatusError(code)`, the status message, is `Error: Unable to fetch content (Status code: `, the code's digits, `)`, and the code can be read back from it |
| Pipelines.Forbidden | wiki_pedia_data_retrieve-main/main.py:123-124 | a 403 response yields exactly `Error: Unable to fetch content (Status code: 403)` |
| Pipelines.UrlAgreesWithPastedBody | wiki_pedia_data_retrieve-main/main.py:112-122 | on status 200 the URL pipeline succeeds iff summarising the body as unlabelled pasted text does, with the same summary, and fails with the same message after its own prefix |
| Pipelines.LabelOnlySetsSource | wiki_pedia_data_retrieve-main/main.py:140-144 | a non-empty label turns the unlabelled outcome into the same summary with its source replaced, and leaves an error unchanged |
| Pipelines.ModelSeesTruncatedContent | wiki_pedia_data_retrieve-main/main.py:131-138 | the model is consulted only on the truncated content, which is at most 50,023 characters: in the pasted-text pipeline, any model agreeing there gives the same outcome |
| Pipelines.PdfPageFailure | wiki_pedia_data_retrieve-main/main.py:151-154 | when page k is the first whose extraction raises, the result is `Error processing PDF: ` and that page's message |
| Pipelines.PdfSummarisesJoinedPages | wiki_pedia_data_retrieve-main/main.py:152-164 | when every page extracts, the model is given the pages joined in order, each followed by a newline |
| Pipelines.PastedLabel | wiki_pedia_data_retrieve-main/main.py:261 | pasted text is labelled with the URL field when it is non-empty, and with `Manual input` otherwise; the label is never empty |
| Pipelines.PastedSummarySource | wiki_pedia_data_retrieve-main/main.py:261 | a summary of pasted text always has the URL field, or `Manual input`, as its source |
| Session.SessionState.constructor | wiki_pedia_data_retrieve-main/main.py:32-39 | a new session holds no research result, no link summary, no PDF summary and no saved file |
| Session.SessionState.ClearAllResults | wiki_pedia_data_retrieve-main/main.py:337-341 | after "Clear All Results" all four session fields are None |
| Session.SessionState.StartResearch | wiki_pedia_data_retrieve-main/main.py:182-211 | empty query: warning, nothing changes; agent or parse failure (the `ResearchResult` step, agent then parser): `Error processing research: ` + message, nothing changes; otherwise the result is stored, and the report goes to `ResearchFileName(topic)`, whose path is stored when the write succeeds and is left as it was when the write raises; the summaries never change |
| Session.SessionState.StartResearchInSync | wiki_pedia_data_retrieve-main/main.py:191-206 | the same action with a failed write forgetting the stored path; it keeps the stored path equal to the stored result's file name |
| Session.StaleReportFile | wiki_pedia_data_retrieve-main/main.py:190-206 | as written, a successful report followed by one whose write raises leaves the first report's path beside the second result |
| Session.SessionState.SummarizeUrl | wiki_pedia_data_retrieve-main/main.py:249-255 | a non-empty URL stores the URL pipeline's outcome as the link summary; an empty one changes nothing; other fields never change |
| Session.SessionState.SummarizePasted | wiki_pedia_data_retrieve-main/main.py:258-264 | non-empty pasted text stores the text pipeline's outcome, labelled with the URL or `Manual input`; other fields never change |
| Session.SessionState.SummarizePdf | wiki_pedia_data_retrieve-main/main.py:301-304 | an uploaded document stores the PDF pipeline's outcome; other fields never change |
| Session.SessionState.LinkDownload | wiki_pedia_data_retrieve-main/main.py:280-294 | a download is offered iff a link summary that is not an error is stored; it is `content_summary_<base>.txt` with the summary text |
| Session.SessionState.PdfDownload | wiki_pedia_data_retrieve-main/main.py:320-334 | a download is offered iff a PDF summary that is not an error is stored; it is `pdf_summary_<base>.txt` with the summary text |

## Left out

- The Streamlit page itself: titles, tabs, columns, buttons, spinners, warnings, the rendering of results, `st.experimental_rerun`. Each button's action is a method of `SessionState`, called when the button is pressed.
- The Gemini client and its `temperature=0.7`, the two prompt templates and the parsers' format instructions. The summary prompt piped into the model is the function `Services.complete`, from content to reply text.
- The tool-calling research agent (`create_tool_calling_agent`, `AgentExecutor`) and the search, encyclopedia and save tools. The `tools` module is not part of this model, and the model's own function calling decides the loop. `StartResearch` takes the agent as a function from the query to its final output, or to the exception it raises.
- The internals of `PydanticOutputParser` (JSON and schema validation). Parsing is a function from text to a record or an exception message.
- `requests.get`, its header set and its 15-second timeout. The GET is `Services.fetch`, which gives the status code and body, or the exception message. Status codes are non-negative, so they are `nat`.
- `PyPDF2.PdfReader` and `extract_text`. A document is the outcome of opening it, then one outcome per page.
- Opening, writing and reading files. `StartResearch` takes the write as a function that succeeds or raises. The report is written as a single call, so a write that fails half-way through is not modelled. Reading the saved report back for the download is not modelled.
- `load_dotenv` and the API key.
- `SummarizeUrlContent`, `SummarizeTextInput`, `SummarizePdfContent`: the pipelines are functions. The source assigns `parsed_result.source` on a freshly parsed object that nothing else refers to, so the assignment is a record update.
- An exception's text is `str(e)`, given by the collaborator that raised it. Exceptions that Python code in `main.py` itself could raise are not modelled. None is expected: truncation, string formatting and the field assignment cannot fail on these inputs.

## Findings

| source | as written | input that shows it | evidently intended | confidence | as-written member | corrected member |
|---|---|---|---|---|---|---|
| wiki_pedia_data_retrieve-main/main.py:191-206 | the parsed result is stored before the report is written; when the write raises, `last_saved_file` still names the previous report | research "Telegraph", then "What is AI?" on Windows, where `open("What_is_AI?.txt", "w")` raises because `?` is not allowed in file names: the results show the second topic and the download offers `Telegraph.txt` | the report offered for download is the one for the result on screen | medium; not executed | Session.StaleReportFile (over Session.SessionState.StartResearch) | Session.SessionState.StartResearchInSync |

## Notes on the code

The model follows `main.py` where it differs from descriptions of the system:

- Only the first 20 characters of a topic name the report. "History of the Telegraph" is written to `History_of_the_Teleg.txt`, not `History_of_the_Telegraph.txt`.
- PDF page texts are not joined with a newline between them: each page's text, the last one included, is followed by `"\n"`.
- A label replaces the parsed `source` only when it is a non-empty string.
- The page always passes a label with pasted text: the URL field, or `Manual input`. A pasted summary's source is therefore always overridden.
- A failed parse of the research output is not surfaced as-is. It is caught and shown as `Error processing research: ` followed by the message.
- main.py sets no iteration bound on the agent loop; the agent library's own default limit is outside the model.
