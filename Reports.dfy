/** The plain-text serialisations of the two result records: the research
    report written to disk, and the content-summary text offered for
    download. Each is given as a function, built line by line by a method
    proved equal to it, and read back by a decoder. */
module Reports {
  import opened Wrappers
  import opened Schemas
  import opened Lines

  const BULLET: string := "- "

  /** The research report: labelled topic and summary, then one bullet line
      per source and one per tool, each list in its own order. */
  function ResearchReport(r: ResearchResponse): string
  {
    "Research Topic: " + r.topic + "\n\n" +
    "Summary:\n" + r.summary + "\n\n" +
    "Sources:\n" + Terminated(BULLET, r.sources) +
    "\nTools Used:\n" + Terminated(BULLET, r.toolsUsed)
  }

  /** The content-summary text: labelled title and summary, one bullet line
      per key point, then the source. */
  function SummaryText(s: ContentSummary): string
  {
    "Title: " + s.title + "\n\n" +
    "Summary:\n" + s.summary + "\n\n" +
    "Key Points:\n" + Terminated(BULLET, s.keyPoints) +
    "\nSource: " + s.source
  }

  /** Writes the report the way the file is written: the header lines, then
      a bullet per source, a heading, then a bullet per tool. */
  method WriteResearchReport(r: ResearchResponse) returns (text: string)
    ensures text == ResearchReport(r)
  {
    text := "Research Topic: " + r.topic + "\n\n";
    text := text + "Summary:\n" + r.summary + "\n\n";
    text := text + "Sources:\n";
    ghost var header := text;
    var i := 0;
    while i < |r.sources|
      invariant 0 <= i <= |r.sources|
      invariant text == header + Terminated(BULLET, r.sources[..i])
    {
      TerminatedSnoc(BULLET, r.sources[..i], r.sources[i]);
      assert r.sources[..i + 1] == r.sources[..i] + [r.sources[i]];
      text := text + BULLET + r.sources[i] + "\n";
      i := i + 1;
    }
    assert r.sources[..i] == r.sources;
    text := text + "\nTools Used:\n";
    ghost var middle := text;
    var j := 0;
    while j < |r.toolsUsed|
      invariant 0 <= j <= |r.toolsUsed|
      invariant text == middle + Terminated(BULLET, r.toolsUsed[..j])
    {
      TerminatedSnoc(BULLET, r.toolsUsed[..j], r.toolsUsed[j]);
      assert r.toolsUsed[..j + 1] == r.toolsUsed[..j] + [r.toolsUsed[j]];
      text := text + BULLET + r.toolsUsed[j] + "\n";
      j := j + 1;
    }
    assert r.toolsUsed[..j] == r.toolsUsed;
  }

  /** Grows the download text the way the page does: header lines, one bullet
      per key point, then the source line. */
  method BuildSummaryText(s: ContentSummary) returns (text: string)
    ensures text == SummaryText(s)
  {
    text := "Title: " + s.title + "\n\n";
    text := text + "Summary:\n" + s.summary + "\n\n";
    text := text + "Key Points:\n";
    ghost var header := text;
    var i := 0;
    while i < |s.keyPoints|
      invariant 0 <= i <= |s.keyPoints|
      invariant text == header + Terminated(BULLET, s.keyPoints[..i])
    {
      TerminatedSnoc(BULLET, s.keyPoints[..i], s.keyPoints[i]);
      assert s.keyPoints[..i + 1] == s.keyPoints[..i] + [s.keyPoints[i]];
      text := text + BULLET + s.keyPoints[i] + "\n";
      i := i + 1;
    }
    assert s.keyPoints[..i] == s.keyPoints;
    text := text + "\nSource: " + s.source;
  }

  /** Reads the three header sections both texts begin with,
      `<tag><field>`, an empty line, `Summary:`, the summary, an empty line
      and `<heading>`, and returns the field, the summary and the text after
      the heading line. */
  function DecodeHeader(tag: string, heading: string, text: string): Option<(string, string, string)>
  {
    var first :- SplitLine(text);
    var field :- StripPrefix(tag, first.0);
    var afterField :- ExpectLine("", first.1);
    var atSummary :- ExpectLine("Summary:", afterField);
    var second :- SplitLine(atSummary);
    var afterSummary :- ExpectLine("", second.1);
    var body :- ExpectLine(heading, afterSummary);
    Some((field, second.0, body))
  }

  lemma DecodeHeaderOf(tag: string, heading: string, field: string, summary: string, body: string)
    requires NoNewline(tag + field) && NoNewline(summary) && NoNewline(heading)
    ensures DecodeHeader(tag, heading,
              tag + field + "\n\n" + "Summary:\n" + summary + "\n\n" + heading + "\n" + body)
            == Some((field, summary, body))
  {
    var atBody := heading + "\n" + body;
    var afterSummary := "\n" + atBody;
    var summaryPart := summary + "\n" + afterSummary;
    var atSummary := "Summary:" + "\n" + summaryPart;
    var afterField := "\n" + atSummary;
    var line := tag + field;
    assert tag + field + "\n\n" + "Summary:\n" + summary + "\n\n" + heading + "\n" + body
        == line + "\n" + afterField;
    SplitLineOf(line, afterField);
    assert line[..|tag|] == tag && line[|tag|..] == field;
    ExpectLineOf("", atSummary);
    ExpectLineOf("Summary:", summaryPart);
    SplitLineOf(summary, afterSummary);
    ExpectLineOf("", atBody);
    ExpectLineOf(heading, body);
  }

  /** Reads a research report back into its record; None when the text does
      not have the report's layout. */
  function DecodeResearchReport(text: string): Option<ResearchResponse>
  {
    var header :- DecodeHeader("Research Topic: ", "Sources:", text);
    var lists :- DecodeSourcesAndTools(header.2);
    Some(ResearchResponse(header.0, header.1, lists.0, lists.1))
  }

  /** Reads the source bullets, an empty line, `Tools Used:` and the tool
      bullets, which must end the text. */
  function DecodeSourcesAndTools(body: string): Option<(seq<string>, seq<string>)>
  {
    var sources := ParseTerminated(BULLET, body);
    var afterSources :- ExpectLine("", sources.1);
    var atTools :- ExpectLine("Tools Used:", afterSources);
    var tools := ParseTerminated(BULLET, atTools);
    if tools.1 == [] then Some((sources.0, tools.0)) else None
  }

  /** Reads a content-summary text back into its record. */
  function DecodeSummaryText(text: string): Option<ContentSummary>
  {
    var header :- DecodeHeader("Title: ", "Key Points:", text);
    var points := ParseTerminated(BULLET, header.2);
    var afterPoints :- ExpectLine("", points.1);
    var source :- StripPrefix("Source: ", afterPoints);
    Some(ContentSummary(header.0, header.1, points.0, source))
  }

  /** A report whose topic, summary, sources and tools hold no line breaks
      determines the research result it was written from, lists in order. */
  lemma ResearchReportRoundTrip(r: ResearchResponse)
    requires NoNewline(r.topic) && NoNewline(r.summary)
    requires AllNoNewline(r.sources) && AllNoNewline(r.toolsUsed)
    ensures DecodeResearchReport(ResearchReport(r)) == Some(r)
  {
    var tools := Terminated(BULLET, r.toolsUsed);
    var body := Terminated(BULLET, r.sources) + "\nTools Used:\n" + tools;
    assert ResearchReport(r) ==
      "Research Topic: " + r.topic + "\n\n" + "Summary:\n" + r.summary + "\n\n" + "Sources:" + "\n" + body;
    assert NoNewline("Research Topic: " + r.topic);
    DecodeHeaderOf("Research Topic: ", "Sources:", r.topic, r.summary, body);
    SourcesAndToolsRoundTrip(r.sources, r.toolsUsed);
  }

  lemma SourcesAndToolsRoundTrip(sources: seq<string>, tools: seq<string>)
    requires AllNoNewline(sources) && AllNoNewline(tools)
    ensures DecodeSourcesAndTools(Terminated(BULLET, sources) + "\nTools Used:\n" + Terminated(BULLET, tools))
            == Some((sources, tools))
  {
    var toolsText := Terminated(BULLET, tools);
    // the decoder reads the blank line and the heading as two lines
    var toolsPart := "Tools Used:" + "\n" + toolsText;
    var afterSources := "\n" + toolsPart;
    assert "" + "\n" + toolsPart == afterSources;
    assert "\nTools Used:\n" + toolsText == afterSources;
    assert Terminated(BULLET, sources) + "\nTools Used:\n" + toolsText
        == Terminated(BULLET, sources) + ("\nTools Used:\n" + toolsText);
    ParseTerminatedRoundTrip(BULLET, sources, afterSources);
    ExpectLineOf("", toolsPart);
    ExpectLineOf("Tools Used:", toolsText);
    ParseTerminatedRoundTrip(BULLET, tools, []);
    assert toolsText + [] == toolsText;
  }

  /** A summary text whose title, summary and key points hold no line breaks
      determines the summary it was built from; the source, written last, may
      hold anything. */
  lemma SummaryTextRoundTrip(s: ContentSummary)
    requires NoNewline(s.title) && NoNewline(s.summary) && AllNoNewline(s.keyPoints)
    ensures DecodeSummaryText(SummaryText(s)) == Some(s)
  {
    var sourceLine := "Source: " + s.source;
    var afterPoints := "\n" + sourceLine;
    var body := Terminated(BULLET, s.keyPoints) + afterPoints;
    assert SummaryText(s) ==
      "Title: " + s.title + "\n\n" + "Summary:\n" + s.summary + "\n\n" + "Key Points:" + "\n" + body;
    assert NoNewline("Title: " + s.title);
    DecodeHeaderOf("Title: ", "Key Points:", s.title, s.summary, body);
    ParseTerminatedRoundTrip(BULLET, s.keyPoints, afterPoints);
    ExpectLineOf("", sourceLine);
    assert sourceLine[..8] == "Source: " && sourceLine[8..] == s.source;
  }
}
