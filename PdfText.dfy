/** Text extraction from a PDF: every page's text followed by a newline, in
    page order; a page whose extraction raises aborts the whole extraction. */
module PdfText {
  import opened Wrappers
  import opened Lines

  predicate AllExtracted(pages: seq<Result<string>>)
  {
    forall i :: 0 <= i < |pages| ==> pages[i].Ok?
  }

  function PageTexts(pages: seq<Result<string>>): (texts: seq<string>)
    requires AllExtracted(pages)
    ensures |texts| == |pages|
    ensures forall i :: 0 <= i < |pages| ==> texts[i] == pages[i].value
  {
    if pages == [] then [] else [pages[0].value] + PageTexts(pages[1..])
  }

  /** The extraction outcome: the joined text, or the first page failure. */
  function ExtractText(pages: seq<Result<string>>): Result<string>
  {
    if pages == [] then Ok("")
    else
      var first :- pages[0];
      var rest :- ExtractText(pages[1..]);
      Ok(first + "\n" + rest)
  }

  /** When every page yields text, the result is each page's text followed by
      a newline, in page order. */
  lemma {:induction false} ExtractTextJoinsPages(pages: seq<Result<string>>)
    requires AllExtracted(pages)
    ensures ExtractText(pages) == Ok(Terminated("", PageTexts(pages)))
  {
    if pages != [] {
      assert AllExtracted(pages[1..]) by {
        forall i | 0 <= i < |pages[1..]| ensures pages[1..][i].Ok? {
          assert pages[1..][i] == pages[i + 1];
        }
      }
      ExtractTextJoinsPages(pages[1..]);
      var texts := PageTexts(pages);
      assert texts[1..] == PageTexts(pages[1..]);
      assert Terminated("", texts) == texts[0] + "\n" + Terminated("", texts[1..]);
    }
  }

  /** The first page whose extraction raises decides the error; later pages
      are not looked at. */
  lemma {:induction false} ExtractTextFirstFailure(pages: seq<Result<string>>, k: nat)
    requires k < |pages| && pages[k].Err?
    requires AllExtracted(pages[..k])
    ensures ExtractText(pages) == Err(pages[k].message)
  {
    if k > 0 {
      assert pages[..k][0] == pages[0];
      var before := pages[1..][..k - 1];
      assert AllExtracted(before) by {
        forall i | 0 <= i < |before| ensures before[i].Ok? {
          assert before[i] == pages[..k][i + 1];
        }
      }
      ExtractTextFirstFailure(pages[1..], k - 1);
    }
  }

  /** The joined text is as long as all page texts together plus one newline
      per page. */
  lemma JoinedLength(texts: seq<string>)
    ensures |Terminated("", texts)| == TotalLength(texts) + |texts|
  {
    TerminatedLength("", texts);
  }

  /** The accumulation loop: `text += page.extract_text() + "\n"` for each
      page, leaving at the first page that raises. */
  method ExtractPdfText(pages: seq<Result<string>>) returns (r: Result<string>)
    ensures r == ExtractText(pages)
  {
    var text := "";
    var i := 0;
    while i < |pages|
      invariant 0 <= i <= |pages|
      invariant AllExtracted(pages[..i])
      invariant text == Terminated("", PageTexts(pages[..i]))
    {
      match pages[i]
      case Err(e) =>
        ExtractTextFirstFailure(pages, i);
        return Err(e);
      case Ok(pageText) =>
        assert pages[..i + 1] == pages[..i] + [pages[i]];
        assert PageTexts(pages[..i + 1]) == PageTexts(pages[..i]) + [pageText];
        TerminatedSnoc("", PageTexts(pages[..i]), pageText);
        text := text + pageText + "\n";
        i := i + 1;
    }
    assert pages[..i] == pages;
    ExtractTextJoinsPages(pages);
    r := Ok(text);
  }

  /** Three pages come out in order, each followed by a newline. */
  lemma ThreePages(a: string, b: string, c: string)
    ensures ExtractText([Ok(a), Ok(b), Ok(c)]) == Ok(a + "\n" + b + "\n" + c + "\n")
  {
    var pages := [Ok(a), Ok(b), Ok(c)];
    ExtractTextJoinsPages(pages);
    var texts := PageTexts(pages);
    assert texts == [a, b, c];
    assert texts[1..] == [b, c] && texts[1..][1..] == [c] && texts[1..][1..][1..] == [];
    assert Terminated("", [c]) == c + "\n";
    assert Terminated("", [b, c]) == b + "\n" + (c + "\n");
    assert Terminated("", texts) == a + "\n" + (b + "\n" + (c + "\n"));
    assert a + "\n" + (b + "\n" + (c + "\n")) == a + "\n" + b + "\n" + c + "\n";
  }
}
