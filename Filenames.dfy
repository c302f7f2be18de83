/** File names derived from a research topic or a summary title: the first
    20 characters, with every space and every slash replaced by an
    underscore. */
module Filenames {

  const NAME_LENGTH: nat := 20

  predicate IsReplaced(c: char) { c == ' ' || c == '/' }

  /** The character a sanitised name holds where the title holds `c`. */
  function SafeChar(c: char): char { if IsReplaced(c) then '_' else c }

  /** Python's `s[:n]`. */
  function Prefix(s: string, n: nat): (r: string)
    ensures |r| == if |s| <= n then |s| else n
    ensures r == s[..|r|]
  {
    if |s| <= n then s else s[..n]
  }

  /** Python's `s.replace(from, to)` for single characters. */
  function ReplaceChar(s: string, from: char, to: char): (r: string)
    ensures |r| == |s|
    ensures forall i :: 0 <= i < |s| ==> r[i] == if s[i] == from then to else s[i]
  {
    if s == [] then []
    else [if s[0] == from then to else s[0]] + ReplaceChar(s[1..], from, to)
  }

  /** `title[:20].replace(' ', '_').replace('/', '_')` */
  function BaseName(title: string): (r: string)
    ensures |r| == if |title| <= NAME_LENGTH then |title| else NAME_LENGTH
    ensures ' ' !in r && '/' !in r
    ensures forall i :: 0 <= i < |r| ==> r[i] == SafeChar(title[i])
  {
    ReplaceChar(ReplaceChar(Prefix(title, NAME_LENGTH), ' ', '_'), '/', '_')
  }

  /** Sanitising a sanitised name changes nothing. */
  lemma BaseNameIdempotent(title: string)
    ensures BaseName(BaseName(title)) == BaseName(title)
  {
  }

  /** Titles that agree on their first 20 characters up to spaces and slashes
      get the same base name, so their files overwrite each other. */
  lemma BaseNameCollision(a: string, b: string)
    requires |Prefix(a, NAME_LENGTH)| == |Prefix(b, NAME_LENGTH)|
    requires forall i :: 0 <= i < |Prefix(a, NAME_LENGTH)| ==> SafeChar(a[i]) == SafeChar(b[i])
    ensures BaseName(a) == BaseName(b)
  {
  }

  /** The file a research result is written to: `<base>.txt`. */
  function ResearchFileName(topic: string): (r: string)
    ensures |r| == |BaseName(topic)| + 4
    ensures r[|r| - 4..] == ".txt"
    ensures ' ' !in r && '/' !in r
    ensures forall i :: 0 <= i < |r| - 4 ==> r[i] == SafeChar(topic[i])
  {
    BaseName(topic) + ".txt"
  }

  /** The download name of a URL or pasted-text summary. */
  function ContentSummaryFileName(title: string): (r: string)
    ensures |r| == 16 + |BaseName(title)| + 4
    ensures r[..16] == "content_summary_" && r[|r| - 4..] == ".txt"
    ensures ' ' !in r && '/' !in r
    ensures forall i :: 16 <= i < |r| - 4 ==> r[i] == SafeChar(title[i - 16])
  {
    "content_summary_" + BaseName(title) + ".txt"
  }

  /** The download name of a PDF summary. */
  function PdfSummaryFileName(title: string): (r: string)
    ensures |r| == 12 + |BaseName(title)| + 4
    ensures r[..12] == "pdf_summary_" && r[|r| - 4..] == ".txt"
    ensures ' ' !in r && '/' !in r
    ensures forall i :: 12 <= i < |r| - 4 ==> r[i] == SafeChar(title[i - 12])
  {
    "pdf_summary_" + BaseName(title) + ".txt"
  }

  /** A 24-character topic keeps only its first 20 characters. */
  lemma TelegraphFileName()
    ensures ResearchFileName("History of the Telegraph") == "History_of_the_Teleg.txt"
  {
    var r := BaseName("History of the Telegraph");
    assert |r| == 20;
    assert forall i :: 0 <= i < 20 ==> r[i] == "History_of_the_Teleg"[i];
    assert r == "History_of_the_Teleg";
  }

  /** A character that is neither replaced, nor the replacement, nor part of
      the extension is in the file name exactly when it is among the topic's
      first 20. */
  lemma FileNameKeeps(topic: string, c: char)
    requires !IsReplaced(c) && c != '_' && c !in ".txt"
    ensures c in Prefix(topic, NAME_LENGTH) <==> c in ResearchFileName(topic)
  {
    var r := ResearchFileName(topic);
    var p := Prefix(topic, NAME_LENGTH);
    if c in p {
      var i :| 0 <= i < |p| && p[i] == c;
      assert r[i] == c;
    }
    if c in r {
      var i :| 0 <= i < |r| && r[i] == c;
      if i >= |r| - 4 {
        assert false;
      }
      assert p[i] == topic[i];
    }
  }
}
