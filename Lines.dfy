/** Newline-terminated text: the shape shared by the research report's
    bullet lists, the summary's key points and the joined PDF pages, with
    the line reader that inverts it. */
module Lines {
  import opened Wrappers

  predicate NoNewline(s: string) { '\n' !in s }

  predicate AllNoNewline(items: seq<string>)
  {
    forall i :: 0 <= i < |items| ==> NoNewline(items[i])
  }

  predicate StartsWith(s: string, prefix: string)
  {
    |prefix| <= |s| && s[..|prefix|] == prefix
  }

  /** The concatenation, in order, of `lead + item + "\n"` for every item. */
  function Terminated(lead: string, items: seq<string>): string
  {
    if items == [] then "" else lead + items[0] + "\n" + Terminated(lead, items[1..])
  }

  function TotalLength(items: seq<string>): nat
  {
    if items == [] then 0 else |items[0]| + TotalLength(items[1..])
  }

  /** Appending one item appends exactly its line: the step a loop that
      writes one line per item takes. */
  lemma {:induction false} TerminatedSnoc(lead: string, items: seq<string>, x: string)
    ensures Terminated(lead, items + [x]) == Terminated(lead, items) + lead + x + "\n"
  {
    if items == [] {
      assert items + [x] == [x];
    } else {
      assert (items + [x])[1..] == items[1..] + [x];
      TerminatedSnoc(lead, items[1..], x);
    }
  }

  /** Every item contributes its own length, the lead and one newline. */
  lemma {:induction false} TerminatedLength(lead: string, items: seq<string>)
    ensures |Terminated(lead, items)| == TotalLength(items) + |items| * (|lead| + 1)
  {
    if items != [] {
      TerminatedLength(lead, items[1..]);
      assert |items| * (|lead| + 1) == (|items| - 1) * (|lead| + 1) + |lead| + 1;
    }
  }

  /** Splits off the first line: the text before the first newline, and
      the text after it; None when no newline remains. */
  function SplitLine(s: string): (r: Option<(string, string)>)
    ensures r.Some? ==> NoNewline(r.value.0) && s == r.value.0 + "\n" + r.value.1
    ensures r.None? ==> NoNewline(s)
  {
    if s == [] then None
    else if s[0] == '\n' then Some(([], s[1..]))
    else
      match SplitLine(s[1..])
      case None => None
      case Some((line, rest)) => Some(([s[0]] + line, rest))
  }

  /** A line followed by a newline is split off exactly. */
  lemma {:induction false} SplitLineOf(line: string, rest: string)
    requires NoNewline(line)
    ensures SplitLine(line + "\n" + rest) == Some((line, rest))
  {
    var s := line + "\n" + rest;
    if line != [] {
      assert line[0] in line;
      assert s[1..] == line[1..] + "\n" + rest;
      SplitLineOf(line[1..], rest);
      assert [line[0]] + line[1..] == line;
    }
  }

  /** The rest of `s` after its first line, when that line is exactly `line`. */
  function ExpectLine(line: string, s: string): Option<string>
  {
    var split :- SplitLine(s);
    if split.0 == line then Some(split.1) else None
  }

  lemma ExpectLineOf(line: string, rest: string)
    requires NoNewline(line)
    ensures ExpectLine(line, line + "\n" + rest) == Some(rest)
  {
    SplitLineOf(line, rest);
  }

  function StripPrefix(prefix: string, s: string): Option<string>
  {
    if StartsWith(s, prefix) then Some(s[|prefix|..]) else None
  }

  /** Reads lines that begin with `lead` and returns what follows the lead on
      each, stopping at the first line that does not begin with it or when no
      complete line remains; also returns the unread text. */
  function ParseTerminated(lead: string, s: string): (seq<string>, string)
    decreases |s|
  {
    match SplitLine(s)
    case None => ([], s)
    case Some((line, rest)) =>
      if StartsWith(line, lead) then
        var (items, tail) := ParseTerminated(lead, rest);
        ([line[|lead|..]] + items, tail)
      else ([], s)
  }

  /** Reading back newline-free items written with a non-empty lead gives the
      items, in order, as long as what follows is empty or an empty line. */
  lemma {:induction false} ParseTerminatedRoundTrip(lead: string, items: seq<string>, rest: string)
    requires |lead| > 0 && NoNewline(lead)
    requires AllNoNewline(items)
    requires rest == [] || rest[0] == '\n'
    ensures ParseTerminated(lead, Terminated(lead, items) + rest) == (items, rest)
  {
    if items == [] {
      assert Terminated(lead, items) + rest == rest;
      if rest != [] {
        assert rest == [] + "\n" + rest[1..];
        SplitLineOf([], rest[1..]);
      }
    } else {
      var line := lead + items[0];
      var tail := Terminated(lead, items[1..]) + rest;
      assert NoNewline(line) by {
        assert NoNewline(items[0]);
      }
      assert Terminated(lead, items) + rest == line + "\n" + tail;
      SplitLineOf(line, tail);
      assert line[..|lead|] == lead;
      assert line[|lead|..] == items[0];
      assert AllNoNewline(items[1..]) by {
        forall i | 0 <= i < |items[1..]| ensures NoNewline(items[1..][i]) {
          assert items[1..][i] == items[i + 1];
        }
      }
      ParseTerminatedRoundTrip(lead, items[1..], rest);
      assert [items[0]] + items[1..] == items;
    }
  }
}
