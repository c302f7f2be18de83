/** The size cap applied to every content string before it is sent to the
    model. */
module Truncation {

  const MAX_CONTENT_LENGTH: nat := 50000
  const TRUNCATION_MARKER: string := "... (content truncated)"

  /** Text longer than the cap keeps its first MAX_CONTENT_LENGTH characters
      and gets the marker appended; shorter text passes unchanged. */
  function Truncate(text: string): (r: string)
    ensures |r| <= MAX_CONTENT_LENGTH + |TRUNCATION_MARKER|
    ensures |text| <= MAX_CONTENT_LENGTH ==> r == text
    ensures |text| > MAX_CONTENT_LENGTH ==>
              |r| == 50023 && r[..MAX_CONTENT_LENGTH] == text[..MAX_CONTENT_LENGTH] &&
              r[MAX_CONTENT_LENGTH..] == TRUNCATION_MARKER
  {
    if |text| > MAX_CONTENT_LENGTH then text[..MAX_CONTENT_LENGTH] + TRUNCATION_MARKER else text
  }

  /** Truncating twice is truncating once. */
  lemma TruncateIdempotent(text: string)
    ensures Truncate(Truncate(text)) == Truncate(text)
  {
    var once := Truncate(text);
    if |text| > MAX_CONTENT_LENGTH {
      assert once[..MAX_CONTENT_LENGTH] == text[..MAX_CONTENT_LENGTH];
    }
  }

  /** The texts truncation leaves alone: those within the cap, and those that
      already are a capped prefix followed by the marker. */
  lemma TruncateFixedPoints(text: string)
    ensures Truncate(text) == text <==>
              |text| <= MAX_CONTENT_LENGTH ||
              (|text| == MAX_CONTENT_LENGTH + |TRUNCATION_MARKER| &&
               text[MAX_CONTENT_LENGTH..] == TRUNCATION_MARKER)
  {
    if |text| > MAX_CONTENT_LENGTH && |text| == MAX_CONTENT_LENGTH + |TRUNCATION_MARKER| &&
       text[MAX_CONTENT_LENGTH..] == TRUNCATION_MARKER {
      assert text == text[..MAX_CONTENT_LENGTH] + text[MAX_CONTENT_LENGTH..];
    }
  }

  /** Truncation never changes the text's first MAX_CONTENT_LENGTH characters. */
  lemma TruncateKeepsPrefix(text: string, i: nat)
    requires i < |text| && i < MAX_CONTENT_LENGTH
    ensures i < |Truncate(text)| && Truncate(text)[i] == text[i]
  {
    if |text| > MAX_CONTENT_LENGTH {
      assert Truncate(text)[..MAX_CONTENT_LENGTH][i] == text[..MAX_CONTENT_LENGTH][i];
    }
  }
}
