/**
 * Peeling an existing ```mermaid fence off a file's text, so that wrapping a
 * file that is already wrapped does not nest fences
 * (src/domain/services/mermaid-content-extractor.ts).
 */
module MermaidContentExtractor {
  import opened Text

  const MERMAID_BLOCK_START: string := "```mermaid"
  const BLOCK_END: string := "```"

  /** The fence that the formatter writes around a diagram. */
  function Wrap(c: string): string
  {
    MERMAID_BLOCK_START + "\n" + c + "\n" + BLOCK_END
  }

  /**
   * `r` is what lies between the opening marker with its newline and the closing
   * marker of the trimmed text `t`, less at most one newline before the closing marker.
   */
  predicate Unwraps(t: string, r: string)
  {
    |t| >= 14 && t[..11] == MERMAID_BLOCK_START + "\n" && t[|t| - 3..] == BLOCK_END
    && (r == t[11..|t| - 3] || (|t| >= 15 && t[|t| - 4] == '\n' && r == t[11..|t| - 4]))
  }

  /**
   * Only the two ends of the trimmed text are inspected: when it opens with
   * "```mermaid" and a newline and closes with "```", what lies between is returned,
   * even if it holds further fences (see FencesMerge); anything else is handed back
   * untouched, surrounding white space included, so no content is ever lost.
   */
  function ExtractMermaidContent(content: string): (r: string)
    ensures !StartsWith(Trim(content), MERMAID_BLOCK_START) ==> r == content
    ensures !EndsWith(Trim(content), BLOCK_END) ==> r == content
    ensures r == content || Unwraps(Trim(content), r)
  {
    var trimmedContent := Trim(content);
    ExtractFromTrimmed(trimmedContent, content)
  }

  /** The checks and slices that follow the trim, on the trimmed text `t` of `content`. */
  function ExtractFromTrimmed(t: string, content: string): (r: string)
    ensures !StartsWith(t, MERMAID_BLOCK_START) ==> r == content
    ensures !EndsWith(t, BLOCK_END) ==> r == content
    ensures r == content || Unwraps(t, r)
  {
    if !StartsWith(t, MERMAID_BLOCK_START) then content
    else if !EndsWith(t, BLOCK_END) then content
    else
      MarkersNeverOverlap(t);
      var contentAfterStart := t[|MERMAID_BLOCK_START|..];
      var contentWithoutMarkers := contentAfterStart[..|contentAfterStart| - |BLOCK_END|];
      if StartsWith(contentWithoutMarkers, "\n") then
        var mermaidContent := contentWithoutMarkers[1..];
        assert contentWithoutMarkers[0] == t[10];
        FenceSlices(t);
        assert mermaidContent == t[11..|t| - 3];
        if EndsWith(mermaidContent, "\n") then
          assert mermaidContent[..|mermaidContent| - 1] == t[11..|t| - 4];
          mermaidContent[..|mermaidContent| - 1]
        else mermaidContent
      else content
  }

  lemma FenceSlices(t: string)
    requires StartsWith(t, MERMAID_BLOCK_START) && EndsWith(t, BLOCK_END) && |t| >= 14 && t[10] == '\n'
    ensures Unwraps(t, t[11..|t| - 3])
    ensures |t| >= 15 && t[|t| - 4] == '\n' ==> Unwraps(t, t[11..|t| - 4])
  {
    assert t[..11] == t[..10] + [t[10]];
  }

  /**
   * Whenever both marker checks pass, the trimmed text is at least 13 characters
   * long: "```mermaid" ends in 'd', so the closing "```" cannot overlap it.
   */
  lemma MarkersNeverOverlap(t: string)
    requires StartsWith(t, MERMAID_BLOCK_START) && EndsWith(t, BLOCK_END)
    ensures |t| >= |MERMAID_BLOCK_START| + |BLOCK_END|
  {
    assert t[..10] == MERMAID_BLOCK_START;
    assert t[7] == 'a' && t[8] == 'i' && t[9] == 'd';
    assert t[|t| - 3..] == BLOCK_END;
    assert t[|t| - 3] == '`';
  }

  /** A fence whose marker is not followed by a newline ("```mermaidx...```") is not a block. */
  lemma NoNewlineAfterMarker(content: string)
    requires StartsWith(Trim(content), MERMAID_BLOCK_START) && EndsWith(Trim(content), BLOCK_END)
    requires |Trim(content)| > 10 && Trim(content)[10] != '\n'
    ensures ExtractMermaidContent(content) == content
  {
    NoNewlineKeepsContent(Trim(content), content);
  }

  lemma NoNewlineKeepsContent(t: string, content: string)
    requires StartsWith(t, MERMAID_BLOCK_START) && EndsWith(t, BLOCK_END)
    requires |t| > 10 && t[10] != '\n'
    ensures ExtractFromTrimmed(t, content) == content
  {
    MarkersNeverOverlap(t);
    var without := t[10..][..|t| - 13];
    if without != [] {
      assert without[0] == t[10];
    }
  }

  /** The fence starts and ends with a backtick, so trimming leaves it alone. */
  lemma FenceIsBare(c: string)
    ensures Wrap(c)[0] == '`' && Wrap(c)[|Wrap(c)| - 1] == '`'
    ensures Trim(Wrap(c)) == Wrap(c)
  {
    var w := Wrap(c);
    assert w[0] == MERMAID_BLOCK_START[0] == '`';
    assert w[|w| - 1] == BLOCK_END[2] == '`';
    TrimOfBareText(w);
  }

  /** Round trip: unwrapping the formatter's fence gives back exactly what it wrapped. */
  lemma RoundTrip(c: string)
    ensures ExtractMermaidContent(Wrap(c)) == c
  {
    var w := Wrap(c);
    FenceIsBare(c);
    ExtractOfTrimmedFence(w, c);
  }

  /** Blank text around a fence is ignored: only the trimmed text is inspected. */
  lemma RoundTripWithWhitespace(ws1: string, c: string, ws2: string)
    requires AllWhitespace(ws1) && AllWhitespace(ws2)
    ensures ExtractMermaidContent(ws1 + Wrap(c) + ws2) == c
  {
    var w := Wrap(c);
    FenceIsBare(c);
    TrimSurrounded(ws1, w, ws2);
    ExtractOfTrimmedFence(ws1 + w + ws2, c);
  }

  /** Any text that trims to a fence `Wrap(c)` extracts to `c`. */
  lemma ExtractOfTrimmedFence(content: string, c: string)
    requires Trim(content) == Wrap(c)
    ensures ExtractMermaidContent(content) == c
  {
    UnfenceWrapped(c, content);
  }

  lemma UnfenceWrapped(c: string, content: string)
    ensures ExtractFromTrimmed(Wrap(c), content) == c
  {
    var w := Wrap(c);
    assert w == MERMAID_BLOCK_START + ("\n" + c + "\n" + BLOCK_END);
    assert w[..10] == MERMAID_BLOCK_START;
    assert w == (MERMAID_BLOCK_START + "\n" + c + "\n") + BLOCK_END;
    assert w[|w| - 3..] == BLOCK_END;
    var without := w[10..][..|w| - 13];
    assert without == "\n" + c + "\n";
    assert without[1..] == c + "\n";
  }

  /**
   * The newline before the closing marker is optional: "```mermaid\nA```" unwraps to
   * "A", and when that newline is present exactly one newline is dropped.
   */
  lemma ClosingNewlineOptional(c: string)
    ensures ExtractMermaidContent(MERMAID_BLOCK_START + "\n" + c + BLOCK_END)
         == if |c| > 0 && c[|c| - 1] == '\n' then c[..|c| - 1] else c
  {
    var t := MERMAID_BLOCK_START + "\n" + c + BLOCK_END;
    assert t[0] == '`' && t[|t| - 1] == '`';
    TrimOfBareText(t);
    assert t[..10] == MERMAID_BLOCK_START;
    assert t[|t| - 3..] == BLOCK_END;
    var without := t[10..][..|t| - 13];
    assert without == "\n" + c;
    assert without[1..] == c;
  }

  /**
   * Two fences one after the other are unwrapped as one: the closing marker of the
   * first and the opening marker of the second stay in the extracted text.
   */
  lemma FencesMerge(a: string, b: string)
    ensures ExtractMermaidContent(Wrap(a) + "\n" + Wrap(b)) == a + "\n```\n```mermaid\n" + b
  {
    var inner := a + "\n```\n```mermaid\n" + b;
    assert Wrap(a) + "\n" + Wrap(b) == Wrap(inner);
    RoundTrip(inner);
  }
}
