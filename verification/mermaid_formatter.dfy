/**
 * Wrapping a diagram in a Markdown document: optional header, optional bash block
 * showing the command, the ```mermaid block, optional footer
 * (src/domain/services/mermaid-formatter.ts).
 */
module MermaidFormatter {
  import opened Wrappers
  import opened Text
  import opened DomainOptions
  import MermaidContentExtractor

  /** The bash block is shown when `showCommand` is set and a non-empty command is given. */
  function CommandBlock(options: Options, commandInfo: Option<string>): Option<string>
  {
    if options.showCommand && Truthy(commandInfo) then commandInfo else None
  }

  /** The header and the blank line after it, when there is a header. */
  function HeaderSection(header: string): string
  {
    if header != "" then header + "\n\n" else ""
  }

  /** The bash block and the blank line after it, when there is a command to show. */
  function BashSection(command: Option<string>): string
  {
    if command.Some? then "```bash\n" + command.value + "\n```\n\n" else ""
  }

  /** The blank line and the footer, when there is a footer. */
  function FooterSection(footer: string): string
  {
    if footer != "" then "\n\n" + footer else ""
  }

  /**
   * The document as its four sections, each separated from the next by a blank
   * line: header, bash block, mermaid block around `inner`, footer.
   */
  function Layout(header: string, command: Option<string>, inner: string, footer: string): string
  {
    HeaderSection(header) + BashSection(command) + MermaidContentExtractor.Wrap(inner) + FooterSection(footer)
  }

  /**
   * The formatted document: the content is trimmed before it goes into the mermaid
   * block, and the fence around it makes every document at least 15 characters
   * longer than the trimmed content.
   */
  function Markdown(header: string, footer: string, command: Option<string>, content: string): (r: string)
    ensures |r| >= 15 + |Trim(content)|
  {
    var W := MermaidContentExtractor.Wrap(Trim(content));
    assert |W| == |MermaidContentExtractor.MERMAID_BLOCK_START| + 2 + |Trim(content)| + |MermaidContentExtractor.BLOCK_END|;
    Layout(header, command, Trim(content), footer)
  }

  /** The lines of each section, as the formatter pushes them. */
  function HeaderLines(header: string): seq<string>
  {
    if header != "" then [header, ""] else []
  }

  function BashLines(command: Option<string>): seq<string>
  {
    if command.Some? then ["```bash", command.value, "```", ""] else []
  }

  function FenceLines(t: string): seq<string>
  {
    ["```mermaid", t, "```"]
  }

  function FooterLines(footer: string): seq<string>
  {
    if footer != "" then ["", footer] else []
  }

  /** Builds the list of lines section by section and joins it with newlines. */
  method FormatMermaidAsMarkdown(mermaidContent: string, options: Options, commandInfo: Option<string>)
    returns (r: string)
    ensures r == Markdown(options.header, options.footer, CommandBlock(options, commandInfo), mermaidContent)
  {
    var command := CommandBlock(options, commandInfo);
    var parts: seq<string> := [];
    if options.header != "" {
      parts := parts + [options.header];
      parts := parts + [""];
      assert parts == [options.header, ""];
    }
    assert parts == HeaderLines(options.header);
    if options.showCommand && Truthy(commandInfo) {
      parts := parts + ["```bash"];
      parts := parts + [commandInfo.value];
      parts := parts + ["```"];
      parts := parts + [""];
      assert parts == HeaderLines(options.header) + ["```bash", commandInfo.value, "```", ""];
    }
    assert parts == HeaderLines(options.header) + BashLines(command);
    parts := parts + ["```mermaid"];
    parts := parts + [Trim(mermaidContent)];
    parts := parts + ["```"];
    assert parts == HeaderLines(options.header) + BashLines(command) + FenceLines(Trim(mermaidContent));
    if options.footer != "" {
      parts := parts + [""];
      parts := parts + [options.footer];
    }
    assert parts == HeaderLines(options.header) + BashLines(command) + FenceLines(Trim(mermaidContent))
                    + FooterLines(options.footer);
    r := Join(parts, "\n");
    JoinSections(options.header, command, Trim(mermaidContent), options.footer);
  }

  /** The join of the four groups of lines is the sectioned document. */
  lemma JoinSections(header: string, command: Option<string>, t: string, footer: string)
    ensures Join(HeaderLines(header) + BashLines(command) + FenceLines(t) + FooterLines(footer), "\n")
         == Layout(header, command, t, footer)
  {
    var h, b, body, tail := HeaderLines(header), BashLines(command), FenceLines(t), FooterLines(footer);
    var H, B, W, F := HeaderSection(header), BashSection(command), MermaidContentExtractor.Wrap(t), FooterSection(footer);
    JoinFenceAndFooter(t, footer);
    JoinBashBlock(command, body + tail);
    assert b + (body + tail) == b + body + tail;
    JoinHeader(header, b + body + tail);
    assert h + (b + body + tail) == h + b + body + tail;
    ConcatAssoc4(H, B, W, F);
  }

  lemma JoinFenceAndFooter(t: string, footer: string)
    ensures Join(FenceLines(t) + FooterLines(footer), "\n") == MermaidContentExtractor.Wrap(t) + FooterSection(footer)
  {
    var body, tail := FenceLines(t), FooterLines(footer);
    JoinFence(t);
    if footer != "" {
      JoinAppend(body, tail, "\n");
      assert Join(tail, "\n") == "" + "\n" + footer;
      ConcatAssoc3(MermaidContentExtractor.Wrap(t), "\n", "\n" + footer);
    } else {
      assert body + tail == body;
    }
  }

  lemma JoinFence(t: string)
    ensures Join(FenceLines(t), "\n") == MermaidContentExtractor.Wrap(t)
  {
    var body := FenceLines(t);
    assert body[1..][1..] == ["```"];
    assert Join(body[1..], "\n") == t + "\n" + "```";
    ConcatAssoc4(MermaidContentExtractor.MERMAID_BLOCK_START + "\n", t, "\n", "```");
  }

  lemma JoinBashBlock(command: Option<string>, rest: seq<string>)
    requires rest != []
    ensures Join(BashLines(command) + rest, "\n") == BashSection(command) + Join(rest, "\n")
  {
    var b := BashLines(command);
    if b != [] {
      JoinAppend(b, rest, "\n");
      assert Join(b[2..], "\n") == "```" + "\n" + "";
      assert Join(b[1..], "\n") == command.value + "\n" + "```\n";
      assert Join(b, "\n") == "```bash\n" + command.value + "\n```\n";
    } else {
      assert b + rest == rest;
    }
  }

  lemma JoinHeader(header: string, rest: seq<string>)
    requires rest != []
    ensures Join(HeaderLines(header) + rest, "\n") == HeaderSection(header) + Join(rest, "\n")
  {
    var h := HeaderLines(header);
    if h != [] {
      JoinAppend(h, rest, "\n");
      assert Join(h, "\n") == header + "\n" + "";
    } else {
      assert h + rest == rest;
    }
  }

  /** Only the trimmed content matters: formatting `c` and `trim(c)` gives the same text. */
  lemma DependsOnlyOnTrimmedContent(header: string, footer: string, command: Option<string>, c: string)
    ensures Markdown(header, footer, command, c) == Markdown(header, footer, command, Trim(c))
  {
    TrimIdempotent(c);
  }

  /** A non-empty header opens the document followed by a blank line; an empty one adds nothing. */
  lemma HeaderIsPrefix(header: string, footer: string, command: Option<string>, c: string)
    ensures header != "" ==> StartsWith(Markdown(header, footer, command, c), header + "\n\n")
    ensures header == "" ==> StartsWith(Markdown(header, footer, command, c),
                                        if command.Some? then "```bash\n" else "```mermaid\n")
  {
    var H, B, W, F := HeaderSection(header), BashSection(command),
                      MermaidContentExtractor.Wrap(Trim(c)), FooterSection(footer);
    assert Markdown(header, footer, command, c) == H + B + W + F;
    if header != "" {
      PrefixOfConcat(H, B);
      PrefixOfLonger(H + B, W, H);
      PrefixOfLonger(H + B + W, F, H);
    } else {
      var p := if command.Some? then "```bash\n" else "```mermaid\n";
      assert H + B == B;
      if command.Some? {
        BashSectionOpens(command);
        PrefixOfLonger(B, W, p);
      } else {
        assert B + W == W;
        FenceOpens(Trim(c));
      }
      PrefixOfLonger(B + W, F, p);
    }
  }

  lemma BashSectionOpens(command: Option<string>)
    requires command.Some?
    ensures StartsWith(BashSection(command), "```bash\n")
  {
    PrefixOfConcat("```bash\n", command.value);
    PrefixOfLonger("```bash\n" + command.value, "\n```\n\n", "```bash\n");
  }

  lemma FenceOpens(t: string)
    ensures StartsWith(MermaidContentExtractor.Wrap(t), "```mermaid\n")
  {
    var open := MermaidContentExtractor.MERMAID_BLOCK_START + "\n";
    assert open == "```mermaid\n";
    PrefixOfConcat(open, t);
    PrefixOfLonger(open + t, "\n", open);
    PrefixOfLonger(open + t + "\n", MermaidContentExtractor.BLOCK_END, open);
  }

  /** A non-empty footer closes the document after a blank line; an empty one adds nothing after the fence. */
  lemma FooterIsSuffix(header: string, footer: string, command: Option<string>, c: string)
    ensures footer != "" ==> EndsWith(Markdown(header, footer, command, c), "\n\n" + footer)
    ensures footer == "" ==> EndsWith(Markdown(header, footer, command, c), "\n```")
  {
    var H, B, W, F := HeaderSection(header), BashSection(command),
                      MermaidContentExtractor.Wrap(Trim(c)), FooterSection(footer);
    var X := MermaidContentExtractor.MERMAID_BLOCK_START + "\n" + Trim(c);
    assert Markdown(header, footer, command, c) == H + B + W + F;
    if footer != "" {
      SuffixOfConcat(H + B + W, F);
    } else {
      assert W == X + "\n" + "```";
      ConcatAssoc3(X, "\n", "```");
      assert H + B + W + F == (H + B + X) + "\n```";
      SuffixOfConcat(H + B + X, "\n```");
    }
  }

  /**
   * Without header, footer and command block the document is the bare fence, and
   * unwrapping it gives back the trimmed content: re-wrapping never nests fences.
   */
  lemma BareDocumentUnwraps(c: string)
    ensures Markdown("", "", None, c) == MermaidContentExtractor.MERMAID_BLOCK_START + "\n" + Trim(c) + "\n```"
    ensures MermaidContentExtractor.ExtractMermaidContent(Markdown("", "", None, c)) == Trim(c)
  {
    BareDocumentIsFence(c);
    FenceSpelledOut(Trim(c));
    MermaidContentExtractor.RoundTrip(Trim(c));
  }

  lemma BareDocumentIsFence(c: string)
    ensures Markdown("", "", None, c) == MermaidContentExtractor.Wrap(Trim(c))
  {
    var W := MermaidContentExtractor.Wrap(Trim(c));
    assert Markdown("", "", None, c) == "" + "" + W + "";
  }

  lemma FenceSpelledOut(t: string)
    ensures MermaidContentExtractor.Wrap(t) == MermaidContentExtractor.MERMAID_BLOCK_START + "\n" + t + "\n```"
  {
    var X := MermaidContentExtractor.MERMAID_BLOCK_START + "\n" + t;
    ConcatAssoc3(X, "\n", "```");
  }

  /**
   * The formatter itself does not unwrap: formatting a document that is already a
   * bare fence nests it inside a second fence.
   */
  lemma FormatterNestsExistingFence(x: string)
    ensures Markdown("", "", None, MermaidContentExtractor.Wrap(x))
            == MermaidContentExtractor.Wrap(MermaidContentExtractor.Wrap(x))
  {
    var w := MermaidContentExtractor.Wrap(x);
    MermaidContentExtractor.FenceIsBare(x);
    BareDocumentIsFence(w);
  }

  /**
   * Right after the header section the document opens a bash block exactly when
   * `showCommand` is set and the command line is present and not empty; the block
   * then holds that command line on a line of its own.
   */
  lemma CommandShownIff(options: Options, commandInfo: Option<string>, content: string)
    ensures var doc := Markdown(options.header, options.footer, CommandBlock(options, commandInfo), content);
            StartsWith(doc, HeaderSection(options.header) + "```bash\n")
            <==> options.showCommand && Truthy(commandInfo)
    ensures options.showCommand && Truthy(commandInfo) ==>
              StartsWith(Markdown(options.header, options.footer, CommandBlock(options, commandInfo), content),
                         HeaderSection(options.header) + "```bash\n" + commandInfo.value + "\n```")
  {
    var command := CommandBlock(options, commandInfo);
    var H, B, W, F := HeaderSection(options.header), BashSection(command),
                      MermaidContentExtractor.Wrap(Trim(content)), FooterSection(options.footer);
    var doc := Markdown(options.header, options.footer, command, content);
    assert doc == H + B + W + F;
    if command.Some? {
      var shown := H + "```bash\n" + command.value + "\n```";
      assert H + B == shown + "\n\n";
      PrefixOfConcat(shown, "\n\n");
      PrefixOfLonger(H + B, W, shown);
      PrefixOfLonger(H + B + W, F, shown);
      PrefixOfConcat(H + "```bash\n", command.value + "\n```");
      ConcatAssoc3(H + "```bash\n", command.value, "\n```");
      PrefixOfLonger(shown + "\n\n" + W, F, H + "```bash\n");
      assert StartsWith(doc, H + "```bash\n") by {
        assert doc[..|H| + 8] == shown[..|H| + 8];
      }
    } else {
      assert H + B == H;
      assert doc[|H| + 3] == W[3] == 'm';
      assert (H + "```bash\n")[|H| + 3] == 'b';
    }
  }
}
