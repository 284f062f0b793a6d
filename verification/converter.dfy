/**
 * The older document builder without a command block (src/application/converter.ts).
 */
module Converter {
  import opened Wrappers
  import opened Text
  import CliOptions
  import MermaidFormatter

  /** Builds header, mermaid block and footer lines and joins them with newlines. */
  method BuildMarkdownContent(mermaidContent: string, options: CliOptions.Options) returns (r: string)
    ensures r == MermaidFormatter.Markdown(options.header, options.footer, None, mermaidContent)
  {
    var parts: seq<string> := [];
    if options.header != "" {
      parts := parts + [options.header];
      parts := parts + [""];
      assert parts == [options.header, ""];
    }
    assert parts == MermaidFormatter.HeaderLines(options.header) + MermaidFormatter.BashLines(None);
    parts := parts + ["```mermaid"];
    parts := parts + [Trim(mermaidContent)];
    parts := parts + ["```"];
    assert parts == MermaidFormatter.HeaderLines(options.header) + MermaidFormatter.BashLines(None)
                    + MermaidFormatter.FenceLines(Trim(mermaidContent));
    if options.footer != "" {
      parts := parts + [""];
      parts := parts + [options.footer];
    }
    assert parts == MermaidFormatter.HeaderLines(options.header) + MermaidFormatter.BashLines(None)
                    + MermaidFormatter.FenceLines(Trim(mermaidContent)) + MermaidFormatter.FooterLines(options.footer);
    r := Join(parts, "\n");
    MermaidFormatter.JoinSections(options.header, None, Trim(mermaidContent), options.footer);
  }
}
