# mermaid-markdown-wrap in Dafny

A verified model of the conversion pipeline of **mermaid-markdown-wrap**, a command-line
tool that turns Mermaid diagram files (`*.mmd`, `*.mermaid`) into Markdown documents.
Each document holds the diagram inside a fenced ```` ```mermaid ```` block. Optional parts
are a header, a ```` ```bash ```` block that shows the command that produced the file, and
a footer.

The model covers these parts of the tool:

- **Fence extraction** (`MermaidContentExtractor`). This peels an existing
  ```` ```mermaid ```` fence off text that is already wrapped. Only the two ends of the
  trimmed text are inspected: text that opens with ```` ```mermaid ```` and a newline and
  closes with ```` ``` ```` is unwrapped, even when it holds several fences one after the
  other. Any other text comes back untouched.
- **Markdown assembly.** `MermaidFormatter` covers `formatMermaidAsMarkdown`, with the
  command block. `Converter` covers the older `buildMarkdownContent`, which has no command
  block. Both push lines onto a list in a fixed order and join the list with newlines. They
  are modelled as methods that do exactly that, proved equal to one sectioned document
  function, `MermaidFormatter.Markdown`.
- **Output paths** (`PathCalculator`, on top of `PosixPath`). The output directory is
  `outDir`, or else the input's own directory. The file name is the input's base name less
  its last extension, followed by the configured extension. `PosixPath` models node's posix
  `dirname`, `basename`, `extname` and `join`.
- **Command-line reconstruction** (`CommandInfoGenerator`). This rebuilds the command line
  shown in the bash block from the options the user actually gave.
- **Option precedence.** There are two `mergeOptions` variants: `OptionsMerger` for the
  current one and `Config` for the older one with `glob`. `ShowConfig` covers the defaults
  merge of `--show-config`. An absent property is `None`, which stays distinct from `false`
  and from `""`.
- **Config-file templates** (`ConfigFileGenerator`). This covers the format table, the
  file name of each format, and the text written for each format.
- **Three batch engines.** All three run over a `FileSystem` class: a map from path to
  content, a set of directories, the paths that refuse access, and a log of every call
  made.
  - `FileBatchProcessor.ProcessFiles` is the current engine. It has `removeSource`,
    `hideCommand` and change detection.
  - `BatchService.BatchProcessorService.ConvertFiles` is the `keepSource` service.
  - `CommandExecutor.ProcessFiles` runs `MermaidFileProcessor.ConvertFile` per file.

  The three share the skeleton in `SequentialBatch`, which works in this order:
  1. an empty match is refused before any file-system call;
  2. a non-empty `outDir` is created;
  3. each file is converted, with its errors caught into its own report entry.

  Each engine's loop is a method. Its `ensures` ties the resulting file system, the call log
  and the report to a function of the starting state. The lemmas about those functions give
  these properties:
  - one entry per file, at the file's own index;
  - a success entry exactly when every call of that file succeeded (`SuccessIffEveryCallSucceeds`
    in FileBatchProcessor, BatchService and MermaidFileProcessor, whose step CommandExecutor
    runs);
  - a delete only after a write that succeeded;
  - the directory created once and first;
  - isolation of failed files.
- **The failure rule** `hasFailures` (`ResultChecker`).

Each engine keeps the options record its own source file reads:
- `DomainOptions` comes from `src/domain/models/options.ts`.
- `CliOptions` comes from `src/domain/cli-options.ts`.
- `FileBatchProcessor.ProcessingOptions` is the current engine's record.

### Where the code, its comments and its tests disagree

Where these disagree, the model follows the code.

- **The formatter does not unwrap.** The comment that opens
  `src/domain/services/mermaid-content-extractor.ts` (lines 1-6) says that
  `extractMermaidContent` prevents double-wrapping. Yet no modelled file calls it: the only
  occurrence of the name among them is its own definition (line 15), and
  `formatMermaidAsMarkdown` wraps the trimmed content as it is. So formatting a document
  that is already a bare fence nests it (`MermaidFormatter.FormatterNestsExistingFence`).
  Unwrapping the formatter's own bare output does give back the trimmed content
  (`MermaidFormatter.BareDocumentUnwraps`).
- **The extension comes from the options.** The test helper of
  `src/domain/services/path-calculator.test.ts` (lines 6-16) builds options without an
  `extension`. The test at line 25 nevertheless expects `/project/diagrams/flow.md`. The
  code (`path-calculator.ts`, line 25) appends `options.extension`, whose default is `.md`
  (`src/domain/models/options.ts`, line 57). The model appends `options.extension` too.
- **Two polarities, each kept as written.** The older engines delete the source unless
  `keepSource` is set. The current engine deletes it only when `removeSource` is set. The
  formatter shows the bash block when `showCommand` is set. The current engine computes the
  command line only when `hideCommand` is not set.
- **An undeclared field.** The current engine's report entry carries a `changed` field. The
  declared `MermaidConversion` type lacks it. The model keeps the field, as the engine
  returns it.
- **Two types declared outside the modelled files.** The declarations of `ProcessingOptions`
  and `RawCLIOptions` are not part of this model.
  `FileBatchProcessor.ProcessingOptions` holds exactly the fields the engine and its callees
  read.
- **`src/application/markdown-builder.ts` is not part of this model.** It is what
  `mermaid-file-processor.ts` imports. The model uses `buildMarkdownContent` of
  `src/application/converter.ts` in its place.
- **The JSON config test is out of date.** `config-file-generator.test.ts` expects the
  parsed JSON config to equal the input config (lines 75-79). The code puts a `$schema`
  property first (lines 88-96). The model follows the code (`ConfigFileGenerator.SchemaFirst`).

## Model

| member | source | states |
|---|---|---|
| MermaidContentExtractor.ExtractMermaidContent | src/domain/services/mermaid-content-extractor.ts:15-52 | If the trimmed text does not start with "```mermaid" or does not end with "```", the input comes back unchanged, surrounding white space included. In every case the result is either the input or the text between the marker's newline and the closing marker of the trimmed text, less at most one newline. |
| MermaidContentExtractor.ExtractFromTrimmed | src/domain/services/mermaid-content-extractor.ts:19-51 | The checks and slices applied to the trimmed text keep the same two fail-safe cases and the same shape of result. |
| MermaidContentExtractor.FenceSlices | src/domain/services/mermaid-content-extractor.ts:32-47 | Once the markers and the newline check pass, dropping 11 leading and 3 trailing characters gives an unwrapping. Dropping one more trailing newline also gives one. |
| MermaidContentExtractor.MarkersNeverOverlap | src/domain/services/mermaid-content-extractor.ts:23-35 | Whenever both marker checks pass, the trimmed text is at least 13 characters long, so the two markers cannot overlap and the slices are in bounds. |
| MermaidContentExtractor.NoNewlineAfterMarker | src/domain/services/mermaid-content-extractor.ts:38-51 | A fence whose marker is not followed by a newline is returned unchanged. |
| MermaidContentExtractor.NoNewlineKeepsContent | src/domain/services/mermaid-content-extractor.ts:38-51 | The same on the trimmed text. |
| MermaidContentExtractor.FenceIsBare | src/domain/services/mermaid-content-extractor.ts:17 | The fence opens and closes with a backtick, so trimming leaves it as it is. |
| MermaidContentExtractor.RoundTrip | src/domain/services/mermaid-content-extractor.ts:32-48 | Extracting "```mermaid\n" + c + "\n```" gives back exactly c, for every c. |
| MermaidContentExtractor.RoundTripWithWhitespace | src/domain/services/mermaid-content-extractor.ts:17-48 | White space on either side of such a fence is ignored: extraction still gives back c. |
| MermaidContentExtractor.ExtractOfTrimmedFence | src/domain/services/mermaid-content-extractor.ts:17-48 | Any text that trims to the fence around c extracts to c. |
| MermaidContentExtractor.UnfenceWrapped | src/domain/services/mermaid-content-extractor.ts:19-48 | The checks and slices take the fence around c back to c. |
| MermaidContentExtractor.ClosingNewlineOptional | src/domain/services/mermaid-content-extractor.ts:38-48 | The newline before the closing "```" is optional: "```mermaid\n" + c + "```" extracts to c less one trailing newline when c ends with one, and to c otherwise. So "```mermaid\nA```" gives "A". |
| MermaidContentExtractor.FencesMerge | src/domain/services/mermaid-content-extractor.ts:19-48 | Two fences one after the other, separated by a newline, are unwrapped as one. The result is the first body, then "\n```\n```mermaid\n", then the second body. |
| MermaidFormatter.FormatMermaidAsMarkdown | src/domain/services/mermaid-formatter.ts:17-50 | The joined lines are the document of four sections: header, bash block, mermaid fence around the trimmed content, footer. |
| MermaidFormatter.JoinSections | src/domain/services/mermaid-formatter.ts:22-49 | Joining the pushed lines with newlines gives the sections in the order header, bash block, mermaid block, footer, separated by blank lines. |
| MermaidFormatter.JoinFenceAndFooter | src/domain/services/mermaid-formatter.ts:38-49 | The fence lines and footer lines join to the fence followed by the footer section. |
| MermaidFormatter.JoinBashBlock | src/domain/services/mermaid-formatter.ts:31-36 | The four bash lines, when present, join to the bash section in front of the rest. |
| MermaidFormatter.DependsOnlyOnTrimmedContent | src/domain/services/mermaid-formatter.ts:40 | Formatting c and trim(c) gives the same document. |
| MermaidFormatter.HeaderIsPrefix | src/domain/services/mermaid-formatter.ts:25-39 | A non-empty header opens the document followed by a blank line. With an empty header the document opens with the bash block when there is one, else with the mermaid fence. |
| MermaidFormatter.BashSectionOpens | src/domain/services/mermaid-formatter.ts:32-33 | A present bash section opens with "```bash" and a newline. |
| MermaidFormatter.FenceOpens | src/domain/services/mermaid-formatter.ts:39-40 | The fence opens with "```mermaid" and a newline. |
| MermaidFormatter.FooterIsSuffix | src/domain/services/mermaid-formatter.ts:41-47 | A non-empty footer closes the document after a blank line. An empty one leaves the closing "```" last. |
| MermaidFormatter.BareDocumentUnwraps | src/domain/services/mermaid-formatter.ts:38-49 | With no header, footer or command block, the document is exactly "```mermaid\n" + trim(c) + "\n```", and extracting it gives back trim(c). |
| MermaidFormatter.BareDocumentIsFence | src/domain/services/mermaid-formatter.ts:38-49 | The bare document is the fence around the trimmed content. |
| MermaidFormatter.FormatterNestsExistingFence | src/domain/services/mermaid-formatter.ts:38-41 | The formatter does not unwrap: a bare fence formatted again ends up inside a second fence. |
| MermaidFormatter.Markdown | src/domain/services/mermaid-formatter.ts:38-49 | Every document holds the mermaid fence, so it is at least 15 characters longer than the trimmed content and never empty. |
| MermaidFormatter.CommandShownIff | src/domain/services/mermaid-formatter.ts:25-36 | Right after the header section, the document opens a bash block exactly when showCommand is set and the command line is present and non-empty. The block then holds that command line on a line of its own. |
| Converter.BuildMarkdownContent | src/application/converter.ts:6-30 | The joined lines are the formatter's document with no command block: header, mermaid fence around the trimmed content, footer. So all the formatter's lemmas apply, and no bash block ever appears. |
| PathCalculator.OutputPath | src/domain/services/path-calculator.ts:21-28 | Without a non-empty outDir, a normalised input keeps its directory and only its last extension is replaced by the configured one. With a plain, normalised outDir (not "", not ".", no trailing '/', no "//", no "." or ".." segment), the output is outDir, a '/', the input's stem and the extension, whatever the input's directory. |
| PathCalculator.GetOutputPath | src/domain/services/path-calculator.ts:21-28 | The same two closed forms, read from the options record: the input with its last extension replaced, or, for a plain, normalised outDir, outDir + "/" + stem + extension. |
| PathCalculator.BesideInput | src/domain/services/path-calculator.ts:22-27 | On a normalised path with no outDir, the output is the input with its last extension cut off and the new extension appended. |
| PathCalculator.ExtensionReplaced | src/domain/services/path-calculator.ts:23-25 | Putting the extension after the stem is the same as cutting the old extension off the whole path. |
| PathCalculator.ReplacesLastExtension | src/domain/services/path-calculator.ts:22-27 | Without outDir only the last extension of the input is replaced. |
| PathCalculator.OutDirDiscardsInputDirectory | src/domain/services/path-calculator.ts:24-27 | With outDir set, two inputs with the same base name get the same output path, whatever their directories. |
| PathCalculator.SameExtensionMapsToItself | src/domain/services/path-calculator.ts:21-28 | A file that already carries the output extension, with no outDir, maps onto itself. |
| PathCalculator.ExtensionReplacedInPlace | src/domain/services/path-calculator.ts:22-27 | Without outDir and for a plain, normalised dir, "dir/stem.ext" becomes "dir/stem" + extension. Dots in the stem stay, as in "my.diagram.test.mmd" and "diagram..mmd". |
| PathCalculator.ExtensionAppended | src/domain/services/path-calculator.ts:23-25 | Without outDir and for a plain, normalised dir, a non-empty name with no '.' simply gets the extension appended. |
| PathCalculator.StemMovedToOutDir | src/domain/services/path-calculator.ts:24-27 | With a plain, normalised outDir, "dir/stem.ext" becomes outDir + "/stem" + extension, however deep dir is. |
| PathCalculator.StemOfFileInDirectory | src/domain/services/path-calculator.ts:23 | The stem of "dir/stem.ext" is stem. |
| PathCalculator.BareNameStaysBare | src/domain/services/path-calculator.ts:22-27 | A bare name stays bare, because joining onto "." adds nothing. A Windows-style path is one such name. |
| PosixPath.LastIndexOf | src/domain/services/path-calculator.ts:22-23 | The index of the last occurrence of a character, or -1 when there is none. |
| PosixPath.LastIndexBefore | src/domain/services/path-calculator.ts:23 | The same among the first n characters. |
| PosixPath.DirnameParts | src/domain/services/path-calculator.ts:22 | dirname is "." for a name with no '/', "/" for an entry of the root, and otherwise the non-empty part before the last '/'. |
| PosixPath.BasenameParts | src/domain/services/path-calculator.ts:23 | basename is the '/'-free tail of the path, preceded by a '/' unless it is the whole path. |
| PosixPath.ExtnameParts | src/domain/services/path-calculator.ts:23 | extname is empty or a '.' with no further '.' that ends the base name without being all of it. A base name other than ".." with a '.' after its first character has a non-empty extname. |
| PosixPath.StemParts | src/domain/services/path-calculator.ts:23 | basename(p, extname(p)) followed by extname(p) is basename(p). |
| PosixPath.JoinParts | src/domain/services/path-calculator.ts:27 | For a name without '/', basename takes the name back out of the join, and dirname takes back a directory that join extended with a single '/'. |
| PosixPath.StemAndExtension | src/domain/services/path-calculator.ts:23 | The base name is the stem followed by the extension. The extension is empty, or a '.' with no further '.' after a non-empty stem. |
| PosixPath.DirPrefixBasename | src/domain/services/path-calculator.ts:22-23 | A path is everything up to its last '/' followed by its base name. |
| PosixPath.JoinDirname | src/domain/services/path-calculator.ts:22-27 | On a normalised path, joining a name onto its dirname puts the name right after the last '/'. |
| PosixPath.DirnameBasenameJoin | src/domain/services/path-calculator.ts:22-27 | join(dirname(p), basename(p)) == p for a normalised p. |
| PosixPath.SplitAtSlash | src/domain/services/path-calculator.ts:22-23 | "dir/name", with no '/' in name, has base name name and dirname dir. |
| PosixPath.BareName | src/domain/services/path-calculator.ts:22-23 | A name with no '/' is its own base name, and its dirname is ".". |
| PosixPath.SplitAtDot | src/domain/services/path-calculator.ts:23 | A base name made of a non-empty stem, a '.' and a dot-free tail has that tail as its extension and that stem as its stem. |
| PosixPath.NoDot | src/domain/services/path-calculator.ts:23 | A base name with no '.' has no extension and is its own stem. |
| CommandInfoGenerator.GenerateCommandInfo | src/domain/services/command-info-generator.ts:17-55 | The pushed tokens joined by single spaces are the command line: package name, glob, then each given flag in the fixed order. |
| CommandInfoGenerator.JoinTokens | src/domain/services/command-info-generator.ts:21-54 | The token list joined by single spaces is the command line. |
| CommandInfoGenerator.KeepPush | src/domain/services/command-info-generator.ts:47-49 | The optional --keep-source push extends the line by " --keep-source" or by nothing. |
| CommandInfoGenerator.JoinPush | src/domain/services/command-info-generator.ts:54 | Pushing tokens extends the joined line by a space and their own join. |
| CommandInfoGenerator.FlagPush | src/domain/services/command-info-generator.ts:31-45 | One conditional flag push extends the joined line by exactly that flag's text. |
| CommandInfoGenerator.StartsWithPackageName | src/domain/services/command-info-generator.ts:21 | The line starts with the package name and a space. |
| CommandInfoGenerator.FlagsOpenWithSpace | src/domain/services/command-info-generator.ts:31-49 | The text after the glob is empty or opens with a space. |
| CommandInfoGenerator.ArgumentsSplit | src/domain/services/command-info-generator.ts:24-49 | The arguments are the glob token followed by the flags' text. |
| CommandInfoGenerator.QuoteAfterHead | src/domain/services/command-info-generator.ts:24-28 | After the package name and a space, the line opens with a double quote exactly when the arguments do. |
| CommandInfoGenerator.GlobQuotedIff | src/domain/services/command-info-generator.ts:24-28 | For a glob that does not itself open with a quote, the glob is quoted exactly when it holds a space or '*'. |
| CommandInfoGenerator.AllFlagsInOrder | src/domain/services/command-info-generator.ts:31-49 | With every flag given, the tokens are --out-dir, --header, --footer, --config, --keep-source in that order. Header and footer are quoted without escaping; outDir and config are not quoted. |
| CommandInfoGenerator.OnlyGivenFlagsAppear | src/domain/services/command-info-generator.ts:31-49 | Absent or empty flags, and a keepSource that is not exactly true, add nothing: the line is the package name and the glob. |
| CommandInfoGenerator.IgnoresExtensionAndShowCommand | src/domain/services/command-info-generator.ts:30-52 | extension and showCommand never change the line. |
| CommandInfoGenerator.TypicalInvocation | src/domain/services/command-info-generator.ts:21-49 | A glob with a space or '*', an outDir and keepSource true give the tokens package, quoted glob, "--out-dir", outDir, "--keep-source". |
| OptionsMerger.MergeOptions | src/domain/services/options-merger.ts:17-46 | extension, header, footer, keepSource and showCommand each take the CLI value if present, else the config value, else the default. outDir is present exactly when `cli ?? config` is non-empty, and is then that value. config is present exactly when the CLI's is non-empty. |
| OptionsMerger.MergeOfNothing | src/domain/services/options-merger.ts:21-45 | mergeOptions({}, {}) gives ".md", "", "", false, true, and no outDir or config. |
| OptionsMerger.CommandLineWins | src/domain/services/options-merger.ts:23-36 | A CLI value that is present wins even when it is false or "". |
| OptionsMerger.EmptyOutDirSuppressesConfig | src/domain/services/options-merger.ts:39-41 | An explicit empty CLI outDir hides the config file's outDir. |
| OptionsMerger.ConfigKeyOnlyFromCommandLine | src/domain/services/options-merger.ts:44 | The config key never depends on the config file. |
| Config.MergeOptions | src/infrastructure/config.ts:40-61 | The older variant: the same precedence for extension, header, footer and keepSource. outDir is present when `cli ?? config` is non-empty. glob and config are present exactly when the CLI gives them non-empty. |
| Config.MergeOfNothing | src/infrastructure/config.ts:44-60 | mergeOptions({}, {}) gives ".md", "", "", false, and no optional key. |
| Config.CommandLineOutDirWins | src/infrastructure/config.ts:55-57 | A present CLI outDir decides the result alone. |
| Config.GlobAndConfigOnlyFromCommandLine | src/infrastructure/config.ts:58-59 | The config file can contribute neither glob nor config. |
| ShowConfig.ShowConfig | src/application/use-cases/show-config.ts:16-22 | Each of the four fields is the loaded value if present, else the default. outDir is present exactly when the loaded one is non-empty. |
| ShowConfig.ShowOfNothing | src/application/use-cases/show-config.ts:16-22 | An empty config shows exactly ".md", "", "", false, without outDir. |
| ShowConfig.ShowsWhatAPlainRunUses | src/application/use-cases/show-config.ts:16-21 | What is shown is what a run with no command-line options would use. |
| ShowConfig.ShowIdempotent | src/application/use-cases/show-config.ts:16-22 | Showing the shown configuration changes nothing. |
| Wrappers.FirstDefined | src/domain/services/options-merger.ts:23-36 | The value of the first present layer, else the default. |
| Wrappers.CoalesceChain | src/domain/services/options-merger.ts:23-36 | `a ?? b ?? d` is the first present of a and b, else d. |
| ConfigFileGenerator.FormatTable | src/domain/services/config-file-generator.ts:29-36 | Six entries, each format offered exactly once, each value equal to its format. |
| ConfigFileGenerator.GenerateConfigFileName | src/domain/services/config-file-generator.ts:41-67 | Script formats give "<pkg>.config.<fmt>". json and yaml give ".<pkg>rc.<fmt>". |
| ConfigFileGenerator.FileNameEndsWithFormat | src/domain/services/config-file-generator.ts:44-61 | Every file name ends with "." and the format's name. |
| ConfigFileGenerator.FileNameInjective | src/domain/services/config-file-generator.ts:44-61 | Different formats get different file names. |
| ConfigFileGenerator.Set | src/domain/services/config-file-generator.ts:90-94 | Setting a property keeps every existing key in place. A new key goes last. |
| ConfigFileGenerator.Spread | src/domain/services/config-file-generator.ts:90-94 | Spreading keeps the base's keys first and in order. |
| ConfigFileGenerator.SpreadFresh | src/domain/services/config-file-generator.ts:90-94 | Spreading distinct new keys appends them in order. |
| ConfigFileGenerator.SchemaFirst | src/domain/services/config-file-generator.ts:90-95 | The JSON object always has $schema as its first property. |
| ConfigFileGenerator.SchemaThenConfig | src/domain/services/config-file-generator.ts:90-95 | A config without its own $schema follows the $schema property unchanged and in order. |
| ConfigFileGenerator.GenerateConfigFileContent | src/domain/services/config-file-generator.ts:72-103 | json serialises the config with $schema first. yaml serialises the config as it is. Each script format opens and closes with its own template text. |
| ConfigFileGenerator.ScriptEmbedsJson | src/domain/services/config-file-generator.ts:108-144 | The serialised config can be cut back out from between a script template's two ends. |
| ConfigFileGenerator.JsAndCjsAgree | src/domain/services/config-file-generator.ts:119-134 | js and cjs produce the same text. |
| ConfigFileGenerator.TsFileNameExample | src/domain/services/config-file-generator.test.ts:19-21 | The ts file name is "mermaid-markdown-wrap.config.ts". |
| ConfigFileGenerator.JsonFileNameExample | src/domain/services/config-file-generator.test.ts:31-33 | The json file name is ".mermaid-markdown-wraprc.json". |
| ResultChecker.HasFailures | src/domain/services/result-checker.ts:17-19 | True exactly when some entry has success false, so an empty list has none. |
| ResultChecker.PermutationInvariant | src/domain/services/result-checker.ts:18 | Any rearrangement of the entries gives the same answer. |
| ResultChecker.AppendFailure | src/domain/services/result-checker.ts:18 | Appending a failed entry makes it true. |
| ResultChecker.AppendSuccess | src/domain/services/result-checker.ts:18 | Appending a successful entry changes nothing. |
| ResultChecker.BatchFailsIffSomeFileFails | src/domain/services/result-checker.ts:17-19 | A convertFiles report has failures exactly when some file's own conversion threw. |
| Text.TrimStartSpec | src/domain/services/mermaid-content-extractor.ts:17 | Removing leading white space keeps a suffix of the input. Only white space is removed, and the result does not open with white space. |
| Text.TrimEndSpec | src/domain/services/mermaid-content-extractor.ts:17 | Removing trailing white space keeps a prefix of the input. Only white space is removed, and the result does not end with white space. |
| Text.TrimSpec | src/domain/services/mermaid-content-extractor.ts:17 | trim keeps a contiguous piece of the input with only white space around it, and that piece has no white space at either end. |
| Text.TrimOfBareText | src/domain/services/mermaid-content-extractor.ts:17 | Text with no white space at either end trims to itself. |
| Text.TrimSurrounded | src/domain/services/mermaid-content-extractor.ts:17 | White space around such text is exactly what trim removes. |
| Text.TrimStartDropsWhitespace | src/domain/services/mermaid-content-extractor.ts:17 | Leading white space before text that does not open with white space is removed, and nothing else is. |
| Text.TrimEndDropsWhitespace | src/domain/services/mermaid-content-extractor.ts:17 | Trailing white space after text that does not end with white space is removed, and nothing else is. |
| Text.TrimIdempotent | src/domain/services/mermaid-formatter.ts:40 | Trimming twice is trimming once. |
| Text.Join | src/domain/services/mermaid-formatter.ts:49 | Joining no parts gives "". Joining one part gives that part. |
| Text.JoinAppend | src/domain/services/mermaid-formatter.ts:49 | Joining two non-empty lists puts exactly one separator between their joins. |
| FileSystemAdapter.ReadFile | src/infrastructure/adapters/file-system.adapter.ts:14-16 | A read succeeds exactly when the path is accessible and holds a file, and then returns its content. A missing file fails with ENOENT, a refused one with EACCES. |
| FileSystemAdapter.ReadFileIfExists | src/infrastructure/adapters/file-system.adapter.ts:21-34 | A missing file reads as absent. Every other error is rethrown, and a successful read is returned. |
| FileSystemAdapter.WriteFile | src/infrastructure/adapters/file-system.adapter.ts:39-44 | A write succeeds exactly when the path is not locked, and then sets that one file. A failed write changes nothing. |
| FileSystemAdapter.Unlink | src/infrastructure/adapters/file-system.adapter.ts:49-51 | A delete succeeds exactly when the file exists and is not locked, and then removes that one file. A failed delete changes nothing. |
| FileSystemAdapter.Mkdir | src/infrastructure/adapters/file-system.adapter.ts:56-58 | Creating a directory that already exists is no error. It fails only on a locked path. |
| FileSystemAdapter.Message | src/infrastructure/services/file-batch-processor.ts:100 | The failure reason opens with the error code ("ENOENT: " or "EACCES: ") and ends with the system call and the quoted path. |
| FileSystemAdapter.IfExistsOnlyHidesMissing | src/infrastructure/adapters/file-system.adapter.ts:21-34 | Only "missing" is turned into absent: an access error still throws. |
| FileSystemAdapter.ReadAfterWrite | src/infrastructure/adapters/file-system.adapter.ts:14-44 | Reading a file just written gives back what was written. |
| FileSystemAdapter.FileSystem.ReadTextFile | src/infrastructure/adapters/file-system.adapter.ts:14-16 | Returns ReadFile of the state, changes nothing and logs one read. |
| FileSystemAdapter.FileSystem.ReadTextFileIfExists | src/infrastructure/adapters/file-system.adapter.ts:21-34 | Returns ReadFileIfExists of the state, changes nothing and logs one read. |
| FileSystemAdapter.FileSystem.WriteTextFile | src/infrastructure/adapters/file-system.adapter.ts:39-44 | The new state and outcome are WriteFile's. Logs one write. |
| FileSystemAdapter.FileSystem.DeleteFile | src/infrastructure/adapters/file-system.adapter.ts:49-51 | The new state and outcome are Unlink's. Logs one delete. |
| FileSystemAdapter.FileSystem.CreateDirectory | src/infrastructure/adapters/file-system.adapter.ts:56-58 | The new state and outcome are Mkdir's. Logs one mkdir. |
| SequentialBatch.Run | src/infrastructure/services/file-batch-processor.ts:60-105 | One result per file. |
| SequentialBatch.RunExtend | src/infrastructure/services/file-batch-processor.ts:60-105 | One more file extends the run by that file's step, from where the run left off. |
| SequentialBatch.RunAppend | src/infrastructure/services/file-batch-processor.ts:60-105 | Running a + b is running a, then b from a's final state. Calls and results concatenate. |
| SequentialBatch.RunEntry | src/infrastructure/services/file-batch-processor.ts:108-122 | Result i is file i's step, taken from the state the files before it left. |
| SequentialBatch.Isolation | src/infrastructure/services/file-batch-processor.ts:95-103 | A step that leaves the state unchanged affects no other entry. Removing its file removes its entry and nothing else. |
| SequentialBatch.RunCreatesNoDirectory | src/infrastructure/services/file-batch-processor.ts:60-105 | Steps that create no directory make a run that creates none. |
| SequentialBatch.Batch | src/infrastructure/services/file-batch-processor.ts:41-50 | No files gives NoFilesFoundError before any call, with the state untouched. A rejected batch made at most the mkdir call. A report has one entry per file. |
| SequentialBatch.Prepare | src/infrastructure/services/file-batch-processor.ts:47-50 | The directory step never touches a file. Without a non-empty outDir it does nothing. With one, it succeeds exactly when that path is not locked and then adds that directory; a failure changes nothing. |
| SequentialBatch.BatchMessage | src/domain/models/errors.ts:4-9 | The no-files message is "No files found matching pattern: " followed by the pattern, which can be read back from it. A directory failure carries the file system's message. |
| SequentialBatch.NoFilesMessageInjective | src/domain/models/errors.ts:6 | Different patterns are refused with different messages. |
| SequentialBatch.DirectoryCreatedOnceFirst | src/infrastructure/services/file-batch-processor.ts:48-50 | A non-empty outDir is created by the first call and by no other. An absent or empty one never is. |
| SequentialBatch.BatchEntry | src/infrastructure/services/file-batch-processor.ts:108-122 | Entry i of a report is file i's own step. Its final state is where file i + 1 starts. |
| SequentialBatch.BatchIsolation | src/infrastructure/services/file-batch-processor.ts:95-103 | A file whose step changes nothing can be dropped: the others' entries stay the same and in order. |
| FileBatchProcessor.Changed | src/infrastructure/services/file-batch-processor.ts:77-79 | For a non-empty document, changed holds exactly when the output path did not already hold that document. An empty document always counts as changed. |
| FileBatchProcessor.ChangedMeansNew | src/infrastructure/services/file-batch-processor.ts:77-79 | Documents are never empty, so changed means exactly that the output did not already hold the document. |
| FileBatchProcessor.DocumentShowsCommand | src/infrastructure/services/file-batch-processor.ts:54-74 | Right after the header, every document of a run opens a bash block exactly when showCommand is set, hideCommand is not and the raw CLI options were given. The block then holds the command line rendered from the pattern and those options. |
| FileBatchProcessor.Convert | src/infrastructure/services/file-batch-processor.ts:62-103 | The entry names its file. A success names getOutputPath and no reason. A failure has an empty markdownFile, changed false and a reason. |
| FileBatchProcessor.Store | src/infrastructure/services/file-batch-processor.ts:77-103 | The same entry shape for the part after formatting. |
| FileBatchProcessor.ConvertOne | src/infrastructure/services/file-batch-processor.ts:62-103 | The entry, new state and calls are those of the file's step. |
| FileBatchProcessor.StoreOne | src/infrastructure/services/file-batch-processor.ts:77-94 | The entry, new state and calls are those of Store. |
| FileBatchProcessor.ProcessFiles | src/infrastructure/services/file-batch-processor.ts:35-123 | The report or error, final state and call log are those of the batch with the once-computed command line. |
| FileBatchProcessor.ConvertEach | src/infrastructure/services/file-batch-processor.ts:60-105 | The per-file loop yields the run of the steps over the files in order. |
| FileBatchProcessor.Process | src/infrastructure/services/file-batch-processor.ts:35-123 | No matched files: NoFilesFoundError for the pattern, no call and the file system untouched. A report has one entry per file, and entry i names file i. |
| FileBatchProcessor.ReadFailureTouchesNothing | src/infrastructure/services/file-batch-processor.ts:67 | An unreadable source fails its entry after one read, with nothing written or deleted. |
| FileBatchProcessor.ConvertSuccess | src/infrastructure/services/file-batch-processor.ts:64-94 | A converted file: the output path holds the document and the source is gone only with removeSource. The calls were read, existing-output read, write, then delete. changed means the output did not already hold the document. |
| FileBatchProcessor.ConvertedFileSystem | src/infrastructure/services/file-batch-processor.ts:82-87 | The files and directories after a converted file. |
| FileBatchProcessor.ConvertedCalls | src/infrastructure/services/file-batch-processor.ts:64-87 | The calls of a converted file. |
| FileBatchProcessor.ConvertedChanged | src/infrastructure/services/file-batch-processor.ts:77-79 | The changed flag of a converted file. |
| FileBatchProcessor.StoreSuccess | src/infrastructure/services/file-batch-processor.ts:77-94 | After formatting, success means the existing output was read or was missing, the document was written, and with removeSource the source was removed. |
| FileBatchProcessor.SuccessIffEveryCallSucceeds | src/infrastructure/services/file-batch-processor.ts:62-103 | A file is converted exactly when the source can be read, the output path can be read and written, and, with removeSource, the source can be deleted. |
| FileBatchProcessor.FailureReasonOfFailingCall | src/infrastructure/services/file-batch-processor.ts:62-103 | The failure reason is the message of the first call that threw: the source read's error, EACCES "open" on the output for the existing-output read or the write, or EACCES "unlink" on the source for the delete; with no failing call there is no reason. |
| FileBatchProcessor.ConvertFailure | src/infrastructure/services/file-batch-processor.ts:95-103 | A failed file changes nothing unless only its delete failed; then the output holds the document and the directories are unchanged. The source is never removed. |
| FileBatchProcessor.DeleteOnlyAfterWrite | src/infrastructure/services/file-batch-processor.ts:82-87 | A delete is only ever the fourth call, with removeSource, after a write to an unlocked path. No step creates a directory. |
| FileBatchProcessor.ConvertStages | src/infrastructure/services/file-batch-processor.ts:62-74 | A step is one read followed by Store, or the read alone when it fails. |
| FileBatchProcessor.StoreCalls | src/infrastructure/services/file-batch-processor.ts:77-87 | Store's calls: 1 to 3 of them, opening with the existing-output read, with a delete only third, after a write to an unlocked path. |
| FileBatchProcessor.StepsCreateNoDirectory | src/infrastructure/services/file-batch-processor.ts:62-103 | No per-file step creates a directory. |
| FileBatchProcessor.DirectoryCreatedOnceFirst | src/infrastructure/services/file-batch-processor.ts:43-50 | With files, a non-empty outDir is created by the first call and only then. |
| FileBatchProcessor.EntryOfFile | src/infrastructure/services/file-batch-processor.ts:108-122 | Entry i is file i's own conversion, and names file i. |
| FileBatchProcessor.SuccessWritesDocument | src/infrastructure/services/file-batch-processor.ts:64-94 | A converted entry names getOutputPath. Right after its step that path holds the document built with the batch's command line, unless the source was that same path and was deleted. |
| FileBatchProcessor.FailureIsolated | src/infrastructure/services/file-batch-processor.ts:95-103 | Without removeSource, dropping a failed file leaves every other entry as it was. |
| BatchService.Document | src/infrastructure/services/batch-processor.service.ts:29 | The written document has no bash block. |
| BatchService.ConvertSingle | src/infrastructure/services/batch-processor.service.ts:21-41 | The first call reads the source. Afterwards the source is still there exactly when it was there before and either the conversion threw or keepSource is set. |
| BatchService.EnsureOutputDirectory | src/infrastructure/services/file-storage.service.ts:53-57 | mkdir runs exactly when the directory is given and non-empty. |
| BatchService.BatchProcessorService.ConvertSingleFile | src/infrastructure/services/batch-processor.service.ts:21-41 | The outcome, new state and calls are those of ConvertSingle: read, format, write, then delete unless keepSource. |
| BatchService.BatchProcessorService.ConvertFiles | src/infrastructure/services/batch-processor.service.ts:46-90 | The report or error, final state and calls are those of the batch. |
| BatchService.SuccessIffEveryCallSucceeds | src/infrastructure/services/batch-processor.service.ts:21-41 | A file succeeds exactly when its read, its write and (without keepSource) its delete can all succeed. |
| BatchService.ConvertSuccess | src/infrastructure/services/batch-processor.service.ts:26-40 | A converted file: the output path holds the document with no bash block, and the source is gone unless keepSource is set. The calls were read, write, delete. |
| BatchService.ConvertFailure | src/infrastructure/services/batch-processor.service.ts:63-72 | A failed file changes nothing unless only its delete failed, and its source stays. |
| BatchService.DeleteOnlyAfterWrite | src/infrastructure/services/batch-processor.service.ts:35-40 | A delete is only the third call, without keepSource, after a write to an unlocked path. |
| BatchService.DirectoryCreatedOnceFirst | src/infrastructure/services/batch-processor.service.ts:53-58 | The directory is ensured once, before any file, and only when outDir is non-empty. |
| BatchService.EntryOfFile | src/infrastructure/services/batch-processor.service.ts:61-89 | Entry i names file i. It is a success exactly when file i's conversion did not throw, and otherwise carries the error. |
| BatchService.FailureIsolated | src/infrastructure/services/batch-processor.service.ts:61-74 | With keepSource, dropping a failed file leaves every other entry as it was. |
| CommandExecutor.ProcessFiles | src/presentation/command-executor.ts:13-60 | The report or error, final state and calls are those of the batch of convertFile steps. |
| CommandExecutor.RunCommand | src/presentation/command-executor.ts:65-80 | processFiles runs with the CLI glob when it is non-empty, else the positional pattern; with that pattern's matches; and with the CLI options merged over the loaded config. |
| CommandExecutor.DirectoryCreatedOnceFirst | src/presentation/command-executor.ts:20-27 | With files, a non-empty outDir is created by the first call and only then. |
| CommandExecutor.EntryOfFile | src/presentation/command-executor.ts:31-59 | Entry i names file i. It is a success exactly when its convertFile did not throw, and otherwise carries the error. |
| CommandExecutor.FailureIsolated | src/presentation/command-executor.ts:31-42 | With keepSource, dropping a failed file leaves every other entry as it was. |
| MermaidFileProcessor.GetOutputPath | src/application/mermaid-file-processor.ts:38-45 | The same two closed forms as PathCalculator.OutputPath: the input with its last extension replaced when outDir is empty or absent, else, for a plain, normalised outDir, outDir, a '/', the stem and the extension. |
| MermaidFileProcessor.Convert | src/application/mermaid-file-processor.ts:13-33 | The first call reads the source. Afterwards the source is still there exactly when it was there before and either the conversion threw or keepSource is set. |
| MermaidFileProcessor.ConvertFile | src/application/mermaid-file-processor.ts:13-33 | The outcome, new state and calls are those of Convert: read, build, write, then delete unless keepSource. |
| MermaidFileProcessor.ReadFailureTouchesNothing | src/application/mermaid-file-processor.ts:18 | A read failure throws after one call, with nothing written or deleted. |
| MermaidFileProcessor.SuccessIffEveryCallSucceeds | src/application/mermaid-file-processor.ts:13-33 | Success exactly when the read, the write and (without keepSource) the delete can all succeed. |
| MermaidFileProcessor.ConvertSuccess | src/application/mermaid-file-processor.ts:18-32 | The output path holds buildMarkdownContent of the source, and the source is gone exactly when keepSource is off. The calls were read, write, delete. |
| MermaidFileProcessor.ConvertFailure | src/application/mermaid-file-processor.ts:27-32 | A failed conversion changes nothing unless only the delete failed, and never removes the source. |
| MermaidFileProcessor.DeleteOnlyAfterWrite | src/application/mermaid-file-processor.ts:27-32 | A delete is only the third call, without keepSource, after a write to an unlocked path. |

## Left out

- **Unicode white space.** `trim` is modelled with the ASCII white space characters only:
  space, tab, line feed, vertical tab, form feed and carriage return.
- **Paths are normalised.** The path functions are node's posix `path` on normalised paths
  (`PosixPath.Normalised`): no trailing '/' except the root "/", no "//", and no "." or ".."
  segment.
  - `join` is modelled without normalisation.
  - The closed forms for an output directory, and the lemmas that build paths from pieces,
    require a directory that `join` extends with a single '/' and otherwise leaves as it is
    (`PlainDirectory`): not "", not ".", no trailing '/', and itself normalised. For any
    other directory ("./docs", "a//b", "docs/./out") node's `join` rewrites the text, and
    the model says nothing about the result.
- **Windows path rules.** These are not modelled; a backslash is an ordinary character.
- **Serialisers.** `JSON.stringify` and the YAML serialiser are parameters of
  `GenerateConfigFileContent`, so their formatting is not modelled. Only the template text
  around them, and the order of the properties handed to them, are modelled.
- **Glob search.** The glob search (`findFilesByPattern`, `findMermaidFiles`, `findFiles`) is
  replaced by the given list of matched files. In `CommandExecutor.RunCommand` it is a
  function parameter.
- **Concurrency.** The `Promise.allSettled` fan-out is modelled as a sequential loop in list
  order. When two inputs map to one output path, the order of their writes under real
  concurrency is unspecified. The model does not settle it.
- **The rejected branch of `Promise.allSettled`.** This is left out: every per-file body
  catches its own errors, so that branch cannot be reached.
- **Directory semantics.** Directories are a plain set. `mkdir -p` on parent paths and the
  need for a parent directory before a write are not modelled. A write fails only on a
  locked path.
- **Error objects.** I/O errors are `IoError` values (a code, a system call and a path), not
  JavaScript `Error` objects. The current engine's `failureReason` is the modelled message of
  the call that threw (`FileBatchProcessor.FailureReasonOfFailingCall`).
- **Out of the model, and why:**
  - `loadConfig` (cosmiconfig) and the valibot schemas are I/O and library code. The loaded
    configuration is a parameter of `ShowConfig.ShowConfig` and
    `CommandExecutor.RunCommand`.
  - The CLI and presentation layer (commander wiring, `printResults`, `process.exit`) is
    left out for the same reason.
  - The interactive `init` wizard is left out for the same reason.
  - `options-combiner.ts` depends on a schema that is not part of this model.
- **Verbatim copies.** `getOutputPath` in `file-storage.service.ts` is the same calculation
  as `PathCalculator.OutputPath`, and the model uses that. `src/infrastructure/file.ts` and
  `hasErrors` in `src/application/processor.ts` repeat `mermaid-file-processor.ts` and
  `ResultChecker.HasFailures`.
- **Isolation lemmas, stated weaker than the promise that per-file failures are isolated.**
  A failure can happen after the output was already written, when only the delete fails. A
  later file can then see that output. So isolation is proved only where a failed file
  changes nothing:
  - FileBatchProcessor.FailureIsolated: proved only without `removeSource`, where a failed
    file leaves the file system unchanged.
  - BatchService.FailureIsolated: proved only with `keepSource`, for the same reason.
  - CommandExecutor.FailureIsolated: proved only with `keepSource`, for the same reason.
- PathCalculator.BesideInput: proved only for normalised paths. On other paths node's
  `join` would normalise the output.
- PathCalculator.ReplacesLastExtension: proved only for normalised paths, for the same
  reason.
- PathCalculator.SameExtensionMapsToItself: proved only for normalised paths, for the same
  reason.
- PathCalculator.OutputPath: the closed forms match node's result only for configured
  extensions that keep the joined text normalised, such as ".md". An empty extension after the stem
  ".." (input "a/...mmd") or an extension holding '/' gives a joined text that node's
  `join` would rewrite, while the model keeps it as it is.
- PathCalculator.GetOutputPath: the same extension caveat as PathCalculator.OutputPath.
- MermaidFileProcessor.GetOutputPath: the same extension caveat as PathCalculator.OutputPath.
- PathCalculator.ExtensionReplacedInPlace: the same extension caveat as
  PathCalculator.OutputPath.
- PathCalculator.ExtensionAppended: the same extension caveat as PathCalculator.OutputPath.
- PathCalculator.StemMovedToOutDir: the same extension caveat as PathCalculator.OutputPath.
- PathCalculator.BareNameStaysBare: the same extension caveat as PathCalculator.OutputPath.
- Text.TrimSpec: white space means the ASCII set above, not Unicode white space.
