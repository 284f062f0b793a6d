/**
 * The command line shown above a converted diagram
 * (src/domain/services/command-info-generator.ts): the package name, the glob
 * (quoted when it holds a space or '*'), then the flags the user gave, always in
 * the order --out-dir, --header, --footer, --config, --keep-source.
 */
module CommandInfoGenerator {
  import opened Wrappers
  import opened Text
  import opened DomainOptions
  import opened PackageInfo

  /** A glob holding a space or '*' is wrapped in double quotes. */
  predicate NeedsQuotes(glob: string)
  {
    Contains(glob, ' ') || Contains(glob, '*')
  }

  function Quoted(s: string): string
  {
    "\"" + s + "\""
  }

  /** The text a flag adds after the previous token: nothing when its value is absent or "". */
  function Flag(name: string, value: Option<string>, quote: bool): string
  {
    if !Truthy(value) then ""
    else " " + name + " " + (if quote then Quoted(value.value) else value.value)
  }

  /** The glob as its own token. */
  function GlobToken(glob: string): string
  {
    if NeedsQuotes(glob) then Quoted(glob) else glob
  }

  /** --keep-source appears only when asked for. */
  function KeepFlag(keep: bool): string
  {
    if keep then " " + "--keep-source" else ""
  }

  /** The command line after the package name: the glob, then each flag the user gave, in the fixed order. */
  function Arguments(glob: string, cli: CLIOptions): string
  {
    GlobToken(glob)
    + Flag("--out-dir", cli.outDir, false)
    + Flag("--header", cli.header, true)
    + Flag("--footer", cli.footer, true)
    + Flag("--config", cli.config, false)
    + KeepFlag(cli.keepSource == Some(true))
  }

  /** The whole command line. */
  function CommandLine(glob: string, cli: CLIOptions): string
  {
    PACKAGE_NAME + " " + Arguments(glob, cli)
  }

  /** The tokens a given flag contributes: none when its value is absent or "". */
  function FlagTokens(name: string, value: Option<string>, quote: bool): seq<string>
  {
    if Truthy(value) then [name, if quote then Quoted(value.value) else value.value] else []
  }

  /** The token list of generateCommandInfo: package name, glob, then each given flag in the fixed order. */
  function Tokens(glob: string, cli: CLIOptions): seq<string>
  {
    [PACKAGE_NAME, GlobToken(glob)]
    + FlagTokens("--out-dir", cli.outDir, false)
    + FlagTokens("--header", cli.header, true)
    + FlagTokens("--footer", cli.footer, true)
    + FlagTokens("--config", cli.config, false)
    + KeepTokens(cli.keepSource == Some(true))
  }

  function KeepTokens(keep: bool): seq<string>
  {
    if keep then ["--keep-source"] else []
  }

  /** generateCommandInfo(globPattern, cliOptions): tokens pushed in order and joined by single spaces. */
  method GenerateCommandInfo(globPattern: string, cliOptions: CLIOptions) returns (r: string)
    ensures r == CommandLine(globPattern, cliOptions)
  {
    var parts: seq<string> := [PACKAGE_NAME];
    if Contains(globPattern, ' ') || Contains(globPattern, '*') {
      parts := parts + [Quoted(globPattern)];
    } else {
      parts := parts + [globPattern];
    }
    ghost var expected := [PACKAGE_NAME, GlobToken(globPattern)];
    assert parts == expected;
    if Truthy(cliOptions.outDir) {
      parts := parts + ["--out-dir", cliOptions.outDir.value];
    }
    expected := expected + FlagTokens("--out-dir", cliOptions.outDir, false);
    assert parts == expected;
    if Truthy(cliOptions.header) {
      parts := parts + ["--header", Quoted(cliOptions.header.value)];
    }
    expected := expected + FlagTokens("--header", cliOptions.header, true);
    assert parts == expected;
    if Truthy(cliOptions.footer) {
      parts := parts + ["--footer", Quoted(cliOptions.footer.value)];
    }
    expected := expected + FlagTokens("--footer", cliOptions.footer, true);
    assert parts == expected;
    if Truthy(cliOptions.config) {
      parts := parts + ["--config", cliOptions.config.value];
    }
    expected := expected + FlagTokens("--config", cliOptions.config, false);
    assert parts == expected;
    if cliOptions.keepSource == Some(true) {
      parts := parts + ["--keep-source"];
    }
    expected := expected + KeepTokens(cliOptions.keepSource == Some(true));
    assert parts == expected;
    r := Join(parts, " ");
    JoinTokens(globPattern, cliOptions);
  }

  /** Joining the token list with single spaces gives the command line. */
  lemma JoinTokens(glob: string, cli: CLIOptions)
    ensures Join(Tokens(glob, cli), " ") == CommandLine(glob, cli)
  {
    var head := PACKAGE_NAME + " ";
    var a0 := GlobToken(glob);
    var p0 := [PACKAGE_NAME, a0];
    assert Join(p0, " ") == head + a0 by {
      assert Join(p0, " ") == PACKAGE_NAME + " " + Join([a0], " ");
    }
    var p1 := p0 + FlagTokens("--out-dir", cli.outDir, false);
    FlagPush(p0, head, a0, "--out-dir", cli.outDir, false);
    var a1 := a0 + Flag("--out-dir", cli.outDir, false);
    var p2 := p1 + FlagTokens("--header", cli.header, true);
    FlagPush(p1, head, a1, "--header", cli.header, true);
    var a2 := a1 + Flag("--header", cli.header, true);
    var p3 := p2 + FlagTokens("--footer", cli.footer, true);
    FlagPush(p2, head, a2, "--footer", cli.footer, true);
    var a3 := a2 + Flag("--footer", cli.footer, true);
    var p4 := p3 + FlagTokens("--config", cli.config, false);
    FlagPush(p3, head, a3, "--config", cli.config, false);
    var a4 := a3 + Flag("--config", cli.config, false);
    KeepPush(p4, head, a4, cli.keepSource == Some(true));
  }

  /** The optional --keep-source push keeps the joined parts equal to the line built so far. */
  lemma KeepPush(before: seq<string>, head: string, line: string, keep: bool)
    requires before != [] && Join(before, " ") == head + line
    ensures Join(before + KeepTokens(keep), " ") == head + (line + KeepFlag(keep))
  {
    if keep {
      JoinPush(before, ["--keep-source"], head, line, "--keep-source");
    } else {
      assert before + KeepTokens(keep) == before;
    }
  }

  /** Pushing tokens whose own join is `added` extends the joined line by a space and `added`. */
  lemma JoinPush(parts: seq<string>, extra: seq<string>, head: string, line: string, added: string)
    requires parts != [] && extra != []
    requires Join(parts, " ") == head + line
    requires Join(extra, " ") == added
    ensures Join(parts + extra, " ") == head + (line + (" " + added))
  {
    JoinAppend(parts, extra, " ");
    ConcatAssoc4(head, line, " ", added);
    ConcatAssoc3(line, " ", added);
  }

  /** One conditional flag push keeps the joined parts equal to the line built so far. */
  lemma FlagPush(before: seq<string>, head: string, line: string,
                 name: string, value: Option<string>, quote: bool)
    requires before != [] && Join(before, " ") == head + line
    ensures Join(before + FlagTokens(name, value, quote), " ") == head + (line + Flag(name, value, quote))
  {
    if Truthy(value) {
      var v := if quote then Quoted(value.value) else value.value;
      assert Join([name, v], " ") == name + " " + Join([v], " ");
      JoinPush(before, [name, v], head, line, name + " " + v);
      ConcatAssoc3(" ", name + " ", v);
      ConcatAssoc3(" ", name, " ");
    } else {
      assert before + FlagTokens(name, value, quote) == before;
    }
  }

  /** The first token is the package name. */
  lemma StartsWithPackageName(glob: string, cli: CLIOptions)
    ensures StartsWith(CommandLine(glob, cli), PACKAGE_NAME + " ")
  {
    PrefixOfConcat(PACKAGE_NAME + " ", Arguments(glob, cli));
  }

  /** Text that is empty or opens with a space, as every flag's text does. */
  predicate OpensWithSpace(s: string)
  {
    s == [] || s[0] == ' '
  }

  lemma OpensWithSpaceConcat(a: string, b: string)
    requires OpensWithSpace(a) && OpensWithSpace(b)
    ensures OpensWithSpace(a + b)
  {
    if a == [] {
      assert a + b == b;
    }
  }

  /** The text after the glob is empty or opens with a space. */
  lemma FlagsOpenWithSpace(cli: CLIOptions)
    ensures OpensWithSpace(Flag("--out-dir", cli.outDir, false) + Flag("--header", cli.header, true)
      + Flag("--footer", cli.footer, true) + Flag("--config", cli.config, false)
      + KeepFlag(cli.keepSource == Some(true)))
  {
    var f1, f2 := Flag("--out-dir", cli.outDir, false), Flag("--header", cli.header, true);
    var f3, f4 := Flag("--footer", cli.footer, true), Flag("--config", cli.config, false);
    var k := KeepFlag(cli.keepSource == Some(true));
    OpensWithSpaceConcat(f1, f2);
    OpensWithSpaceConcat(f1 + f2, f3);
    OpensWithSpaceConcat(f1 + f2 + f3, f4);
    OpensWithSpaceConcat(f1 + f2 + f3 + f4, k);
  }

  /** The arguments regrouped as the glob token followed by the flags' text. */
  lemma ArgumentsSplit(glob: string, cli: CLIOptions)
    ensures Arguments(glob, cli) == GlobToken(glob) + (Flag("--out-dir", cli.outDir, false) + Flag("--header", cli.header, true)
      + Flag("--footer", cli.footer, true) + Flag("--config", cli.config, false)
      + KeepFlag(cli.keepSource == Some(true)))
  {
    var f1, f2 := Flag("--out-dir", cli.outDir, false), Flag("--header", cli.header, true);
    var f3, f4 := Flag("--footer", cli.footer, true), Flag("--config", cli.config, false);
    var k := KeepFlag(cli.keepSource == Some(true));
    Regroup5(GlobToken(glob), f1, f2, f3, f4, k);
  }

  lemma Regroup5(t: string, a: string, b: string, c: string, d: string, e: string)
    ensures t + a + b + c + d + e == t + (a + b + c + d + e)
  {
  }

  /** After the package name and a space, the line opens with a double quote exactly when `args` does. */
  lemma QuoteAfterHead(head: string, args: string)
    ensures StartsWith(head + args, head + "\"") <==> (args != [] && args[0] == '"')
  {
    var line := head + args;
    if args != [] && args[0] == '"' {
      assert line[..|head| + 1] == head + "\"";
    }
    if StartsWith(line, head + "\"") {
      assert line[|head|] == (head + "\"")[|head|] == '"';
    }
  }

  /**
   * For a glob that does not itself open with a double quote, the command line
   * quotes it exactly when the glob holds a space or '*'.
   */
  lemma GlobQuotedIff(glob: string, cli: CLIOptions)
    requires glob == [] || glob[0] != '"'
    ensures StartsWith(CommandLine(glob, cli), PACKAGE_NAME + " \"") <==> NeedsQuotes(glob)
  {
    var tok := GlobToken(glob);
    var flags := Flag("--out-dir", cli.outDir, false) + Flag("--header", cli.header, true)
      + Flag("--footer", cli.footer, true) + Flag("--config", cli.config, false)
      + KeepFlag(cli.keepSource == Some(true));
    ArgumentsSplit(glob, cli);
    FlagsOpenWithSpace(cli);
    QuoteAfterHead(PACKAGE_NAME + " ", Arguments(glob, cli));
    assert PACKAGE_NAME + " " + "\"" == PACKAGE_NAME + " \"";
    if tok == [] {
      assert tok + flags == flags;
    } else {
      assert (tok + flags)[0] == tok[0];
    }
  }

  /** With every flag given, the tokens follow the glob in the fixed order, header and footer quoted. */
  lemma AllFlagsInOrder(glob: string, cli: CLIOptions, outDir: string, header: string, footer: string, config: string)
    requires cli.outDir == Some(outDir) && cli.header == Some(header) && cli.footer == Some(footer)
    requires cli.config == Some(config) && cli.keepSource == Some(true)
    requires outDir != "" && header != "" && footer != "" && config != ""
    ensures Tokens(glob, cli) == [PACKAGE_NAME, GlobToken(glob), "--out-dir", outDir, "--header", "\"" + header + "\"",
      "--footer", "\"" + footer + "\"", "--config", config, "--keep-source"]
  {
  }

  /**
   * Absent flags, flags whose value is "", and a keepSource that is not exactly
   * true add nothing to the line.
   */
  lemma OnlyGivenFlagsAppear(glob: string, cli: CLIOptions)
    requires !Truthy(cli.outDir) && !Truthy(cli.header) && !Truthy(cli.footer) && !Truthy(cli.config)
    requires cli.keepSource != Some(true)
    ensures CommandLine(glob, cli) == PACKAGE_NAME + " " + GlobToken(glob)
  {
    ArgumentsSplit(glob, cli);
  }

  /** extension and showCommand are never rendered. */
  lemma IgnoresExtensionAndShowCommand(glob: string, cli: CLIOptions, extension: Option<string>, showCommand: Option<bool>)
    ensures CommandLine(glob, cli.(extension := extension, showCommand := showCommand)) == CommandLine(glob, cli)
  {
  }

  /**
   * A typical invocation: a glob with a space or '*' (such as "src/**/*.mmd"), an
   * output directory and the keep-source switch.
   */
  lemma TypicalInvocation(glob: string, outDir: string, cli: CLIOptions)
    requires NeedsQuotes(glob) && outDir != ""
    requires cli == NO_CLI.(outDir := Some(outDir), keepSource := Some(true), showCommand := Some(true))
    ensures Tokens(glob, cli) == [PACKAGE_NAME, "\"" + glob + "\"", "--out-dir", outDir, "--keep-source"]
  {
  }
}
