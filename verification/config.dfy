/**
 * Option precedence of `mergeOptions` in src/infrastructure/config.ts, the older
 * variant: it carries `glob`, has no `showCommand`, and takes glob and config from
 * the command line only.
 */
module Config {
  import opened Wrappers
  import opened CliOptions

  /** mergeOptions(cliOptions, configOptions) */
  function MergeOptions(cliOptions: CLIOptions, configOptions: ConfigOptions): (r: Options)
    ensures r.extension == FirstDefined([cliOptions.extension, configOptions.extension], DEFAULT_EXTENSION)
    ensures r.header == FirstDefined([cliOptions.header, configOptions.header], DEFAULT_HEADER)
    ensures r.footer == FirstDefined([cliOptions.footer, configOptions.footer], DEFAULT_FOOTER)
    ensures r.keepSource == FirstDefined([cliOptions.keepSource, configOptions.keepSource], DEFAULT_KEEP_SOURCE)
    ensures r.outDir.Some? <==> Truthy(Coalesce(cliOptions.outDir, configOptions.outDir))
    ensures r.outDir.Some? ==> r.outDir == Coalesce(cliOptions.outDir, configOptions.outDir)
    ensures r.glob.Some? <==> Truthy(cliOptions.glob)
    ensures r.glob.Some? ==> r.glob == cliOptions.glob
    ensures r.config.Some? <==> Truthy(cliOptions.config)
    ensures r.config.Some? ==> r.config == cliOptions.config
  {
    CoalesceChain(cliOptions.extension, configOptions.extension, DEFAULT_EXTENSION);
    CoalesceChain(cliOptions.header, configOptions.header, DEFAULT_HEADER);
    CoalesceChain(cliOptions.footer, configOptions.footer, DEFAULT_FOOTER);
    CoalesceChain(cliOptions.keepSource, configOptions.keepSource, DEFAULT_KEEP_SOURCE);
    var outDir := Coalesce(cliOptions.outDir, configOptions.outDir);
    Options(
      extension := GetOr(Coalesce(cliOptions.extension, configOptions.extension), DEFAULT_EXTENSION),
      header := GetOr(Coalesce(cliOptions.header, configOptions.header), DEFAULT_HEADER),
      footer := GetOr(Coalesce(cliOptions.footer, configOptions.footer), DEFAULT_FOOTER),
      keepSource := GetOr(Coalesce(cliOptions.keepSource, configOptions.keepSource), DEFAULT_KEEP_SOURCE),
      outDir := if Truthy(outDir) then outDir else None,
      glob := if Truthy(cliOptions.glob) then cliOptions.glob else None,
      config := if Truthy(cliOptions.config) then cliOptions.config else None)
  }

  /** With nothing given anywhere, the defaults apply and no optional key is present. */
  lemma MergeOfNothing()
    ensures MergeOptions(NO_CLI, NO_CONFIG) == Options(".md", "", "", false, None, None, None)
  {
  }

  /** A command-line outDir that is present wins over the config file's, and decides presence by itself. */
  lemma CommandLineOutDirWins(cli: CLIOptions, config: ConfigOptions)
    requires cli.outDir.Some?
    ensures MergeOptions(cli, config).outDir == (if cli.outDir.value != "" then cli.outDir else None)
  {
  }

  /** The config file can contribute neither glob nor config. */
  lemma GlobAndConfigOnlyFromCommandLine(cli: CLIOptions, c1: ConfigOptions, c2: ConfigOptions)
    ensures MergeOptions(cli, c1).glob == MergeOptions(cli, c2).glob
    ensures MergeOptions(cli, c1).config == MergeOptions(cli, c2).config
  {
  }
}
