/**
 * Option precedence of src/domain/services/options-merger.ts: each resolved field
 * is the command-line value if present, else the config-file value, else the
 * default; outDir and config are added only when truthy.
 */
module OptionsMerger {
  import opened Wrappers
  import opened DomainOptions

  /** mergeOptions(cliOptions, configOptions) */
  function MergeOptions(cliOptions: CLIOptions, configOptions: ConfigOptions): (r: Options)
    ensures r.extension == FirstDefined([cliOptions.extension, configOptions.extension], DEFAULT_EXTENSION)
    ensures r.header == FirstDefined([cliOptions.header, configOptions.header], DEFAULT_HEADER)
    ensures r.footer == FirstDefined([cliOptions.footer, configOptions.footer], DEFAULT_FOOTER)
    ensures r.keepSource == FirstDefined([cliOptions.keepSource, configOptions.keepSource], DEFAULT_KEEP_SOURCE)
    ensures r.showCommand == FirstDefined([cliOptions.showCommand, configOptions.showCommand], DEFAULT_SHOW_COMMAND)
    ensures r.outDir.Some? <==> Truthy(Coalesce(cliOptions.outDir, configOptions.outDir))
    ensures r.outDir.Some? ==> r.outDir == Coalesce(cliOptions.outDir, configOptions.outDir)
    ensures r.config.Some? <==> Truthy(cliOptions.config)
    ensures r.config.Some? ==> r.config == cliOptions.config
  {
    CoalesceChain(cliOptions.extension, configOptions.extension, DEFAULT_EXTENSION);
    CoalesceChain(cliOptions.header, configOptions.header, DEFAULT_HEADER);
    CoalesceChain(cliOptions.footer, configOptions.footer, DEFAULT_FOOTER);
    CoalesceChain(cliOptions.keepSource, configOptions.keepSource, DEFAULT_KEEP_SOURCE);
    CoalesceChain(cliOptions.showCommand, configOptions.showCommand, DEFAULT_SHOW_COMMAND);
    var outDir := Coalesce(cliOptions.outDir, configOptions.outDir);
    Options(
      extension := GetOr(Coalesce(cliOptions.extension, configOptions.extension), DEFAULT_EXTENSION),
      header := GetOr(Coalesce(cliOptions.header, configOptions.header), DEFAULT_HEADER),
      footer := GetOr(Coalesce(cliOptions.footer, configOptions.footer), DEFAULT_FOOTER),
      keepSource := GetOr(Coalesce(cliOptions.keepSource, configOptions.keepSource), DEFAULT_KEEP_SOURCE),
      showCommand := GetOr(Coalesce(cliOptions.showCommand, configOptions.showCommand), DEFAULT_SHOW_COMMAND),
      outDir := if Truthy(outDir) then outDir else None,
      config := if Truthy(cliOptions.config) then cliOptions.config else None)
  }

  /** With nothing given anywhere, the defaults apply and neither optional key is present. */
  lemma MergeOfNothing()
    ensures MergeOptions(NO_CLI, NO_CONFIG) == Options(".md", "", "", false, true, None, None)
  {
  }

  /**
   * A value the command line gives wins over the config file, even when it is false
   * or "", because `??` only skips absent values.
   */
  lemma CommandLineWins(cli: CLIOptions, config: ConfigOptions)
    ensures cli.extension.Some? ==> MergeOptions(cli, config).extension == cli.extension.value
    ensures cli.header.Some? ==> MergeOptions(cli, config).header == cli.header.value
    ensures cli.footer.Some? ==> MergeOptions(cli, config).footer == cli.footer.value
    ensures cli.keepSource.Some? ==> MergeOptions(cli, config).keepSource == cli.keepSource.value
    ensures cli.showCommand.Some? ==> MergeOptions(cli, config).showCommand == cli.showCommand.value
  {
    assert [cli.extension, config.extension][0] == cli.extension;
    assert [cli.header, config.header][0] == cli.header;
    assert [cli.footer, config.footer][0] == cli.footer;
    assert [cli.keepSource, config.keepSource][0] == cli.keepSource;
    assert [cli.showCommand, config.showCommand][0] == cli.showCommand;
  }

  /** An explicit empty outDir on the command line hides the config file's outDir. */
  lemma EmptyOutDirSuppressesConfig(cli: CLIOptions, config: ConfigOptions)
    requires cli.outDir == Some("")
    ensures MergeOptions(cli, config).outDir == None
  {
  }

  /** The config file never supplies the config key. */
  lemma ConfigKeyOnlyFromCommandLine(cli: CLIOptions, c1: ConfigOptions, c2: ConfigOptions)
    ensures MergeOptions(cli, c1).config == MergeOptions(cli, c2).config
  {
  }
}
