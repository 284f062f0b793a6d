/**
 * The defaults merge inside showConfigUseCase (src/application/use-cases/show-config.ts):
 * the loaded config file's values with the defaults of src/domain/cli-options.ts
 * filled in. Loading the file is a parameter here: `config` is what it produced.
 */
module ShowConfig {
  import opened Wrappers
  import opened CliOptions
  import Config

  /** The merged configuration that `--show-config` displays. */
  function ShowConfig(config: ConfigOptions): (r: ConfigOptions)
    ensures r.extension == Some(FirstDefined([config.extension], DEFAULT_EXTENSION))
    ensures r.header == Some(FirstDefined([config.header], DEFAULT_HEADER))
    ensures r.footer == Some(FirstDefined([config.footer], DEFAULT_FOOTER))
    ensures r.keepSource == Some(FirstDefined([config.keepSource], DEFAULT_KEEP_SOURCE))
    ensures r.outDir.Some? <==> Truthy(config.outDir)
    ensures r.outDir.Some? ==> r.outDir == config.outDir
  {
    ConfigOptions(
      extension := Some(GetOr(config.extension, DEFAULT_EXTENSION)),
      header := Some(GetOr(config.header, DEFAULT_HEADER)),
      footer := Some(GetOr(config.footer, DEFAULT_FOOTER)),
      keepSource := Some(GetOr(config.keepSource, DEFAULT_KEEP_SOURCE)),
      outDir := if Truthy(config.outDir) then config.outDir else None)
  }

  /** An empty config file shows exactly the defaults, without outDir. */
  lemma ShowOfNothing()
    ensures ShowConfig(NO_CONFIG) == ConfigOptions(None, Some(".md"), Some(""), Some(""), Some(false))
  {
  }

  /** What is shown is what a run with no command-line options would use. */
  lemma ShowsWhatAPlainRunUses(config: ConfigOptions)
    ensures ShowConfig(config).extension == Some(Config.MergeOptions(NO_CLI, config).extension)
    ensures ShowConfig(config).header == Some(Config.MergeOptions(NO_CLI, config).header)
    ensures ShowConfig(config).footer == Some(Config.MergeOptions(NO_CLI, config).footer)
    ensures ShowConfig(config).keepSource == Some(Config.MergeOptions(NO_CLI, config).keepSource)
    ensures ShowConfig(config).outDir == Config.MergeOptions(NO_CLI, config).outDir
  {
  }

  /** Showing is idempotent: the shown configuration shows as itself. */
  lemma ShowIdempotent(config: ConfigOptions)
    ensures ShowConfig(ShowConfig(config)) == ShowConfig(config)
  {
  }
}
