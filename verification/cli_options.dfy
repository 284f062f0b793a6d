/**
 * The option records of src/domain/cli-options.ts, the older schema: it has a
 * `glob` option and no `showCommand`. An absent property is `None`.
 */
module CliOptions {
  import opened Wrappers

  datatype ConfigOptions = ConfigOptions(
    outDir: Option<string>,
    extension: Option<string>,
    header: Option<string>,
    footer: Option<string>,
    keepSource: Option<bool>)

  datatype CLIOptions = CLIOptions(
    outDir: Option<string>,
    extension: Option<string>,
    header: Option<string>,
    footer: Option<string>,
    keepSource: Option<bool>,
    glob: Option<string>,
    config: Option<string>)

  datatype Options = Options(
    extension: string,
    header: string,
    footer: string,
    keepSource: bool,
    outDir: Option<string>,
    glob: Option<string>,
    config: Option<string>)

  /** DEFAULT_OPTIONS */
  const DEFAULT_EXTENSION: string := ".md"
  const DEFAULT_HEADER: string := ""
  const DEFAULT_FOOTER: string := ""
  const DEFAULT_KEEP_SOURCE: bool := false

  /** The object literal `{}` at each type. */
  const NO_CONFIG: ConfigOptions := ConfigOptions(None, None, None, None, None)
  const NO_CLI: CLIOptions := CLIOptions(None, None, None, None, None, None, None)
}
