/**
 * The option records of src/domain/models/options.ts: what a config file may set,
 * what the command line may set, and the resolved options with every default
 * applied. An absent property is `None`, distinct from `false` and from "".
 */
module DomainOptions {
  import opened Wrappers

  datatype ConfigOptions = ConfigOptions(
    outDir: Option<string>,
    extension: Option<string>,
    header: Option<string>,
    footer: Option<string>,
    keepSource: Option<bool>,
    showCommand: Option<bool>)

  datatype CLIOptions = CLIOptions(
    outDir: Option<string>,
    extension: Option<string>,
    header: Option<string>,
    footer: Option<string>,
    keepSource: Option<bool>,
    showCommand: Option<bool>,
    config: Option<string>)

  datatype Options = Options(
    extension: string,
    header: string,
    footer: string,
    keepSource: bool,
    showCommand: bool,
    outDir: Option<string>,
    config: Option<string>)

  /** DEFAULT_OPTIONS */
  const DEFAULT_EXTENSION: string := ".md"
  const DEFAULT_HEADER: string := ""
  const DEFAULT_FOOTER: string := ""
  const DEFAULT_KEEP_SOURCE: bool := false
  const DEFAULT_SHOW_COMMAND: bool := true

  /** The object literal `{}` at each type. */
  const NO_CONFIG: ConfigOptions := ConfigOptions(None, None, None, None, None, None)
  const NO_CLI: CLIOptions := CLIOptions(None, None, None, None, None, None, None)
}
