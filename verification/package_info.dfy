/** The npm package name that the command line and the config templates print. */
module PackageInfo {
  const PACKAGE_NAME: string := "mermaid-markdown-wrap"
}
