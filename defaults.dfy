/** The built-in configuration and metadata that seed the reserved `gen`, `help` and `version` options. */
module Defaults {
  import opened Wrappers
  import opened Types

  /** The three reserved option names. */
  const ReservedNames: set<string> := {"gen", "help", "version"}

  /** The short aliases of a schema's descriptors are pairwise distinct. */
  predicate ShortsDistinct(schema: Schema) {
    forall a, b | a in schema && b in schema && a != b && schema[a].short.Some? ::
      schema[a].short != schema[b].short
  }

  /**
   * The default parser configuration: `gen` a string option with short `g`, `help` and `version`
   * boolean options with shorts `h` and `v`; strict, positionals allowed, no negation, no tokens.
   */
  function DefaultConfig(): ParseConfig
  {
    ParseConfig(
      args := None,
      options := Some(map[
        "gen" := OptionDescriptor(StringOption, Some("g"), None, None),
        "help" := OptionDescriptor(BooleanOption, Some("h"), None, None),
        "version" := OptionDescriptor(BooleanOption, Some("v"), None, None)]),
      strict := Some(true),
      allowPositionals := Some(true),
      allowNegative := Some(false),
      tokens := Some(false))
  }

  /**
   * The default metadata: exit on error, and help text for the three reserved options, the
   * `gen` option showing the placeholder `docs`. No version string.
   */
  function DefaultMetadata(): Metadata
  {
    Metadata(
      cliExit := Some(true),
      cliName := None,
      version := None,
      help := None,
      placeholder := None,
      required := None,
      options := Some(map[
        "gen" := OptionMetadata(Some("Generate documentation."), Some("docs"), None),
        "help" := OptionMetadata(Some("Show help."), None, None),
        "version" := OptionMetadata(Some("Show version."), None, None)]))
  }

  /** The reserved options of the default configuration, their kinds and their distinct shorts. */
  lemma DefaultConfigShape()
    ensures var c := DefaultConfig();
      && c.options.Some? && c.options.value.Keys == ReservedNames
      && ShortsDistinct(c.options.value)
      && c.options.value["gen"].kind == StringOption && c.options.value["gen"].short == Some("g")
      && c.options.value["help"].kind == BooleanOption && c.options.value["help"].short == Some("h")
      && c.options.value["version"].kind == BooleanOption && c.options.value["version"].short == Some("v")
      && c.strict == Some(true) && c.allowPositionals == Some(true)
      && c.allowNegative == Some(false) && c.tokens == Some(false)
      && c.args.None?
  {
  }

  /** The default metadata: exit on error, no version, help for exactly the reserved options. */
  lemma DefaultMetadataShape()
    ensures var m := DefaultMetadata();
      && m.cliExit == Some(true) && m.version.None? && m.help.None?
      && m.options.Some? && m.options.value.Keys == ReservedNames
      && m.options.value["gen"] == OptionMetadata(Some("Generate documentation."), Some("docs"), None)
      && m.options.value["help"] == OptionMetadata(Some("Show help."), None, None)
      && m.options.value["version"] == OptionMetadata(Some("Show version."), None, None)
  {
  }
}
