/**
 * The object spreads of the dispatcher: the top-level `{ ...base, ...over }` used when a command
 * is registered again and when the user configuration meets the defaults, the layering of a
 * matched command onto the global configuration (which also merges `options` key by key), and
 * the fold of every command's options into the phase-1 schema.
 */
module Merge {
  import opened Wrappers
  import opened Types
  import Strings

  /** A spread key: present in `over` wins, absent in `over` keeps `base`. */
  function Override<T>(base: Option<T>, over: Option<T>): (r: Option<T>)
    ensures over.Some? ==> r == over
    ensures over.None? ==> r == base
  {
    if over.Some? then over else base
  }

  /** `{ ...base, ...over }` on parser configurations: every key present in `over` replaces, `options` wholesale. */
  function SpreadConfig(base: ParseConfig, over: ParseConfig): (r: ParseConfig)
    ensures r.options == Override(base.options, over.options)
    ensures r.args == Override(base.args, over.args)
    ensures r.strict == Override(base.strict, over.strict)
    ensures r.allowPositionals == Override(base.allowPositionals, over.allowPositionals)
    ensures r.allowNegative == Override(base.allowNegative, over.allowNegative)
    ensures r.tokens == Override(base.tokens, over.tokens)
  {
    ParseConfig(
      Override(base.args, over.args),
      Override(base.options, over.options),
      Override(base.strict, over.strict),
      Override(base.allowPositionals, over.allowPositionals),
      Override(base.allowNegative, over.allowNegative),
      Override(base.tokens, over.tokens))
  }

  /** `{ ...base, ...over }` on metadata: every key present in `over` replaces, `options` wholesale. */
  function SpreadMetadata(base: Metadata, over: Metadata): (r: Metadata)
    ensures r.options == Override(base.options, over.options)
    ensures r.cliExit == Override(base.cliExit, over.cliExit)
    ensures r.cliName == Override(base.cliName, over.cliName)
    ensures r.version == Override(base.version, over.version)
    ensures r.help == Override(base.help, over.help)
    ensures r.placeholder == Override(base.placeholder, over.placeholder)
    ensures r.required == Override(base.required, over.required)
  {
    Metadata(
      Override(base.cliExit, over.cliExit),
      Override(base.cliName, over.cliName),
      Override(base.version, over.version),
      Override(base.help, over.help),
      Override(base.placeholder, over.placeholder),
      Override(base.required, over.required),
      Override(base.options, over.options))
  }

  /**
   * The configuration after a matched command is layered on: its keys overwrite the global
   * ones, and `options` is always present (the key-wise union of `LayerConfigOptions`).
   */
  function LayerConfig(global: ParseConfig, command: ParseConfig): (r: ParseConfig)
    ensures r == SpreadConfig(global, command).(options := r.options) && r.options.Some?
  {
    SpreadConfig(global, command).(options := Some(OptionsOf(global) + OptionsOf(command)))
  }

  /** The layered `options`: the union of both key sets, where the command's descriptor wins. */
  lemma LayerConfigOptions(global: ParseConfig, command: ParseConfig)
    ensures var r := OptionsOf(LayerConfig(global, command));
      && r.Keys == OptionsOf(global).Keys + OptionsOf(command).Keys
      && (forall k | k in OptionsOf(command) :: r[k] == OptionsOf(command)[k])
      && (forall k | k in OptionsOf(global) && k !in OptionsOf(command) :: r[k] == OptionsOf(global)[k])
  {
  }

  /** The metadata after a matched command is layered on, with `options` always present. */
  function LayerMetadata(global: Metadata, command: Metadata): (r: Metadata)
    ensures r == SpreadMetadata(global, command).(options := r.options) && r.options.Some?
  {
    SpreadMetadata(global, command).(options := Some(MetaOptionsOf(global) + MetaOptionsOf(command)))
  }

  /** The layered metadata `options`: the union of both key sets, where the command's entry wins. */
  lemma LayerMetadataOptions(global: Metadata, command: Metadata)
    ensures var r := MetaOptionsOf(LayerMetadata(global, command));
      && r.Keys == MetaOptionsOf(global).Keys + MetaOptionsOf(command).Keys
      && (forall k | k in MetaOptionsOf(command) :: r[k] == MetaOptionsOf(command)[k])
      && (forall k | k in MetaOptionsOf(global) && k !in MetaOptionsOf(command) :: r[k] == MetaOptionsOf(global)[k])
  {
  }

  /** Spreading is associative, so repeated registrations of one name fold their fragments left to right. */
  lemma SpreadConfigAssociative(a: ParseConfig, b: ParseConfig, c: ParseConfig)
    ensures SpreadConfig(SpreadConfig(a, b), c) == SpreadConfig(a, SpreadConfig(b, c))
  {
  }

  lemma SpreadMetadataAssociative(a: Metadata, b: Metadata, c: Metadata)
    ensures SpreadMetadata(SpreadMetadata(a, b), c) == SpreadMetadata(a, SpreadMetadata(b, c))
  {
  }

  /** The empty configuration is the unit of spreading on both sides. */
  lemma SpreadConfigUnit(c: ParseConfig)
    ensures SpreadConfig(EmptyConfig, c) == c && SpreadConfig(c, EmptyConfig) == c
  {
  }

  lemma SpreadMetadataUnit(m: Metadata)
    ensures SpreadMetadata(EmptyMetadata, m) == m && SpreadMetadata(m, EmptyMetadata) == m
  {
  }

  /** Layering the same command twice is layering it once. */
  lemma LayerConfigIdempotent(global: ParseConfig, command: ParseConfig)
    ensures LayerConfig(LayerConfig(global, command), command) == LayerConfig(global, command)
  {
    var once := OptionsOf(global) + OptionsOf(command);
    assert once + OptionsOf(command) == once;
  }

  lemma LayerMetadataIdempotent(global: Metadata, command: Metadata)
    ensures LayerMetadata(LayerMetadata(global, command), command) == LayerMetadata(global, command)
  {
    var once := MetaOptionsOf(global) + MetaOptionsOf(command);
    assert once + MetaOptionsOf(command) == once;
  }

  /** The stated options of the command registered under `name`. */
  function CommandOptions(commands: map<string, Entry>, name: string): Schema
    requires name in commands
  {
    OptionsOf(commands[name].config)
  }

  /** Every name of the insertion order is a registered command. */
  predicate OrderInCommands(order: seq<string>, commands: map<string, Entry>) {
    forall i | 0 <= i < |order| :: order[i] in commands
  }

  /**
   * The phase-1 schema: the global `options` with every registered command's `options` spread
   * over it in registration order.
   */
  function GlobalSchema(base: Schema, order: seq<string>, commands: map<string, Entry>): Schema
    requires OrderInCommands(order, commands)
    decreases |order|
  {
    if order == [] then base
    else GlobalSchema(base, order[..|order| - 1], commands) + CommandOptions(commands, Strings.Last(order))
  }

  /** One more command of the order spreads its options over the schema of the ones before it. */
  lemma GlobalSchemaStep(base: Schema, order: seq<string>, commands: map<string, Entry>, i: nat)
    requires OrderInCommands(order, commands) && i < |order|
    ensures OrderInCommands(order[..i], commands) && OrderInCommands(order[..i + 1], commands)
    ensures GlobalSchema(base, order[..i + 1], commands) == GlobalSchema(base, order[..i], commands) + CommandOptions(commands, order[i])
  {
    assert order[..i + 1][..i] == order[..i];
  }

  /** A key is in the phase-1 schema exactly when the global options or some command declares it. */
  lemma {:induction false} GlobalSchemaKeys(base: Schema, order: seq<string>, commands: map<string, Entry>, k: string)
    requires OrderInCommands(order, commands)
    ensures k in GlobalSchema(base, order, commands) <==>
      k in base || exists i | 0 <= i < |order| :: k in CommandOptions(commands, order[i])
    decreases |order|
  {
    if order != [] {
      var n := |order| - 1;
      var front := order[..n];
      GlobalSchemaKeys(base, front, commands, k);
      if exists i | 0 <= i < n :: k in CommandOptions(commands, front[i]) {
        var i :| 0 <= i < n && k in CommandOptions(commands, front[i]);
        assert order[i] == front[i];
      }
      if exists i | 0 <= i < |order| :: k in CommandOptions(commands, order[i]) {
        var i :| 0 <= i < |order| && k in CommandOptions(commands, order[i]);
        if i < n { assert front[i] == order[i]; }
      }
    }
  }

  /** The last command in registration order that declares a key decides its descriptor. */
  lemma {:induction false} GlobalSchemaLastWins(base: Schema, order: seq<string>, commands: map<string, Entry>, k: string, i: nat)
    requires OrderInCommands(order, commands)
    requires i < |order| && k in CommandOptions(commands, order[i])
    requires forall j | i < j < |order| :: k !in CommandOptions(commands, order[j])
    ensures k in GlobalSchema(base, order, commands)
    ensures GlobalSchema(base, order, commands)[k] == CommandOptions(commands, order[i])[k]
    decreases |order|
  {
    var n := |order| - 1;
    if i < n {
      var front := order[..n];
      forall j | i < j < |front| ensures k !in CommandOptions(commands, front[j]) {
        assert front[j] == order[j];
      }
      GlobalSchemaLastWins(base, front, commands, k, i);
    }
  }

  /** A key no command declares keeps the global descriptor. */
  lemma {:induction false} GlobalSchemaKeepsBase(base: Schema, order: seq<string>, commands: map<string, Entry>, k: string)
    requires OrderInCommands(order, commands)
    requires k in base
    requires forall j | 0 <= j < |order| :: k !in CommandOptions(commands, order[j])
    ensures k in GlobalSchema(base, order, commands) && GlobalSchema(base, order, commands)[k] == base[k]
    decreases |order|
  {
    if order != [] {
      var front := order[..|order| - 1];
      forall j | 0 <= j < |front| ensures k !in CommandOptions(commands, front[j]) {
        assert front[j] == order[j];
      }
      GlobalSchemaKeepsBase(base, front, commands, k);
    }
  }
}
