/**
 * The `Tako` object: its command map (with the map's insertion order), its root handlers and the
 * live session fields `config`, `metadata` and `scriptArgs`, which `cli` overwrites as it goes.
 */
module Dispatcher {
  import opened Wrappers
  import opened Types
  import opened Strings
  import opened Merge
  import opened Defaults
  import opened Chain
  import opened Help
  import opened DispatchSpec

  class Tako {
    var scriptArgs: ParsedResults
    var config: ParseConfig
    var metadata: Metadata
    /** `#commands`, with `order` the iteration order of that `Map`. */
    var commands: map<string, Entry>
    var order: seq<string>
    /** `#rootHandlers` */
    var rootHandlers: seq<Handler>

    function Snapshot(): Registry
      reads this
    {
      Registry(commands, order, rootHandlers)
    }

    ghost predicate Valid()
      reads this
    {
      WellFormed(Snapshot())
    }

    constructor ()
      ensures Valid() && Snapshot() == EmptyRegistry
      ensures config == EmptyConfig && metadata == EmptyMetadata
    {
      scriptArgs := ParsedResults(map[], []);
      config := EmptyConfig;
      metadata := EmptyMetadata;
      commands := map[];
      order := [];
      rootHandlers := [];
    }

    /**
     * `command(name, { config, metadata }, ...handlers)`: registers under the normalised name,
     * or adds root handlers when the name normalises to "". The session fields are not touched.
     */
    method Command(name: string, args: TakoArgs, handlers: seq<Handler>)
      requires Valid()
      modifies this`commands, this`order, this`rootHandlers
      ensures Snapshot() == Register(old(Snapshot()), name, args, handlers)
      ensures Valid()
    {
      var normalizedName := NormalizeName(name);
      if normalizedName == "" {
        rootHandlers := rootHandlers + handlers;
      } else {
        var commandConfig := MergeEntry(Lookup(commands, normalizedName), args, handlers);
        if normalizedName !in commands {
          order := order + [normalizedName];
        }
        commands := commands[normalizedName := commandConfig];
      }
    }

    /**
     * The phase-1 schema: the live `config.options` with each command's `options` spread over
     * it in registration order.
     */
    method GlobalParseOptions() returns (globalParseOptions: Schema)
      requires Valid()
      ensures globalParseOptions == GlobalSchema(OptionsOf(config), order, commands)
    {
      var names, cmds := order, commands;
      globalParseOptions := OptionsOf(config);
      for i := 0 to |names|
        invariant globalParseOptions == GlobalSchema(OptionsOf(config), names[..i], cmds)
      {
        GlobalSchemaStep(OptionsOf(config), names, cmds, i);
        globalParseOptions := globalParseOptions + CommandOptions(cmds, names[i]);
      }
      assert names[..|names|] == names;
    }

    /**
     * Longest-prefix command resolution: tries the prefixes of the positionals from the longest
     * down and stops at the first registered name.
     */
    method ResolveCommand(positionals: seq<string>) returns (bestCommandName: string, bestPositionalsConsumed: nat)
      ensures bestPositionalsConsumed <= |positionals|
      ensures bestPositionalsConsumed > 0 ==>
        bestCommandName == PrefixName(positionals, bestPositionalsConsumed) && bestCommandName in commands
      ensures bestPositionalsConsumed == 0 ==> bestCommandName == ""
      ensures forall j | bestPositionalsConsumed < j <= |positionals| :: PrefixName(positionals, j) !in commands
      ensures Resolution(bestCommandName, bestPositionalsConsumed) == Resolve(commands, positionals)
    {
      bestCommandName, bestPositionalsConsumed := "", 0;
      if |positionals| > 0 {
        var i := |positionals|;
        while i > 0
          invariant 0 <= i <= |positionals|
          invariant forall j | i < j <= |positionals| :: PrefixName(positionals, j) !in commands
          decreases i
        {
          var potentialCommandWithSpaces := Join(positionals[..i], " ");
          if potentialCommandWithSpaces in commands {
            bestCommandName, bestPositionalsConsumed := potentialCommandWithSpaces, i;
            ResolveUnique(commands, positionals, bestCommandName, bestPositionalsConsumed);
            return;
          }
          i := i - 1;
        }
      }
      ResolveUnique(commands, positionals, bestCommandName, bestPositionalsConsumed);
    }

    /** `genDocs()`: the root help, then each command's help in registration order. */
    method GenDocs(launcher: string) returns (docs: string)
      ensures docs == DocsText(commands, order, metadata, launcher)
    {
      var names := order;
      var help := HelpRenderer(commands, names, metadata, launcher);
      var sections := [help("")];
      for i := 0 to |names|
        invariant sections == SectionsUpTo(help, names, i)
      {
        sections := sections + [help(names[i])];
      }
      docs := Join(sections, "\n\n");
    }

    /**
     * `cli({ config, metadata }, ...rootHandlers)`: appends the root handlers, then runs the
     * dispatch that `Dispatch` specifies, leaving the live session fields as it says.
     * `launcher` is the runtime and script name the help text's usage line starts with.
     */
    method Cli(user: TakoArgs, roots: seq<Handler>, parser: Parser, launcher: string) returns (outcome: Outcome)
      requires Valid()
      modifies this`config, this`metadata, this`scriptArgs, this`rootHandlers
      ensures Valid() && rootHandlers == old(rootHandlers) + roots
      ensures var r := Dispatch(Snapshot(), user, parser, launcher);
        && outcome == r.outcome && config == r.config && metadata == r.metadata
        && scriptArgs == (if r.parsed.Some? then r.parsed.value else old(scriptArgs))
    {
      config := SpreadConfig(DefaultConfig(), user.config);
      metadata := SpreadMetadata(DefaultMetadata(), user.metadata);
      rootHandlers := rootHandlers + roots;
      ghost var reg := Snapshot();
      var globalParseOptions := GlobalParseOptions();

      // Global parse
      var phase1 := parser(RequestFor(config, globalParseOptions));
      assert phase1 == Phase1(reg, user, parser);
      if phase1.ParseFailed? {
        outcome := ParseError(phase1.message, "");
        return;
      }
      scriptArgs := phase1.results;
      outcome := Shortcuts(parser, launcher);
    }

    /** The global `version` and `gen docs` flags, then everything after them. */
    method Shortcuts(parser: Parser, launcher: string) returns (outcome: Outcome)
      requires Valid()
      modifies this`config, this`metadata, this`scriptArgs
      ensures var r := AfterPhase1(Snapshot(), old(config), old(metadata), old(scriptArgs), parser, launcher);
        && outcome == r.outcome && config == r.config && metadata == r.metadata && r.parsed == Some(scriptArgs)
    {
      if FlagSet(scriptArgs.values, "version") {
        outcome := ShowVersion(VersionOf(metadata));
        return;
      }
      if DocsRequested(scriptArgs.values) {
        var docs := GenDocs(launcher);
        outcome := ShowDocs(docs);
        return;
      }
      outcome := ResolveAndRun(parser);
    }

    /**
     * Everything after the version and docs shortcuts: command resolution, layering of the
     * matched command's config and metadata, the help shortcut, and the choice of handlers.
     */
    method ResolveAndRun(parser: Parser) returns (outcome: Outcome)
      requires Valid()
      modifies this`config, this`metadata, this`scriptArgs
      ensures var r := Resolved(Snapshot(), old(config), old(metadata), old(scriptArgs), parser);
        && outcome == r.outcome && config == r.config && metadata == r.metadata && r.parsed == Some(scriptArgs)
    {
      var commandName, positionalsConsumed := ResolveCommand(scriptArgs.positionals);
      if positionalsConsumed > 0 {
        var commandConfig := commands[commandName];
        config := LayerConfig(config, commandConfig.config);
        metadata := LayerMetadata(metadata, commandConfig.metadata);
      }
      if FlagSet(scriptArgs.values, "help") {
        outcome := ShowHelp(commandName);
        return;
      }
      outcome := SelectAndRun(commandName, positionalsConsumed, parser);
    }

    /** Command execution: the matched command, the root handlers, an unknown command, or the root help. */
    method SelectAndRun(commandName: string, positionalsConsumed: nat, parser: Parser) returns (outcome: Outcome)
      requires positionalsConsumed > 0 ==> commandName in commands
      requires positionalsConsumed == 0 ==> commandName == ""
      modifies this`scriptArgs
      ensures var r := Select(Snapshot(), Resolution(commandName, positionalsConsumed), config, metadata, old(scriptArgs), parser);
        && outcome == r.outcome && config == r.config && metadata == r.metadata && r.parsed == Some(scriptArgs)
    {
      var globalPositionals := scriptArgs.positionals;
      var commandConfig: Option<Entry> := if positionalsConsumed > 0 then Some(commands[commandName]) else None;
      if commandConfig.None? && |globalPositionals| == 0 && |rootHandlers| > 0 {
        commandConfig := Some(Entry(rootHandlers, EmptyConfig, EmptyMetadata));
      }
      if commandConfig.None? {
        if |globalPositionals| > 0 {
          outcome := UnknownCommand(Join(globalPositionals, " "));
          return;
        }
        outcome := ShowHelp("");
        return;
      }
      outcome := RunCommand(commandConfig.value.handlers, commandName, positionalsConsumed, parser);
    }

    /**
     * The phase-2 parse with the settled configuration, the command-name tokens dropped from
     * its positionals, then the handler chain (or the root help when there are no handlers).
     */
    method RunCommand(handlers: seq<Handler>, commandName: string, positionalsConsumed: nat, parser: Parser)
      returns (outcome: Outcome)
      modifies this`scriptArgs
      ensures var r := Execute(handlers, commandName, positionalsConsumed, config, metadata, old(scriptArgs), parser);
        outcome == r.outcome && r.parsed == Some(scriptArgs)
    {
      var phase2 := parser(RequestFor(config, OptionsOf(config)));
      if phase2.ParseFailed? {
        outcome := ParseError(phase2.message, commandName);
        return;
      }
      scriptArgs := phase2.results.(positionals := DropPrefix(phase2.results.positionals, positionalsConsumed));
      if |handlers| > 0 {
        var chain := new HandlerChain(handlers);
        chain.ExecuteNext();
        outcome := Ran(commandName, chain.trace, chain.failure);
      } else {
        outcome := ShowHelp("");
      }
    }
  }
}
