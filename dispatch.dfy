/**
 * The registry as a value and what one dispatch does with it: registration, longest-prefix
 * resolution of the positionals, and the ordered decision of `cli` from the merged defaults to
 * the handler chain. The `Tako` class in module `Dispatcher` is proved to follow these functions.
 */
module DispatchSpec {
  import opened Wrappers
  import opened Types
  import opened Strings
  import opened Merge
  import opened Defaults
  import opened Chain
  import opened Help

  /** The registered commands by normalised name, their insertion order, and the root handlers. */
  datatype Registry = Registry(commands: map<string, Entry>, order: seq<string>, rootHandlers: seq<Handler>)

  const EmptyRegistry := Registry(map[], [], [])

  /**
   * `order` lists each key exactly once (the iteration order of the `Map`), and every name in
   * it is a non-empty normalised name.
   */
  predicate WellFormed(reg: Registry) {
    && AllNormal(reg.order)
    && OrderInCommands(reg.order, reg.commands)
    && (forall k | k in reg.commands :: k in reg.order)
    && (forall i, j | 0 <= i < j < |reg.order| :: reg.order[i] != reg.order[j])
  }

  /** Every name of `names` is non-empty and normalised. */
  predicate AllNormal(names: seq<string>) {
    names == [] || (names[0] != "" && IsNormalName(names[0]) && AllNormal(names[1..]))
  }

  lemma {:induction false} AllNormalAt(names: seq<string>, i: nat)
    requires AllNormal(names) && i < |names|
    ensures names[i] != "" && IsNormalName(names[i])
  {
    if i > 0 {
      AllNormalAt(names[1..], i - 1);
    }
  }

  lemma {:induction false} AllNormalSnoc(names: seq<string>, n: string)
    requires AllNormal(names) && n != "" && IsNormalName(n)
    ensures AllNormal(names + [n])
  {
    var longer := names + [n];
    if names == [] {
      assert longer == [n] && longer[1..] == [];
    } else {
      assert longer[0] == names[0] && longer[1..] == names[1..] + [n];
      AllNormalSnoc(names[1..], n);
    }
  }

  /** In a well-formed registry every command name is a non-empty normalised name. */
  lemma KeysNormal(reg: Registry, k: string)
    requires WellFormed(reg) && k in reg.commands
    ensures k != "" && IsNormalName(k)
  {
    var i :| 0 <= i < |reg.order| && reg.order[i] == k;
    AllNormalAt(reg.order, i);
  }

  /** The entry after a registration: handlers appended, config and metadata spread at the top level. */
  function MergeEntry(existing: Option<Entry>, args: TakoArgs, handlers: seq<Handler>): (e: Entry)
    ensures existing.None? ==> e == Entry(handlers, args.config, args.metadata)
    ensures existing.Some? ==> e.handlers == existing.value.handlers + handlers
    ensures existing.Some? ==> e.config == SpreadConfig(existing.value.config, args.config)
    ensures existing.Some? ==> e.metadata == SpreadMetadata(existing.value.metadata, args.metadata)
  {
    var prior := existing.GetOr(Entry([], EmptyConfig, EmptyMetadata));
    SpreadConfigUnit(args.config);
    SpreadMetadataUnit(args.metadata);
    Entry(prior.handlers + handlers, SpreadConfig(prior.config, args.config), SpreadMetadata(prior.metadata, args.metadata))
  }

  function Lookup(commands: map<string, Entry>, name: string): Option<Entry> {
    if name in commands then Some(commands[name]) else None
  }

  /**
   * `command(name, args, ...handlers)`. A name that normalises to "" adds root handlers and
   * leaves the commands alone; any other name creates or extends the single entry for the
   * normalised name, which keeps its place in the order if it already had one.
   */
  function Register(reg: Registry, name: string, args: TakoArgs, handlers: seq<Handler>): (r: Registry)
    requires WellFormed(reg)
    ensures WellFormed(r)
    ensures NormalizeName(name) == "" ==> r == reg.(rootHandlers := reg.rootHandlers + handlers)
    ensures var n := NormalizeName(name);
      n != "" ==>
        && r.rootHandlers == reg.rootHandlers
        && r.commands == reg.commands[n := MergeEntry(Lookup(reg.commands, n), args, handlers)]
        && r.order == (if n in reg.commands then reg.order else reg.order + [n])
  {
    var n := NormalizeName(name);
    if n == "" then reg.(rootHandlers := reg.rootHandlers + handlers)
    else
      NormalizeIsNormal(name);
      var order := if n in reg.commands then reg.order else reg.order + [n];
      var r := Registry(reg.commands[n := MergeEntry(Lookup(reg.commands, n), args, handlers)], order, reg.rootHandlers);
      StoreWellFormed(reg, n, r.commands[n]);
      r
  }

  /** Storing an entry under a non-empty normal name keeps the registry well formed. */
  lemma StoreWellFormed(reg: Registry, n: string, e: Entry)
    requires WellFormed(reg) && n != "" && IsNormalName(n)
    ensures WellFormed(Registry(reg.commands[n := e], if n in reg.commands then reg.order else reg.order + [n], reg.rootHandlers))
  {
    var commands := reg.commands[n := e];
    if n !in reg.commands {
      var order := reg.order + [n];
      AllNormalSnoc(reg.order, n);
      assert forall i | 0 <= i < |reg.order| :: order[i] == reg.order[i];
      assert forall i | 0 <= i < |reg.order| :: reg.order[i] != n;
      assert order[|reg.order|] == n;
      assert forall k | k in commands :: k in order by {
        forall k | k in commands ensures k in order {
          if k != n { assert k in reg.order; }
        }
      }
    }
  }

  /** A new name gets a fresh entry and goes to the end of the order. */
  lemma RegisterFresh(reg: Registry, name: string, args: TakoArgs, handlers: seq<Handler>)
    requires WellFormed(reg) && NormalizeName(name) != "" && NormalizeName(name) !in reg.commands
    ensures var r := Register(reg, name, args, handlers);
      var n := NormalizeName(name);
      && r.commands == reg.commands[n := Entry(handlers, args.config, args.metadata)]
      && r.order == reg.order + [n]
  {
  }

  /** A name already registered keeps its place in the order and its entry is extended. */
  lemma RegisterExisting(reg: Registry, name: string, args: TakoArgs, handlers: seq<Handler>)
    requires WellFormed(reg) && NormalizeName(name) in reg.commands
    ensures var r := Register(reg, name, args, handlers);
      var n := NormalizeName(name);
      && r.commands.Keys == reg.commands.Keys
      && r.commands[n] == MergeEntry(Some(reg.commands[n]), args, handlers)
      && r.order == reg.order
  {
    KeysNormal(reg, NormalizeName(name));
  }

  /**
   * Registering one name twice, however it is spaced, gives one entry whose handlers are both
   * lists in order and whose config and metadata are the two fragments spread in order.
   */
  lemma ReRegistrationMerges(reg: Registry, name1: string, name2: string, a: TakoArgs, b: TakoArgs, h1: seq<Handler>, h2: seq<Handler>)
    requires WellFormed(reg)
    requires NormalizeName(name1) == NormalizeName(name2) != ""
    requires NormalizeName(name1) !in reg.commands
    ensures var r := Register(Register(reg, name1, a, h1), name2, b, h2);
      var n := NormalizeName(name1);
      && r.commands.Keys == reg.commands.Keys + {n}
      && r.commands[n] == Entry(h1 + h2, SpreadConfig(a.config, b.config), SpreadMetadata(a.metadata, b.metadata))
      && r.order == reg.order + [n]
  {
    RegisterFresh(reg, name1, a, h1);
    RegisterExisting(Register(reg, name1, a, h1), name2, b, h2);
  }

  /** The name a prefix of the positionals spells: the first `i` tokens joined by a space. */
  function PrefixName(positionals: seq<string>, i: nat): string
    requires i <= |positionals|
  {
    Join(positionals[..i], " ")
  }

  /** The largest `k <= i`, other than 0, whose prefix names a command; 0 when there is none. */
  function LongestMatch(commands: map<string, Entry>, positionals: seq<string>, i: nat): (k: nat)
    requires i <= |positionals|
    ensures k <= i
    ensures k > 0 ==> PrefixName(positionals, k) in commands
    ensures forall j | k < j <= i :: PrefixName(positionals, j) !in commands
  {
    if i == 0 then 0
    else if PrefixName(positionals, i) in commands then i
    else LongestMatch(commands, positionals, i - 1)
  }

  /** The resolved command ("" when none) and how many leading positionals its name consumed. */
  datatype Resolution = Resolution(name: string, consumed: nat)

  /**
   * Longest-prefix resolution: `consumed` is the largest `i` whose first `i` positionals,
   * joined by a space, name a command, and that name; no command and 0 when no prefix does.
   */
  function Resolve(commands: map<string, Entry>, positionals: seq<string>): (r: Resolution)
    ensures r.consumed <= |positionals|
    ensures r.consumed > 0 ==> r.name == PrefixName(positionals, r.consumed) && r.name in commands
    ensures r.consumed == 0 ==> r.name == ""
    ensures forall j | r.consumed < j <= |positionals| :: PrefixName(positionals, j) !in commands
  {
    var k := LongestMatch(commands, positionals, |positionals|);
    Resolution(if k > 0 then PrefixName(positionals, k) else "", k)
  }

  /** Any resolution with the longest-prefix property is the one `Resolve` returns. */
  lemma ResolveUnique(commands: map<string, Entry>, positionals: seq<string>, name: string, consumed: nat)
    requires consumed <= |positionals|
    requires consumed > 0 ==> name == PrefixName(positionals, consumed) && name in commands
    requires consumed == 0 ==> name == ""
    requires forall j | consumed < j <= |positionals| :: PrefixName(positionals, j) !in commands
    ensures Resolve(commands, positionals) == Resolution(name, consumed)
  {
  }

  /** With `a` and `a b` registered, `a b c` resolves to `a b` consuming two, and `a x` to `a` consuming one. */
  lemma LongestPrefixExample(ea: Entry, eab: Entry)
    ensures var commands := map["a" := ea, "a b" := eab];
      && Resolve(commands, ["a", "b", "c"]) == Resolution("a b", 2)
      && Resolve(commands, ["a", "x"]) == Resolution("a", 1)
  {
    var commands := map["a" := ea, "a b" := eab];
    var p := ["a", "b", "c"];
    assert PrefixName(p, 3) == "a b c" by { assert p[..3][1..] == ["b", "c"]; assert p[..3][1..][1..] == ["c"]; }
    assert PrefixName(p, 2) == "a b" by { assert p[..2][1..] == ["b"]; }
    var q := ["a", "x"];
    assert PrefixName(q, 2) == "a x" by { assert q[..2][1..] == ["x"]; }
    assert PrefixName(q, 1) == "a" by { assert q[..1] == ["a"]; }
  }

  /** What a dispatch ends with, in place of printing and exiting. */
  datatype Outcome =
    | ParseError(message: string, helpScope: string)      // "Parse Error: ..." and the help for `helpScope`
    | ShowVersion(version: string)                          // printed when non-empty
    | ShowDocs(docs: string)
    | ShowHelp(scope: string)
    | UnknownCommand(joined: string)                        // "Error: Unknown command ..." and the root help
    | Ran(command: string, trace: seq<nat>, failure: Option<string>)  // "" for the root handlers

  /** The process exit status: 1 after a parse error, an unknown command or a handler's error. */
  function ExitCode(o: Outcome): (code: nat)
    ensures code == 1 <==> o.ParseError? || o.UnknownCommand? || (o.Ran? && o.failure.Some?)
    ensures code == 0 || code == 1
  {
    match o
    case ParseError(_, _) => 1
    case UnknownCommand(_) => 1
    case Ran(_, _, failure) => if failure.Some? then 1 else 0
    case _ => 0
  }

  /** The session state a dispatch leaves: the live config and metadata, and the last parse result assigned. */
  datatype Run = Run(outcome: Outcome, config: ParseConfig, metadata: Metadata, parsed: Option<ParsedResults>)

  /** `positionals.slice(n)` */
  function DropPrefix(s: seq<string>, n: nat): (r: seq<string>)
    ensures n <= |s| ==> r == s[n..]
    ensures n > |s| ==> r == []
  {
    if n <= |s| then s[n..] else []
  }

  /** The configuration after the defaults: a top-level spread, so a user `options` replaces the reserved map. */
  function BaseConfig(user: TakoArgs): ParseConfig {
    SpreadConfig(DefaultConfig(), user.config)
  }

  function BaseMetadata(user: TakoArgs): Metadata {
    SpreadMetadata(DefaultMetadata(), user.metadata)
  }

  /** The phase-1 parse: the base configuration with every command's options folded in. */
  function Phase1(reg: Registry, user: TakoArgs, parser: Parser): ParseOutcome
    requires WellFormed(reg)
  {
    var config := BaseConfig(user);
    parser(RequestFor(config, GlobalSchema(OptionsOf(config), reg.order, reg.commands)))
  }

  /** `values.gen === "docs"` */
  predicate DocsRequested(values: map<string, Value>) {
    "gen" in values && values["gen"] == StrVal("docs")
  }

  /** A phase-1 result that none of the three shortcuts stops. */
  predicate NoShortcut(values: map<string, Value>) {
    !FlagSet(values, "version") && !DocsRequested(values) && !FlagSet(values, "help")
  }

  /** The whole of `cli` on a registry: merge, phase 1, shortcuts, resolution, layering, dispatch. */
  function Dispatch(reg: Registry, user: TakoArgs, parser: Parser, launcher: string): Run
    requires WellFormed(reg)
  {
    var config := BaseConfig(user);
    var metadata := BaseMetadata(user);
    match Phase1(reg, user, parser)
    case ParseFailed(message) => Run(ParseError(message, ""), config, metadata, None)
    case Parsed(p1) => AfterPhase1(reg, config, metadata, p1, parser, launcher)
  }

  /** What follows a successful phase-1 parse: the version and docs shortcuts, then resolution. */
  function AfterPhase1(reg: Registry, config: ParseConfig, metadata: Metadata, p1: ParsedResults, parser: Parser, launcher: string): Run
    requires WellFormed(reg)
  {
    if FlagSet(p1.values, "version") then
      Run(ShowVersion(VersionOf(metadata)), config, metadata, Some(p1))
    else if DocsRequested(p1.values) then
      Run(ShowDocs(DocsText(reg.commands, reg.order, metadata, launcher)), config, metadata, Some(p1))
    else Resolved(reg, config, metadata, p1, parser)
  }

  /**
   * What follows the version and docs shortcuts: resolution, the layering of a matched command,
   * the help shortcut, then the choice of handlers.
   */
  function Resolved(reg: Registry, config: ParseConfig, metadata: Metadata, p1: ParsedResults, parser: Parser): Run
    requires WellFormed(reg)
  {
    var res := Resolve(reg.commands, p1.positionals);
    var config' := ConfigFor(reg, res, config);
    var metadata' := MetadataFor(reg, res, metadata);
    if FlagSet(p1.values, "help") then Run(ShowHelp(res.name), config', metadata', Some(p1))
    else Select(reg, res, config', metadata', p1, parser)
  }

  /** The configuration in force after resolution: the matched command's layered on, if any. */
  function ConfigFor(reg: Registry, res: Resolution, config: ParseConfig): ParseConfig
    requires res.consumed > 0 ==> res.name in reg.commands
  {
    if res.consumed > 0 then LayerConfig(config, reg.commands[res.name].config) else config
  }

  function MetadataFor(reg: Registry, res: Resolution, metadata: Metadata): Metadata
    requires res.consumed > 0 ==> res.name in reg.commands
  {
    if res.consumed > 0 then LayerMetadata(metadata, reg.commands[res.name].metadata) else metadata
  }

  /** Past phase 1 and the three shortcuts, a dispatch is the selection of handlers for the resolution. */
  lemma DispatchSelects(reg: Registry, user: TakoArgs, parser: Parser, launcher: string)
    requires WellFormed(reg) && Phase1(reg, user, parser).Parsed?
    requires NoShortcut(Phase1(reg, user, parser).results.values)
    ensures var p1 := Phase1(reg, user, parser).results;
      var res := Resolve(reg.commands, p1.positionals);
      Dispatch(reg, user, parser, launcher) ==
        Select(reg, res, ConfigFor(reg, res, BaseConfig(user)), MetadataFor(reg, res, BaseMetadata(user)), p1, parser)
  {
  }

  /**
   * The handlers a resolution runs: the matched command's, or the root handlers when there are
   * no positionals at all; otherwise the unknown-command error, or the root help.
   */
  function Select(reg: Registry, res: Resolution, config: ParseConfig, metadata: Metadata, p1: ParsedResults, parser: Parser): Run
    requires res.consumed > 0 ==> res.name in reg.commands
  {
    if res.consumed > 0 then Execute(reg.commands[res.name].handlers, res.name, res.consumed, config, metadata, p1, parser)
    else if |p1.positionals| == 0 && |reg.rootHandlers| > 0 then Execute(reg.rootHandlers, "", 0, config, metadata, p1, parser)
    else if |p1.positionals| > 0 then Run(UnknownCommand(Join(p1.positionals, " ")), config, metadata, Some(p1))
    else Run(ShowHelp(""), config, metadata, Some(p1))
  }

  /** The phase-2 parse: the configuration the dispatch has settled on, with its own options. */
  function Phase2(config: ParseConfig, parser: Parser): ParseOutcome {
    parser(RequestFor(config, OptionsOf(config)))
  }

  /** Phase 2 with the layered schema, the command tokens dropped, then the handler chain. */
  function Execute(handlers: seq<Handler>, name: string, consumed: nat, config: ParseConfig, metadata: Metadata,
                   p1: ParsedResults, parser: Parser): Run
  {
    match Phase2(config, parser)
    case ParseFailed(message) => Run(ParseError(message, name), config, metadata, Some(p1))
    case Parsed(p2) =>
      var p2' := p2.(positionals := DropPrefix(p2.positionals, consumed));
      if |handlers| > 0 then
        var st := RunChain(handlers);
        Run(Ran(name, st.trace, st.failure), config, metadata, Some(p2'))
      else Run(ShowHelp(""), config, metadata, Some(p2'))
  }

  /** A failed phase-1 parse ends the run with the root help and status 1; nothing is resolved. */
  lemma Phase1FailureIsTerminal(reg: Registry, user: TakoArgs, parser: Parser, launcher: string)
    requires WellFormed(reg) && Phase1(reg, user, parser).ParseFailed?
    ensures var r := Dispatch(reg, user, parser, launcher);
      r.outcome == ParseError(Phase1(reg, user, parser).message, "") && ExitCode(r.outcome) == 1 && r.parsed.None?
  {
  }

  /** The version flag wins over everything after phase 1, whatever command, `gen` or `help` is also given. */
  lemma VersionShortcutFirst(reg: Registry, user: TakoArgs, parser: Parser, launcher: string)
    requires WellFormed(reg) && Phase1(reg, user, parser).Parsed?
    requires FlagSet(Phase1(reg, user, parser).results.values, "version")
    ensures Dispatch(reg, user, parser, launcher).outcome == ShowVersion(VersionOf(BaseMetadata(user)))
  {
  }

  /** `--gen docs` without the version flag prints the documentation, before any resolution. */
  lemma DocsShortcutSecond(reg: Registry, user: TakoArgs, parser: Parser, launcher: string)
    requires WellFormed(reg) && Phase1(reg, user, parser).Parsed?
    requires !FlagSet(Phase1(reg, user, parser).results.values, "version")
    requires DocsRequested(Phase1(reg, user, parser).results.values)
    ensures Dispatch(reg, user, parser, launcher).outcome ==
      ShowDocs(DocsText(reg.commands, reg.order, BaseMetadata(user), launcher))
  {
  }

  /**
   * The help flag, when neither earlier shortcut fires, shows the help scoped to the longest
   * matching command, with that command's config and metadata already layered on.
   */
  lemma HelpScopedToMatch(reg: Registry, user: TakoArgs, parser: Parser, launcher: string)
    requires WellFormed(reg) && Phase1(reg, user, parser).Parsed?
    requires var v := Phase1(reg, user, parser).results.values;
      !FlagSet(v, "version") && !DocsRequested(v) && FlagSet(v, "help")
    ensures var p1 := Phase1(reg, user, parser).results;
      var res := Resolve(reg.commands, p1.positionals);
      var r := Dispatch(reg, user, parser, launcher);
      && r.outcome == ShowHelp(res.name)
      && (res.consumed > 0 ==> r.config == LayerConfig(BaseConfig(user), reg.commands[res.name].config))
      && (res.consumed > 0 ==> r.metadata == LayerMetadata(BaseMetadata(user), reg.commands[res.name].metadata))
      && (res.consumed == 0 ==> r.config == BaseConfig(user) && r.metadata == BaseMetadata(user))
  {
  }

  /** No handler runs when a shortcut fires, and the run ends with status 0. */
  lemma ShortcutsRunNoHandler(reg: Registry, user: TakoArgs, parser: Parser, launcher: string)
    requires WellFormed(reg) && Phase1(reg, user, parser).Parsed?
    requires !NoShortcut(Phase1(reg, user, parser).results.values)
    ensures var o := Dispatch(reg, user, parser, launcher).outcome;
      (o.ShowVersion? || o.ShowDocs? || o.ShowHelp?) && ExitCode(o) == 0
  {
  }

  /**
   * The unknown-command error happens exactly when phase 1 succeeds, no shortcut fires, there
   * are positionals, and no prefix of them names a command; it echoes them joined by spaces.
   */
  lemma UnknownCommandExactly(reg: Registry, user: TakoArgs, parser: Parser, launcher: string)
    requires WellFormed(reg)
    ensures var o := Dispatch(reg, user, parser, launcher).outcome;
      o.UnknownCommand? <==>
        && Phase1(reg, user, parser).Parsed?
        && var p1 := Phase1(reg, user, parser).results;
           && NoShortcut(p1.values)
           && |p1.positionals| > 0
           && forall i | 0 < i <= |p1.positionals| :: PrefixName(p1.positionals, i) !in reg.commands
    ensures var o := Dispatch(reg, user, parser, launcher).outcome;
      o.UnknownCommand? ==> o.joined == Join(Phase1(reg, user, parser).results.positionals, " ") && ExitCode(o) == 1
  {
    if Phase1(reg, user, parser).Parsed? && NoShortcut(Phase1(reg, user, parser).results.values) {
      var p1 := Phase1(reg, user, parser).results;
      var res := Resolve(reg.commands, p1.positionals);
      DispatchSelects(reg, user, parser, launcher);
      if res.consumed > 0 {
        assert PrefixName(p1.positionals, res.consumed) in reg.commands;
      }
    }
  }

  /**
   * The root handlers run exactly when phase 1 succeeds, no shortcut fires, there are no
   * positionals, root handlers exist, and the phase-2 parse (with the unlayered config) succeeds.
   */
  lemma RootHandlersExactly(reg: Registry, user: TakoArgs, parser: Parser, launcher: string)
    requires WellFormed(reg)
    ensures var o := Dispatch(reg, user, parser, launcher).outcome;
      (o.Ran? && o.command == "") <==>
        && Phase1(reg, user, parser).Parsed?
        && var p1 := Phase1(reg, user, parser).results;
           && NoShortcut(p1.values)
           && p1.positionals == []
           && reg.rootHandlers != []
           && Phase2(BaseConfig(user), parser).Parsed?
  {
    if Phase1(reg, user, parser).Parsed? && NoShortcut(Phase1(reg, user, parser).results.values) {
      var p1 := Phase1(reg, user, parser).results;
      var res := Resolve(reg.commands, p1.positionals);
      DispatchSelects(reg, user, parser, launcher);
      if res.consumed > 0 {
        // A matched command is never the root: registered names are non-empty.
        KeysNormal(reg, res.name);
      }
    }
  }

  /** A bare invocation with no root handlers shows the root help and is not an error. */
  lemma BareInvocationShowsHelp(reg: Registry, user: TakoArgs, parser: Parser, launcher: string)
    requires WellFormed(reg) && reg.rootHandlers == []
    requires Phase1(reg, user, parser).Parsed?
    requires var p1 := Phase1(reg, user, parser).results; NoShortcut(p1.values) && p1.positionals == []
    ensures var o := Dispatch(reg, user, parser, launcher).outcome; o == ShowHelp("") && ExitCode(o) == 0
  {
  }

  /**
   * A matched command with handlers runs its chain after a phase-2 parse with its layered
   * configuration; the handlers see the phase-2 positionals without the command-name tokens.
   */
  lemma MatchedCommandRuns(reg: Registry, user: TakoArgs, parser: Parser, launcher: string)
    requires WellFormed(reg) && Phase1(reg, user, parser).Parsed?
    requires NoShortcut(Phase1(reg, user, parser).results.values)
    requires Resolve(reg.commands, Phase1(reg, user, parser).results.positionals).consumed > 0
    ensures var p1 := Phase1(reg, user, parser).results;
      var res := Resolve(reg.commands, p1.positionals);
      var entry := reg.commands[res.name];
      var config := LayerConfig(BaseConfig(user), entry.config);
      var r := Dispatch(reg, user, parser, launcher);
      && r.config == config
      && r.metadata == LayerMetadata(BaseMetadata(user), entry.metadata)
      && (Phase2(config, parser).ParseFailed? ==> r.outcome == ParseError(Phase2(config, parser).message, res.name))
      && (Phase2(config, parser).Parsed? ==>
            var p2 := Phase2(config, parser).results;
            && r.parsed == Some(p2.(positionals := DropPrefix(p2.positionals, res.consumed)))
            && (entry.handlers == [] ==> r.outcome == ShowHelp(""))
            && (entry.handlers != [] ==>
                  r.outcome == Ran(res.name, RunChain(entry.handlers).trace, RunChain(entry.handlers).failure)))
  {
    DispatchSelects(reg, user, parser, launcher);
  }

  /** Whatever runs, handlers start in list order and each at most once. */
  lemma RanInOrder(reg: Registry, user: TakoArgs, parser: Parser, launcher: string)
    requires WellFormed(reg)
    ensures var o := Dispatch(reg, user, parser, launcher).outcome;
      o.Ran? ==> o.trace == Range(|o.trace|) && |o.trace| >= 1
  {
    if Phase1(reg, user, parser).Parsed? && NoShortcut(Phase1(reg, user, parser).results.values) {
      var p1 := Phase1(reg, user, parser).results;
      var res := Resolve(reg.commands, p1.positionals);
      DispatchSelects(reg, user, parser, launcher);
      SelectRanInOrder(reg, res, ConfigFor(reg, res, BaseConfig(user)), MetadataFor(reg, res, BaseMetadata(user)), p1, parser);
    }
  }

  /** A run that reaches the handlers starts them in order, from the first. */
  lemma SelectRanInOrder(reg: Registry, res: Resolution, config: ParseConfig, metadata: Metadata, p1: ParsedResults, parser: Parser)
    requires res.consumed > 0 ==> res.name in reg.commands
    ensures var o := Select(reg, res, config, metadata, p1, parser).outcome;
      o.Ran? ==> o.trace == Range(|o.trace|) && |o.trace| >= 1
  {
  }

  /** Past phase 1 and the shortcuts, the configuration a dispatch ends with is the layered one. */
  lemma DispatchConfig(reg: Registry, user: TakoArgs, parser: Parser, launcher: string)
    requires WellFormed(reg) && Phase1(reg, user, parser).Parsed?
    requires NoShortcut(Phase1(reg, user, parser).results.values)
    ensures var res := Resolve(reg.commands, Phase1(reg, user, parser).results.positionals);
      Dispatch(reg, user, parser, launcher).config == ConfigFor(reg, res, BaseConfig(user))
  {
    DispatchSelects(reg, user, parser, launcher);
  }

  /**
   * A user `name` option defaulting to "World" and a command `hello` whose own `name` option
   * defaults to "Earth": once `hello` is matched the command's descriptor is in force, and with
   * no positionals the user's. The user map replaced the reserved defaults wholesale.
   */
  lemma MergePrecedenceExample(reg: Registry, user: TakoArgs, parser: Parser, launcher: string)
    requires WellFormed(reg) && "hello" in reg.commands
    requires user.config.options == Some(map["name" := OptionDescriptor(StringOption, None, Some(StrVal("World")), None)])
    requires reg.commands["hello"].config.options == Some(map["name" := OptionDescriptor(StringOption, None, Some(StrVal("Earth")), None)])
    ensures var p := Phase1(reg, user, parser);
      p.Parsed? && NoShortcut(p.results.values) && p.results.positionals == ["hello"] ==>
        var c := OptionsOf(Dispatch(reg, user, parser, launcher).config);
        c.Keys == {"name"} && c["name"].defaultValue == Some(StrVal("Earth"))
    ensures var p := Phase1(reg, user, parser);
      p.Parsed? && NoShortcut(p.results.values) && p.results.positionals == [] ==>
        var c := OptionsOf(Dispatch(reg, user, parser, launcher).config);
        c.Keys == {"name"} && c["name"].defaultValue == Some(StrVal("World"))
  {
    var p := Phase1(reg, user, parser);
    if p.Parsed? && NoShortcut(p.results.values) {
      DispatchConfig(reg, user, parser, launcher);
      LayeredPrecedence(reg, BaseConfig(user), p.results.positionals);
    }
  }

  /** The `MergePrecedenceExample` registry, one step below `Dispatch`: the configuration after resolution. */
  lemma LayeredPrecedence(reg: Registry, base: ParseConfig, positionals: seq<string>)
    requires "hello" in reg.commands
    requires base.options == Some(map["name" := OptionDescriptor(StringOption, None, Some(StrVal("World")), None)])
    requires reg.commands["hello"].config.options == Some(map["name" := OptionDescriptor(StringOption, None, Some(StrVal("Earth")), None)])
    ensures positionals == ["hello"] ==>
      var c := OptionsOf(ConfigFor(reg, Resolve(reg.commands, positionals), base));
      c.Keys == {"name"} && c["name"].defaultValue == Some(StrVal("Earth"))
    ensures positionals == [] ==>
      var c := OptionsOf(ConfigFor(reg, Resolve(reg.commands, positionals), base));
      c.Keys == {"name"} && c["name"].defaultValue == Some(StrVal("World"))
  {
    if positionals == ["hello"] {
      assert PrefixName(positionals, 1) == "hello" by { assert positionals[..1] == ["hello"]; }
      ResolveUnique(reg.commands, positionals, "hello", 1);
      LayerConfigOptions(base, reg.commands["hello"].config);
    } else if positionals == [] {
      ResolveUnique(reg.commands, positionals, "", 0);
    }
  }
}
