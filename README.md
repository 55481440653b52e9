# Tako dispatcher, modelled in Dafny

Tako is a command-line framework. An application registers commands with `command(name,
{ config, metadata }, ...handlers)`. A name may have several words, and `"a b"` is a child
of `"a"`. An application may also register root handlers under an empty name. Then
`cli({ config, metadata }, ...rootHandlers)` runs one invocation:

1. It spreads the user configuration over the built-in defaults.
2. It folds every command's options into one phase-1 schema and parses the arguments.
3. It handles the `--version` and `--gen docs` shortcuts.
4. It resolves the longest prefix of the positionals that names a command.
5. It layers that command's configuration and metadata onto the global ones.
6. It handles `--help`.
7. It picks the matched command's handlers, or the root handlers, or reports an unknown
   command.
8. It parses again with the settled configuration and drops the command-name tokens.
9. It runs the handler chain, in which each handler decides whether to call `next`.

Two Standard Schema validators sit beside the dispatcher:

- a middleware `v(target, ...schemas)`, which checks one field of the context before it
  calls `next`;
- a helper `v(input, ...schemas)`, which returns the value of the last schema.

The project has these modules:

- `Strings` models `trim`, `split(" ")`, `filter(Boolean)`, `join`, and the
  command-name normalisation built from them.
- `Types` holds the configuration, metadata and handler shapes.
- `Defaults` holds the built-in configuration and metadata.
- `Merge` models the object spreads, the layering of a matched command, and the phase-1
  schema fold.
- `Chain` models the `next`-driven handler chain. It has a specification (`Advance` and
  `Perform`) and the imperative closure state (`HandlerChain`), which is proved to follow
  that specification.
- `Help` models `getVersion`, the parts of `getHelp` that depend on the commands, and
  `genDocs`.
- `DispatchSpec` models the registry as a value. It holds registration, longest-prefix
  resolution, and one whole dispatch as the function `Dispatch`, together with the
  properties of `Dispatch`.
- `Dispatcher` holds the `Tako` class. Its methods update its fields in place, as the
  source does, and each method is proved to equal the matching specification function (in `DispatchSpec`, `Merge` or `Help`).
- `Validation` holds both validators and their place in the chain.

Printing and exiting are replaced by an `Outcome`: what would be printed, and which help
text would follow it. `ExitCode` maps an outcome to the process status.

### Behaviour of the code worth knowing

- **Defaults and the user `options` map.** `cli` spreads the user configuration over the
  defaults at the top level (`src/tako.ts:226-227`). So a user `config.options` replaces the
  reserved `gen`/`help`/`version` map entirely. Phase 1 then knows one of them only
  if a registered command declares it (the fold at `src/tako.ts:229-232`).
  `BaseConfig` models this spread, and `MergePrecedenceExample` shows it.
- **Re-registration.** `command` spreads the new config and metadata over the stored ones at
  the top level (`src/tako.ts:218-219`). So a second `options` map replaces the first. It is
  not merged with it.
- **Layering a matched command.** This step, unlike the two above, merges `options` key by
  key (`src/tako.ts:287-303`). See `LayerConfigOptions`.
- **Name normalisation.** A name is trimmed of JavaScript whitespace at both ends, then split
  on the space character only (`src/tako.ts:210`). So a tab inside a name is kept.
- **Required options and positionals.** `cli` has no check of `required` after phase 2
  (`src/tako.ts:327-342`), so none is modelled.
- **Calling `next` twice.** The counter `handlerIndex` is shared by every call of
  `executeNext` (`src/tako.ts:344-358`). So a handler that calls `next` a second time, after
  the chain below it has stopped, starts the next handler that has not run yet.
  `SecondNextResumesChain` shows this. No handler ever starts twice.

## Model

| member | source | states |
|---|---|---|
| Strings.TrimStart | src/tako.ts:210 | The result is a suffix of the input. Every removed character is JavaScript whitespace, and the result does not start with whitespace. |
| Strings.TrimEnd | src/tako.ts:210 | The result is a prefix of the input. Every removed character is whitespace, and the result does not end with whitespace. |
| Strings.Trim | src/tako.ts:210 | No ensures of its own. `trim()` is `TrimEnd` after `TrimStart`, whose contracts fix the result. `NormalizeIsNormal` relies on them. |
| Strings.Split | src/tako.ts:210 | `split(" ")` always yields at least one piece, and no piece contains a space. |
| Strings.Join | src/tako.ts:210 | No ensures of its own. `join(sep)` gives "" for no pieces and puts `sep` only between pieces. `JoinSplit` and `SplitJoin` make it the inverse of `Split` for `" "`. |
| Strings.NormalizeName | src/tako.ts:210 | No ensures of its own. It is `trim()`, `split(" ")`, `filter(Boolean)` and `join(" ")` in that order. `NormalizeIsNormal`, `NormalizeFixesNormal` and `NormalizeIdempotent` carry its properties. |
| Strings.NonEmpty | src/tako.ts:210 | Every kept piece is non-empty and comes from the input, and every non-empty input piece is kept. |
| Strings.NonEmptyConcat | src/tako.ts:210 | `filter(Boolean)` distributes over concatenation, so the kept pieces keep their order and their repetitions. |
| Strings.NonEmptySingleton | src/tako.ts:210 | On one piece, `filter(Boolean)` keeps it exactly when it is non-empty. With `NonEmptyConcat` this fixes the result for every input. |
| Strings.JoinSplit | src/tako.ts:210 | Joining the pieces of `split(" ")` with a space gives back the original string. |
| Strings.SplitJoin | src/tako.ts:210 | Splitting a space-join of space-free pieces gives back those pieces. |
| Strings.NormalizeIsNormal | src/tako.ts:210 | A normalised name has no whitespace at either end and no empty piece between spaces. |
| Strings.NormalizeFixesNormal | src/tako.ts:210 | Normalising an already normal name leaves it unchanged. |
| Strings.NormalizeIdempotent | src/tako.ts:210 | Normalising twice gives the same result as normalising once. |
| Defaults.DefaultConfigShape | src/defaults.ts:3-22 | The default options are exactly `gen` (string, `-g`), `help` (boolean, `-h`) and `version` (boolean, `-v`), and their short names are distinct. The defaults are strict, allow positionals, disallow negation, emit no tokens, and give no `args`. |
| Defaults.DefaultMetadataShape | src/defaults.ts:24-38 | `cliExit` is true. There is no version and no global help. Option help exists for exactly the three reserved options, and `gen` shows the placeholder `docs`. |
| Defaults.DefaultConfig | src/defaults.ts:3-22 | No ensures of its own. It is the `defaultConfig` object: the three reserved option descriptors and the four parser flags. `DefaultConfigShape` carries its properties. |
| Defaults.DefaultMetadata | src/defaults.ts:24-38 | No ensures of its own. It is the `defaultMetadata` object: `cliExit` and the help for the three reserved options. `DefaultMetadataShape` carries its properties. |
| Merge.SpreadConfigAssociative | src/tako.ts:218 | Spreading configurations is associative, so repeated registrations fold their fragments from left to right. |
| Merge.SpreadMetadataAssociative | src/tako.ts:219 | The same associativity holds for metadata fragments. |
| Merge.SpreadConfigUnit | src/tako.ts:218 | The absent configuration (`existing?.config \|\| {}`) is the unit of the spread on both sides. |
| Merge.Override | src/tako.ts:218 | One key of an object spread: the value in `over` when the key is present there, and the value in `base` otherwise. `SpreadConfig` and `SpreadMetadata` apply it key by key. |
| Merge.SpreadConfig | src/tako.ts:218 | `{ ...base, ...over }` on configurations: each key comes from `over` when present there, and from `base` otherwise. `options` is replaced wholesale. The same spread is applied to the defaults at line 226. `SpreadConfigAssociative` and `SpreadConfigUnit` carry its algebra. |
| Merge.SpreadMetadata | src/tako.ts:219 | The same per-key spread on metadata, used at lines 219 and 227. `SpreadMetadataAssociative` and `SpreadMetadataUnit` carry its algebra. |
| Merge.SpreadMetadataUnit | src/tako.ts:219 | The absent metadata is the unit of the spread on both sides. |
| Merge.LayerConfig | src/tako.ts:287-294 | Every key other than `options` comes from the command's spread over the global config, and `options` is always present. |
| Merge.LayerConfigOptions | src/tako.ts:290-293 | The layered options hold the union of both key sets. The command's descriptor wins wherever it declares a key, and the global descriptor is kept everywhere else. |
| Merge.LayerMetadata | src/tako.ts:295-303 | Every metadata key other than `options` comes from the spread, and `options` is always present. |
| Merge.LayerMetadataOptions | src/tako.ts:299-302 | The layered option metadata holds the union of both key sets, and the command's entry wins where it has one. |
| Merge.LayerConfigIdempotent | src/tako.ts:287-294 | Layering the same command twice is the same as layering it once. |
| Merge.LayerMetadataIdempotent | src/tako.ts:295-303 | Layering the same command's metadata twice is the same as layering it once. |
| Merge.GlobalSchemaKeys | src/tako.ts:229-232 | A key is in the phase-1 schema exactly when the global options declare it or some registered command declares it. |
| Merge.GlobalSchema | src/tako.ts:229-232 | No ensures of its own. It is the left fold of `{ ...acc, ...cmd.config.options }` over the commands in registration order. `GlobalSchemaKeys`, `GlobalSchemaLastWins` and `GlobalSchemaKeepsBase` together fix the resulting map. |
| Merge.GlobalSchemaLastWins | src/tako.ts:229-232 | For a key that commands declare, the descriptor comes from the last command in registration order that declares it. |
| Merge.GlobalSchemaKeepsBase | src/tako.ts:229-232 | A global key that no command declares keeps its global descriptor. |
| Chain.Advance | src/tako.ts:345-358 | One `executeNext` never moves the counter backwards or past the end. It only extends the record of started handlers. If handlers `0..index-1` had started in order, the same holds afterwards. When no handler is left, it changes nothing. When one is left, it starts the handler at the counter: that index is the next one recorded, and the counter moves past it. |
| Chain.Perform | src/tako.ts:349-351 | Running the remaining steps of a handler keeps the same ordering facts. Once a handler has thrown, nothing else changes. |
| Chain.AdvanceFailure | src/tako.ts:349-355 | The error that ends a call of `executeNext` is one that a handler started by that call has among its steps. |
| Chain.PerformFailure | src/tako.ts:349-355 | The error that ends the rest of a handler is one of those steps, or one that a handler it started has among its steps. |
| Chain.RunChain | src/tako.ts:359 | After the first `executeNext()`, the started handlers are exactly `0..index-1` in order, and at least one has started if any exist. |
| Chain.PerformWithoutNext | src/tako.ts:349-351 | A handler that never calls `next` starts nothing further and ends with its first error, if it has one. |
| Chain.StopsAtFirstNonForwarder | src/tako.ts:345-358 | Pass-through handlers followed by one that never calls `next`: exactly the handlers up to it start, in order, and the run ends with its first error. |
| Chain.ThrowingFirstStops | src/tako.ts:349-355 | A first handler that throws at once is the only one that starts, and its message is the run's error. |
| Chain.AllPassThrough | src/tako.ts:345-358 | A chain of pass-through handlers starts every handler once, in order, and ends without an error. |
| Chain.SecondNextResumesChain | src/tako.ts:345-348 | With `[next(); next()]` followed by two handlers that do not call `next`, the second call starts the third handler: all three start and no error is raised. |
| Chain.HandlerChain.constructor | src/tako.ts:344 | The counter starts at 0, with nothing started and no error. |
| Chain.HandlerChain.ExecuteNext | src/tako.ts:345-358 | The imperative `executeNext`, which recurses through the steps of the handler it starts, leaves exactly the state that `Advance` specifies. |
| Help.VersionOf | src/tako.ts:56-58 | The result is the metadata version when one is present, and "" otherwise. |
| Help.ListedCommands | src/tako.ts:174-176 | With no command named, the listed names are the registered names with no space. With a command named, they are its descendants other than itself. Every listed name is registered. |
| Help.ListedCommandsConcat | src/tako.ts:174-176 | The listing distributes over concatenation, so the listed names keep their registration order. |
| Help.ListedCommandsSingleton | src/tako.ts:174-176 | On one name, the listing keeps it exactly when it is listed under the named command. With `ListedCommandsConcat` this fixes the list for every order. |
| Help.DisplayName | src/tako.ts:187 | A descendant is shown without the named command and the space after it. With no command named, the full name is shown. |
| Help.MaxLength | src/tako.ts:183 | `Math.max(0, ...lengths)`: the result is at least every length, equals one of them, and is 0 for no names. |
| Help.Spaces | src/tako.ts:189 | `" ".repeat(n)` is `n` spaces. |
| Help.CommandLineLayout | src/tako.ts:190 | A command line is two spaces, the name, spaces up to the column, then the command's help. |
| Help.CommandLine | src/tako.ts:186-190 | No ensures of its own. It is `  ${display}${padding}${help}`, where the padding is `width - display.length` spaces. `CommandLineLayout` states its layout. |
| Help.ColumnWidth | src/tako.ts:183-185 | No ensures of its own. It is the longest listed full name plus the offset 4. The ensures of `MaxLength` and `CommandColumns` carry its properties. |
| Help.LinesOf | src/tako.ts:186-191 | There is one line per name, and `LinesOfAt` gives line `i` as the `CommandLine` of name `i`, all with one width. |
| Help.CommandLines | src/tako.ts:172-192 | There is one line per listed command. |
| Help.CommandColumns | src/tako.ts:183-191 | Every name gets at least four spaces of padding. Every help text starts at column `2 + max + 4`, and each line has that layout. |
| Help.HelpOf | src/tako.ts:181 | No ensures of its own. It is `commands.get(name)?.metadata?.help \|\| ""`, the help shown beside each name. `CommandColumns` places it after the padding. |
| Help.CommandsSection | src/tako.ts:193-195 | No ensures of its own. It is empty when no line is listed, and otherwise `\n\nCommands:\n` followed by the lines joined by newlines. `CommandLines` and `CommandColumns` carry the line properties. |
| Help.UsageCommandPart | src/tako.ts:100-111 | No ensures of its own. For a named command it gives ` <name>` when the command is registered, plus ` [COMMAND]` when some name lies below it. With no command named, it gives ` [COMMAND]` when any command is registered. The `requiredArgs` part is left out. Only `HelpStartsWithUsage` states a property of the text around it. |
| Help.Description | src/tako.ts:117-123 | No ensures of its own. It is the global help when no command is named and the command's own help otherwise, each after a blank line and two spaces, and empty when that help is empty. No lemma beyond `HelpStartsWithUsage` is about it. |
| Help.HelpText | src/tako.ts:100-197 | No ensures of its own. It is `Usage: `, the launcher, the command part, the description and the Commands section, in that order. The Options section is left out. `HelpStartsWithUsage` and `CommandColumns` carry its properties. |
| Help.HelpStartsWithUsage | src/tako.ts:100-115 | Every help text starts with `Usage: ` followed by the runtime and script name. |
| Help.DocSections | src/tako.ts:200-205 | There is one section for the root help plus one per registered command. |
| Help.DocSectionsAt | src/tako.ts:200-205 | Section 0 is the root help, and section `i + 1` is the help of the `i`-th registered command. |
| Help.DocsWithoutCommands | src/tako.ts:200-207 | With no commands registered, the docs are exactly the root help. |
| Help.DocsStartWithRootHelp | src/tako.ts:200-207 | The docs always start with the root help. |
| Help.DocsText | src/tako.ts:200-207 | No ensures of its own. It is the sections joined by a blank line. `DocSections`, `DocSectionsAt`, `DocsWithoutCommands` and `DocsStartWithRootHelp` carry its properties, and `Tako.GenDocs` is proved equal to it. |
| DispatchSpec.MergeEntry | src/tako.ts:215-220 | A new entry holds the given handlers, config and metadata. An existing entry gets the handlers appended, and its config and metadata spread at the top level. |
| DispatchSpec.Register | src/tako.ts:209-223 | Registration keeps the registry well formed: order lists each key once, and every key is a non-empty normalised name. A name that normalises to "" only appends root handlers. Any other name stores the merged entry under the normalised name. It joins the end of the order only when it is new. |
| DispatchSpec.StoreWellFormed | src/tako.ts:221 | `Map.set` of a non-empty normal name keeps the registry well formed, and a new key joins the order at the end. |
| DispatchSpec.KeysNormal | src/tako.ts:210-214 | In a well-formed registry every command name is non-empty and normalised. |
| DispatchSpec.RegisterFresh | src/tako.ts:215-221 | A new name gets a fresh entry and goes last in the order. |
| DispatchSpec.RegisterExisting | src/tako.ts:215-221 | Registering a known name keeps the key set and the order. The name's entry is extended. |
| DispatchSpec.ReRegistrationMerges | src/tako.ts:209-222 | Two registrations of one name, however it is spaced, give one entry. Its handlers are both lists in order, and its config and metadata are the two fragments spread in order. |
| DispatchSpec.LongestMatch | src/tako.ts:272-282 | The search from the longest prefix downwards finds a registered prefix when one exists, and no longer prefix is registered. |
| DispatchSpec.Resolve | src/tako.ts:269-285 | `consumed` is the largest count of leading positionals whose space-join names a command, and `name` is that command. Both are 0 and "" when no prefix names a command. |
| DispatchSpec.PrefixName | src/tako.ts:274 | No ensures of its own. It is `globalPositionals.slice(0, i).join(" ")`, the candidate name of the first `i` positionals. `Resolve`'s ensures and `LongestPrefixExample` use it. |
| DispatchSpec.ResolveUnique | src/tako.ts:269-282 | Any resolution with the longest-prefix property is the one `Resolve` returns. |
| DispatchSpec.LongestPrefixExample | src/tako.ts:273-280 | With `a` and `a b` registered, `a b c` resolves to `a b`, consuming 2, and `a x` resolves to `a`, consuming 1. |
| DispatchSpec.ExitCode | src/tako.ts:244-249 | The status is 1 exactly after a parse error, an unknown command or a handler error (lines 248, 341, 322 and 355), and 0 otherwise. |
| DispatchSpec.DropPrefix | src/tako.ts:336 | `slice(n)` drops the first `n` positionals, or all of them when `n` exceeds their number. |
| DispatchSpec.BaseConfig | src/tako.ts:226 | No ensures of its own. It is the user configuration spread over `DefaultConfig` at the top level. `MergePrecedenceExample` shows that a user `options` map replaces the reserved one. |
| DispatchSpec.BaseMetadata | src/tako.ts:227 | No ensures of its own. It is the user metadata spread over `DefaultMetadata` at the top level. |
| DispatchSpec.Phase1 | src/tako.ts:229-243 | No ensures of its own. It is the phase-1 `parseArgs` call, which takes the parser flags of the base configuration and the options that `GlobalSchema` folds from the base options and every command's options. `Phase1FailureIsTerminal`, `DispatchSelects` and the other dispatch lemmas are stated over it. |
| DispatchSpec.DocsRequested | src/tako.ts:260 | No ensures of its own. It is `globalValues.gen === "docs"`. `DocsShortcutSecond` is stated over it. |
| DispatchSpec.Dispatch | src/tako.ts:225-250 | No ensures of its own. It is the whole of `cli`: the merge, the phase-1 parse, the parse-error exit, then `AfterPhase1`. `Phase1FailureIsTerminal`, `DispatchSelects` and the lemmas below carry its properties, and `Tako.Cli` is proved equal to it. |
| DispatchSpec.AfterPhase1 | src/tako.ts:251-266 | No ensures of its own. `--version` first, then `--gen docs`, then `Resolved`. `VersionShortcutFirst` and `DocsShortcutSecond` carry its properties, and `Tako.Shortcuts` is proved equal to it. |
| DispatchSpec.Resolved | src/tako.ts:268-308 | No ensures of its own. It resolves the positionals, layers the match, and answers `--help` with the matched scope, or else goes on to `Select`. `HelpScopedToMatch` and `DispatchConfig` carry its properties, and `Tako.ResolveAndRun` is proved equal to it. |
| DispatchSpec.ConfigFor | src/tako.ts:286-294 | No ensures of its own. With a matched command it is `LayerConfig` of the current config and that command's config, and otherwise the current config unchanged. `DispatchConfig` and `LayeredPrecedence` are stated over it. |
| DispatchSpec.MetadataFor | src/tako.ts:295-304 | No ensures of its own. With a matched command it is `LayerMetadata` of the current metadata and that command's metadata, and otherwise the metadata unchanged. |
| DispatchSpec.Select | src/tako.ts:310-326 | No ensures of its own. It runs the matched command, or the root handlers when there are no positionals, or reports an unknown command, or shows the root help. `UnknownCommandExactly`, `RootHandlersExactly`, `BareInvocationShowsHelp` and `SelectRanInOrder` carry its properties, and `Tako.SelectAndRun` is proved equal to it. |
| DispatchSpec.Phase2 | src/tako.ts:328-335 | No ensures of its own. It is the phase-2 `parseArgs` call with the settled config's flags and its own `options`, and `{}` when there are none. `Execute` uses it. `RootHandlersExactly` and `MatchedCommandRuns` are stated over it. |
| DispatchSpec.Execute | src/tako.ts:327-363 | No ensures of its own. It does the phase-2 parse with the layered options, drops the consumed positionals, and runs the chain, or shows the root help when there are no handlers. `MatchedCommandRuns` and `RanInOrder` carry its properties, and `Tako.RunCommand` is proved equal to it. |
| DispatchSpec.DispatchSelects | src/tako.ts:252-313 | Once phase 1 succeeds and no shortcut fires, a dispatch is the handler selection for the longest-prefix resolution, under the layered configuration. |
| DispatchSpec.Phase1FailureIsTerminal | src/tako.ts:235-249 | A failed phase-1 parse ends with a parse error, the root help and status 1, and nothing is assigned to `scriptArgs`. |
| DispatchSpec.VersionShortcutFirst | src/tako.ts:253-259 | `--version` wins over every other flag and command. It shows the merged metadata's version. |
| DispatchSpec.DocsShortcutSecond | src/tako.ts:260-266 | Without `--version`, `--gen docs` shows the generated documentation before any resolution. |
| DispatchSpec.HelpScopedToMatch | src/tako.ts:286-308 | `--help` shows the help of the longest match, or the root help. The matched command's config and metadata have already been layered on. |
| DispatchSpec.ShortcutsRunNoHandler | src/tako.ts:253-308 | When a shortcut fires, no handler runs and the status is 0. |
| DispatchSpec.UnknownCommandExactly | src/tako.ts:314-323 | The unknown-command error happens exactly when phase 1 succeeds, no shortcut fires, there are positionals and no prefix of them is registered. It echoes the positionals joined by spaces, with status 1. |
| DispatchSpec.RootHandlersExactly | src/tako.ts:311-313 | The root handlers run exactly when phase 1 succeeds, no shortcut fires, there are no positionals, root handlers exist and phase 2 succeeds. |
| DispatchSpec.BareInvocationShowsHelp | src/tako.ts:324-325 | With no positionals and no root handlers, the root help is shown with status 0. |
| DispatchSpec.MatchedCommandRuns | src/tako.ts:327-363 | A matched command re-parses with its layered config. It reports a parse error scoped to itself, or else leaves the positionals without its name tokens. Then it runs its handler chain, or shows the root help when it has no handlers. |
| DispatchSpec.RanInOrder | src/tako.ts:343-359 | Whatever runs, the handlers start in list order from the first one, and each starts at most once. |
| DispatchSpec.SelectRanInOrder | src/tako.ts:310-363 | Every selection that reaches a chain starts its handlers in order from the first one. |
| DispatchSpec.DispatchConfig | src/tako.ts:225-294 | Once phase 1 succeeds and no shortcut fires, a dispatch ends with the defaults-and-user spread, with the matched command's config layered on when one matched. |
| DispatchSpec.LayeredPrecedence | src/tako.ts:286-294 | With `hello` registered with a `name` option defaulting to "Earth", and a base `name` option defaulting to "World": the positionals `hello` give "Earth" and no positionals give "World", and `name` is the only option. |
| DispatchSpec.MergePrecedenceExample | src/tako.ts:286-294 | For this `hello` registry and a user `name` option defaulting to "World", a whole dispatch with the positionals `hello` ends with "Earth" in force, and one with no positionals ends with "World". In both, `name` is the only option: the user map replaced the reserved defaults (lines 226-227). |
| Dispatcher.Tako.constructor | src/tako.ts:16-21 | A new `Tako` has an empty registry and an empty config and metadata. |
| Dispatcher.Tako.Command | src/tako.ts:209-223 | The fields afterwards equal `Register` of the fields before, so the class invariant is kept. |
| Dispatcher.Tako.GlobalParseOptions | src/tako.ts:229-232 | The loop builds exactly the phase-1 schema `GlobalSchema` of the live config and the commands in registration order. |
| Dispatcher.Tako.ResolveCommand | src/tako.ts:268-282 | The countdown loop returns exactly `Resolve`: the longest registered prefix, and no longer prefix is registered. |
| Dispatcher.Tako.GenDocs | src/tako.ts:200-207 | The loop builds `DocsText`: the root help, then every command's help, joined by blank lines. |
| Dispatcher.Tako.Cli | src/tako.ts:225-266 | Afterwards the outcome, config and metadata are exactly those of `Dispatch` on the registry with the root handlers appended. `scriptArgs` is the last parse result assigned, and the commands are unchanged. |
| Dispatcher.Tako.Shortcuts | src/tako.ts:251-266 | The version and docs shortcuts, then the rest, as `AfterPhase1` specifies. |
| Dispatcher.Tako.ResolveAndRun | src/tako.ts:268-308 | Resolution, layering and `--help`, and then the rest, as `Resolved` specifies. |
| Dispatcher.Tako.SelectAndRun | src/tako.ts:310-326 | The matched command, the root handlers, an unknown command or the root help, as `Select` specifies. |
| Dispatcher.Tako.RunCommand | src/tako.ts:327-363 | The phase-2 parse, the sliced positionals and the handler chain give the outcome and `scriptArgs` that `Execute` specifies. |
| Validation.FirstFailure | src/middlewares.ts:13-21 | All schemas before the first failure succeed, and the schema there fails. |
| Validation.AllPassIffNoFailure | src/middlewares.ts:13-22 | All schemas pass exactly when the first failure lies past the end. |
| Validation.FirstFailureAppend | src/middlewares.ts:13-21 | Splitting the schemas over two validators in a row does not change where the first failure is. |
| Validation.Middleware | src/middlewares.ts:6-24 | An unknown target throws before any schema runs. Otherwise the schemas run in order up to the first failure, which throws that schema's issues, and `next` is called exactly when none fails. `consulted` counts the schemas that ran. |
| Validation.HandlerOf | src/middlewares.ts:7-23 | As a handler, the middleware is a pass-through when it accepts, and a single throw of its message when it rejects. |
| Validation.Message | src/middlewares.ts:9-19 | No ensures of its own. It gives the texts of the two thrown errors: the invalid-target text with the supported targets joined by `', '`, and `Validation failed.` followed by the rendered issues. The helper throws the same failure text (`src/helpers.ts:15`). |
| Validation.RejectionStopsChain | src/middlewares.ts:18-20 | A rejecting middleware placed first ends the run: only it starts, and its message is the error. |
| Validation.AcceptanceReachesHandler | src/middlewares.ts:22 | An accepting middleware lets the next handler run. Both start, in order, and the run ends with that handler's own error, if any. |
| Validation.Check | src/helpers.ts:4-23 | The schemas run in order up to the first failure, which throws its issues. With no failure, the result is the last schema's value. With no schema at all, it throws "No schema provided.". |

## Left out

- Console output, `styleText` and the text of the printed messages are not modelled. Each
  is replaced by an `Outcome` that names what would be printed (`src/tako.ts:23-44`).
- `process.exit` is not modelled. `ExitCode` gives the status, and the outcome ends the run.
- `getRuntimeKey` and `path.basename(process.argv[1])` probe the runtime and are not
  modelled. The usage line takes their text as the opaque parameter `launcher`.
- `util.parseArgs` is an external collaborator. It is the function parameter `parser`,
  which gets the request that `cli` builds. Its own parsing is not modelled.
- The Options section of `getHelp` and the required-options part of its usage line are not
  modelled (`src/tako.ts:74-95`, `112-114`, `125-169`). Their text depends on
  JavaScript's key order in `Object.entries`, which the map-based model does not have.
- `cliExit` and the `required` metadata are carried but never checked, because the code does
  not check them either.
- Async handlers and awaited schema results are not modelled. A handler or schema is a
  synchronous value. The model does not capture promise scheduling, or a rejected promise
  escaping the `try`/`catch` of `executeNext`.
- Handler side effects on the context are not modelled. A handler is its sequence of `next`
  calls and throws. The model also does not capture a handler that changes `config` or
  `scriptArgs` inside the chain.
- Validation.HandlerOf: it models a rejecting middleware as a handler that throws, which
  the chain reports as an execution error. In the source, `v` returns an `async` function
  (`src/middlewares.ts:7`) that `executeNext` does not await. So its error becomes a rejected
  promise that escapes the `try`/`catch`, and not the `Execution Error` path. In both, `next`
  is not called and no later handler starts.
- The extra primitive keys of `OptionsMetadata` (`[key: string]`, `src/types.ts:85`) and the
  `tokens` of `ParsedResults` (`src/types.ts:69`) are not modelled, because no modelled
  behaviour reads them.
- `JSON.stringify(issues, null, 2)` is the parameter `render` of `Validation.Message`.
- Validation.Message: it has no contract of its own. Its body spells out the joined list of
  targets, because the list is a fixed literal.
- Standard Schema validation itself is not modelled. A schema is a function from the value
  to success or issues. A success object that also carries `issues` is treated as a failure,
  as the code's truthiness test does.
- String lengths count Unicode code points. JavaScript's `.length` counts UTF-16 code
  units, so the padding of commands with astral-plane names is not modelled.
- An explicit `undefined` value for a key is not modelled. Absent and `undefined` are the
  same `None`, although a JavaScript spread would copy an explicit `undefined`.
- Before the first `cli`, `scriptArgs` is undefined in the source. The model starts it as
  empty results.
- `print`, the scripts and the examples are outside the dispatcher and are not modelled.
