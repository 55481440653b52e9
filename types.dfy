/**
 * The shapes the dispatcher works on: option descriptors, parser configuration, help
 * metadata, parsed results, handlers and command entries. An optional JavaScript key is an
 * `Option`; `None` is an absent key.
 */
module Types {
  import opened Wrappers

  /** A parsed or default option value: a boolean, a string, or a list for `multiple` options. */
  datatype Value = BoolVal(b: bool) | StrVal(s: string) | ListVal(items: seq<Value>)

  /** JavaScript truthiness of a value: `false` and `""` are falsy, every array is truthy. */
  predicate Truthy(v: Value) {
    match v
    case BoolVal(b) => b
    case StrVal(s) => s != ""
    case ListVal(_) => true
  }

  datatype OptionKind = BooleanOption | StringOption

  /** One entry of a parser option schema. */
  datatype OptionDescriptor = OptionDescriptor(
    kind: OptionKind,
    short: Option<string>,
    defaultValue: Option<Value>,
    multiple: Option<bool>)

  type Schema = map<string, OptionDescriptor>

  /** The parser configuration (`ParseArgsConfig`). */
  datatype ParseConfig = ParseConfig(
    args: Option<seq<string>>,
    options: Option<Schema>,
    strict: Option<bool>,
    allowPositionals: Option<bool>,
    allowNegative: Option<bool>,
    tokens: Option<bool>)

  /** The configuration with no key at all: what an absent `config` spreads as. */
  const EmptyConfig := ParseConfig(None, None, None, None, None, None)

  /** `config.options || {}` */
  function OptionsOf(c: ParseConfig): Schema {
    c.options.GetOr(map[])
  }

  /** Help text for one option (`OptionsMetadata`); extra primitive keys are not modelled. */
  datatype OptionMetadata = OptionMetadata(
    help: Option<string>,
    placeholder: Option<string>,
    required: Option<bool>)

  /** Help and exit metadata (`ArgsMetadata`). */
  datatype Metadata = Metadata(
    cliExit: Option<bool>,
    cliName: Option<string>,
    version: Option<string>,
    help: Option<string>,
    placeholder: Option<string>,
    required: Option<bool>,
    options: Option<map<string, OptionMetadata>>)

  const EmptyMetadata := Metadata(None, None, None, None, None, None, None)

  /** `metadata.options || {}` */
  function MetaOptionsOf(m: Metadata): map<string, OptionMetadata> {
    m.options.GetOr(map[])
  }

  /** The `{ config, metadata }` argument of `command` and `cli`; absent parts are empty. */
  datatype TakoArgs = TakoArgs(config: ParseConfig, metadata: Metadata)

  /** What the argument parser returns: option values by name and the positionals in order. */
  datatype ParsedResults = ParsedResults(values: map<string, Value>, positionals: seq<string>)

  /** `values[key]` is truthy (an absent key reads as `undefined`, which is falsy). */
  predicate FlagSet(values: map<string, Value>, key: string) {
    key in values && Truthy(values[key])
  }

  /** The arguments handed to the parser. */
  datatype ParseRequest = ParseRequest(
    args: Option<seq<string>>,
    options: Schema,
    strict: Option<bool>,
    allowPositionals: Option<bool>,
    allowNegative: Option<bool>,
    tokens: Option<bool>)

  /** The parser's answer: results, or the message of the error it threw. */
  datatype ParseOutcome = Parsed(results: ParsedResults) | ParseFailed(message: string)

  /** The argument parser, an external collaborator. */
  type Parser = ParseRequest -> ParseOutcome

  /** The request built from a configuration and the schema to parse with. */
  function RequestFor(c: ParseConfig, schema: Schema): ParseRequest {
    ParseRequest(c.args, schema, c.strict, c.allowPositionals, c.allowNegative, c.tokens)
  }

  /**
   * What one invocation of a handler does, in order: call `next`, or throw. A handler
   * whose steps contain no `Next` ends the chain when it returns.
   */
  datatype Step = Next | Throw(message: string)

  datatype Handler = Handler(steps: seq<Step>)

  /** One registered command: its handlers in registration order and its config fragments. */
  datatype Entry = Entry(handlers: seq<Handler>, config: ParseConfig, metadata: Metadata)
}
