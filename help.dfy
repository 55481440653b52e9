/**
 * The text-producing queries of the registry: the version string, the parts of the help text
 * that depend on the registered commands (the usage line's command part, the description and
 * the Commands section with its padded columns), and the generated documentation.
 */
module Help {
  import opened Wrappers
  import opened Types
  import opened Strings

  /** `metadata.version ?? ""` */
  function VersionOf(m: Metadata): (r: string)
    ensures m.version.Some? ==> r == m.version.value
    ensures m.version.None? ==> r == ""
  {
    m.version.GetOr("")
  }

  predicate StartsWith(s: string, prefix: string) {
    |prefix| <= |s| && s[..|prefix|] == prefix
  }

  /**
   * Whether a command name is listed: with no command named, the top-level names (no space);
   * with a command named, its descendants (names starting with that name and a space).
   */
  predicate Listed(name: string, scope: string) {
    if scope != "" then StartsWith(name, scope + " ") && name != scope else ' ' !in name
  }

  /** The listed names, in registration order. */
  function ListedCommands(order: seq<string>, scope: string): (r: seq<string>)
    ensures forall n :: n in r <==> n in order && Listed(n, scope)
    ensures |r| <= |order|
  {
    if order == [] then []
    else (if Listed(order[0], scope) then [order[0]] else []) + ListedCommands(order[1..], scope)
  }

  /** Listing distributes over concatenation, so the listed names keep their registration order. */
  lemma {:induction false} ListedCommandsConcat(a: seq<string>, b: seq<string>, scope: string)
    ensures ListedCommands(a + b, scope) == ListedCommands(a, scope) + ListedCommands(b, scope)
    decreases |a|
  {
    if a == [] {
      assert a + b == b;
    } else {
      assert (a + b)[0] == a[0] && (a + b)[1..] == a[1..] + b;
      ListedCommandsConcat(a[1..], b, scope);
    }
  }

  /** On one name, the listing keeps it exactly when it is listed under `scope`. */
  lemma ListedCommandsSingleton(name: string, scope: string)
    ensures ListedCommands([name], scope) == if Listed(name, scope) then [name] else []
  {
  }

  /** The name as displayed: the named command's prefix and the space after it stripped. */
  function DisplayName(name: string, scope: string): (r: string)
    ensures |r| <= |name|
    ensures scope != "" && Listed(name, scope) ==> scope + " " + r == name
    ensures scope == "" ==> r == name
  {
    if scope == "" then name
    else if |scope| + 1 <= |name| then name[|scope| + 1..]
    else ""
  }

  /** `Math.max(0, ...names.map(n => n.length))` */
  function MaxLength(names: seq<string>): (m: nat)
    ensures forall i | 0 <= i < |names| :: |names[i]| <= m
    ensures names == [] ==> m == 0
    ensures names != [] ==> exists i | 0 <= i < |names| :: |names[i]| == m
  {
    if names == [] then 0
    else
      var rest := MaxLength(names[1..]);
      if |names[0]| >= rest then |names[0]| else rest
  }

  /** `" ".repeat(n)` */
  function Spaces(n: nat): (r: string)
    ensures |r| == n && forall i | 0 <= i < n :: r[i] == ' '
  {
    seq(n, _ => ' ')
  }

  /** `commands.get(name)?.metadata?.help || ""` */
  function HelpOf(commands: map<string, Entry>, name: string): string {
    if name in commands then commands[name].metadata.help.GetOr("") else ""
  }

  /**
   * One line of the Commands section: the name, `width - |display|` spaces, then its help.
   * (The width always leaves room for the name, so the padding is never negative.)
   */
  function CommandLine(display: string, width: nat, help: string): string {
    "  " + display + Spaces(if |display| <= width then width - |display| else 0) + help
  }

  /** The layout of one line: two spaces, the name, spaces up to the column, the help. */
  lemma CommandLineLayout(display: string, width: nat, help: string)
    requires |display| <= width
    ensures var r := CommandLine(display, width, help);
      && |r| == 2 + width + |help|
      && r[..2] == "  " && r[2..2 + |display|] == display
      && (forall i | 2 + |display| <= i < 2 + width :: r[i] == ' ')
      && r[2 + width..] == help
  {
  }

  /** The width of the name column: the longest listed (full) name plus four. */
  function ColumnWidth(order: seq<string>, scope: string): nat {
    MaxLength(ListedCommands(order, scope)) + 4
  }

  /** One line per name, in order, all with the same column width. */
  function LinesOf(commands: map<string, Entry>, names: seq<string>, scope: string, width: nat): (lines: seq<string>)
    ensures |lines| == |names|
  {
    if names == [] then [] else
      [CommandLine(DisplayName(names[0], scope), width, HelpOf(commands, names[0]))]
      + LinesOf(commands, names[1..], scope, width)
  }

  lemma {:induction false} LinesOfAt(commands: map<string, Entry>, names: seq<string>, scope: string, width: nat, i: nat)
    requires i < |names|
    ensures LinesOf(commands, names, scope, width)[i]
      == CommandLine(DisplayName(names[i], scope), width, HelpOf(commands, names[i]))
  {
    if i > 0 {
      LinesOfAt(commands, names[1..], scope, width, i - 1);
    }
  }

  /** The lines of the Commands section, one per listed name, in registration order. */
  function CommandLines(commands: map<string, Entry>, order: seq<string>, scope: string): (lines: seq<string>)
    ensures |lines| == |ListedCommands(order, scope)|
  {
    LinesOf(commands, ListedCommands(order, scope), scope, ColumnWidth(order, scope))
  }

  /** The Commands section of the help text, empty when nothing is listed. */
  function CommandsSection(commands: map<string, Entry>, order: seq<string>, scope: string): string {
    var lines := CommandLines(commands, order, scope);
    if lines == [] then "" else "\n\nCommands:\n" + Join(lines, "\n")
  }

  /**
   * Every listed name is padded by at least four spaces, so the padding is never negative,
   * and every help text starts in the same column.
   */
  lemma CommandColumns(commands: map<string, Entry>, order: seq<string>, scope: string, i: nat)
    requires i < |ListedCommands(order, scope)|
    ensures var names := ListedCommands(order, scope);
      var width := ColumnWidth(order, scope);
      var display := DisplayName(names[i], scope);
      var line := CommandLines(commands, order, scope)[i];
      && width - |display| >= 4
      && |line| == 2 + width + |HelpOf(commands, names[i])|
      && line[..2] == "  " && line[2..2 + |display|] == display
      && (forall j | 2 + |display| <= j < 2 + width :: line[j] == ' ')
      && line[2 + width..] == HelpOf(commands, names[i])
  {
    var names := ListedCommands(order, scope);
    LinesOfAt(commands, names, scope, ColumnWidth(order, scope), i);
    CommandLineLayout(DisplayName(names[i], scope), ColumnWidth(order, scope), HelpOf(commands, names[i]));
  }

  /** Some registered name lies below `scope`. */
  predicate HasSubcommands(commands: map<string, Entry>, scope: string) {
    exists k | k in commands :: StartsWith(k, scope + " ")
  }

  /** What the usage line shows after the launcher: the named command, and `[COMMAND]` when one can follow. */
  function UsageCommandPart(commands: map<string, Entry>, scope: string): string {
    if scope != "" then
      (if scope in commands then " " + scope else "")
      + (if HasSubcommands(commands, scope) then " [COMMAND]" else "")
    else if |commands| > 0 then " [COMMAND]"
    else ""
  }

  predicate NonEmptyText(s: Option<string>) {
    s.Some? && s.value != ""
  }

  /** The description paragraph: the global help with no command named, the command's own otherwise. */
  function Description(commands: map<string, Entry>, metadata: Metadata, scope: string): string {
    (if scope == "" && NonEmptyText(metadata.help) then "\n\n  " + metadata.help.value else "")
    + (if scope != "" && scope in commands && NonEmptyText(commands[scope].metadata.help)
       then "\n\n  " + commands[scope].metadata.help.value else "")
  }

  /**
   * The help text for `scope` ("" for none). `launcher` is the opaque runtime and script name
   * of the usage line; the Options section and the required-option part of the usage line are
   * not part of this model.
   */
  function HelpText(commands: map<string, Entry>, order: seq<string>, metadata: Metadata, launcher: string, scope: string): string {
    "Usage: " + launcher + UsageCommandPart(commands, scope) + Description(commands, metadata, scope)
      + CommandsSection(commands, order, scope)
  }

  /** Every help text opens with the usage line. */
  lemma HelpStartsWithUsage(commands: map<string, Entry>, order: seq<string>, metadata: Metadata, launcher: string, scope: string)
    ensures StartsWith(HelpText(commands, order, metadata, launcher, scope), "Usage: " + launcher)
  {
    var usage := "Usage: " + launcher;
    var withCommand := usage + UsageCommandPart(commands, scope);
    var withDescription := withCommand + Description(commands, metadata, scope);
    PrefixOfConcat(withDescription, CommandsSection(commands, order, scope), |usage|);
    PrefixOfConcat(withCommand, Description(commands, metadata, scope), |usage|);
    PrefixOfConcat(usage, UsageCommandPart(commands, scope), |usage|);
  }

  /** A prefix no longer than `s` of `s + t` is a prefix of `s`. */
  lemma PrefixOfConcat(s: string, t: string, n: nat)
    requires n <= |s|
    ensures (s + t)[..n] == s[..n]
  {
  }

  /** `getHelp` as a function of the command named, for a fixed registry. */
  function HelpRenderer(commands: map<string, Entry>, order: seq<string>, metadata: Metadata, launcher: string): string -> string {
    scope => HelpText(commands, order, metadata, launcher, scope)
  }

  /** The help for no command, then the helps for the first `k` names of `order`. */
  function SectionsUpTo(help: string -> string, order: seq<string>, k: nat): (r: seq<string>)
    requires k <= |order|
    ensures |r| == k + 1
  {
    if k == 0 then [help("")] else SectionsUpTo(help, order, k - 1) + [help(order[k - 1])]
  }

  /** Section 0 is the help for no command and section `i` (for `i > 0`) the help for `order[i - 1]`. */
  lemma {:induction false} SectionsAt(help: string -> string, order: seq<string>, k: nat, i: nat)
    requires k <= |order| && i <= k
    ensures SectionsUpTo(help, order, k)[i] == if i == 0 then help("") else help(order[i - 1])
  {
    if i < k {
      SectionsAt(help, order, k - 1, i);
    }
  }

  /** The sections of the documentation: the root help, then each command's help in registration order. */
  function DocSections(commands: map<string, Entry>, order: seq<string>, metadata: Metadata, launcher: string): (r: seq<string>)
    ensures |r| == |order| + 1
  {
    SectionsUpTo(HelpRenderer(commands, order, metadata, launcher), order, |order|)
  }

  /** Section 0 is the root help and section `i + 1` the help of the `i`-th registered command. */
  lemma DocSectionsAt(commands: map<string, Entry>, order: seq<string>, metadata: Metadata, launcher: string, i: nat)
    requires i <= |order|
    ensures DocSections(commands, order, metadata, launcher)[i]
      == if i == 0 then HelpText(commands, order, metadata, launcher, "")
         else HelpText(commands, order, metadata, launcher, order[i - 1])
  {
    SectionsAt(HelpRenderer(commands, order, metadata, launcher), order, |order|, i);
  }

  /** The generated documentation: the sections joined by a blank line. */
  function DocsText(commands: map<string, Entry>, order: seq<string>, metadata: Metadata, launcher: string): string {
    Join(DocSections(commands, order, metadata, launcher), "\n\n")
  }

  /** With no command registered the documentation is just the root help. */
  lemma DocsWithoutCommands(commands: map<string, Entry>, metadata: Metadata, launcher: string)
    ensures DocsText(commands, [], metadata, launcher) == HelpText(commands, [], metadata, launcher, "")
  {
  }

  /** A join starts with its first piece. */
  lemma JoinStartsWithFirst(pieces: seq<string>, sep: string)
    requires |pieces| > 0
    ensures StartsWith(Join(pieces, sep), pieces[0])
  {
    if |pieces| > 1 {
      var d := Join(pieces, sep);
      assert d == pieces[0] + (sep + Join(pieces[1..], sep));
      assert d[..|pieces[0]|] == pieces[0];
    }
  }

  /** The documentation opens with the root help. */
  lemma DocsStartWithRootHelp(commands: map<string, Entry>, order: seq<string>, metadata: Metadata, launcher: string)
    ensures StartsWith(DocsText(commands, order, metadata, launcher), HelpText(commands, order, metadata, launcher, ""))
  {
    DocSectionsAt(commands, order, metadata, launcher, 0);
    JoinStartsWithFirst(DocSections(commands, order, metadata, launcher), "\n\n");
  }
}
