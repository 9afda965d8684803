# Command usage rendering for baksmali/smali

This project models the code that prints the `--help` text of the baksmali and smali command
lines:

- `HelpFormatter` renders a command's usage. The usage line comes first. Then come the
  `Options:` section, with the parameters sorted by their dash-stripped first name, and the
  `Commands:` section, with each sub-command's aliases and description. The command's postfix
  text comes last.
- `ExtendedCommands` reads a command class's `@ExtendedParameters` descriptor. It reads the
  argument-name hints of a parameter field. It finds a sub-command by name, or else by alias.
  It registers an extended command with its parent.
- `HelpCommand` is the `help` command, plus its hidden twin `hlep`. It turns a list of topics
  into usage requests or the fixed `register-info` explanation.

The sink that `format` writes to (`WrappedIndentingWriter`) is modelled as a recorder of the
calls made on it: `Write(s)`, `Indent(n)` and `Deindent(n)` events. The help text is stated as
such a trace, and its plain text is the concatenation of the writes (`Events.Text`). Annotation
lookup by reflection is replaced by an explicit `Registry` of descriptors, `@Parameters`
annotations and field hints. A missing `@ExtendedParameters` is a `Failure` where the original throws an
`IllegalStateException`. A sub-command class with no `@Parameters` is also a `Failure`: the
original dereferences the null annotation. Each model error records the class concerned; of the
original's exceptions only the one in `ExtendedCommands.getExtendedParameters` names it.

`HelpCommand` and `HlepCommand` carry `@Parameters` but no `@ExtendedParameters`. Listed among
the sub-commands of a command, a shown `help` therefore makes `format` fail when its aliases are
read (`Help.HelpCommandLineAsDeclared`). How the program registers these commands is not part of
this model.

Files:

- `wrappers.dfy`: `Option` and `Result`.
- `strings.dfy`: Guava's `Joiner` and Java's `String.compareTo`.
- `jcommander.dfy`: the JCommander state the renderer reads. Its command map is an
  insertion-ordered sequence of entries.
- `extended_commands.dfy`: `ExtendedCommands`.
- `parameter_order.dfy`: the arity rule, and the sort of the Options section.
- `events.dfy`: the sink and its events.
- `help_formatter.dfy`: `format`, as a specification of the whole trace and as the method that
  writes it.
- `usage_properties.dfy`: properties of the rendered text.
- `help_command.dfy`: `HelpCommand`.

The help of a bare command ends without a trailing newline (`HelpFormatter.java` lines 135-165
end with a deindent); see `UsageProperties.MinimalCommand`.

## Model

| member | source | states |
|---|---|---|
| Strings.Join | util/src/main/java/org/jf/util/jcommander/HelpFormatter.java:175 | joining no parts gives the empty string, one part gives that part unchanged, and two parts give them with the separator between |
| Strings.LessIrreflexive | util/src/main/java/org/jf/util/jcommander/HelpFormatter.java:123 | no name sorts before itself under `compareTo` |
| Strings.LessTotal | util/src/main/java/org/jf/util/jcommander/HelpFormatter.java:123 | any two different names are ordered one way or the other |
| Strings.LessAsymmetric | util/src/main/java/org/jf/util/jcommander/HelpFormatter.java:123 | two names are never each before the other |
| Strings.LessSplit | util/src/main/java/org/jf/util/jcommander/HelpFormatter.java:123 | if a < c then every b satisfies a < b or b < c |
| Strings.LessTransitive | util/src/main/java/org/jf/util/jcommander/HelpFormatter.java:123 | the `compareTo` order is transitive |
| Jcommander.Lookup | util/src/main/java/org/jf/util/jcommander/ExtendedCommands.java:115-116 | a key lookup is null exactly when no entry has that key, and otherwise yields the sub-command stored under it |
| Jcommander.Put | util/src/main/java/org/jf/util/jcommander/ExtendedCommands.java:95 | in the insertion-ordered command map, a put of a new key appends the entry last (`es + [e]`) |
| Jcommander.PutReplaces | util/src/main/java/org/jf/util/jcommander/ExtendedCommands.java:95 | a put of a key already present keeps its place and replaces its entry: `es[i := e]` at the key's first index |
| Jcommander.PutFinds | util/src/main/java/org/jf/util/jcommander/ExtendedCommands.java:95 | after a command is added under a key, a lookup of that key yields it |
| Jcommander.PutKeepsOthers | util/src/main/java/org/jf/util/jcommander/ExtendedCommands.java:95 | adding a command leaves the lookup of every other key unchanged |
| Jcommander.PutKeepsDistinct | util/src/main/java/org/jf/util/jcommander/ExtendedCommands.java:95 | keys stay unique after a command is added |
| Jcommander.PutElements | util/src/main/java/org/jf/util/jcommander/ExtendedCommands.java:95 | adding a command brings in no entry other than the added one |
| Jcommander.JCommander.AddCommand | util/src/main/java/org/jf/util/jcommander/ExtendedCommands.java:95 | `addCommand` creates a fresh sub-command JCommander for the object and puts it under the name with the aliases; the keys stay distinct |
| ExtendedCommands.GetExtendedParameters | util/src/main/java/org/jf/util/jcommander/ExtendedCommands.java:47-54 | succeeds exactly when the class has a descriptor, and returns it; otherwise fails with the missing-descriptor error naming the class |
| ExtendedCommands.AccessorsProjectDescriptor | util/src/main/java/org/jf/util/jcommander/ExtendedCommands.java:56-92 | the four accessors succeed together exactly when a descriptor exists, their values rebuild that descriptor, and otherwise they all fail with the same error |
| ExtendedCommands.ParameterArgumentNames | util/src/main/java/org/jf/util/jcommander/ExtendedCommands.java:98-111 | the hints are the annotation's `argumentNames` when the field exists and is annotated, and empty otherwise |
| ExtendedCommands.KeyWins | util/src/main/java/org/jf/util/jcommander/ExtendedCommands.java:115-116 | a key equal to the token is returned without any alias being read |
| ExtendedCommands.AliasScanFindsFirst | util/src/main/java/org/jf/util/jcommander/ExtendedCommands.java:118-124 | with every descriptor present, the alias scan returns the first sub-command in map order that lists the token, and null exactly when none does |
| ExtendedCommands.NotFoundIff | util/src/main/java/org/jf/util/jcommander/ExtendedCommands.java:114-127 | `getSubcommand` is null exactly when no key and no alias equals the token |
| ExtendedCommands.AliasScanFailure | util/src/main/java/org/jf/util/jcommander/ExtendedCommands.java:118-119 | the alias scan fails only at a sub-command without a descriptor, with that sub-command's error |
| ExtendedCommands.GetSubcommand | util/src/main/java/org/jf/util/jcommander/ExtendedCommands.java:113-127 | the nested search with early return yields exactly the key-then-alias lookup result |
| ExtendedCommands.AddExtendedCommand | util/src/main/java/org/jf/util/jcommander/ExtendedCommands.java:94-96 | with a descriptor, the command is put under the descriptor's name with its aliases; without one, the call fails and the map is unchanged |
| ExtendedCommands.AddedIsFound | util/src/main/java/org/jf/util/jcommander/ExtendedCommands.java:94-96 | after the command is added, looking up its command name returns the new sub-command |
| ParameterOrder.ParameterArity | util/src/main/java/org/jf/util/jcommander/HelpFormatter.java:89-98 | an explicit arity above 0 wins; otherwise the arity is 0 for `boolean`/`Boolean` fields and 1 for every other type |
| ParameterOrder.StripDashesSpec | util/src/main/java/org/jf/util/jcommander/HelpFormatter.java:103-110 | the sort key is the name without its leading dashes: dashes plus the key give the name back, and the key does not start with a dash |
| ParameterOrder.InsertSortedMultiset | util/src/main/java/org/jf/util/jcommander/HelpFormatter.java:105 | inserting a parameter into the sorted prefix loses and adds nothing |
| ParameterOrder.InsertSortedSorted | util/src/main/java/org/jf/util/jcommander/HelpFormatter.java:105 | inserting into a sorted prefix keeps it sorted by key |
| ParameterOrder.InsertSortedWithKey | util/src/main/java/org/jf/util/jcommander/HelpFormatter.java:105 | an inserted parameter lands after every earlier parameter with an equal key |
| ParameterOrder.StableSortSorted | util/src/main/java/org/jf/util/jcommander/HelpFormatter.java:100-127 | the sorted parameters are ordered by dash-stripped first name and are a permutation of the input |
| ParameterOrder.StableSortKeepsTies | util/src/main/java/org/jf/util/jcommander/HelpFormatter.java:105 | parameters with equal keys keep their original relative order (the sort is stable) |
| ParameterOrder.InsertAt | util/src/main/java/org/jf/util/jcommander/HelpFormatter.java:105 | the in-place step moves element i into the sorted prefix, giving that prefix with the element inserted, and leaves the rest of the array unchanged |
| ParameterOrder.OpenGap | util/src/main/java/org/jf/util/jcommander/HelpFormatter.java:105 | moves every element before index i whose key is greater than that of the inserted element one place up, leaving the gap where `InsertSorted` puts it, and touches nothing after index i |
| ParameterOrder.SortedParameters | util/src/main/java/org/jf/util/jcommander/HelpFormatter.java:100-127 | sorting a copy of the parameters gives the stable sort: sorted by key and a permutation of the parameters |
| Events.WrappedIndentingWriter.constructor | util/src/main/java/org/jf/util/jcommander/HelpFormatter.java:133 | the sink gets `width - 5` and `width` and starts with no events |
| Events.WrappedIndentingWriter.Write | util/src/main/java/org/jf/util/jcommander/HelpFormatter.java:135 | a write appends one text event |
| Events.WrappedIndentingWriter.Indent | util/src/main/java/org/jf/util/jcommander/HelpFormatter.java:136 | an indent appends one indent event |
| Events.WrappedIndentingWriter.Deindent | util/src/main/java/org/jf/util/jcommander/HelpFormatter.java:165 | a deindent appends one deindent event |
| Events.BalancedLevels | util/src/main/java/org/jf/util/jcommander/HelpFormatter.java:136-248 | in a trace where every indent is matched by a deindent, the running level never goes below zero and ends at zero |
| Usage.CommandLinesFailure | util/src/main/java/org/jf/util/jcommander/HelpFormatter.java:223-247 | once one sub-command line fails, the whole Commands section fails with that error |
| Usage.WriteUsageParameter | util/src/main/java/org/jf/util/jcommander/HelpFormatter.java:141-145 | a shown parameter writes ` [`, its first name and `]`; a hidden one writes nothing |
| Usage.WriteUsageParameters | util/src/main/java/org/jf/util/jcommander/HelpFormatter.java:140-146 | the loop writes each parameter's usage part in declaration order |
| Usage.WriteUsageParametersPart | util/src/main/java/org/jf/util/jcommander/HelpFormatter.java:139-147 | parameters go into the usage line only when the descriptor asks for them |
| Usage.WriteCommandPlaceholder | util/src/main/java/org/jf/util/jcommander/HelpFormatter.java:149-151 | ` [<command [<args>]]` is written exactly when the command map is non-empty |
| Usage.WriteMainUsage | util/src/main/java/org/jf/util/jcommander/HelpFormatter.java:153-163 | with a main parameter, writes ` [<first hint>]`, or ` [<args>]` when there are no hints; otherwise writes nothing |
| Usage.WriteUsageLine | util/src/main/java/org/jf/util/jcommander/HelpFormatter.java:135-165 | reads the descriptor as `getExtendedParameters` does; on success the events written are the usage line: `usage: `, an indent of 2, the name, the parts above, and the deindent |
| Usage.WriteUsageSuffix | util/src/main/java/org/jf/util/jcommander/HelpFormatter.java:139-163 | writes exactly the parameters part, the sub-command placeholder and the main parameter part, in that order |
| Usage.WriteUsageBody | util/src/main/java/org/jf/util/jcommander/HelpFormatter.java:138-165 | writes the command name and everything after it on the usage line, then closes the indent of 2 |
| Usage.WriteSlot | util/src/main/java/org/jf/util/jcommander/HelpFormatter.java:180-187 | writes a space, then `<hint i>`, or `<arg>` once the hints run out |
| Usage.WriteArguments | util/src/main/java/org/jf/util/jcommander/HelpFormatter.java:177-189 | writes one space-prefixed slot for each unit of the parameter's arity, and nothing for arity 0 |
| Usage.WriteNames | util/src/main/java/org/jf/util/jcommander/HelpFormatter.java:174-176 | writes the names joined by `,` unless JCommander's `getNames()` is empty |
| Usage.WriteDescription | util/src/main/java/org/jf/util/jcommander/HelpFormatter.java:190-193 | writes ` - ` and the description only when it is neither null nor empty |
| Usage.WriteOption | util/src/main/java/org/jf/util/jcommander/HelpFormatter.java:171-195 | a shown parameter writes a newline and then, indented by 4, its names, placeholders and description; a hidden one writes nothing |
| Usage.WriteOptionEntries | util/src/main/java/org/jf/util/jcommander/HelpFormatter.java:170-196 | the loop writes each parameter's Options line in the order given |
| Usage.WriteMainPlaceholder | util/src/main/java/org/jf/util/jcommander/HelpFormatter.java:203-209 | writes `<first hint>`, or `<args>` without hints |
| Usage.WriteMainDescription | util/src/main/java/org/jf/util/jcommander/HelpFormatter.java:211-214 | writes ` - ` and the main parameter's description whenever it is not null, even when it is empty |
| Usage.WriteMainEntry | util/src/main/java/org/jf/util/jcommander/HelpFormatter.java:198-216 | with a main parameter, writes a newline and its indented placeholder and description; otherwise writes nothing |
| Usage.WriteOptions | util/src/main/java/org/jf/util/jcommander/HelpFormatter.java:167-218 | when there are parameters or a main parameter, writes the `Options:` heading, then, indented by 2, the lines of the sorted parameters and the main entry |
| Usage.WriteAliases | util/src/main/java/org/jf/util/jcommander/HelpFormatter.java:234-238 | writes `(aliases joined by ,)` only when there are aliases |
| Usage.WriteCommandDescription | util/src/main/java/org/jf/util/jcommander/HelpFormatter.java:240-244 | writes ` - ` and the command description only when it is not null |
| Usage.WriteCommandLine | util/src/main/java/org/jf/util/jcommander/HelpFormatter.java:224-246 | fails exactly when the specified line fails, with the same error; otherwise writes that line: nothing for a hidden sub-command, else newline, name, aliases and description indented by 4 |
| Usage.WriteCommandLines | util/src/main/java/org/jf/util/jcommander/HelpFormatter.java:223-247 | the loop writes every sub-command line in map order, stopping with the first failure |
| Usage.WriteCommands | util/src/main/java/org/jf/util/jcommander/HelpFormatter.java:220-249 | for a non-empty map, writes the `Commands:` heading and the indented lines, or fails as they do |
| Usage.WritePostfix | util/src/main/java/org/jf/util/jcommander/HelpFormatter.java:251-255 | writes a blank line and the postfix only when the postfix is non-empty |
| Usage.HelpFormatter.constructor | util/src/main/java/org/jf/util/jcommander/HelpFormatter.java:53 | the width starts at 80 |
| Usage.HelpFormatter.Width | util/src/main/java/org/jf/util/jcommander/HelpFormatter.java:56-59 | `width(w)` sets the width and returns the formatter itself |
| Usage.HelpFormatter.Format | util/src/main/java/org/jf/util/jcommander/HelpFormatter.java:130-263 | the result is the specified rendering: the sink gets `width - 5` and `width`, then the usage line, Options, Commands and postfix; rendering fails with the first missing annotation |
| UsageProperties.UsageLineBalanced | util/src/main/java/org/jf/util/jcommander/HelpFormatter.java:135-165 | the usage line's indent is closed by its deindent |
| UsageProperties.OptionEntryBalanced | util/src/main/java/org/jf/util/jcommander/HelpFormatter.java:171-195 | an option line's indent is closed by its deindent |
| UsageProperties.OptionEntriesBalanced | util/src/main/java/org/jf/util/jcommander/HelpFormatter.java:170-196 | all option lines together are balanced |
| UsageProperties.MainEntryBalanced | util/src/main/java/org/jf/util/jcommander/HelpFormatter.java:198-216 | the main entry is balanced |
| UsageProperties.OptionsSectionBalanced | util/src/main/java/org/jf/util/jcommander/HelpFormatter.java:167-218 | the Options section is balanced |
| UsageProperties.CommandLineBalanced | util/src/main/java/org/jf/util/jcommander/HelpFormatter.java:224-246 | a sub-command line is balanced |
| UsageProperties.CommandLinesBalanced | util/src/main/java/org/jf/util/jcommander/HelpFormatter.java:223-247 | all sub-command lines together are balanced |
| UsageProperties.CommandsSectionBalanced | util/src/main/java/org/jf/util/jcommander/HelpFormatter.java:220-248 | a Commands section that renders is balanced, whether or not it is present |
| UsageProperties.SectionsBalanced | util/src/main/java/org/jf/util/jcommander/HelpFormatter.java:135-255 | the usage line, Options, Commands and postfix written one after the other are balanced, with the level never below zero and zero at the end |
| UsageProperties.RenderedBalanced | util/src/main/java/org/jf/util/jcommander/HelpFormatter.java:130-263 | every indent of the help text is matched by a later deindent of the same amount; the running level never goes below zero and is zero at the end |
| UsageProperties.RenderedStartsWithUsage | util/src/main/java/org/jf/util/jcommander/HelpFormatter.java:133-138 | a successful rendering uses widths `width - 5` and `width`, and begins with `usage: `, an indent of 2 and the command name |
| UsageProperties.UsageLineHead | util/src/main/java/org/jf/util/jcommander/HelpFormatter.java:135-138 | the usage line has at least three events and opens with `usage: `, an indent of 2 and the command name |
| UsageProperties.MinimalCommand | util/src/main/java/org/jf/util/jcommander/HelpFormatter.java:135-165 | a command with no parameters, sub-commands or postfix renders as its usage line alone; its text is `usage: ` and the name, with no newline |
| UsageProperties.CommandLineFails | util/src/main/java/org/jf/util/jcommander/HelpFormatter.java:227-233 | a sub-command line fails exactly when its class has no `@Parameters`, or when it is shown and has no descriptor; the model's error records that class |
| UsageProperties.CommandLinesFailIff | util/src/main/java/org/jf/util/jcommander/HelpFormatter.java:223-247 | the Commands lines fail exactly when one sub-command line fails, and the error is that of the first failing one |
| UsageProperties.RenderedFails | util/src/main/java/org/jf/util/jcommander/HelpFormatter.java:130-263 | rendering fails exactly when the command has no descriptor or some sub-command line fails; a missing command descriptor is the error reported |
| UsageProperties.OptionsSectionPresence | util/src/main/java/org/jf/util/jcommander/HelpFormatter.java:167-168 | the Options section exists exactly when there is a parameter (hidden ones count) or a main parameter, and then starts with its heading |
| UsageProperties.CommandsSectionPresence | util/src/main/java/org/jf/util/jcommander/HelpFormatter.java:220-221 | the Commands section exists exactly when the command map is non-empty, and then starts with its heading |
| UsageProperties.HiddenCommandsInvisible | util/src/main/java/org/jf/util/jcommander/HelpFormatter.java:229 | when every sub-command is hidden, the Commands loop writes no lines and succeeds |
| UsageProperties.CommandLinesIgnoreHidden | util/src/main/java/org/jf/util/jcommander/HelpFormatter.java:223-247 | hidden sub-commands contribute nothing wherever they stand among shown ones: the Commands lines, or their failure, equal those of the shown sub-commands alone |
| UsageProperties.ShownMembers | util/src/main/java/org/jf/util/jcommander/HelpFormatter.java:229 | a sub-command is among the shown ones exactly when it is in the map and not hidden |
| UsageProperties.AllCommandsHidden | util/src/main/java/org/jf/util/jcommander/HelpFormatter.java:220-249 | when every sub-command is hidden, the usage line still has ` [<command [<args>]]` and the Commands heading is still written, with no lines; rendering succeeds |
| UsageProperties.PostfixText | util/src/main/java/org/jf/util/jcommander/HelpFormatter.java:251-255 | the postfix adds nothing exactly when it is empty; otherwise its text is a blank line and the postfix |
| UsageProperties.UsageParametersIgnoreHidden | util/src/main/java/org/jf/util/jcommander/HelpFormatter.java:140-146 | the usage line's parameter part is the same when the hidden parameters are removed |
| UsageProperties.OptionEntriesIgnoreHidden | util/src/main/java/org/jf/util/jcommander/HelpFormatter.java:170-196 | the Options lines are the same when the hidden parameters are removed |
| UsageProperties.VisibleIsSubsequence | util/src/main/java/org/jf/util/jcommander/HelpFormatter.java:171 | the shown parameters are exactly the non-hidden ones |
| UsageProperties.SlotText | util/src/main/java/org/jf/util/jcommander/HelpFormatter.java:181-187 | slot i reads `<hint i>` when i is below the number of hints, and `<arg>` otherwise |
| UsageProperties.PlaceholderGroups | util/src/main/java/org/jf/util/jcommander/HelpFormatter.java:179-188 | for each i below the arity, group i (a space and then slot i) follows groups 0 to i-1, so the groups appear in slot order |
| UsageProperties.MainPlaceholderAgrees | util/src/main/java/org/jf/util/jcommander/HelpFormatter.java:153-163 | the main placeholder reads `<first hint>` or `<args>`, and reads the same in the usage line (inside ` [` and `]`) as in the Options section |
| UsageProperties.TwoAliasesText | util/src/main/java/org/jf/util/jcommander/HelpFormatter.java:234-238 | two aliases read `(x,y)` |
| Help.HelpCommand.constructor | baksmali/src/main/java/org/jf/baksmali/HelpCommand.java:43-49 | `help` is registered with the description "Shows usage information", shown, and with no topics set |
| Help.HelpCommand.Hlep | baksmali/src/main/java/org/jf/baksmali/HelpCommand.java:88-93 | `hlep` is the same command with the hidden `@Parameters` annotation |
| Help.HelpCommand.Run | baksmali/src/main/java/org/jf/baksmali/HelpCommand.java:54-86 | no topics gives one root usage; otherwise one action per topic in order: the register-info text wrapped to the console width for `register-info`, and the usage of that same token for anything else |
| Help.HlepIsHidden | baksmali/src/main/java/org/jf/baksmali/HelpCommand.java:88 | `hlep` never gets a line in a Commands section |
| Help.HelpCommandLine | baksmali/src/main/java/org/jf/baksmali/HelpCommand.java:43 | if the `help` class had a descriptor with no aliases, it would be listed as a newline, its name, ` - ` and "Shows usage information" |
| Help.HelpCommandLineAsDeclared | baksmali/src/main/java/org/jf/baksmali/HelpCommand.java:43-44 | as declared, with `@Parameters` and no `@ExtendedParameters`, a `help` sub-command line fails with the missing-descriptor error (`HelpFormatter.java` lines 233 and 63-66) |

## Left out

- The line wrapping and continuation indentation of `WrappedIndentingWriter`, its `flush`, and
  the `StringWriter` behind it. The sink records the calls made on it, and `Events.Text` gives
  the unwrapped text.
- `IOException` handling in `format` (lines 260-262): the recording sink cannot fail.
- Java reflection: the `Registry` datatype stands in for the annotations and declared fields.
  `printStackTrace` on a missing field (`ExtendedCommands.java` lines 107-109) is not modelled;
  the result is the same empty hint list.
- JCommander's parsing, its `usage()`, `usage(name)` and its own description lookup.
  - `getNames()` is taken to be the names joined by `, `.
  - `addCommand` is taken to be a put into an insertion-ordered map.
  - `getCommandDescription(name)` is taken to be the sub-command class's `@Parameters`
    description. Its resource-bundle lookup is not modelled.
  - `HelpCommand` records the usage requests it makes as actions instead of rendering them.
- `StringWrapper.wrapStringOnBreaks` and `ConsoleUtil.getConsoleWidth`. The console width is a
  parameter of `Help.HelpCommand.Run`. The wrapped, line-by-line printing of the register-info
  text is one `PrintWrapped` action carrying the text and the width.
- `ListVtablesCommand`: it loads dex files and computes vtables in a library that is not part of
  this model.
- `HelpFormatter`'s private copies of the descriptor accessors (lines 61-87) read the same
  descriptor as the `ExtendedCommands` accessors. The model uses the latter.
- The model's errors `MissingExtendedParameters(cls)` and `MissingParametersAnnotation(cls)`
  record a class. The exceptions `format` raises do not: `HelpFormatter.java` line 65 throws
  "All commands should have an ExtendedParameters annotation" with no class name, and the null
  dereference at line 229 carries nothing.
- Java's `int` arithmetic in `width - 5` (`HelpFormatter.java` line 133) wraps around for widths
  within 5 of `Integer.MIN_VALUE`; the model subtracts on unbounded integers. The value only
  reaches the sink, which is not modelled.
- `format` reads the descriptor three times (lines 138, 139 and 251). All three reads give the
  same result, so the model reads it once.
- ParameterOrder.SortedParameters: requires every parameter to have a first name with no line
  terminator. A name containing one makes the `^-*(.*)$` match fail, and the comparator throws;
  that case is not modelled. The requirement is stronger than the source for a single
  parameter: `Collections.sort` never calls the comparator on a one-element list, so a lone
  parameter with such a name renders in Java. JCommander gives every listed parameter at least one name, so
  `ParameterOrder.FirstName`'s empty-name case only makes the function total.
- Usage.HelpFormatter.Format: inherits the same requirement on the parameters' first names.
- ParameterOrder.SortedParameters: sorts by insertion on an array, where Java's
  `Collections.sort` uses a merge sort. A stable sort has only one possible result, so the
  output is the same.
- Strings.LessTransitive: `compareTo` compares UTF-16 code units, while the model compares
  characters. The two orders differ only for characters outside the Basic Multilingual Plane.
- Help.HelpCommand.Run: how `jc.usage()` and `jc.usage(cmd)` render, and what they do with an
  unknown command, is JCommander's business. The model stops at the request.
