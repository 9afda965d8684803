/**
 * HelpFormatter: renders a command's `--help` text as a trace of sink events, in fixed
 * order: the usage line, the Options section, the Commands section and the postfix text.
 */
module Usage {
  import opened Wrappers
  import opened Jcommander
  import opened ExtendedCommands
  import opened ParameterOrder
  import opened Events
  import Strings

  /** What `format` produces: the sink's two widths and the calls made on it. */
  datatype Rendering = Rendering(maxIndent: int, maxWidth: int, events: seq<Event>)

  function Indented(n: nat, body: seq<Event>): seq<Event>
  {
    [Indent(n)] + body + [Deindent(n)]
  }

  // ---------------------------------------------------------------- the usage line

  /** ` [<first name>]` for one parameter of the usage line; nothing for a hidden one. */
  function UsageParameter(p: ParameterDescription): seq<Event>
  {
    if p.hidden then [] else [Write(" ["), Write(FirstName(p)), Write("]")]
  }

  /** The parameters of the usage line, in declaration order. */
  function UsageParameters(ps: seq<ParameterDescription>): seq<Event>
  {
    if ps == [] then [] else UsageParameters(ps[..|ps| - 1]) + UsageParameter(ps[|ps| - 1])
  }

  /** The main parameter in the usage line: ` [<first hint>]`, or ` [<args>]` without hints. */
  function MainUsage(hints: seq<string>): seq<Event>
  {
    if |hints| == 0 then [Write(" [<args>]")] else [Write(" [<"), Write(hints[0]), Write(">]")]
  }

  function MainUsagePart(reg: Registry, cls: ClassName, main: Option<MainParameter>): seq<Event>
  {
    if main.Some? then MainUsage(ParameterArgumentNames(reg, cls, main.value.fieldName)) else []
  }

  /** The parameters appear in the usage line only when the descriptor asks for them. */
  function UsageParametersPart(d: Descriptor, params: seq<ParameterDescription>): seq<Event>
  {
    if d.includeParametersInUsage then UsageParameters(params) else []
  }

  function CommandPlaceholder(hasCommands: bool): seq<Event>
  {
    if hasCommands then [Write(" [<command [<args>]]")] else []
  }

  /** Everything the usage line writes after the command name. */
  function UsageSuffix(reg: Registry, cls: ClassName, d: Descriptor, params: seq<ParameterDescription>,
                       main: Option<MainParameter>, hasCommands: bool): seq<Event>
  {
    UsageParametersPart(d, params) + CommandPlaceholder(hasCommands) + MainUsagePart(reg, cls, main)
  }

  function UsageLine(reg: Registry, cls: ClassName, d: Descriptor, params: seq<ParameterDescription>,
                     main: Option<MainParameter>, hasCommands: bool): seq<Event>
  {
    [Write("usage: ")] + Indented(2, [Write(d.commandName)] + UsageSuffix(reg, cls, d, params, main, hasCommands))
  }

  // ---------------------------------------------------------------- the Options section

  /** Slot `i` of a parameter's arguments: `<hint i>`, or `<arg>` past the last hint. */
  function Slot(hints: seq<string>, i: nat): seq<Event>
  {
    if i < |hints| then [Write("<"), Write(hints[i]), Write(">")] else [Write("<arg>")]
  }

  /** `n` argument placeholders, each after a space. */
  function Placeholders(hints: seq<string>, n: nat): seq<Event>
  {
    if n == 0 then [] else Placeholders(hints, n - 1) + [Write(" ")] + Slot(hints, n - 1)
  }

  /** JCommander's `getNames()`: the names joined by ", ". */
  function NamesText(p: ParameterDescription): string
  {
    Strings.Join(p.names, ", ")
  }

  function NamesPart(p: ParameterDescription): seq<Event>
  {
    if NamesText(p) != "" then [Write(Strings.Join(p.names, ","))] else []
  }

  function ArgumentsPart(reg: Registry, cls: ClassName, p: ParameterDescription): seq<Event>
  {
    if ParameterArity(p) > 0 then Placeholders(ParameterArgumentNames(reg, cls, p.fieldName), ParameterArity(p)) else []
  }

  /** A parameter's description is written only when it is neither null nor empty. */
  function DescriptionPart(p: ParameterDescription): seq<Event>
  {
    if p.description.Some? && p.description.value != "" then [Write(" - "), Write(p.description.value)] else []
  }

  function OptionBody(reg: Registry, cls: ClassName, p: ParameterDescription): seq<Event>
  {
    NamesPart(p) + ArgumentsPart(reg, cls, p) + DescriptionPart(p)
  }

  /** One line of the Options section; nothing for a hidden parameter. */
  function OptionEntry(reg: Registry, cls: ClassName, p: ParameterDescription): seq<Event>
  {
    if p.hidden then [] else [Write("\n")] + Indented(4, OptionBody(reg, cls, p))
  }

  function OptionEntries(reg: Registry, cls: ClassName, ps: seq<ParameterDescription>): seq<Event>
  {
    if ps == [] then [] else OptionEntries(reg, cls, ps[..|ps| - 1]) + OptionEntry(reg, cls, ps[|ps| - 1])
  }

  /** The main parameter's placeholder: `<first hint>`, or `<args>` without hints. */
  function MainPlaceholder(hints: seq<string>): seq<Event>
  {
    if |hints| > 0 then [Write("<"), Write(hints[0]), Write(">")] else [Write("<args>")]
  }

  /** The main parameter's description is written whenever it is not null, even when empty. */
  function MainDescriptionPart(m: MainParameter): seq<Event>
  {
    if m.description.Some? then [Write(" - "), Write(m.description.value)] else []
  }

  /** The main parameter's line, last in the Options section. */
  function MainEntry(reg: Registry, cls: ClassName, main: Option<MainParameter>): seq<Event>
  {
    match main
    case None => []
    case Some(m) =>
      [Write("\n")] + Indented(4, MainPlaceholder(ParameterArgumentNames(reg, cls, m.fieldName)) + MainDescriptionPart(m))
  }

  /** Present when the command declares any parameter, hidden ones included, or a main parameter. */
  function OptionsSection(reg: Registry, cls: ClassName, params: seq<ParameterDescription>,
                          main: Option<MainParameter>): seq<Event>
  {
    if |params| == 0 && main.None? then []
    else [Write("\n\nOptions:")] + Indented(2, OptionEntries(reg, cls, StableSort(params)) + MainEntry(reg, cls, main))
  }

  // ---------------------------------------------------------------- the Commands section

  function AliasesPart(aliases: seq<string>): seq<Event>
  {
    if aliases != [] then [Write("("), Write(Strings.Join(aliases, ",")), Write(")")] else []
  }

  function CommandDescriptionPart(description: Option<string>): seq<Event>
  {
    if description.Some? then [Write(" - "), Write(description.value)] else []
  }

  function CommandBody(name: string, aliases: seq<string>, description: Option<string>): seq<Event>
  {
    [Write(name)] + AliasesPart(aliases) + CommandDescriptionPart(description)
  }

  /**
   * One line of the Commands section. A sub-command class without `@Parameters` fails (a
   * NullPointerException in Java); a hidden one is skipped; a shown one without a descriptor
   * fails when its aliases are read.
   */
  function CommandLine(reg: Registry, e: CommandEntry): Result<seq<Event>, HelpError>
  {
    var cls := e.commander.objectClass;
    if cls !in reg.parameters then Failure(MissingParametersAnnotation(cls))
    else if reg.parameters[cls].hidden then Success([])
    else match CommandAliases(reg, cls)
      case Failure(err) => Failure(err)
      case Success(aliases) =>
        Success([Write("\n")] + Indented(4, CommandBody(e.name, aliases, reg.parameters[cls].commandDescription)))
  }

  /** The lines of all sub-commands in map order; the first failing one decides the error. */
  function CommandLines(reg: Registry, es: seq<CommandEntry>): Result<seq<Event>, HelpError>
  {
    if es == [] then Success([])
    else match CommandLines(reg, es[..|es| - 1])
      case Failure(err) => Failure(err)
      case Success(evs) =>
        match CommandLine(reg, es[|es| - 1])
        case Failure(err) => Failure(err)
        case Success(line) => Success(evs + line)
  }

  /** Present whenever the command map is non-empty, even when every sub-command is hidden. */
  function CommandsSection(reg: Registry, es: seq<CommandEntry>): Result<seq<Event>, HelpError>
  {
    if es == [] then Success([])
    else match CommandLines(reg, es)
      case Failure(err) => Failure(err)
      case Success(lines) => Success([Write("\n\nCommands:")] + Indented(2, lines))
  }

  // ---------------------------------------------------------------- the whole text

  function Postfix(postfix: string): seq<Event>
  {
    if postfix == "" then [] else [Write("\n\n"), Write(postfix)]
  }

  /** The help text of a command, or the first failure `format` runs into. */
  function Rendered(reg: Registry, cls: ClassName, params: seq<ParameterDescription>, main: Option<MainParameter>,
                    es: seq<CommandEntry>, width: int): Result<Rendering, HelpError>
  {
    match GetExtendedParameters(reg, cls)
    case Failure(err) => Failure(err)
    case Success(d) =>
      match CommandsSection(reg, es)
      case Failure(err) => Failure(err)
      case Success(commands) =>
        Success(Rendering(width - 5, width,
          UsageLine(reg, cls, d, params, main, es != []) + OptionsSection(reg, cls, params, main) +
          commands + Postfix(d.postfixDescription)))
  }

  /** The three outcomes of `Rendered`, one per way `format` can end. */
  lemma RenderedOutcomes(reg: Registry, cls: ClassName, params: seq<ParameterDescription>, main: Option<MainParameter>,
                         es: seq<CommandEntry>, width: int)
    ensures cls !in reg.extended ==> Rendered(reg, cls, params, main, es, width) == Failure(MissingExtendedParameters(cls))
    ensures cls in reg.extended && CommandsSection(reg, es).Failure? ==>
      Rendered(reg, cls, params, main, es, width) == Failure(CommandsSection(reg, es).error)
    ensures cls in reg.extended && CommandsSection(reg, es).Success? ==>
      Rendered(reg, cls, params, main, es, width) ==
        Success(Rendering(width - 5, width,
          UsageLine(reg, cls, reg.extended[cls], params, main, es != []) + OptionsSection(reg, cls, params, main) +
          CommandsSection(reg, es).value + Postfix(reg.extended[cls].postfixDescription)))
  {
  }

  /** A failing sub-command line makes the whole Commands section fail with its error. */
  lemma {:induction false} CommandLinesFailure(reg: Registry, es: seq<CommandEntry>, k: nat, err: HelpError)
    requires k <= |es| && CommandLines(reg, es[..k]) == Failure(err)
    ensures CommandLines(reg, es) == Failure(err)
    decreases |es| - k
  {
    if k < |es| {
      var es' := es[..k + 1];
      assert es'[..k] == es[..k];
      assert CommandLines(reg, es') == Failure(err);
      CommandLinesFailure(reg, es, k + 1, err);
    } else {
      assert es[..k] == es;
    }
  }

  // ---------------------------------------------------------------- the formatter

  /** A block written as `head`, an indentation of `n`, `body` and the matching de-indentation. */
  lemma Framed(s: seq<Event>, head: seq<Event>, n: nat, body: seq<Event>)
    ensures s + head + [Indent(n)] + body + [Deindent(n)] == s + (head + Indented(n, body))
  {
  }

  method WriteUsageParameter(writer: WrappedIndentingWriter, param: ParameterDescription)
    modifies writer
    ensures writer.events == old(writer.events) + UsageParameter(param)
  {
    if !param.hidden {
      writer.Write(" [");
      writer.Write(FirstName(param));
      writer.Write("]");
    }
  }

  /** The loop of lines 141-149 of `format`. */
  method WriteUsageParameters(writer: WrappedIndentingWriter, params: seq<ParameterDescription>)
    modifies writer
    ensures writer.events == old(writer.events) + UsageParameters(params)
  {
    ghost var start := writer.events;
    var i := 0;
    while i < |params|
      invariant 0 <= i <= |params|
      invariant writer.events == start + UsageParameters(params[..i])
    {
      WriteUsageParameter(writer, params[i]);
      assert params[..i + 1][..i] == params[..i];
      Assoc(start, UsageParameters(params[..i]), UsageParameter(params[i]));
      i := i + 1;
    }
    assert params[..i] == params;
  }

  method WriteUsageParametersPart(writer: WrappedIndentingWriter, d: Descriptor, params: seq<ParameterDescription>)
    modifies writer
    ensures writer.events == old(writer.events) + UsageParametersPart(d, params)
  {
    if d.includeParametersInUsage {
      WriteUsageParameters(writer, params);
    }
  }

  method WriteCommandPlaceholder(writer: WrappedIndentingWriter, hasCommands: bool)
    modifies writer
    ensures writer.events == old(writer.events) + CommandPlaceholder(hasCommands)
  {
    if hasCommands {
      writer.Write(" [<command [<args>]]");
    }
  }

  method WriteMainUsage(writer: WrappedIndentingWriter, reg: Registry, cls: ClassName, main: Option<MainParameter>)
    modifies writer
    ensures writer.events == old(writer.events) + MainUsagePart(reg, cls, main)
  {
    if main.Some? {
      var argumentNames := ParameterArgumentNames(reg, cls, main.value.fieldName);
      if |argumentNames| == 0 {
        writer.Write(" [<args>]");
      } else {
        writer.Write(" [<");
        writer.Write(argumentNames[0]);
        writer.Write(">]");
      }
    }
  }

  /** The usage line (lines 135-165 of `format`), reading the command's descriptor on the way. */
  method WriteUsageLine(writer: WrappedIndentingWriter, reg: Registry, cls: ClassName, params: seq<ParameterDescription>,
                        main: Option<MainParameter>, hasCommands: bool)
    returns (descriptor: Result<Descriptor, HelpError>)
    modifies writer
    ensures descriptor == GetExtendedParameters(reg, cls)
    ensures descriptor.Success? ==>
      writer.events == old(writer.events) + UsageLine(reg, cls, descriptor.value, params, main, hasCommands)
  {
    ghost var start := writer.events;
    writer.Write("usage: ");
    writer.Indent(2);
    descriptor := GetExtendedParameters(reg, cls);
    if descriptor.Failure? {
      return;
    }
    var d := descriptor.value;
    WriteUsageBody(writer, reg, cls, d, params, main, hasCommands);
    Framed(start, [Write("usage: ")], 2, [Write(d.commandName)] + UsageSuffix(reg, cls, d, params, main, hasCommands));
  }

  /** The indented part of the usage line: the command name and the rest, then the deindent. */
  method WriteUsageBody(writer: WrappedIndentingWriter, reg: Registry, cls: ClassName, d: Descriptor,
                        params: seq<ParameterDescription>, main: Option<MainParameter>, hasCommands: bool)
    modifies writer
    ensures writer.events ==
      old(writer.events) + ([Write(d.commandName)] + UsageSuffix(reg, cls, d, params, main, hasCommands)) + [Deindent(2)]
  {
    ghost var start := writer.events;
    writer.Write(d.commandName);
    WriteUsageSuffix(writer, reg, cls, d, params, main, hasCommands);
    Assoc(start, [Write(d.commandName)], UsageSuffix(reg, cls, d, params, main, hasCommands));
    writer.Deindent(2);
  }

  /** The parameters, the sub-command placeholder and the main parameter, after the command name. */
  method WriteUsageSuffix(writer: WrappedIndentingWriter, reg: Registry, cls: ClassName, d: Descriptor,
                          params: seq<ParameterDescription>, main: Option<MainParameter>, hasCommands: bool)
    modifies writer
    ensures writer.events == old(writer.events) + UsageSuffix(reg, cls, d, params, main, hasCommands)
  {
    ghost var p0 := writer.events;
    WriteUsageParametersPart(writer, d, params);
    WriteCommandPlaceholder(writer, hasCommands);
    WriteMainUsage(writer, reg, cls, main);
    ghost var a, b, c := UsageParametersPart(d, params), CommandPlaceholder(hasCommands), MainUsagePart(reg, cls, main);
    Assoc(p0, a, b);
    Assoc(p0, a + b, c);
  }

  method WriteSlot(writer: WrappedIndentingWriter, hints: seq<string>, k: nat)
    modifies writer
    ensures writer.events == old(writer.events) + [Write(" ")] + Slot(hints, k)
  {
    writer.Write(" ");
    if k < |hints| {
      writer.Write("<");
      writer.Write(hints[k]);
      writer.Write(">");
    } else {
      writer.Write("<arg>");
    }
  }

  /** The argument placeholders of one parameter (lines 177-189 of `format`). */
  method WriteArguments(writer: WrappedIndentingWriter, reg: Registry, cls: ClassName, param: ParameterDescription)
    modifies writer
    ensures writer.events == old(writer.events) + ArgumentsPart(reg, cls, param)
  {
    if ParameterArity(param) > 0 {
      var argumentNames := ParameterArgumentNames(reg, cls, param.fieldName);
      ghost var start := writer.events;
      var k := 0;
      while k < ParameterArity(param)
        invariant 0 <= k <= ParameterArity(param)
        invariant writer.events == start + Placeholders(argumentNames, k)
      {
        WriteSlot(writer, argumentNames, k);
        Assoc(start, Placeholders(argumentNames, k), [Write(" ")]);
        Assoc(start, Placeholders(argumentNames, k) + [Write(" ")], Slot(argumentNames, k));
        k := k + 1;
      }
    }
  }

  method WriteNames(writer: WrappedIndentingWriter, param: ParameterDescription)
    modifies writer
    ensures writer.events == old(writer.events) + NamesPart(param)
  {
    if NamesText(param) != "" {
      writer.Write(Strings.Join(param.names, ","));
    }
  }

  method WriteDescription(writer: WrappedIndentingWriter, param: ParameterDescription)
    modifies writer
    ensures writer.events == old(writer.events) + DescriptionPart(param)
  {
    if param.description.Some? && param.description.value != "" {
      writer.Write(" - ");
      writer.Write(param.description.value);
    }
  }

  /** One line of the Options section (lines 171-195 of `format`). */
  method WriteOption(writer: WrappedIndentingWriter, reg: Registry, cls: ClassName, param: ParameterDescription)
    modifies writer
    ensures writer.events == old(writer.events) + OptionEntry(reg, cls, param)
  {
    if !param.hidden {
      ghost var start := writer.events;
      writer.Write("\n");
      writer.Indent(4);
      ghost var p0 := writer.events;
      WriteNames(writer, param);
      WriteArguments(writer, reg, cls, param);
      WriteDescription(writer, param);
      ghost var a, b, c := NamesPart(param), ArgumentsPart(reg, cls, param), DescriptionPart(param);
      Assoc(p0, a, b);
      Assoc(p0, a + b, c);
      writer.Deindent(4);
      Framed(start, [Write("\n")], 4, a + b + c);
    }
  }

  /** The loop of lines 170-196 of `format`, over the sorted parameters. */
  method WriteOptionEntries(writer: WrappedIndentingWriter, reg: Registry, cls: ClassName, sorted: seq<ParameterDescription>)
    modifies writer
    ensures writer.events == old(writer.events) + OptionEntries(reg, cls, sorted)
  {
    ghost var start := writer.events;
    var i := 0;
    while i < |sorted|
      invariant 0 <= i <= |sorted|
      invariant writer.events == start + OptionEntries(reg, cls, sorted[..i])
    {
      WriteOption(writer, reg, cls, sorted[i]);
      assert sorted[..i + 1][..i] == sorted[..i];
      Assoc(start, OptionEntries(reg, cls, sorted[..i]), OptionEntry(reg, cls, sorted[i]));
      i := i + 1;
    }
    assert sorted[..i] == sorted;
  }

  method WriteMainPlaceholder(writer: WrappedIndentingWriter, hints: seq<string>)
    modifies writer
    ensures writer.events == old(writer.events) + MainPlaceholder(hints)
  {
    if |hints| > 0 {
      writer.Write("<");
      writer.Write(hints[0]);
      writer.Write(">");
    } else {
      writer.Write("<args>");
    }
  }

  method WriteMainDescription(writer: WrappedIndentingWriter, m: MainParameter)
    modifies writer
    ensures writer.events == old(writer.events) + MainDescriptionPart(m)
  {
    if m.description.Some? {
      writer.Write(" - ");
      writer.Write(m.description.value);
    }
  }

  /** The main parameter's line of the Options section (lines 198-216 of `format`). */
  method WriteMainEntry(writer: WrappedIndentingWriter, reg: Registry, cls: ClassName, main: Option<MainParameter>)
    modifies writer
    ensures writer.events == old(writer.events) + MainEntry(reg, cls, main)
  {
    if main.Some? {
      var argumentNames := ParameterArgumentNames(reg, cls, main.value.fieldName);
      ghost var start := writer.events;
      writer.Write("\n");
      writer.Indent(4);
      ghost var p0 := writer.events;
      WriteMainPlaceholder(writer, argumentNames);
      WriteMainDescription(writer, main.value);
      Assoc(p0, MainPlaceholder(argumentNames), MainDescriptionPart(main.value));
      writer.Deindent(4);
      Framed(start, [Write("\n")], 4, MainPlaceholder(argumentNames) + MainDescriptionPart(main.value));
    }
  }

  /** The Options section (lines 167-218 of `format`). */
  method WriteOptions(writer: WrappedIndentingWriter, reg: Registry, cls: ClassName, params: seq<ParameterDescription>,
                      main: Option<MainParameter>)
    requires AllSortable(params)
    modifies writer
    ensures writer.events == old(writer.events) + OptionsSection(reg, cls, params, main)
  {
    if |params| > 0 || main.Some? {
      ghost var start := writer.events;
      writer.Write("\n\nOptions:");
      writer.Indent(2);
      var sorted := SortedParameters(params);
      ghost var p0 := writer.events;
      WriteOptionEntries(writer, reg, cls, sorted);
      WriteMainEntry(writer, reg, cls, main);
      Assoc(p0, OptionEntries(reg, cls, sorted), MainEntry(reg, cls, main));
      writer.Deindent(2);
      Framed(start, [Write("\n\nOptions:")], 2, OptionEntries(reg, cls, sorted) + MainEntry(reg, cls, main));
    }
  }

  method WriteAliases(writer: WrappedIndentingWriter, aliases: seq<string>)
    modifies writer
    ensures writer.events == old(writer.events) + AliasesPart(aliases)
  {
    if aliases != [] {
      writer.Write("(");
      writer.Write(Strings.Join(aliases, ","));
      writer.Write(")");
    }
  }

  method WriteCommandDescription(writer: WrappedIndentingWriter, description: Option<string>)
    modifies writer
    ensures writer.events == old(writer.events) + CommandDescriptionPart(description)
  {
    if description.Some? {
      writer.Write(" - ");
      writer.Write(description.value);
    }
  }

  /** One line of the Commands section (lines 224-246 of `format`). */
  method WriteCommandLine(writer: WrappedIndentingWriter, reg: Registry, entry: CommandEntry)
    returns (line: Result<(), HelpError>)
    modifies writer
    ensures line.Success? <==> CommandLine(reg, entry).Success?
    ensures line.Failure? ==> line.error == CommandLine(reg, entry).error
    ensures line.Success? ==> writer.events == old(writer.events) + CommandLine(reg, entry).value
  {
    var sub := entry.commander.objectClass;
    if sub !in reg.parameters {
      return Failure(MissingParametersAnnotation(sub));
    }
    if !reg.parameters[sub].hidden {
      ghost var start := writer.events;
      writer.Write("\n");
      writer.Indent(4);
      ghost var p0 := writer.events;
      writer.Write(entry.name);
      var aliases := CommandAliases(reg, sub);
      if aliases.Failure? {
        return Failure(aliases.error);
      }
      WriteAliases(writer, aliases.value);
      var commandDesc := reg.parameters[sub].commandDescription;
      WriteCommandDescription(writer, commandDesc);
      ghost var a, b, c := [Write(entry.name)], AliasesPart(aliases.value), CommandDescriptionPart(commandDesc);
      Assoc(p0, a, b);
      Assoc(p0, a + b, c);
      writer.Deindent(4);
      Framed(start, [Write("\n")], 4, a + b + c);
    }
    return Success(());
  }

  /** The loop of lines 223-247 of `format`; stops at the first sub-command whose annotations are missing. */
  method WriteCommandLines(writer: WrappedIndentingWriter, reg: Registry, commands: seq<CommandEntry>)
    returns (lines: Result<(), HelpError>)
    modifies writer
    ensures lines.Success? <==> CommandLines(reg, commands).Success?
    ensures lines.Failure? ==> lines.error == CommandLines(reg, commands).error
    ensures lines.Success? ==> writer.events == old(writer.events) + CommandLines(reg, commands).value
  {
    ghost var start := writer.events;
    var i := 0;
    while i < |commands|
      invariant 0 <= i <= |commands|
      invariant CommandLines(reg, commands[..i]).Success?
      invariant writer.events == start + CommandLines(reg, commands[..i]).value
    {
      assert commands[..i + 1][..i] == commands[..i];
      ghost var done := CommandLines(reg, commands[..i]).value;
      var line := WriteCommandLine(writer, reg, commands[i]);
      if line.Failure? {
        CommandLinesFailure(reg, commands, i + 1, line.error);
        return Failure(line.error);
      }
      Assoc(start, done, CommandLine(reg, commands[i]).value);
      i := i + 1;
    }
    assert commands[..i] == commands;
    return Success(());
  }

  /** The Commands section (lines 220-249 of `format`). */
  method WriteCommands(writer: WrappedIndentingWriter, reg: Registry, commands: seq<CommandEntry>)
    returns (section: Result<(), HelpError>)
    modifies writer
    ensures section.Success? <==> CommandsSection(reg, commands).Success?
    ensures section.Failure? ==> section.error == CommandsSection(reg, commands).error
    ensures section.Success? ==> writer.events == old(writer.events) + CommandsSection(reg, commands).value
  {
    if commands != [] {
      ghost var start := writer.events;
      writer.Write("\n\nCommands:");
      writer.Indent(2);
      var lines := WriteCommandLines(writer, reg, commands);
      if lines.Failure? {
        return Failure(lines.error);
      }
      writer.Deindent(2);
      Framed(start, [Write("\n\nCommands:")], 2, CommandLines(reg, commands).value);
    }
    return Success(());
  }

  method WritePostfix(writer: WrappedIndentingWriter, postfix: string)
    modifies writer
    ensures writer.events == old(writer.events) + Postfix(postfix)
  {
    if postfix != "" {
      writer.Write("\n\n");
      writer.Write(postfix);
    }
  }

  class HelpFormatter {
    var width: int

    constructor ()
      ensures width == 80
    {
      width := 80;
    }

    /** `width(int)`: set the wrap column and return the formatter itself. */
    method Width(width: int) returns (self: HelpFormatter)
      modifies this
      ensures this.width == width && self == this
    {
      this.width := width;
      self := this;
    }

    /** `format(jc)`: the help text of `jc`, written through a fresh sink; a failure discards it. */
    method Format(jc: JCommander, reg: Registry) returns (r: Result<Rendering, HelpError>)
      requires AllSortable(jc.parameters)
      ensures r == Rendered(reg, jc.objectClass, jc.parameters, jc.mainParameter, jc.commands, width)
    {
      var cls, params, main, commands := jc.objectClass, jc.parameters, jc.mainParameter, jc.commands;
      var writer := new WrappedIndentingWriter(width - 5, width);
      RenderedOutcomes(reg, cls, params, main, commands, width);
      var descriptor := WriteUsageLine(writer, reg, cls, params, main, commands != []);
      if descriptor.Failure? {
        return Failure(descriptor.error);
      }
      var d := descriptor.value;
      assert writer.events == UsageLine(reg, cls, d, params, main, commands != []);
      WriteOptions(writer, reg, cls, params, main);
      var section := WriteCommands(writer, reg, commands);
      if section.Failure? {
        return Failure(section.error);
      }
      WritePostfix(writer, d.postfixDescription);
      r := Success(Rendering(writer.maxIndent, writer.maxWidth, writer.events));
    }
  }
}
