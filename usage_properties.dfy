/**
 * Properties of the rendered help text: its shape, the balance of its indentation, when
 * each section appears, what hidden parameters and sub-commands contribute, and when
 * rendering fails.
 */
module UsageProperties {
  import opened Wrappers
  import opened Jcommander
  import opened ExtendedCommands
  import opened ParameterOrder
  import opened Events
  import opened Usage

  // ---------------------------------------------------------------- indentation balance

  lemma WritesOnlyConcat(a: seq<Event>, b: seq<Event>)
    requires WritesOnly(a) && WritesOnly(b)
    ensures WritesOnly(a + b)
  {
    forall i | 0 <= i < |a + b| ensures (a + b)[i].Write? {
      if i >= |a| {
        assert (a + b)[i] == b[i - |a|];
      }
    }
  }

  lemma {:induction false} UsageParametersWritesOnly(ps: seq<ParameterDescription>)
    ensures WritesOnly(UsageParameters(ps))
  {
    if ps != [] {
      UsageParametersWritesOnly(ps[..|ps| - 1]);
      WritesOnlyConcat(UsageParameters(ps[..|ps| - 1]), UsageParameter(ps[|ps| - 1]));
    }
  }

  lemma {:induction false} PlaceholdersWritesOnly(hints: seq<string>, n: nat)
    ensures WritesOnly(Placeholders(hints, n))
  {
    if n > 0 {
      PlaceholdersWritesOnly(hints, n - 1);
      WritesOnlyConcat(Placeholders(hints, n - 1), [Write(" ")]);
      WritesOnlyConcat(Placeholders(hints, n - 1) + [Write(" ")], Slot(hints, n - 1));
    }
  }

  lemma BalancedWrites(events: seq<Event>)
    requires WritesOnly(events)
    ensures Balanced(events)
  {
    WritesOnlyBalanced(events, []);
  }

  /** A line written as a text event followed by an indented block of text events. */
  lemma BalancedLine(head: seq<Event>, n: nat, body: seq<Event>)
    requires WritesOnly(head) && Balanced(body)
    ensures Balanced(head + Indented(n, body))
  {
    BalancedWrites(head);
    BalancedIndented(n, body);
    BalancedConcat(head, Indented(n, body));
  }

  lemma UsageLineBalanced(reg: Registry, cls: ClassName, d: Descriptor, params: seq<ParameterDescription>,
                          main: Option<MainParameter>, hasCommands: bool)
    ensures Balanced(UsageLine(reg, cls, d, params, main, hasCommands))
  {
    UsageParametersWritesOnly(params);
    var a, b, c := UsageParametersPart(d, params), CommandPlaceholder(hasCommands), MainUsagePart(reg, cls, main);
    assert WritesOnly(a) && WritesOnly(b) && WritesOnly(c);
    BalancedLineOfParts([Write("usage: ")], 2, [Write(d.commandName)], a, b, c);
  }

  /** A line of writes whose tail, made of writes in three parts, is indented by `n`. */
  lemma BalancedLineOfParts(head: seq<Event>, n: nat, first: seq<Event>, a: seq<Event>, b: seq<Event>, c: seq<Event>)
    requires WritesOnly(head) && WritesOnly(first) && WritesOnly(a) && WritesOnly(b) && WritesOnly(c)
    ensures Balanced(head + Indented(n, first + (a + b + c)))
  {
    WritesOnlyConcat(a, b);
    WritesOnlyConcat(a + b, c);
    WritesOnlyConcat(first, a + b + c);
    BalancedWrites(first + (a + b + c));
    BalancedLine(head, n, first + (a + b + c));
  }

  lemma OptionEntryBalanced(reg: Registry, cls: ClassName, p: ParameterDescription)
    ensures Balanced(OptionEntry(reg, cls, p))
  {
    if !p.hidden {
      var a, b, c := NamesPart(p), ArgumentsPart(reg, cls, p), DescriptionPart(p);
      PlaceholdersWritesOnly(ParameterArgumentNames(reg, cls, p.fieldName), ParameterArity(p));
      WritesOnlyConcat(a, b);
      WritesOnlyConcat(a + b, c);
      BalancedWrites(a + b + c);
      BalancedLine([Write("\n")], 4, a + b + c);
    }
  }

  lemma {:induction false} OptionEntriesBalanced(reg: Registry, cls: ClassName, ps: seq<ParameterDescription>)
    ensures Balanced(OptionEntries(reg, cls, ps))
  {
    if ps != [] {
      OptionEntriesBalanced(reg, cls, ps[..|ps| - 1]);
      OptionEntryBalanced(reg, cls, ps[|ps| - 1]);
      BalancedConcat(OptionEntries(reg, cls, ps[..|ps| - 1]), OptionEntry(reg, cls, ps[|ps| - 1]));
    }
  }

  lemma MainEntryBalanced(reg: Registry, cls: ClassName, main: Option<MainParameter>)
    ensures Balanced(MainEntry(reg, cls, main))
  {
    if main.Some? {
      var hints := ParameterArgumentNames(reg, cls, main.value.fieldName);
      WritesOnlyConcat(MainPlaceholder(hints), MainDescriptionPart(main.value));
      BalancedWrites(MainPlaceholder(hints) + MainDescriptionPart(main.value));
      BalancedLine([Write("\n")], 4, MainPlaceholder(hints) + MainDescriptionPart(main.value));
    }
  }

  lemma OptionsSectionBalanced(reg: Registry, cls: ClassName, params: seq<ParameterDescription>,
                               main: Option<MainParameter>)
    ensures Balanced(OptionsSection(reg, cls, params, main))
  {
    if |params| > 0 || main.Some? {
      var entries := OptionEntries(reg, cls, StableSort(params));
      OptionEntriesBalanced(reg, cls, StableSort(params));
      MainEntryBalanced(reg, cls, main);
      BalancedConcat(entries, MainEntry(reg, cls, main));
      BalancedLine([Write("\n\nOptions:")], 2, entries + MainEntry(reg, cls, main));
    } else {
      BalancedWrites([]);
    }
  }

  lemma CommandLineBalanced(reg: Registry, e: CommandEntry)
    requires CommandLine(reg, e).Success?
    ensures Balanced(CommandLine(reg, e).value)
  {
    var cls := e.commander.objectClass;
    if reg.parameters[cls].hidden {
      BalancedWrites([]);
    } else {
      var aliases := CommandAliases(reg, cls).value;
      var body := CommandBody(e.name, aliases, reg.parameters[cls].commandDescription);
      WritesOnlyConcat([Write(e.name)], AliasesPart(aliases));
      WritesOnlyConcat([Write(e.name)] + AliasesPart(aliases), CommandDescriptionPart(reg.parameters[cls].commandDescription));
      BalancedWrites(body);
      BalancedLine([Write("\n")], 4, body);
    }
  }

  lemma {:induction false} CommandLinesBalanced(reg: Registry, es: seq<CommandEntry>)
    requires CommandLines(reg, es).Success?
    ensures Balanced(CommandLines(reg, es).value)
  {
    if es == [] {
      BalancedWrites([]);
    } else {
      CommandLinesBalanced(reg, es[..|es| - 1]);
      CommandLineBalanced(reg, es[|es| - 1]);
      BalancedConcat(CommandLines(reg, es[..|es| - 1]).value, CommandLine(reg, es[|es| - 1]).value);
    }
  }

  /**
   * Every indent the renderer opens is closed by a deindent of the same amount, so the
   * indentation level never drops below zero and is back at zero at the end.
   */
  lemma RenderedBalanced(reg: Registry, cls: ClassName, params: seq<ParameterDescription>,
                         main: Option<MainParameter>, es: seq<CommandEntry>, width: int)
    requires Rendered(reg, cls, params, main, es, width).Success?
    ensures Balanced(Rendered(reg, cls, params, main, es, width).value.events)
    ensures Level(Rendered(reg, cls, params, main, es, width).value.events) == 0
    ensures var events := Rendered(reg, cls, params, main, es, width).value.events;
      forall k :: 0 <= k <= |events| ==> Level(events[..k]) >= 0
  {
    RenderedOutcomes(reg, cls, params, main, es, width);
    SectionsBalanced(reg, cls, reg.extended[cls], params, main, es);
  }

  /** The four sections, each balanced, one after the other. */
  lemma SectionsBalanced(reg: Registry, cls: ClassName, d: Descriptor, params: seq<ParameterDescription>,
                         main: Option<MainParameter>, es: seq<CommandEntry>)
    requires CommandsSection(reg, es).Success?
    ensures var events := UsageLine(reg, cls, d, params, main, es != []) + OptionsSection(reg, cls, params, main) +
                          CommandsSection(reg, es).value + Postfix(d.postfixDescription);
      Balanced(events) && Level(events) == 0 && forall k :: 0 <= k <= |events| ==> Level(events[..k]) >= 0
  {
    var usage, options := UsageLine(reg, cls, d, params, main, es != []), OptionsSection(reg, cls, params, main);
    var commands, postfix := CommandsSection(reg, es).value, Postfix(d.postfixDescription);
    UsageLineBalanced(reg, cls, d, params, main, es != []);
    OptionsSectionBalanced(reg, cls, params, main);
    CommandsSectionBalanced(reg, es);
    BalancedWrites(postfix);
    BalancedSections(usage, options, commands, postfix);
  }

  lemma CommandsSectionBalanced(reg: Registry, es: seq<CommandEntry>)
    requires CommandsSection(reg, es).Success?
    ensures Balanced(CommandsSection(reg, es).value)
  {
    if es != [] {
      CommandLinesBalanced(reg, es);
      BalancedLine([Write("\n\nCommands:")], 2, CommandLines(reg, es).value);
    } else {
      BalancedWrites([]);
    }
  }

  /** Four balanced sections in a row make a balanced text. */
  lemma BalancedSections(usage: seq<Event>, options: seq<Event>, commands: seq<Event>, postfix: seq<Event>)
    requires Balanced(usage) && Balanced(options) && Balanced(commands) && Balanced(postfix)
    ensures var events := usage + options + commands + postfix;
      Balanced(events) && Level(events) == 0 && forall k :: 0 <= k <= |events| ==> Level(events[..k]) >= 0
  {
    BalancedConcat(usage, options);
    BalancedConcat(usage + options, commands);
    BalancedConcat(usage + options + commands, postfix);
    BalancedLevels(usage + options + commands + postfix);
  }

  // ---------------------------------------------------------------- shape of the text

  /** The help text opens with `usage: `, an indent of two and the command's name. */
  lemma RenderedStartsWithUsage(reg: Registry, cls: ClassName, params: seq<ParameterDescription>,
                                main: Option<MainParameter>, es: seq<CommandEntry>, width: int)
    requires Rendered(reg, cls, params, main, es, width).Success?
    ensures cls in reg.extended
    ensures var r := Rendered(reg, cls, params, main, es, width).value;
      r.maxIndent == width - 5 && r.maxWidth == width &&
      |r.events| >= 3 && r.events[..3] == [Write("usage: "), Indent(2), Write(reg.extended[cls].commandName)]
  {
    RenderedOutcomes(reg, cls, params, main, es, width);
    var d := reg.extended[cls];
    UsageLineHead(reg, cls, d, params, main, es != []);
    PrefixOfAppend(UsageLine(reg, cls, d, params, main, es != []), OptionsSection(reg, cls, params, main),
                   CommandsSection(reg, es).value, Postfix(d.postfixDescription), 3);
  }

  /** The usage line opens with the word `usage: ` and the command name, indented by two. */
  lemma UsageLineHead(reg: Registry, cls: ClassName, d: Descriptor, params: seq<ParameterDescription>,
                      main: Option<MainParameter>, hasCommands: bool)
    ensures var line := UsageLine(reg, cls, d, params, main, hasCommands);
      |line| >= 3 && line[..3] == [Write("usage: "), Indent(2), Write(d.commandName)]
  {
    OpeningOfLine(Write("usage: "), 2, Write(d.commandName), UsageSuffix(reg, cls, d, params, main, hasCommands));
  }

  lemma OpeningOfLine(head: Event, n: nat, first: Event, rest: seq<Event>)
    ensures var line := [head] + Indented(n, [first] + rest);
      |line| >= 3 && line[..3] == [head, Indent(n), first]
  {
    var line := [head] + Indented(n, [first] + rest);
    assert line == [head, Indent(n), first] + (rest + [Deindent(n)]);
  }

  /** Appending sections after a trace keeps its first `k` events. */
  lemma PrefixOfAppend(line: seq<Event>, o: seq<Event>, c: seq<Event>, p: seq<Event>, k: nat)
    requires k <= |line|
    ensures |line + o + c + p| >= k && (line + o + c + p)[..k] == line[..k]
  {
    assert line + o + c + p == line + (o + c + p);
  }

  /** A command with no parameters, no sub-commands and no postfix renders as its usage line alone. */
  lemma MinimalCommand(reg: Registry, cls: ClassName, width: int)
    requires cls in reg.extended && reg.extended[cls].postfixDescription == ""
    ensures Rendered(reg, cls, [], None, [], width) ==
      Success(Rendering(width - 5, width, [Write("usage: "), Indent(2), Write(reg.extended[cls].commandName), Deindent(2)]))
    ensures Text(Rendered(reg, cls, [], None, [], width).value.events) == "usage: " + reg.extended[cls].commandName
  {
    var name := reg.extended[cls].commandName;
    var d := reg.extended[cls];
    assert UsageParameters([]) == [];
    assert UsageSuffix(reg, cls, d, [], None, false) == [];
    var events := [Write("usage: "), Indent(2), Write(name), Deindent(2)];
    assert UsageLine(reg, cls, d, [], None, false) == events;
    assert events[..3][..2][..1] == [Write("usage: ")];
    assert events[..3][..2] == [Write("usage: "), Indent(2)];
    assert events[..3] == [Write("usage: "), Indent(2), Write(name)];
    assert Text([Write("usage: ")]) == "usage: " by {
      assert [Write("usage: ")][..0] == [];
    }
    assert OptionsSection(reg, cls, [], None) == [];
    assert CommandsSection(reg, []) == Success([]);
    assert Postfix(d.postfixDescription) == [];
    assert events + [] + [] + [] == events;
    assert Text(events[..3][..2]) == "usage: ";
    assert Text(events[..3]) == "usage: " + name;
    assert Text(events) == "usage: " + name;
  }

  // ---------------------------------------------------------------- when rendering fails

  /**
   * One sub-command line fails exactly when the sub-command's class has no `@Parameters`,
   * or it is shown and has no `@ExtendedParameters`.
   */
  lemma CommandLineFails(reg: Registry, e: CommandEntry)
    ensures var cls := e.commander.objectClass;
      CommandLine(reg, e).Failure? <==>
        cls !in reg.parameters || (!reg.parameters[cls].hidden && cls !in reg.extended)
    ensures var cls := e.commander.objectClass;
      CommandLine(reg, e).Failure? ==>
        CommandLine(reg, e).error ==
          (if cls !in reg.parameters then MissingParametersAnnotation(cls) else MissingExtendedParameters(cls))
  {
  }

  /** The Commands section fails exactly when one of its lines does, with the error of the first. */
  lemma {:induction false} CommandLinesFailIff(reg: Registry, es: seq<CommandEntry>)
    ensures CommandLines(reg, es).Failure? <==> exists i :: 0 <= i < |es| && CommandLine(reg, es[i]).Failure?
    ensures CommandLines(reg, es).Failure? ==>
      exists i :: 0 <= i < |es| && CommandLine(reg, es[i]).Failure? &&
        CommandLines(reg, es).error == CommandLine(reg, es[i]).error &&
        forall j :: 0 <= j < i ==> CommandLine(reg, es[j]).Success?
  {
    if es != [] {
      var init := es[..|es| - 1];
      CommandLinesFailIff(reg, init);
      if CommandLines(reg, init).Failure? {
        var i :| 0 <= i < |init| && CommandLine(reg, init[i]).Failure? &&
          CommandLines(reg, init).error == CommandLine(reg, init[i]).error &&
          forall j :: 0 <= j < i ==> CommandLine(reg, init[j]).Success?;
        assert es[i] == init[i];
        assert forall j :: 0 <= j < i ==> es[j] == init[j];
      } else {
        assert forall j :: 0 <= j < |init| ==> es[j] == init[j];
      }
    }
  }

  /**
   * Rendering fails exactly when the command has no `@ExtendedParameters` (that error wins,
   * the usage line reads it first), or some sub-command's line fails.
   */
  lemma RenderedFails(reg: Registry, cls: ClassName, params: seq<ParameterDescription>,
                      main: Option<MainParameter>, es: seq<CommandEntry>, width: int)
    ensures Rendered(reg, cls, params, main, es, width).Failure? <==>
      cls !in reg.extended || exists i :: 0 <= i < |es| && CommandLine(reg, es[i]).Failure?
    ensures cls !in reg.extended ==>
      Rendered(reg, cls, params, main, es, width) == Failure(MissingExtendedParameters(cls))
  {
    CommandLinesFailIff(reg, es);
  }

  // ---------------------------------------------------------------- sections

  /**
   * The Options section is there exactly when the command declares a parameter (hidden
   * ones count) or a main parameter, and then opens with its heading.
   */
  lemma OptionsSectionPresence(reg: Registry, cls: ClassName, params: seq<ParameterDescription>,
                               main: Option<MainParameter>)
    ensures OptionsSection(reg, cls, params, main) != [] <==> |params| > 0 || main.Some?
    ensures OptionsSection(reg, cls, params, main) != [] ==>
      OptionsSection(reg, cls, params, main)[0] == Write("\n\nOptions:")
  {
  }

  /** The Commands section is there exactly when the command map is non-empty. */
  lemma CommandsSectionPresence(reg: Registry, es: seq<CommandEntry>)
    requires CommandsSection(reg, es).Success?
    ensures CommandsSection(reg, es).value != [] <==> es != []
    ensures es != [] ==> CommandsSection(reg, es).value[0] == Write("\n\nCommands:")
  {
  }

  /** Hidden sub-commands contribute no line. */
  lemma {:induction false} HiddenCommandsInvisible(reg: Registry, es: seq<CommandEntry>)
    requires forall e :: e in es ==>
      (e.commander.objectClass in reg.parameters && reg.parameters[e.commander.objectClass].hidden)
    ensures CommandLines(reg, es) == Success([])
  {
    if es != [] {
      assert forall e :: e in es[..|es| - 1] ==> e in es;
      HiddenCommandsInvisible(reg, es[..|es| - 1]);
      assert es[|es| - 1] in es;
      assert CommandLine(reg, es[|es| - 1]) == Success([]);
      assert CommandLines(reg, es[..|es| - 1]).value + [] == [];
    }
  }

  /** Two aliases are listed in parentheses, separated by a comma. */
  lemma TwoAliasesText(x: string, y: string)
    ensures Text(AliasesPart([x, y])) == "(" + x + "," + y + ")"
  {
    TextOfWrites("(", x + "," + y, ")");
  }

  predicate IsHiddenEntry(reg: Registry, e: CommandEntry)
  {
    e.commander.objectClass in reg.parameters && reg.parameters[e.commander.objectClass].hidden
  }

  /** The sub-commands that are not hidden, in map order. */
  function Shown(reg: Registry, es: seq<CommandEntry>): seq<CommandEntry>
  {
    if es == [] then [] else Shown(reg, es[..|es| - 1]) + (if IsHiddenEntry(reg, es[|es| - 1]) then [] else [es[|es| - 1]])
  }

  lemma {:induction false} ShownMembers(reg: Registry, es: seq<CommandEntry>)
    ensures forall e :: e in Shown(reg, es) <==> e in es && !IsHiddenEntry(reg, e)
  {
    if es != [] {
      ShownMembers(reg, es[..|es| - 1]);
      assert es == es[..|es| - 1] + [es[|es| - 1]];
    }
  }

  /**
   * Hidden sub-commands contribute nothing, wherever they stand among shown ones: the Commands
   * lines, and their failure, are those of the shown sub-commands alone.
   */
  lemma {:induction false} CommandLinesIgnoreHidden(reg: Registry, es: seq<CommandEntry>)
    ensures CommandLines(reg, es) == CommandLines(reg, Shown(reg, es))
  {
    if es != [] {
      var init, last := es[..|es| - 1], es[|es| - 1];
      CommandLinesIgnoreHidden(reg, init);
      if IsHiddenEntry(reg, last) {
        assert Shown(reg, es) == Shown(reg, init) + [] == Shown(reg, init);
        assert CommandLine(reg, last) == Success([]);
        if CommandLines(reg, init).Success? {
          assert CommandLines(reg, init).value + [] == CommandLines(reg, init).value;
        }
        assert CommandLines(reg, es) == CommandLines(reg, init);
      } else {
        var shown := Shown(reg, es);
        assert shown == Shown(reg, init) + [last];
        assert shown[..|shown| - 1] == Shown(reg, init) && shown[|shown| - 1] == last;
      }
    }
  }

  /**
   * A command whose sub-commands are all hidden still gets the ` [<command [<args>]]`
   * placeholder and an empty Commands heading.
   */
  lemma AllCommandsHidden(reg: Registry, cls: ClassName, params: seq<ParameterDescription>,
                          main: Option<MainParameter>, es: seq<CommandEntry>, width: int)
    requires cls in reg.extended && es != []
    requires forall e :: e in es ==>
      (e.commander.objectClass in reg.parameters && reg.parameters[e.commander.objectClass].hidden)
    ensures CommandsSection(reg, es) == Success([Write("\n\nCommands:"), Indent(2), Deindent(2)])
    ensures CommandPlaceholder(es != []) == [Write(" [<command [<args>]]")]
    ensures Rendered(reg, cls, params, main, es, width).Success?
  {
    HiddenCommandsInvisible(reg, es);
    assert [Write("\n\nCommands:")] + Indented(2, []) == [Write("\n\nCommands:"), Indent(2), Deindent(2)];
  }

  /** The postfix text is written, after a blank line, exactly when it is non-empty. */
  lemma PostfixText(postfix: string)
    ensures Postfix(postfix) == [] <==> postfix == ""
    ensures Text(Postfix(postfix)) == if postfix == "" then "" else "\n\n" + postfix
  {
    if postfix != "" {
      var evs := [Write("\n\n"), Write(postfix)];
      assert evs[..1] == [Write("\n\n")];
      assert evs[..1][..0] == [];
      assert Text(evs[..1]) == "\n\n";
      assert Text(evs) == Text(evs[..1]) + postfix;
    }
  }

  // ---------------------------------------------------------------- hidden parameters

  /** The parameters that are not hidden, in their order. */
  function Visible(ps: seq<ParameterDescription>): seq<ParameterDescription>
  {
    if ps == [] then [] else Visible(ps[..|ps| - 1]) + (if ps[|ps| - 1].hidden then [] else [ps[|ps| - 1]])
  }

  lemma {:induction false} VisibleIsSubsequence(ps: seq<ParameterDescription>)
    ensures forall p :: p in Visible(ps) <==> p in ps && !p.hidden
  {
    if ps != [] {
      VisibleIsSubsequence(ps[..|ps| - 1]);
      assert ps == ps[..|ps| - 1] + [ps[|ps| - 1]];
    }
  }

  /** Hidden parameters leave no trace in the usage line. */
  lemma {:induction false} UsageParametersIgnoreHidden(ps: seq<ParameterDescription>)
    ensures UsageParameters(ps) == UsageParameters(Visible(ps))
  {
    if ps != [] {
      var init, last := ps[..|ps| - 1], ps[|ps| - 1];
      UsageParametersIgnoreHidden(init);
      if last.hidden {
        assert Visible(ps) == Visible(init);
        assert UsageParameter(last) == [];
        assert UsageParameters(ps) == UsageParameters(init);
      } else {
        var v := Visible(init) + [last];
        assert Visible(ps) == v;
        assert v[..|v| - 1] == Visible(init);
        assert UsageParameters(v) == UsageParameters(Visible(init)) + UsageParameter(last);
      }
    }
  }

  /** Hidden parameters leave no trace in the Options section's lines. */
  lemma {:induction false} OptionEntriesIgnoreHidden(reg: Registry, cls: ClassName, ps: seq<ParameterDescription>)
    ensures OptionEntries(reg, cls, ps) == OptionEntries(reg, cls, Visible(ps))
  {
    if ps != [] {
      var init, last := ps[..|ps| - 1], ps[|ps| - 1];
      OptionEntriesIgnoreHidden(reg, cls, init);
      if last.hidden {
        assert Visible(ps) == Visible(init);
        assert OptionEntry(reg, cls, last) == [];
        assert OptionEntries(reg, cls, ps) == OptionEntries(reg, cls, init);
      } else {
        var v := Visible(init) + [last];
        assert Visible(ps) == v;
        assert v[..|v| - 1] == Visible(init);
        assert OptionEntries(reg, cls, v) == OptionEntries(reg, cls, Visible(init)) + OptionEntry(reg, cls, last);
      }
    }
  }

  // ---------------------------------------------------------------- placeholders

  /** Indentation changes contribute no text. */
  lemma TextOfLine(head: seq<Event>, n: nat, body: seq<Event>)
    ensures Text(head + Indented(n, body)) == Text(head) + Text(body)
  {
    TextOfMarks(n);
    TextAppend([Indent(n)], body);
    assert Text([Indent(n)] + body) == Text(body);
    TextAppend([Indent(n)] + body, [Deindent(n)]);
    assert Text(Indented(n, body)) == Text(body);
    TextAppend(head, Indented(n, body));
  }

  /** Slot `i` reads `<hint i>`, or `<arg>` once the hints run out. */
  lemma SlotText(hints: seq<string>, i: nat)
    ensures Text(Slot(hints, i)) == if i < |hints| then "<" + hints[i] + ">" else "<arg>"
  {
    if i < |hints| {
      TextOfWrites("<", hints[i], ">");
    } else {
      TextOfWrites("<arg>", "", "");
    }
  }

  /**
   * The placeholders of a parameter with arity `n` are `n` groups in slot order, group `i`
   * being a space followed by slot `i`.
   */
  lemma {:induction false} PlaceholderGroups(hints: seq<string>, n: nat, i: nat)
    requires i < n
    ensures Placeholders(hints, i) + [Write(" ")] + Slot(hints, i) <= Placeholders(hints, n)
  {
    if i < n - 1 {
      PlaceholderGroups(hints, n - 1, i);
    }
  }

  /** The main parameter's placeholder reads the same in the usage line and in the Options section. */
  lemma MainPlaceholderAgrees(hints: seq<string>)
    ensures Text(MainPlaceholder(hints)) == if |hints| > 0 then "<" + hints[0] + ">" else "<args>"
    ensures Text(MainUsage(hints)) == " [" + Text(MainPlaceholder(hints)) + "]"
  {
    if |hints| > 0 {
      var h := hints[0];
      TextOfWrites("<", h, ">");
      TextOfWrites(" [<", h, ">]");
      assert Text(MainPlaceholder(hints)) == "<" + h + ">";
      assert Text(MainUsage(hints)) == " [<" + h + ">]";
      Bracketed(h);
    } else {
      TextOfWrites("<args>", "", "");
      TextOfWrites(" [<args>]", "", "");
      assert Text(MainPlaceholder(hints)) == "<args>";
      assert Text(MainUsage(hints)) == " [<args>]";
      assert " [<args>]" == " [" + "<args>" + "]";
    }
  }

  lemma Bracketed(h: string)
    ensures " [<" + h + ">]" == " [" + ("<" + h + ">") + "]"
  {
    var x, y := " [<" + h + ">]", " [" + ("<" + h + ">") + "]";
    assert |x| == |y|;
    forall i | 0 <= i < |x| ensures x[i] == y[i] {
      if i < 3 {
      } else if i < 3 + |h| {
        assert x[i] == h[i - 3] == y[i];
      }
    }
  }
}
