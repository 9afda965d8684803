/**
 * HelpCommand: the `help` command. With no topics it prints the root command's usage; each
 * topic is either `register-info`, which prints a fixed explanation wrapped to the console
 * width, or a command name whose usage is printed. `hlep` is the same command registered
 * hidden, so that the misspelling works without showing up in the command list.
 */
module Help {
  import opened Wrappers
  import opened Jcommander
  import opened Events
  import opened Usage
  import opened UsageProperties
  import Strings

  /** The topic that is answered with a fixed text instead of a command's usage. */
  const RegisterInfo: string := "register-info"

  const RegisterInfoHelp: string :=
    "The --register-info parameter will cause baksmali to generate " +
    "comments before and after every instruction containing register type " +
    "information about some subset of registers. This parameter optionally accepts a " +
    "comma-separated list of values specifying which registers and how much " +
    "information to include. If no values are specified, \"ARGS,DEST\" is used as " +
    "the default. Valid values include:\n" +
    "    ALL: all pre- and post-instruction registers\n" +
    "    ALLPRE: all pre-instruction registers\n" +
    "    ALLPOST: all post-instruction registers\n" +
    "    ARGS: any pre-instruction registers used as arguments to the instruction\n" +
    "    DEST: the post-instruction register used as the output of the instruction\n" +
    "    MERGE: any pre-instruction register that has been merged from multiple " +
    "incoming code paths\n" +
    "    FULLMERGE: an extended version of MERGE that also includes a list of all " +
    "the register types from incoming code paths that were merged"

  /** The class-level annotations of `help` and of its hidden twin `hlep`. */
  const HelpDescription: string := "Shows usage information"
  const HelpAnnotation := ParametersAnnotation(false, Some(HelpDescription))
  const HlepAnnotation := ParametersAnnotation(true, Some(""))

  /** What `run` asks of the outside world, in order. */
  datatype Action =
    | RootUsage                                    // jc.usage()
    | PrintWrapped(text: string, width: int)       // each line of the text wrapped at `width`, printed
    | CommandUsage(command: string)                // jc.usage(command)

  class HelpCommand {
    const jc: JCommander
    const annotation: ParametersAnnotation
    /** The topics given on the command line; None when the option was never set. */
    var commands: Option<seq<string>>

    constructor (jc: JCommander)
      ensures this.jc == jc && annotation == HelpAnnotation && commands == None
    {
      this.jc := jc;
      annotation := HelpAnnotation;
      commands := None;
    }

    /** `HlepCommand`: the same command, registered hidden. */
    constructor Hlep(jc: JCommander)
      ensures this.jc == jc && annotation == HlepAnnotation && commands == None
    {
      this.jc := jc;
      annotation := HlepAnnotation;
      commands := None;
    }

    /**
     * `run()`: with no topics, the root usage alone; otherwise one action per topic, in
     * order: the wrapped register text for `register-info`, the topic's usage for anything
     * else, passed on unchanged.
     */
    method Run(consoleWidth: int) returns (actions: seq<Action>)
      ensures commands.None? || commands.value == [] ==> actions == [RootUsage]
      ensures commands.Some? && commands.value != [] ==>
        |actions| == |commands.value| &&
        forall i :: 0 <= i < |actions| ==>
          if commands.value[i] == RegisterInfo then actions[i] == PrintWrapped(RegisterInfoHelp, consoleWidth)
          else actions[i] == CommandUsage(commands.value[i])
    {
      if commands.None? || commands.value == [] {
        return [RootUsage];
      }
      var topics := commands.value;
      actions := [];
      for i := 0 to |topics|
        invariant |actions| == i
        invariant forall k :: 0 <= k < i ==>
          if topics[k] == RegisterInfo then actions[k] == PrintWrapped(RegisterInfoHelp, consoleWidth)
          else actions[k] == CommandUsage(topics[k])
      {
        if topics[i] == RegisterInfo {
          actions := actions + [PrintWrapped(RegisterInfoHelp, consoleWidth)];
        } else {
          actions := actions + [CommandUsage(topics[i])];
        }
      }
    }
  }

  /** `hlep` never appears in a command list: its line is empty. */
  lemma HlepIsHidden(reg: Registry, e: CommandEntry)
    requires e.commander.objectClass in reg.parameters && reg.parameters[e.commander.objectClass] == HlepAnnotation
    ensures CommandLine(reg, e) == Success([])
  {
  }

  /**
   * `HelpCommand` as declared carries `@Parameters` but no `@ExtendedParameters`: listing it
   * among the sub-commands fails when its aliases are read.
   */
  lemma HelpCommandLineAsDeclared(reg: Registry, e: CommandEntry)
    requires e.commander.objectClass in reg.parameters && reg.parameters[e.commander.objectClass] == HelpAnnotation
    requires e.commander.objectClass !in reg.extended
    ensures CommandLine(reg, e) == Failure(MissingExtendedParameters(e.commander.objectClass))
  {
  }

  /** Were `help` given a descriptor with no aliases, it would be listed as its name followed by its description. */
  lemma HelpCommandLine(reg: Registry, e: CommandEntry)
    requires e.commander.objectClass in reg.parameters && reg.parameters[e.commander.objectClass] == HelpAnnotation
    requires e.commander.objectClass in reg.extended && reg.extended[e.commander.objectClass].commandAliases == []
    ensures CommandLine(reg, e).Success?
    ensures Text(CommandLine(reg, e).value) == "\n" + e.name + " - " + HelpDescription
  {
    var body := [Write(e.name), Write(" - "), Write(HelpDescription)];
    assert CommandBody(e.name, [], Some(HelpDescription)) == body;
    assert CommandLine(reg, e).value == [Write("\n")] + Indented(4, body);
    TextOfLine([Write("\n")], 4, body);
    TextOfWrites("\n", "", "");
    TextOfWrites(e.name, " - ", HelpDescription);
    Strings.ConcatAssoc("\n", e.name + " - ", HelpDescription);
    Strings.ConcatAssoc("\n", e.name, " - ");
  }
}
