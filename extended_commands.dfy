/**
 * ExtendedCommands: the accessors for a command's `@ExtendedParameters` descriptor,
 * the argument-name hints of a parameter, sub-command lookup by name or alias, and
 * registration of an extended command with its parent.
 */
module ExtendedCommands {
  import opened Wrappers
  import opened Jcommander

  /** The descriptor of a command class; a class without one is a declaration error (IllegalStateException). */
  function GetExtendedParameters(reg: Registry, cls: ClassName): (r: Result<Descriptor, HelpError>)
    ensures r.Success? <==> cls in reg.extended
    ensures r.Success? ==> r.value == reg.extended[cls]
    ensures r.Failure? ==> r.error == MissingExtendedParameters(cls)
  {
    if cls in reg.extended then Success(reg.extended[cls]) else Failure(MissingExtendedParameters(cls))
  }

  function CommandName(reg: Registry, cls: ClassName): (r: Result<string, HelpError>)
  {
    match GetExtendedParameters(reg, cls)
    case Success(d) => Success(d.commandName)
    case Failure(e) => Failure(e)
  }

  function CommandAliases(reg: Registry, cls: ClassName): (r: Result<seq<string>, HelpError>)
  {
    match GetExtendedParameters(reg, cls)
    case Success(d) => Success(d.commandAliases)
    case Failure(e) => Failure(e)
  }

  function IncludeParametersInUsage(reg: Registry, cls: ClassName): (r: Result<bool, HelpError>)
  {
    match GetExtendedParameters(reg, cls)
    case Success(d) => Success(d.includeParametersInUsage)
    case Failure(e) => Failure(e)
  }

  function PostfixDescription(reg: Registry, cls: ClassName): (r: Result<string, HelpError>)
  {
    match GetExtendedParameters(reg, cls)
    case Success(d) => Success(d.postfixDescription)
    case Failure(e) => Failure(e)
  }

  /**
   * The four accessors are projections of one descriptor: they succeed together, the
   * descriptor is rebuilt from their values, and they fail together with the same error.
   */
  lemma AccessorsProjectDescriptor(reg: Registry, cls: ClassName)
    ensures CommandName(reg, cls).Success? == CommandAliases(reg, cls).Success?
                                        == IncludeParametersInUsage(reg, cls).Success?
                                        == PostfixDescription(reg, cls).Success?
                                        == (cls in reg.extended)
    ensures cls in reg.extended ==>
      Descriptor(CommandName(reg, cls).value, CommandAliases(reg, cls).value,
                 IncludeParametersInUsage(reg, cls).value, PostfixDescription(reg, cls).value)
      == reg.extended[cls]
    ensures cls !in reg.extended ==>
      CommandName(reg, cls).error == CommandAliases(reg, cls).error
      == IncludeParametersInUsage(reg, cls).error == PostfixDescription(reg, cls).error
      == MissingExtendedParameters(cls)
  {
  }

  /**
   * The `argumentNames` of the `@ExtendedParameter` on field `field` of class `cls`; empty when
   * the class declares no such field or the field carries no annotation.
   */
  function ParameterArgumentNames(reg: Registry, cls: ClassName, field: string): (r: seq<string>)
    ensures (cls in reg.fields && field in reg.fields[cls] && reg.fields[cls][field].Some?) ==>
              r == reg.fields[cls][field].value
    ensures !(cls in reg.fields && field in reg.fields[cls] && reg.fields[cls][field].Some?) ==> r == []
  {
    if cls in reg.fields && field in reg.fields[cls] then
      match reg.fields[cls][field]
      case Some(names) => names
      case None => []
    else []
  }

  /** The alias scan of `getSubcommand`: the first entry whose descriptor lists `token` as an alias. */
  function AliasScan(es: seq<CommandEntry>, reg: Registry, token: string): Result<Option<JCommander>, HelpError>
  {
    if es == [] then Success(None)
    else match CommandAliases(reg, es[0].commander.objectClass)
      case Failure(e) => Failure(e)
      case Success(aliases) =>
        if token in aliases then Success(Some(es[0].commander)) else AliasScan(es[1..], reg, token)
  }

  /** `getSubcommand`: the entry keyed by `token`, else the first entry with `token` among its aliases, else null. */
  function FindSubcommand(es: seq<CommandEntry>, reg: Registry, token: string): Result<Option<JCommander>, HelpError>
  {
    var byName := Lookup(es, token);
    if byName.Some? then Success(byName) else AliasScan(es, reg, token)
  }

  /** Every entry's command class carries a descriptor, so no alias scan can fail. */
  predicate AllDescribed(es: seq<CommandEntry>, reg: Registry)
  {
    forall i :: 0 <= i < |es| ==> es[i].commander.objectClass in reg.extended
  }

  function AliasesOf(e: CommandEntry, reg: Registry): seq<string>
    requires e.commander.objectClass in reg.extended
  {
    reg.extended[e.commander.objectClass].commandAliases
  }

  /** A key equal to `token` wins, without any alias being looked at. */
  lemma KeyWins(es: seq<CommandEntry>, reg: Registry, token: string, i: nat)
    requires DistinctNames(es)
    requires i < |es| && es[i].name == token
    ensures FindSubcommand(es, reg, token) == Success(Some(es[i].commander))
  {
  }

  /**
   * With no key equal to `token`, the result is the first entry in map order whose
   * descriptor lists `token` as an alias; it is null exactly when no entry does.
   */
  lemma {:induction false} AliasScanFindsFirst(es: seq<CommandEntry>, reg: Registry, token: string)
    requires AllDescribed(es, reg)
    ensures AliasScan(es, reg, token).Success?
    ensures AliasScan(es, reg, token).value.None? <==>
              forall i :: 0 <= i < |es| ==> token !in AliasesOf(es[i], reg)
    ensures AliasScan(es, reg, token).value.Some? ==>
              exists i :: 0 <= i < |es| && token in AliasesOf(es[i], reg) &&
                          AliasScan(es, reg, token).value.value == es[i].commander &&
                          forall j :: 0 <= j < i ==> token !in AliasesOf(es[j], reg)
  {
    if es != [] {
      var tail := es[1..];
      assert forall i :: 1 <= i < |es| ==> es[i] == tail[i - 1];
      assert AllDescribed(tail, reg);
      AliasScanFindsFirst(tail, reg, token);
      if token !in AliasesOf(es[0], reg) {
        var r := AliasScan(tail, reg, token);
        if r.value.Some? {
          var k :| 0 <= k < |tail| && token in AliasesOf(tail[k], reg) && r.value.value == tail[k].commander &&
                   forall j :: 0 <= j < k ==> token !in AliasesOf(tail[j], reg);
          assert es[k + 1] == tail[k];
          assert forall j :: 0 <= j < k + 1 ==> token !in AliasesOf(es[j], reg) by {
            forall j | 0 <= j < k + 1 ensures token !in AliasesOf(es[j], reg) {
              if j > 0 { assert es[j] == tail[j - 1]; }
            }
          }
        }
      }
    }
  }

  /** `getSubcommand` is null exactly when neither a key nor an alias equals `token`. */
  lemma NotFoundIff(es: seq<CommandEntry>, reg: Registry, token: string)
    requires AllDescribed(es, reg)
    ensures FindSubcommand(es, reg, token) == Success(None) <==>
              forall i :: 0 <= i < |es| ==> es[i].name != token && token !in AliasesOf(es[i], reg)
  {
    AliasScanFindsFirst(es, reg, token);
  }

  /**
   * The alias scan fails only by meeting, before any alias match, a sub-command whose class
   * has no descriptor.
   */
  lemma {:induction false} AliasScanFailure(es: seq<CommandEntry>, reg: Registry, token: string)
    requires AliasScan(es, reg, token).Failure?
    ensures exists i :: 0 <= i < |es| && es[i].commander.objectClass !in reg.extended &&
              AliasScan(es, reg, token).error == MissingExtendedParameters(es[i].commander.objectClass)
  {
    if es[0].commander.objectClass in reg.extended {
      AliasScanFailure(es[1..], reg, token);
      var i :| 0 <= i < |es[1..]| && es[1..][i].commander.objectClass !in reg.extended &&
               AliasScan(es[1..], reg, token).error == MissingExtendedParameters(es[1..][i].commander.objectClass);
      assert es[i + 1] == es[1..][i];
    }
  }

  /** `getSubcommand(jc, commandName)`: a nested linear search with early return. */
  method GetSubcommand(jc: JCommander, reg: Registry, token: string) returns (r: Result<Option<JCommander>, HelpError>)
    ensures r == FindSubcommand(jc.commands, reg, token)
  {
    var es := jc.commands;
    if Lookup(es, token).Some? {
      return Success(Lookup(es, token));
    }
    var i := 0;
    while i < |es|
      invariant 0 <= i <= |es|
      invariant AliasScan(es, reg, token) == AliasScan(es[i..], reg, token)
    {
      var aliases := CommandAliases(reg, es[i].commander.objectClass);
      if aliases.Failure? {
        return Failure(aliases.error);
      }
      var names := aliases.value;
      var j := 0;
      while j < |names|
        invariant 0 <= j <= |names|
        invariant forall k :: 0 <= k < j ==> names[k] != token
      {
        if token == names[j] {
          return Success(Some(es[i].commander));
        }
        j := j + 1;
      }
      assert es[i..][1..] == es[i + 1..];
      i := i + 1;
    }
    return Success(None);
  }

  /**
   * `addExtendedCommand(jc, command)`: put the command under its descriptor's name, with the
   * descriptor's aliases; fails as the accessors do when the class has no descriptor.
   */
  method AddExtendedCommand(jc: JCommander, reg: Registry, obj: CommandObject) returns (r: Result<(), HelpError>)
    requires jc.Valid()
    modifies jc
    ensures jc.Valid()
    ensures r.Success? <==> obj.cls in reg.extended
    ensures r.Failure? ==> r.error == MissingExtendedParameters(obj.cls) && jc.commands == old(jc.commands)
    ensures r.Success? ==>
      exists sub: JCommander :: fresh(sub) && sub.objectClass == obj.cls &&
        jc.commands == Put(old(jc.commands),
                           CommandEntry(reg.extended[obj.cls].commandName, sub, reg.extended[obj.cls].commandAliases))
  {
    var name := CommandName(reg, obj.cls);
    var aliases := CommandAliases(reg, obj.cls);
    if name.Success? && aliases.Success? {
      ghost var sub := jc.AddCommand(name.value, obj, aliases.value);
      return Success(());
    }
    return Failure(MissingExtendedParameters(obj.cls));
  }

  /**
   * After `addExtendedCommand(jc, c)`, `getSubcommand(jc, commandName(c))` returns the
   * JCommander that was created for `c`.
   */
  lemma AddedIsFound(es: seq<CommandEntry>, reg: Registry, obj: CommandObject, sub: JCommander)
    requires obj.cls in reg.extended
    ensures FindSubcommand(Put(es, CommandEntry(CommandName(reg, obj.cls).value, sub, CommandAliases(reg, obj.cls).value)),
                           reg, CommandName(reg, obj.cls).value)
            == Success(Some(sub))
  {
    PutFinds(es, CommandEntry(CommandName(reg, obj.cls).value, sub, CommandAliases(reg, obj.cls).value));
  }
}
