/**
 * The command metadata the usage renderer reads: JCommander's per-command state and the
 * annotations on the command classes. Java reflection is replaced by an explicit Registry
 * keyed by the command object's class.
 */
module Jcommander {
  import opened Wrappers

  /** The class of a command object (`jc.getObjects().get(0).getClass()`). */
  type ClassName = string

  /** `@ExtendedParameters` on a command class. */
  datatype Descriptor = Descriptor(
    commandName: string,
    commandAliases: seq<string>,
    includeParametersInUsage: bool,
    postfixDescription: string)

  /** `@Parameters` on a command class, with the description JCommander reports for the command. */
  datatype ParametersAnnotation = ParametersAnnotation(hidden: bool, commandDescription: Option<string>)

  /**
   * What reflection would find. `fields[c][f]` is present when class `c` declares field `f`,
   * and holds the `argumentNames` of its `@ExtendedParameter` annotation when it has one.
   */
  datatype Registry = Registry(
    extended: map<ClassName, Descriptor>,
    parameters: map<ClassName, ParametersAnnotation>,
    fields: map<ClassName, map<string, Option<seq<string>>>>)

  /** The declared type of a parameter's field, as far as the arity rule distinguishes it. */
  datatype FieldType = PrimitiveBoolean | BoxedBoolean | OtherType(typeName: string)

  /** One `ParameterDescription`: its `@Parameter` annotation and the field it is attached to. */
  datatype ParameterDescription = ParameterDescription(
    names: seq<string>,
    description: Option<string>,
    hidden: bool,
    arity: int,
    fieldType: FieldType,
    fieldName: string)

  /** The main (positional) parameter: the field it fills and its description. */
  datatype MainParameter = MainParameter(fieldName: string, description: Option<string>)

  /** A command object as JCommander sees it once it has scanned the object's annotated fields. */
  datatype CommandObject = CommandObject(
    cls: ClassName,
    parameters: seq<ParameterDescription>,
    mainParameter: Option<MainParameter>)

  /** One entry of `jc.getCommands()`: the key, the sub-command's JCommander and the aliases it was added with. */
  datatype CommandEntry = CommandEntry(name: string, commander: JCommander, aliases: seq<string>)

  /** The failures of the help code: a missing `@ExtendedParameters` and a missing `@Parameters`. */
  datatype HelpError = MissingExtendedParameters(cls: ClassName) | MissingParametersAnnotation(cls: ClassName)

  /** No two entries share a key, as in the LinkedHashMap JCommander keeps its commands in. */
  predicate DistinctNames(es: seq<CommandEntry>)
  {
    forall i, j :: 0 <= i < j < |es| ==> es[i].name != es[j].name
  }

  /** `map.get(key)` on the command map. */
  function Lookup(es: seq<CommandEntry>, key: string): (r: Option<JCommander>)
    ensures r.None? <==> forall i :: 0 <= i < |es| ==> es[i].name != key
    ensures r.Some? ==> exists i :: 0 <= i < |es| && es[i].name == key && es[i].commander == r.value
  {
    if es == [] then None
    else if es[0].name == key then Some(es[0].commander)
    else
      var r := Lookup(es[1..], key);
      assert forall i :: 1 <= i < |es| ==> es[i] == es[1..][i - 1];
      r
  }

  /** `map.put(e.name, e)` on an insertion-ordered map: an existing key keeps its position, a new key goes last. */
  function Put(es: seq<CommandEntry>, e: CommandEntry): (r: seq<CommandEntry>)
    ensures (forall i :: 0 <= i < |es| ==> es[i].name != e.name) ==> r == es + [e]
  {
    if es == [] then [e]
    else if es[0].name == e.name then [e] + es[1..]
    else
      var rest := Put(es[1..], e);
      assert forall i :: 1 <= i < |es| ==> es[1..][i - 1] == es[i];
      assert [es[0]] + (es[1..] + [e]) == es + [e];
      [es[0]] + rest
  }

  /** A put of a key already present replaces the entry at the key's first index, in place. */
  lemma {:induction false} PutReplaces(es: seq<CommandEntry>, e: CommandEntry, i: nat)
    requires i < |es| && es[i].name == e.name
    requires forall j :: 0 <= j < i ==> es[j].name != e.name
    ensures Put(es, e) == es[i := e]
  {
    if i > 0 {
      var tail := es[1..];
      assert tail[i - 1] == es[i];
      assert forall j :: 0 <= j < i - 1 ==> tail[j] == es[j + 1];
      PutReplaces(tail, e, i - 1);
      assert [es[0]] + tail[i - 1 := e] == es[i := e];
    }
  }

  /** After a put, the key maps to the new value. */
  lemma {:induction false} PutFinds(es: seq<CommandEntry>, e: CommandEntry)
    ensures Lookup(Put(es, e), e.name) == Some(e.commander)
  {
    if es != [] && es[0].name != e.name {
      PutFinds(es[1..], e);
    }
  }

  /** A put leaves every other key as it was. */
  lemma {:induction false} PutKeepsOthers(es: seq<CommandEntry>, e: CommandEntry, k: string)
    requires k != e.name
    ensures Lookup(Put(es, e), k) == Lookup(es, k)
  {
    if es != [] && es[0].name != e.name {
      PutKeepsOthers(es[1..], e, k);
    }
  }

  /** A put adds nothing but the new entry. */
  lemma {:induction false} PutElements(es: seq<CommandEntry>, e: CommandEntry)
    ensures forall x :: x in Put(es, e) ==> x == e || x in es
  {
    if es != [] && es[0].name != e.name {
      PutElements(es[1..], e);
      assert forall x :: x in es[1..] ==> x in es;
    } else if es != [] {
      assert forall x :: x in es[1..] ==> x in es;
    }
  }

  /** A put keeps the keys distinct. */
  lemma {:induction false} PutKeepsDistinct(es: seq<CommandEntry>, e: CommandEntry)
    requires DistinctNames(es)
    ensures DistinctNames(Put(es, e))
  {
    if es != [] && es[0].name != e.name {
      var tail := es[1..];
      assert DistinctNames(tail) by {
        forall i, j | 0 <= i < j < |tail| ensures tail[i].name != tail[j].name {
          assert tail[i] == es[i + 1] && tail[j] == es[j + 1];
        }
      }
      PutKeepsDistinct(tail, e);
      var rest := Put(tail, e);
      PutElements(tail, e);
      forall j | 0 <= j < |rest| ensures rest[j].name != es[0].name {
        assert rest[j] in rest;
        if rest[j] != e {
          assert rest[j] in tail;
          var k :| 0 <= k < |tail| && tail[k] == rest[j];
          assert es[k + 1] == rest[j];
        }
      }
      var r := [es[0]] + rest;
      forall i, j | 0 <= i < j < |r| ensures r[i].name != r[j].name {
        if i == 0 {
          assert r[j] == rest[j - 1];
        } else {
          assert r[i] == rest[i - 1] && r[j] == rest[j - 1];
        }
      }
    } else if es != [] {
      var r := [e] + es[1..];
      forall i, j | 0 <= i < j < |r| ensures r[i].name != r[j].name {
        assert r[j] == es[j];
        if i > 0 {
          assert r[i] == es[i];
        }
      }
    }
  }

  /** The part of a JCommander instance the usage renderer reads. */
  class JCommander {
    const objectClass: ClassName
    const parameters: seq<ParameterDescription>
    const mainParameter: Option<MainParameter>
    var commands: seq<CommandEntry>

    ghost predicate Valid()
      reads this
    {
      DistinctNames(commands)
    }

    /** `new JCommander(object)`: no sub-commands yet. */
    constructor (obj: CommandObject)
      ensures Valid()
      ensures objectClass == obj.cls && parameters == obj.parameters && mainParameter == obj.mainParameter
      ensures commands == []
    {
      objectClass, parameters, mainParameter := obj.cls, obj.parameters, obj.mainParameter;
      commands := [];
    }

    /** `jc.addCommand(name, object, aliases)`: a fresh JCommander for `obj`, put under `name`. */
    method AddCommand(name: string, obj: CommandObject, aliases: seq<string>) returns (ghost added: JCommander)
      requires Valid()
      modifies this
      ensures Valid()
      ensures fresh(added) && added.objectClass == obj.cls && added.commands == []
      ensures added.parameters == obj.parameters && added.mainParameter == obj.mainParameter
      ensures commands == Put(old(commands), CommandEntry(name, added, aliases))
    {
      var sub := new JCommander(obj);
      PutKeepsDistinct(commands, CommandEntry(name, sub, aliases));
      commands := Put(commands, CommandEntry(name, sub, aliases));
      added := sub;
    }
  }
}
