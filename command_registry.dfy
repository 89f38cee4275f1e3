/** `CommandRegistry` (src/commands/commandRegistry.ts): the object that owns
    the registry tree, its `register*` methods, and `toDiscordCommands`, which
    builds every registered command into a name-keyed table. */
module CommandRegistry {
  import opened Wrappers
  import opened OrderedMaps
  import opened Types
  import opened CommandTree
  import opened CommandBuilder

  // ------------------------------------------------ the table, specified

  /** `build`'s result `e` is the command built from registry item `item` of
      class `c`: its schema, its option map, an instance of `c`, the name-keyed
      subcommand and group lookups, and the whitelist as written (absent). */
  ghost predicate BuiltFrom(e: DiscordCommandInformation, c: Class, item: CommandRegistryItem) {
    && CommandSchemaOf(item).Success?
    && e.cmd == CommandSchemaOf(item).value
    && e.options == item.options
    && e.command.cls == c
    && EraseSubcommands(e.subcommands) == SubcommandLookup(item.subcommands)
    && EraseGroups(e.groups) == GroupLookup(item.groups)
    && e.whitelist == WhitelistAsWritten(item)
  }

  /** The registered commands as (class, item) pairs, in registration order. */
  function Registered(t: Tree): (rs: seq<(Class, CommandRegistryItem)>)
    ensures |rs| == |t.keys| && forall i :: 0 <= i < |t.keys| ==> rs[i] == (t.keys[i], ValueAt(t, i))
  {
    seq(|t.keys|, i requires 0 <= i < |t.keys| => (t.keys[i], ValueAt(t, i)))
  }

  ghost function IsBuildOf(): (DiscordCommandInformation, (Class, CommandRegistryItem)) -> bool {
    (e: DiscordCommandInformation, r: (Class, CommandRegistryItem)) => BuiltFrom(e, r.0, r.1)
  }

  /** `table` has the keys of `index`, in its order, and under each key the
      command built from the registered command at the position `index` gives. */
  ghost predicate TableBuilt(table: CommandTable, t: Tree, index: OMap<string, nat>) {
    IndexedBy(table, index, Registered(t), IsBuildOf())
  }

  /** The state of `toDiscordCommands` after the first `|entries|` commands:
      each has built, `entries` holds its name and result, and `collection` is
      what setting those entries in turn gives. */
  ghost predicate Progress(t: Tree, entries: seq<(string, DiscordCommandInformation)>, collection: CommandTable) {
    && |entries| <= |t.keys|
    && FirstFailure(SchemaResults(t), |entries|).None?
    && (forall j :: 0 <= j < |entries| ==> BuiltFrom(entries[j].1, t.keys[j], ValueAt(t, j)))
    && (forall j :: 0 <= j < |entries| ==> entries[j].0 == ValueAt(t, j).information.name)
    && collection == FromEntries(entries, |entries|)
  }

  /** One more command built keeps `Progress`. */
  lemma ProgressStep(t: Tree, entries: seq<(string, DiscordCommandInformation)>, collection: CommandTable, e: DiscordCommandInformation)
    requires Progress(t, entries, collection) && |entries| < |t.keys|
    requires BuiltFrom(e, t.keys[|entries|], ValueAt(t, |entries|))
    requires e.cmd.name == ValueAt(t, |entries|).information.name
    ensures Progress(t, entries + [(e.cmd.name, e)], Set(collection, e.cmd.name, e))
  {
    var more := entries + [(e.cmd.name, e)];
    StepBuilds(t, |entries|, e);
    StepBuilt(t, entries, more, e);
    StepNames(t, entries, more, e);
    StepTable(entries, more, collection, e.cmd.name, e);
    ProgressIntro(t, more, Set(collection, e.cmd.name, e));
  }

  /** `Progress`, from its parts. */
  lemma ProgressIntro(t: Tree, entries: seq<(string, DiscordCommandInformation)>, collection: CommandTable)
    requires |entries| <= |t.keys|
    requires FirstFailure(SchemaResults(t), |entries|).None?
    requires forall j :: 0 <= j < |entries| ==> BuiltFrom(entries[j].1, t.keys[j], ValueAt(t, j))
    requires forall j :: 0 <= j < |entries| ==> entries[j].0 == ValueAt(t, j).information.name
    requires collection == FromEntries(entries, |entries|)
    ensures Progress(t, entries, collection)
  {
  }

  /** A command that builds extends a prefix without failures. */
  lemma StepBuilds(t: Tree, n: nat, e: DiscordCommandInformation)
    requires n < |t.keys| && FirstFailure(SchemaResults(t), n).None?
    requires BuiltFrom(e, t.keys[n], ValueAt(t, n))
    ensures FirstFailure(SchemaResults(t), n + 1).None?
  {
    assert SchemaResults(t)[n].Success?;
  }

  /** A built command extends the built prefix. */
  lemma StepBuilt(t: Tree, entries: seq<(string, DiscordCommandInformation)>, more: seq<(string, DiscordCommandInformation)>,
                  e: DiscordCommandInformation)
    requires |entries| < |t.keys| && BuiltFrom(e, t.keys[|entries|], ValueAt(t, |entries|))
    requires forall j :: 0 <= j < |entries| ==> BuiltFrom(entries[j].1, t.keys[j], ValueAt(t, j))
    requires more == entries + [(e.cmd.name, e)]
    ensures forall j :: 0 <= j < |more| ==> BuiltFrom(more[j].1, t.keys[j], ValueAt(t, j))
  {
  }

  /** The names line up with one more entry. */
  lemma StepNames(t: Tree, entries: seq<(string, DiscordCommandInformation)>, more: seq<(string, DiscordCommandInformation)>,
                  e: DiscordCommandInformation)
    requires |entries| < |t.keys| && e.cmd.name == ValueAt(t, |entries|).information.name
    requires forall j :: 0 <= j < |entries| ==> entries[j].0 == ValueAt(t, j).information.name
    requires more == entries + [(e.cmd.name, e)]
    ensures forall j :: 0 <= j < |more| ==> more[j].0 == ValueAt(t, j).information.name
  {
  }

  /** Setting one more entry extends the map built from the entries. */
  lemma StepTable<V>(entries: seq<(string, V)>, more: seq<(string, V)>, collection: OMap<string, V>, name: string, e: V)
    requires collection == FromEntries(entries, |entries|)
    requires more == entries + [(name, e)]
    ensures Set(collection, name, e) == FromEntries(more, |more|)
  {
    FromEntriesAppend(entries, [(name, e)], |entries|);
  }

  /** A command that does not build ends the loop with the error `FirstBuildError` names. */
  lemma ProgressFails(t: Tree, entries: seq<(string, DiscordCommandInformation)>, collection: CommandTable)
    requires Progress(t, entries, collection) && |entries| < |t.keys|
    requires CommandSchemaOf(ValueAt(t, |entries|)).Failure?
    ensures FirstBuildError(t) == Some(CommandSchemaOf(ValueAt(t, |entries|)).error)
  {
    FirstFailureSticks(SchemaResults(t), |entries| + 1, |t.keys|);
  }

  /** Once every registered command is built, the table is related to the
      registry through `TableIndex`. */
  lemma ProgressDone(t: Tree, entries: seq<(string, DiscordCommandInformation)>, collection: CommandTable)
    requires Progress(t, entries, collection) && |entries| == |t.keys|
    ensures FirstBuildError(t).None?
    ensures TableBuilt(collection, t, TableIndex(t))
  {
    assert entries[..|entries|] == entries;
    assert Pointwise(entries, Registered(t), IsBuildOf());
    FromEntriesIndexedBy(entries, IndexEntries(t), Registered(t), IsBuildOf(), |entries|);
  }

  /** The names the registered commands declare, in registration order. */
  function CommandNames(t: Tree): (names: seq<string>)
    ensures |names| == |t.keys|
    ensures forall i :: 0 <= i < |t.keys| ==> names[i] == ValueAt(t, i).information.name
  {
    seq(|t.keys|, i requires 0 <= i < |t.keys| => ValueAt(t, i).information.name)
  }

  /** Each command's name paired with its registration position. */
  function IndexEntries(t: Tree): (es: seq<(string, nat)>)
    ensures |es| == |t.keys|
    ensures forall i :: 0 <= i < |t.keys| ==> es[i] == (ValueAt(t, i).information.name, i)
  {
    seq(|t.keys|, i requires 0 <= i < |t.keys| => (ValueAt(t, i).information.name, i as nat))
  }

  /** The table's keys, in order, each mapped to the position of the registered
      command whose entry it holds after all the `set` calls. */
  function TableIndex(t: Tree): OMap<string, nat> {
    FromEntries(IndexEntries(t), |t.keys|)
  }

  /** What `build` makes of each registered command's schema, in registration order. */
  function SchemaResults(t: Tree): (rs: seq<Result<CommandSchema, BuildError>>)
    ensures |rs| == |t.keys| && forall i :: 0 <= i < |t.keys| ==> rs[i] == CommandSchemaOf(ValueAt(t, i))
  {
    seq(|t.keys|, i requires 0 <= i < |t.keys| => CommandSchemaOf(ValueAt(t, i)))
  }

  /** The error `toDiscordCommands` throws: that of the first registered command
      `build` rejects, if any. */
  function FirstBuildError(t: Tree): Option<BuildError> {
    FirstFailure(SchemaResults(t), |t.keys|)
  }

  /** `toDiscordCommands` throws exactly when some registered command does not
      build, and then with the error of the first such command. */
  lemma FirstBuildErrorIsFirstRejected(t: Tree)
    ensures FirstBuildError(t).None? ==> forall i :: 0 <= i < |t.keys| ==> CommandSchemaOf(ValueAt(t, i)).Success?
    ensures FirstBuildError(t).Some? ==>
              exists i :: 0 <= i < |t.keys| && CommandSchemaOf(ValueAt(t, i)) == Failure(FirstBuildError(t).value)
                && forall j :: 0 <= j < i ==> CommandSchemaOf(ValueAt(t, j)).Success?
  {
    var rs := SchemaResults(t);
    if FirstBuildError(t).None? {
      forall i | 0 <= i < |t.keys| ensures CommandSchemaOf(ValueAt(t, i)).Success? {
        NoFirstFailure(rs, |t.keys|, i);
      }
    } else {
      var i := FirstFailureIsFirst(rs, |t.keys|);
      assert forall j :: 0 <= j < i ==> rs[j].Success?;
    }
  }

  /** The table's keys are exactly the registered commands' names and there
      are never more of them than command classes; a name no later registered
      command reuses holds that command's entry (an equal name registered later
      replaces it). When all names differ the table lists them in registration
      order, command `i` under name `i`. */
  lemma TableIndexProperties(t: Tree)
    ensures var index := TableIndex(t);
            var names := CommandNames(t);
            && (forall x :: x in index.values <==> x in names)
            && Size(index) <= |t.keys|
            && (forall k :: k in index.values ==> index.values[k] < |t.keys| && names[index.values[k]] == k)
            && (forall i :: 0 <= i < |names| && (forall j :: i < j < |names| ==> names[j] != names[i]) ==>
                  index.values[names[i]] == i)
            && (Distinct(names) ==> index.keys == names)
  {
    var es := IndexEntries(t);
    var names := CommandNames(t);
    assert KeysOf(es, |es|) == names;
    FromEntriesKeys(es, |es|);
    TableIndexPositions(t);
    TableIndexLastWins(t);
    if Distinct(names) {
      FromEntriesOrder(es, |es|);
    }
  }

  /** Each name in the index maps to a position holding that name. */
  lemma TableIndexPositions(t: Tree)
    ensures forall k :: k in TableIndex(t).values ==> TableIndex(t).values[k] < |t.keys| && CommandNames(t)[TableIndex(t).values[k]] == k
  {
    var es := IndexEntries(t);
    FromEntriesValues(es, |es|);
    forall k | k in TableIndex(t).values
      ensures TableIndex(t).values[k] < |t.keys| && CommandNames(t)[TableIndex(t).values[k]] == k
    {
      var i :| 0 <= i < |es| && es[i] == (k, TableIndex(t).values[k]);
    }
  }

  /** A name no later command reuses maps to its own position. */
  lemma TableIndexLastWins(t: Tree)
    ensures forall i :: 0 <= i < |t.keys| && (forall j :: i < j < |t.keys| ==> CommandNames(t)[j] != CommandNames(t)[i]) ==>
              CommandNames(t)[i] in TableIndex(t).values && TableIndex(t).values[CommandNames(t)[i]] == i
  {
    var es := IndexEntries(t);
    var names := CommandNames(t);
    forall i | 0 <= i < |t.keys| && (forall j :: i < j < |t.keys| ==> names[j] != names[i])
      ensures names[i] in TableIndex(t).values && TableIndex(t).values[names[i]] == i
    {
      FromEntriesLastWins(es, |es|, i);
    }
  }

  /** As written, no command in a built table carries a whitelist, whatever
      its declaration says: `build` reads `data.whitelist`, which a registry
      item never has. */
  lemma TableWhitelistsAbsent(table: CommandTable, t: Tree)
    requires TableBuilt(table, t, TableIndex(t))
    ensures forall name :: name in table.values ==> table.values[name].whitelist.None?
  {
    forall name | name in table.values
      ensures table.values[name].whitelist.None?
    {
      assert IsBuildOf()(table.values[name], Registered(t)[TableIndex(t).values[name]]);
    }
  }

  /** In a consistent registry, each built command's instance is of the class
      its registry item records as its `constructor`, and its schema is that
      item's. */
  lemma TableInstancesOfConstructors(table: CommandTable, t: Tree)
    requires Consistent(t) && TableBuilt(table, t, TableIndex(t))
    ensures forall name :: name in table.values ==>
              var c := table.values[name].command.cls;
              && c in t.values && t.values[c].cls == c
              && CommandSchemaOf(t.values[c]).Success?
              && table.values[name].cmd == CommandSchemaOf(t.values[c]).value
  {
    forall name | name in table.values
      ensures var c := table.values[name].command.cls;
              && c in t.values && t.values[c].cls == c
              && CommandSchemaOf(t.values[c]).Success?
              && table.values[name].cmd == CommandSchemaOf(t.values[c]).value
    {
      var i := TableIndex(t).values[name];
      assert IsBuildOf()(table.values[name], Registered(t)[i]);
      assert t.keys[i] in t.values;
    }
  }

  // ---------------------------------------------------------- the object

  class CommandRegistry {
    /** `_commands`, in insertion order. */
    var commands: Tree

    ghost predicate Valid()
      reads this
    {
      Consistent(commands)
    }

    constructor ()
      ensures commands == Empty() && Valid()
    {
      commands := Empty();
    }

    method RegisterCommand(c: Class, info: CommandInformation)
      modifies this
      requires Valid()
      ensures Valid()
      ensures commands == CommandTree.RegisterCommand(old(commands), c, info)
    {
      RegisterCommandConsistent(commands, c, info);
      commands := CommandTree.RegisterCommand(commands, c, info);
    }

    method RegisterOption(c: Class, key: string, o: OptionInfo) returns (r: Outcome<RegistryError>)
      modifies this
      requires Valid()
      ensures Valid()
      ensures var res := CommandTree.RegisterOption(old(commands), c, key, o);
              if res.Success? then r.Pass? && commands == res.value
              else r == Fail(res.error) && commands == old(commands)
    {
      var res := CommandTree.RegisterOption(commands, c, key, o);
      if res.Failure? {
        return Fail(res.error);
      }
      RegisterOptionConsistent(commands, c, key, o);
      commands := res.value;
      return Pass;
    }

    method RegisterSubcommand(c: Class, s: Class, info: SubcommandInformation) returns (r: Outcome<RegistryError>)
      modifies this
      requires Valid()
      ensures Valid()
      ensures var res := CommandTree.RegisterSubcommand(old(commands), c, s, info);
              if res.Success? then r.Pass? && commands == res.value
              else r == Fail(res.error) && commands == old(commands)
    {
      var res := CommandTree.RegisterSubcommand(commands, c, s, info);
      if res.Failure? {
        return Fail(res.error);
      }
      RegisterSubcommandConsistent(commands, c, s, info);
      commands := res.value;
      return Pass;
    }

    method RegisterSubcommandOption(c: Class, s: Class, key: string, o: OptionInfo) returns (r: Outcome<RegistryError>)
      modifies this
      requires Valid()
      ensures Valid()
      ensures var res := CommandTree.RegisterSubcommandOption(old(commands), c, s, key, o);
              if res.Success? then r.Pass? && commands == res.value
              else r == Fail(res.error) && commands == old(commands)
    {
      var res := CommandTree.RegisterSubcommandOption(commands, c, s, key, o);
      if res.Failure? {
        return Fail(res.error);
      }
      RegisterSubcommandOptionConsistent(commands, c, s, key, o);
      commands := res.value;
      return Pass;
    }

    method RegisterSubcommandGroup(c: Class, g: Class, info: SubcommandGroupInformation) returns (r: Outcome<RegistryError>)
      modifies this
      requires Valid()
      ensures Valid()
      ensures var res := CommandTree.RegisterSubcommandGroup(old(commands), c, g, info);
              if res.Success? then r.Pass? && commands == res.value
              else r == Fail(res.error) && commands == old(commands)
    {
      var res := CommandTree.RegisterSubcommandGroup(commands, c, g, info);
      if res.Failure? {
        return Fail(res.error);
      }
      RegisterSubcommandGroupConsistent(commands, c, g, info);
      commands := res.value;
      return Pass;
    }

    method RegisterSubcommandOfGroup(c: Class, g: Class, s: Class, info: SubcommandInformation) returns (r: Outcome<RegistryError>)
      modifies this
      requires Valid()
      ensures Valid()
      ensures var res := CommandTree.RegisterSubcommandOfGroup(old(commands), c, g, s, info);
              if res.Success? then r.Pass? && commands == res.value
              else r == Fail(res.error) && commands == old(commands)
    {
      var res := CommandTree.RegisterSubcommandOfGroup(commands, c, g, s, info);
      if res.Failure? {
        return Fail(res.error);
      }
      RegisterSubcommandOfGroupConsistent(commands, c, g, s, info);
      commands := res.value;
      return Pass;
    }

    method RegisterSubcommandOptionOfGroup(c: Class, g: Class, s: Class, key: string, o: OptionInfo)
        returns (r: Outcome<RegistryError>)
      modifies this
      requires Valid()
      ensures Valid()
      ensures var res := CommandTree.RegisterSubcommandOptionOfGroup(old(commands), c, g, s, key, o);
              if res.Success? then r.Pass? && commands == res.value
              else r == Fail(res.error) && commands == old(commands)
    {
      var res := CommandTree.RegisterSubcommandOptionOfGroup(commands, c, g, s, key, o);
      if res.Failure? {
        return Fail(res.error);
      }
      RegisterSubcommandOptionOfGroupConsistent(commands, c, g, s, key, o);
      commands := res.value;
      return Pass;
    }

    /** `isRegistered`. */
    method IsRegistered(c: Class) returns (b: bool)
      ensures b <==> c in commands.values
    {
      b := c in commands.values;
    }

    /** `toDiscordCommands`: each registered command, in registration order, is
        built with a new instance of its class and set into the table under its
        schema name. The first command `build` rejects ends the loop with its
        error. */
    method ToDiscordCommands() returns (r: Result<CommandTable, BuildError>)
      ensures r.Failure? <==> FirstBuildError(commands).Some?
      ensures r.Failure? ==> r.error == FirstBuildError(commands).value
      ensures r.Success? ==> TableBuilt(r.value, commands, TableIndex(commands))
    {
      var collection: CommandTable := Empty();
      ghost var entries: seq<(string, DiscordCommandInformation)> := [];
      var i := 0;
      while i < |commands.keys|
        invariant i == |entries| && Progress(commands, entries, collection)
      {
        var cmd := commands.keys[i];
        var info := ValueAt(commands, i);
        var cmdInformation := BuildCommand(cmd, info);
        if cmdInformation.Failure? {
          ProgressFails(commands, entries, collection);
          return Failure(cmdInformation.error);
        }
        var built := cmdInformation.value;
        ProgressStep(commands, entries, collection, built);
        collection := Set(collection, built.cmd.name, built);
        entries := entries + [(built.cmd.name, built)];
        i := i + 1;
      }
      ProgressDone(commands, entries, collection);
      return Success(collection);
    }
  }

  /** One iteration's build: a new instance of the command's class, then `build`. */
  method BuildCommand(cmd: Class, info: CommandRegistryItem) returns (r: Result<DiscordCommandInformation, BuildError>)
    ensures r.Failure? <==> CommandSchemaOf(info).Failure?
    ensures r.Failure? ==> r.error == CommandSchemaOf(info).error
    ensures r.Success? ==> BuiltFrom(r.value, cmd, info) && r.value.cmd.name == info.information.name
  {
    var command := new Handler(cmd);
    r := CommandBuilder.Build(command, info);
    if r.Success? {
      CommandSchemaNamed(info);
    }
  }
}
