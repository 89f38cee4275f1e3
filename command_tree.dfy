/** The command registry's state (the `CommandRegistryItem` tree of
    src/commands/commandRegistry.ts) and each `register*` operation as a
    function from the old tree to the new one, or to the error it throws. All
    checks come before the update, so a failing registration changes nothing. */
module CommandTree {
  import opened Wrappers
  import opened OrderedMaps
  import opened Types

  datatype SubcommandRegistryItem = SubcommandRegistryItem(
    cls: Class, information: SubcommandInformation, options: OMap<string, OptionInfo>)

  datatype SubcommandGroupRegistryItem = SubcommandGroupRegistryItem(
    cls: Class, information: SubcommandGroupInformation, subcommands: OMap<Class, SubcommandRegistryItem>)

  datatype CommandRegistryItem = CommandRegistryItem(
    cls: Class, information: CommandInformation,
    options: OMap<string, OptionInfo>,
    subcommands: OMap<Class, SubcommandRegistryItem>,
    groups: OMap<Class, SubcommandGroupRegistryItem>)

  /** The registry's `_commands` map, keyed by command class. */
  type Tree = OMap<Class, CommandRegistryItem>

  /** The errors the `register*` methods throw. Their messages interpolate the
      option key or the classes named here; `registerSubcommand` names the
      subcommand class in both places of its message. */
  datatype RegistryError =
    | OptionOutsideCommand(optionKey: string)
    | SubcommandNotPartOfCommand(subcommand: Class, named: Class)
    | GroupNotPartOfCommand(group: Class, command: Class)
    | OptionOutsideGroup(optionKey: string)

  function NewCommandItem(c: Class, info: CommandInformation): CommandRegistryItem {
    CommandRegistryItem(c, info, Empty(), Empty(), Empty())
  }

  function NewSubcommandItem(s: Class, info: SubcommandInformation): SubcommandRegistryItem {
    SubcommandRegistryItem(s, info, Empty())
  }

  function NewGroupItem(g: Class, info: SubcommandGroupInformation): SubcommandGroupRegistryItem {
    SubcommandGroupRegistryItem(g, info, Empty())
  }

  /** `registerCommand`: a known class only has its information replaced (its
      options, subcommands and groups stay); a new class gets an empty item. */
  function RegisterCommand(t: Tree, c: Class, info: CommandInformation): (r: Tree)
    ensures c in r.values && r.values[c].information == info
    ensures r.values.Keys == t.values.Keys + {c}
    ensures forall d :: d in t.values && d != c ==> d in r.values && r.values[d] == t.values[d]
    ensures c in t.values ==>
      && r.keys == t.keys
      && r.values[c].cls == t.values[c].cls
      && r.values[c].options == t.values[c].options
      && r.values[c].subcommands == t.values[c].subcommands
      && r.values[c].groups == t.values[c].groups
    ensures c !in t.values ==> r.keys == t.keys + [c] && r.values[c] == NewCommandItem(c, info)
  {
    if c in t.values then Set(t, c, t.values[c].(information := info))
    else Set(t, c, NewCommandItem(c, info))
  }

  /** `registerOption`. */
  function RegisterOption(t: Tree, c: Class, key: string, o: OptionInfo): (r: Result<Tree, RegistryError>)
    ensures r.Failure? <==> c !in t.values
    ensures r.Failure? ==> r.error == OptionOutsideCommand(key)
    ensures r.Success? ==>
      && r.value.keys == t.keys
      && r.value.values == t.values[c := t.values[c].(options := Set(t.values[c].options, key, o))]
  {
    if c !in t.values then Failure(OptionOutsideCommand(key))
    else
      var item := t.values[c];
      Success(Set(t, c, item.(options := Set(item.options, key, o))))
  }

  /** `registerSubcommand`: (re-)registering a subcommand gives it an empty
      option map, dropping any options it had. */
  function RegisterSubcommand(t: Tree, c: Class, s: Class, info: SubcommandInformation): (r: Result<Tree, RegistryError>)
    ensures r.Failure? <==> c !in t.values
    ensures r.Failure? ==> r.error == SubcommandNotPartOfCommand(s, s)
    ensures r.Success? ==>
      && r.value.keys == t.keys
      && r.value.values == t.values[c := t.values[c].(subcommands := Set(t.values[c].subcommands, s, NewSubcommandItem(s, info)))]
  {
    if c !in t.values then Failure(SubcommandNotPartOfCommand(s, s))
    else
      var item := t.values[c];
      Success(Set(t, c, item.(subcommands := Set(item.subcommands, s, NewSubcommandItem(s, info)))))
  }

  /** `registerSubcommandOption`: both the command and the subcommand must be
      registered; the command is checked first. */
  function RegisterSubcommandOption(t: Tree, c: Class, s: Class, key: string, o: OptionInfo): (r: Result<Tree, RegistryError>)
    ensures r.Failure? <==> c !in t.values || s !in t.values[c].subcommands.values
    ensures c !in t.values ==> r == Failure(SubcommandNotPartOfCommand(s, c))
    ensures c in t.values && s !in t.values[c].subcommands.values ==> r == Failure(OptionOutsideCommand(key))
    ensures r.Success? ==>
      var item := t.values[c];
      var sub := item.subcommands.values[s];
      && r.value.keys == t.keys
      && r.value.values == t.values[c := item.(subcommands := Set(item.subcommands, s, sub.(options := Set(sub.options, key, o))))]
  {
    if c !in t.values then Failure(SubcommandNotPartOfCommand(s, c))
    else
      var item := t.values[c];
      if s !in item.subcommands.values then Failure(OptionOutsideCommand(key))
      else
        var sub := item.subcommands.values[s];
        Success(Set(t, c, item.(subcommands := Set(item.subcommands, s, sub.(options := Set(sub.options, key, o))))))
  }

  /** `registerSubcommandGroup`: (re-)registering a group gives it an empty
      subcommand map. */
  function RegisterSubcommandGroup(t: Tree, c: Class, g: Class, info: SubcommandGroupInformation): (r: Result<Tree, RegistryError>)
    ensures r.Failure? <==> c !in t.values
    ensures r.Failure? ==> r.error == GroupNotPartOfCommand(g, c)
    ensures r.Success? ==>
      && r.value.keys == t.keys
      && r.value.values == t.values[c := t.values[c].(groups := Set(t.values[c].groups, g, NewGroupItem(g, info)))]
  {
    if c !in t.values then Failure(GroupNotPartOfCommand(g, c))
    else
      var item := t.values[c];
      Success(Set(t, c, item.(groups := Set(item.groups, g, NewGroupItem(g, info)))))
  }

  /** `registerSubcommandOfGroup`: the command, then the group, must be registered;
      (re-)registering the subcommand gives it an empty option map. */
  function RegisterSubcommandOfGroup(t: Tree, c: Class, g: Class, s: Class, info: SubcommandInformation): (r: Result<Tree, RegistryError>)
    ensures r.Failure? <==> c !in t.values || g !in t.values[c].groups.values
    ensures c !in t.values ==> r == Failure(SubcommandNotPartOfCommand(s, c))
    ensures c in t.values && g !in t.values[c].groups.values ==> r == Failure(GroupNotPartOfCommand(g, c))
    ensures r.Success? ==>
      var item := t.values[c];
      var group := item.groups.values[g];
      && r.value.keys == t.keys
      && r.value.values == t.values[c := item.(groups := Set(item.groups, g, group.(subcommands := Set(group.subcommands, s, NewSubcommandItem(s, info)))))]
  {
    if c !in t.values then Failure(SubcommandNotPartOfCommand(s, c))
    else
      var item := t.values[c];
      if g !in item.groups.values then Failure(GroupNotPartOfCommand(g, c))
      else
        var group := item.groups.values[g];
        Success(Set(t, c, item.(groups := Set(item.groups, g, group.(subcommands := Set(group.subcommands, s, NewSubcommandItem(s, info)))))))
  }

  /** `registerSubcommandOptionOfGroup`: the command, the group and the
      subcommand must be registered, checked in that order. */
  function RegisterSubcommandOptionOfGroup(t: Tree, c: Class, g: Class, s: Class, key: string, o: OptionInfo): (r: Result<Tree, RegistryError>)
    ensures r.Failure? <==>
      || c !in t.values
      || g !in t.values[c].groups.values
      || s !in t.values[c].groups.values[g].subcommands.values
    ensures c !in t.values ==> r == Failure(SubcommandNotPartOfCommand(s, c))
    ensures c in t.values && g !in t.values[c].groups.values ==> r == Failure(GroupNotPartOfCommand(g, c))
    ensures c in t.values && g in t.values[c].groups.values && s !in t.values[c].groups.values[g].subcommands.values ==>
      r == Failure(OptionOutsideGroup(key))
    ensures r.Success? ==>
      var item := t.values[c];
      var group := item.groups.values[g];
      var sub := group.subcommands.values[s];
      && r.value.keys == t.keys
      && r.value.values == t.values[c := item.(groups := Set(item.groups, g, group.(subcommands := Set(group.subcommands, s, sub.(options := Set(sub.options, key, o))))))]
  {
    if c !in t.values then Failure(SubcommandNotPartOfCommand(s, c))
    else
      var item := t.values[c];
      if g !in item.groups.values then Failure(GroupNotPartOfCommand(g, c))
      else
        var group := item.groups.values[g];
        if s !in group.subcommands.values then Failure(OptionOutsideGroup(key))
        else
          var sub := group.subcommands.values[s];
          Success(Set(t, c, item.(groups := Set(item.groups, g, group.(subcommands := Set(group.subcommands, s, sub.(options := Set(sub.options, key, o))))))))
  }

  // ------------------------------------------------------------ invariant

  /** Every registry item records the class it is keyed by, at every level of
      the tree (`constructor: command` and its analogues). */
  predicate SubcommandsConsistent(m: OMap<Class, SubcommandRegistryItem>) {
    forall s :: s in m.values ==> m.values[s].cls == s
  }

  predicate GroupsConsistent(m: OMap<Class, SubcommandGroupRegistryItem>) {
    forall g :: g in m.values ==> m.values[g].cls == g && SubcommandsConsistent(m.values[g].subcommands)
  }

  predicate Consistent(t: Tree) {
    forall c :: c in t.values ==>
      && t.values[c].cls == c
      && SubcommandsConsistent(t.values[c].subcommands)
      && GroupsConsistent(t.values[c].groups)
  }

  lemma EmptyConsistent()
    ensures Consistent(Empty())
  {
  }

  lemma RegisterCommandConsistent(t: Tree, c: Class, info: CommandInformation)
    requires Consistent(t)
    ensures Consistent(RegisterCommand(t, c, info))
  {
  }

  lemma RegisterOptionConsistent(t: Tree, c: Class, key: string, o: OptionInfo)
    requires Consistent(t) && RegisterOption(t, c, key, o).Success?
    ensures Consistent(RegisterOption(t, c, key, o).value)
  {
  }

  lemma RegisterSubcommandConsistent(t: Tree, c: Class, s: Class, info: SubcommandInformation)
    requires Consistent(t) && RegisterSubcommand(t, c, s, info).Success?
    ensures Consistent(RegisterSubcommand(t, c, s, info).value)
  {
  }

  lemma RegisterSubcommandOptionConsistent(t: Tree, c: Class, s: Class, key: string, o: OptionInfo)
    requires Consistent(t) && RegisterSubcommandOption(t, c, s, key, o).Success?
    ensures Consistent(RegisterSubcommandOption(t, c, s, key, o).value)
  {
  }

  lemma RegisterSubcommandGroupConsistent(t: Tree, c: Class, g: Class, info: SubcommandGroupInformation)
    requires Consistent(t) && RegisterSubcommandGroup(t, c, g, info).Success?
    ensures Consistent(RegisterSubcommandGroup(t, c, g, info).value)
  {
  }

  lemma RegisterSubcommandOfGroupConsistent(t: Tree, c: Class, g: Class, s: Class, info: SubcommandInformation)
    requires Consistent(t) && RegisterSubcommandOfGroup(t, c, g, s, info).Success?
    ensures Consistent(RegisterSubcommandOfGroup(t, c, g, s, info).value)
  {
  }

  lemma RegisterSubcommandOptionOfGroupConsistent(t: Tree, c: Class, g: Class, s: Class, key: string, o: OptionInfo)
    requires Consistent(t) && RegisterSubcommandOptionOfGroup(t, c, g, s, key, o).Success?
    ensures Consistent(RegisterSubcommandOptionOfGroup(t, c, g, s, key, o).value)
  {
    var item := t.values[c];
    var group := item.groups.values[g];
    var sub := group.subcommands.values[s];
    var subs' := Set(group.subcommands, s, sub.(options := Set(sub.options, key, o)));
    assert SubcommandsConsistent(subs');
    var groups' := Set(item.groups, g, group.(subcommands := subs'));
    assert GroupsConsistent(groups');
  }
}
