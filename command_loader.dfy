/** `CommandLoader` (src/commands/commandLoader.ts): reads the declarations on
    each command class and on the subcommand and group classes it names, and
    registers them in a new `CommandRegistry`. The metadata the decorators
    attach is the `Store`; an instance's own property names come from its
    class. */
module CommandLoader {
  import opened Wrappers
  import opened OrderedMaps
  import opened Types
  import opened Declarations
  import opened CommandTree
  import opened CommandRegistry

  /** The errors `load` throws: a class without its decorator, or an error
      from the registry (which the loader's own order never provokes). */
  datatype LoadError =
    | UnmarkedCommand(command: Class)
    | UnmarkedSubcommand(subcommand: Class)
    | UnmarkedGroup(group: Class)
    | Registry(error: RegistryError)

  function Lift(r: Result<Tree, RegistryError>): (l: Result<Tree, LoadError>)
    ensures l.Success? <==> r.Success?
    ensures r.Success? ==> l.value == r.value
    ensures r.Failure? ==> l.error == Registry(r.error)
  {
    match r
    case Success(v) => Success(v)
    case Failure(e) => Failure(Registry(e))
  }

  // ------------------------------------------------------ option targets

  /** Where an option loop registers: on a command, on one of its
      subcommands, or on a subcommand of one of its groups. */
  datatype OptionTarget =
    | OnCommand(c: Class)
    | OnSubcommand(c: Class, s: Class)
    | OnGroupSubcommand(c: Class, g: Class, s: Class)

  /** The registry call each option loop makes for one option. */
  function RegisterOptionAt(t: Tree, target: OptionTarget, key: string, o: OptionInfo): Result<Tree, RegistryError> {
    match target
    case OnCommand(c) => CommandTree.RegisterOption(t, c, key, o)
    case OnSubcommand(c, s) => CommandTree.RegisterSubcommandOption(t, c, s, key, o)
    case OnGroupSubcommand(c, g, s) => CommandTree.RegisterSubcommandOptionOfGroup(t, c, g, s, key, o)
  }

  predicate TargetExists(t: Tree, target: OptionTarget) {
    match target
    case OnCommand(c) => c in t.values
    case OnSubcommand(c, s) => c in t.values && s in t.values[c].subcommands.values
    case OnGroupSubcommand(c, g, s) =>
      c in t.values && g in t.values[c].groups.values && s in t.values[c].groups.values[g].subcommands.values
  }

  function OptionsAt(t: Tree, target: OptionTarget): OMap<string, OptionInfo>
    requires TargetExists(t, target)
  {
    match target
    case OnCommand(c) => t.values[c].options
    case OnSubcommand(c, s) => t.values[c].subcommands.values[s].options
    case OnGroupSubcommand(c, g, s) => t.values[c].groups.values[g].subcommands.values[s].options
  }

  /** The tree with the target's option map replaced and everything else kept. */
  function WithOptionsAt(t: Tree, target: OptionTarget, opts: OMap<string, OptionInfo>): (r: Tree)
    requires TargetExists(t, target)
    ensures r.keys == t.keys && r.values.Keys == t.values.Keys
    ensures TargetExists(r, target) && OptionsAt(r, target) == opts
  {
    match target
    case OnCommand(c) =>
      Set(t, c, t.values[c].(options := opts))
    case OnSubcommand(c, s) =>
      var item := t.values[c];
      var sub := item.subcommands.values[s];
      Set(t, c, item.(subcommands := Set(item.subcommands, s, sub.(options := opts))))
    case OnGroupSubcommand(c, g, s) =>
      var item := t.values[c];
      var group := item.groups.values[g];
      var sub := group.subcommands.values[s];
      Set(t, c, item.(groups := Set(item.groups, g, group.(subcommands := Set(group.subcommands, s, sub.(options := opts))))))
  }

  /** On an existing target, registering an option always succeeds and sets the
      option in that target's map alone. */
  lemma RegisterOptionAtTarget(t: Tree, target: OptionTarget, key: string, o: OptionInfo)
    requires TargetExists(t, target)
    ensures RegisterOptionAt(t, target, key, o) == Success(WithOptionsAt(t, target, Set(OptionsAt(t, target), key, o)))
  {
  }

  lemma WithOptionsAtTwice(t: Tree, target: OptionTarget, a: OMap<string, OptionInfo>, b: OMap<string, OptionInfo>)
    requires TargetExists(t, target)
    ensures WithOptionsAt(WithOptionsAt(t, target, a), target, b) == WithOptionsAt(t, target, b)
  {
    var item := t.values[target.c];
    match target
    case OnCommand(c) =>
      SetTwice(t, c, item.(options := a), item.(options := b));
    case OnSubcommand(c, s) =>
      var sub := item.subcommands.values[s];
      SetTwice(item.subcommands, s, sub.(options := a), sub.(options := b));
      SetTwice(t, c, item.(subcommands := Set(item.subcommands, s, sub.(options := a))),
                     item.(subcommands := Set(item.subcommands, s, sub.(options := b))));
    case OnGroupSubcommand(c, g, s) =>
      var group := item.groups.values[g];
      var sub := group.subcommands.values[s];
      SetTwice(group.subcommands, s, sub.(options := a), sub.(options := b));
      var groupA := group.(subcommands := Set(group.subcommands, s, sub.(options := a)));
      var groupB := group.(subcommands := Set(group.subcommands, s, sub.(options := b)));
      SetTwice(item.groups, g, groupA, groupB);
      SetTwice(t, c, item.(groups := Set(item.groups, g, groupA)), item.(groups := Set(item.groups, g, groupB)));
  }

  lemma WithOptionsAtSame(t: Tree, target: OptionTarget)
    requires TargetExists(t, target)
    ensures WithOptionsAt(t, target, OptionsAt(t, target)) == t
  {
    var item := t.values[target.c];
    match target
    case OnCommand(c) =>
      SetSame(t, c);
    case OnSubcommand(c, s) =>
      SetSame(item.subcommands, s);
      SetSame(t, c);
    case OnGroupSubcommand(c, g, s) =>
      var group := item.groups.values[g];
      SetSame(group.subcommands, s);
      SetSame(item.groups, g);
      SetSame(t, c);
  }

  /** The option map after adding, in order, those of the first `n` own
      properties that carry an option declaration. */
  function AddDeclared(opts: OMap<string, OptionInfo>, c: Class, options: map<(Class, string), OptionInfo>, n: nat): OMap<string, OptionInfo>
    requires n <= |c.ownProperties|
  {
    if n == 0 then opts
    else
      var prev := AddDeclared(opts, c, options, n - 1);
      var prop := c.ownProperties[n - 1];
      if (c, prop) in options then Set(prev, prop, options[(c, prop)]) else prev
  }

  /** The own properties, among the first `n`, that carry an option declaration. */
  function DeclaredProperties(c: Class, options: map<(Class, string), OptionInfo>, n: nat): seq<string>
    requires n <= |c.ownProperties|
  {
    if n == 0 then []
    else
      var prev := DeclaredProperties(c, options, n - 1);
      var prop := c.ownProperties[n - 1];
      if (c, prop) in options then prev + [prop] else prev
  }

  /** Starting from an empty map, the options registered are exactly the
      declared own properties, in property order, each with its declaration. */
  lemma {:induction false} AddDeclaredExactly(c: Class, options: map<(Class, string), OptionInfo>, n: nat)
    requires n <= |c.ownProperties| && Distinct(c.ownProperties)
    ensures var opts := AddDeclared(Empty(), c, options, n);
            && opts.keys == DeclaredProperties(c, options, n)
            && forall p :: p in opts.values ==> (c, p) in options && opts.values[p] == options[(c, p)]
    ensures forall p :: p in DeclaredProperties(c, options, n) ==> p in c.ownProperties[..n]
  {
    if n > 0 {
      AddDeclaredExactly(c, options, n - 1);
      var prop := c.ownProperties[n - 1];
      assert c.ownProperties[..n] == c.ownProperties[..n - 1] + [prop];
      assert prop !in c.ownProperties[..n - 1];
      KeysAreDomain(AddDeclared(Empty(), c, options, n - 1));
    }
  }

  /** One iteration of the option loop of `load`, `loadSubcommands` and
      `loadSubcommandsOfGroup`: a property with an option declaration is
      registered on the target, any other is skipped. */
  function OptionStep(target: OptionTarget, c: Class, options: map<(Class, string), OptionInfo>): (Tree, string) -> Result<Tree, RegistryError> {
    (u: Tree, prop: string) =>
      if (c, prop) in options then RegisterOptionAt(u, target, prop, options[(c, prop)]) else Success(u)
  }

  /** The option loop over the first `n` own properties of class `c`. */
  function OptionsLoaded(t: Tree, target: OptionTarget, c: Class, options: map<(Class, string), OptionInfo>, n: nat): Result<Tree, RegistryError>
    requires n <= |c.ownProperties|
  {
    Fold(t, c.ownProperties, OptionStep(target, c, options), n)
  }

  /** On an existing target the option loop cannot fail; it only changes that
      target's option map, adding the declared properties to it. */
  lemma {:induction false} LoadOptionsAtTarget(t: Tree, target: OptionTarget, c: Class, options: map<(Class, string), OptionInfo>, n: nat)
    requires n <= |c.ownProperties| && TargetExists(t, target)
    ensures OptionsLoaded(t, target, c, options, n) == Success(WithOptionsAt(t, target, AddDeclared(OptionsAt(t, target), c, options, n)))
  {
    if n == 0 {
      WithOptionsAtSame(t, target);
    } else {
      LoadOptionsAtTarget(t, target, c, options, n - 1);
      var before := AddDeclared(OptionsAt(t, target), c, options, n - 1);
      var mid := WithOptionsAt(t, target, before);
      var prop := c.ownProperties[n - 1];
      var step := OptionStep(target, c, options);
      assert OptionsLoaded(t, target, c, options, n) == step(mid, prop);
      if (c, prop) in options {
        var o := options[(c, prop)];
        assert step(mid, prop) == RegisterOptionAt(mid, target, prop, o);
        RegisterOptionAtTarget(mid, target, prop, o);
        assert AddDeclared(OptionsAt(t, target), c, options, n) == Set(before, prop, o);
        WithOptionsAtTwice(t, target, before, Set(before, prop, o));
      } else {
        assert step(mid, prop) == Success(mid);
      }
    }
  }

  // ------------------------------------------------------- the loader, specified

  /** One iteration of `loadSubcommands`: the subcommand, then its options. */
  function SubcommandLoaded(t: Tree, c: Class, s: Class, store: Store): Result<Tree, LoadError> {
    if s !in store.subcommands then Failure(UnmarkedSubcommand(s))
    else
      var registered :- Lift(CommandTree.RegisterSubcommand(t, c, s, store.subcommands[s]));
      Lift(OptionsLoaded(registered, OnSubcommand(c, s), s, store.options, |s.ownProperties|))
  }

  function SubcommandStep(c: Class, store: Store): (Tree, Class) -> Result<Tree, LoadError> {
    (u: Tree, s: Class) => SubcommandLoaded(u, c, s, store)
  }

  /** `loadSubcommands` over the first `n` subcommand classes. */
  function SubcommandsLoaded(t: Tree, c: Class, subs: seq<Class>, store: Store, n: nat): Result<Tree, LoadError>
    requires n <= |subs|
  {
    Fold(t, subs, SubcommandStep(c, store), n)
  }

  /** One iteration of `loadSubcommandsOfGroup`. */
  function GroupSubcommandLoaded(t: Tree, c: Class, g: Class, s: Class, store: Store): Result<Tree, LoadError> {
    if s !in store.subcommands then Failure(UnmarkedSubcommand(s))
    else
      var registered :- Lift(CommandTree.RegisterSubcommandOfGroup(t, c, g, s, store.subcommands[s]));
      Lift(OptionsLoaded(registered, OnGroupSubcommand(c, g, s), s, store.options, |s.ownProperties|))
  }

  function GroupSubcommandStep(c: Class, g: Class, store: Store): (Tree, Class) -> Result<Tree, LoadError> {
    (u: Tree, s: Class) => GroupSubcommandLoaded(u, c, g, s, store)
  }

  /** `loadSubcommandsOfGroup` over the first `n` subcommand classes. */
  function GroupSubcommandsLoaded(t: Tree, c: Class, g: Class, subs: seq<Class>, store: Store, n: nat): Result<Tree, LoadError>
    requires n <= |subs|
  {
    Fold(t, subs, GroupSubcommandStep(c, g, store), n)
  }

  /** One iteration of `loadSubcommandGroups`: the group, then its subcommands. */
  function GroupLoaded(t: Tree, c: Class, g: Class, store: Store): Result<Tree, LoadError> {
    if g !in store.groups then Failure(UnmarkedGroup(g))
    else
      var info := store.groups[g];
      var registered :- Lift(CommandTree.RegisterSubcommandGroup(t, c, g, info));
      GroupSubcommandsLoaded(registered, c, g, info.subcommands, store, |info.subcommands|)
  }

  function GroupStep(c: Class, store: Store): (Tree, Class) -> Result<Tree, LoadError> {
    (u: Tree, g: Class) => GroupLoaded(u, c, g, store)
  }

  /** `loadSubcommandGroups` over the first `n` group classes. */
  function GroupsLoaded(t: Tree, c: Class, groups: seq<Class>, store: Store, n: nat): Result<Tree, LoadError>
    requires n <= |groups|
  {
    Fold(t, groups, GroupStep(c, store), n)
  }

  /** The second half of `load`'s loop body, once the command and its options
      are registered: `loadSubcommands`, then `loadSubcommandGroups`. */
  function ChildrenLoaded(t: Tree, c: Class, info: CommandInformation, store: Store): Result<Tree, LoadError> {
    var withSubcommands :-
      if info.subcommands.None? then Success(t)
      else SubcommandsLoaded(t, c, info.subcommands.value, store, |info.subcommands.value|);
    if info.groups.None? then Success(withSubcommands)
    else GroupsLoaded(withSubcommands, c, info.groups.value, store, |info.groups.value|)
  }

  /** One iteration of `load`'s loop: the command, its options, its subcommands,
      its groups. */
  function CommandLoaded(t: Tree, c: Class, store: Store): Result<Tree, LoadError> {
    if c !in store.commands then Failure(UnmarkedCommand(c))
    else
      var info := store.commands[c];
      var registered := CommandTree.RegisterCommand(t, c, info);
      var withOptions :- Lift(OptionsLoaded(registered, OnCommand(c), c, store.options, |c.ownProperties|));
      ChildrenLoaded(withOptions, c, info, store)
  }

  function CommandStep(store: Store): (Tree, Class) -> Result<Tree, LoadError> {
    (u: Tree, c: Class) => CommandLoaded(u, c, store)
  }

  /** `load` over the first `n` command classes, from an empty registry. */
  function CommandsLoaded(commands: seq<Class>, store: Store, n: nat): Result<Tree, LoadError>
    requires n <= |commands|
  {
    Fold(Empty(), commands, CommandStep(store), n)
  }

  /** One more command: the loop either stops at the first error or loads the next class. */
  lemma CommandsLoadedNext(commands: seq<Class>, store: Store, n: nat)
    requires n <= |commands|
    ensures CommandsLoaded(commands, store, n).Failure? ==> CommandsLoaded(commands, store, |commands|) == CommandsLoaded(commands, store, n)
    ensures n < |commands| && CommandsLoaded(commands, store, n).Success? ==>
      CommandsLoaded(commands, store, n + 1) == CommandLoaded(CommandsLoaded(commands, store, n).value, commands[n], store)
  {
    if CommandsLoaded(commands, store, n).Failure? {
      FoldFailureSticks(Empty(), commands, CommandStep(store), n, |commands|);
    }
  }

  // ------------------------------------------------------------ properties

  /** Every class the loader meets carries its decorator. */
  predicate SubcommandsMarked(store: Store, subs: seq<Class>) {
    forall s :: s in subs ==> s in store.subcommands
  }

  predicate GroupsMarked(store: Store, groups: seq<Class>) {
    forall g :: g in groups ==> g in store.groups && SubcommandsMarked(store, store.groups[g].subcommands)
  }

  predicate ChildrenMarked(store: Store, info: CommandInformation) {
    && (info.subcommands.Some? ==> SubcommandsMarked(store, info.subcommands.value))
    && (info.groups.Some? ==> GroupsMarked(store, info.groups.value))
  }

  predicate FullyMarked(store: Store, c: Class) {
    c in store.commands && ChildrenMarked(store, store.commands[c])
  }

  lemma SubcommandsMarkedAt(store: Store, subs: seq<Class>)
    ensures SubcommandsMarked(store, subs) <==> forall i :: 0 <= i < |subs| ==> subs[i] in store.subcommands
  {
    if forall i :: 0 <= i < |subs| ==> subs[i] in store.subcommands {
      forall x | x in subs ensures x in store.subcommands {
        var i :| 0 <= i < |subs| && subs[i] == x;
      }
    }
  }

  lemma GroupsMarkedAt(store: Store, groups: seq<Class>)
    ensures GroupsMarked(store, groups) <==>
            forall i :: 0 <= i < |groups| ==> groups[i] in store.groups && SubcommandsMarked(store, store.groups[groups[i]].subcommands)
  {
    if forall i :: 0 <= i < |groups| ==> groups[i] in store.groups && SubcommandsMarked(store, store.groups[groups[i]].subcommands) {
      forall x | x in groups ensures x in store.groups && SubcommandsMarked(store, store.groups[x].subcommands) {
        var i :| 0 <= i < |groups| && groups[i] == x;
      }
    }
  }

  /** Under a registered command, one subcommand loads exactly when it is
      marked; it then holds exactly its declared options, and the command's
      own options and groups, and the set of commands, stay as they were. */
  lemma LoadSubcommandStep(t: Tree, c: Class, s: Class, store: Store)
    requires c in t.values
    ensures var r := SubcommandLoaded(t, c, s, store);
            && (r.Success? <==> s in store.subcommands)
            && (r.Failure? ==> r.error == UnmarkedSubcommand(s))
            && (r.Success? ==>
                  && r.value.values.Keys == t.values.Keys
                  && r.value.values[c].options == t.values[c].options
                  && r.value.values[c].groups == t.values[c].groups
                  && s in r.value.values[c].subcommands.values
                  && r.value.values[c].subcommands.values[s].options == AddDeclared(Empty(), s, store.options, |s.ownProperties|))
  {
    if s in store.subcommands {
      var registered := CommandTree.RegisterSubcommand(t, c, s, store.subcommands[s]).value;
      LoadOptionsAtTarget(registered, OnSubcommand(c, s), s, store.options, |s.ownProperties|);
    }
  }

  /** The same for a subcommand of a registered group. */
  lemma LoadSubcommandOfGroupStep(t: Tree, c: Class, g: Class, s: Class, store: Store)
    requires c in t.values && g in t.values[c].groups.values
    ensures var r := GroupSubcommandLoaded(t, c, g, s, store);
            && (r.Success? <==> s in store.subcommands)
            && (r.Failure? ==> r.error == UnmarkedSubcommand(s))
            && (r.Success? ==>
                  && r.value.values.Keys == t.values.Keys
                  && r.value.values[c].options == t.values[c].options
                  && g in r.value.values[c].groups.values
                  && s in r.value.values[c].groups.values[g].subcommands.values
                  && r.value.values[c].groups.values[g].subcommands.values[s].options == AddDeclared(Empty(), s, store.options, |s.ownProperties|))
  {
    if s in store.subcommands {
      var registered := CommandTree.RegisterSubcommandOfGroup(t, c, g, s, store.subcommands[s]).value;
      LoadOptionsAtTarget(registered, OnGroupSubcommand(c, g, s), s, store.options, |s.ownProperties|);
    }
  }

  /** Under a registered command, `loadSubcommands` never meets a registry
      error and fails exactly on an unmarked subcommand. */
  lemma LoadSubcommandsSound(t: Tree, c: Class, subs: seq<Class>, store: Store, n: nat)
    requires n <= |subs| && c in t.values
    ensures var r := SubcommandsLoaded(t, c, subs, store, n);
            && (r.Success? <==> forall i :: 0 <= i < n ==> subs[i] in store.subcommands)
            && (r.Failure? ==> r.error.UnmarkedSubcommand?)
            && (r.Success? ==>
                  && r.value.values.Keys == t.values.Keys
                  && r.value.values[c].options == t.values[c].options
                  && r.value.values[c].groups == t.values[c].groups)
  {
    var step := SubcommandStep(c, store);
    var inv := (u: Tree, i: nat) => c in u.values && u.values.Keys == t.values.Keys && u.values[c].options == t.values[c].options && u.values[c].groups == t.values[c].groups;
    var ok := (s: Class) => s in store.subcommands;
    var bad := (e: LoadError) => e.UnmarkedSubcommand?;
    forall u: Tree, i: nat | 0 <= i < |subs| && inv(u, i)
      ensures && (step(u, subs[i]).Success? <==> ok(subs[i]))
              && (step(u, subs[i]).Success? ==> inv(step(u, subs[i]).value, i + 1))
              && (step(u, subs[i]).Failure? ==> bad(step(u, subs[i]).error))
    {
      LoadSubcommandStep(u, c, subs[i], store);
    }
    FoldSound(t, subs, step, n, inv, ok, bad);
  }

  lemma LoadSubcommandsOfGroupSound(t: Tree, c: Class, g: Class, subs: seq<Class>, store: Store, n: nat)
    requires n <= |subs| && c in t.values && g in t.values[c].groups.values
    ensures var r := GroupSubcommandsLoaded(t, c, g, subs, store, n);
            && (r.Success? <==> forall i :: 0 <= i < n ==> subs[i] in store.subcommands)
            && (r.Failure? ==> r.error.UnmarkedSubcommand?)
            && (r.Success? ==>
                  && r.value.values.Keys == t.values.Keys
                  && r.value.values[c].options == t.values[c].options
                  && g in r.value.values[c].groups.values)
  {
    var step := GroupSubcommandStep(c, g, store);
    var inv := (u: Tree, i: nat) => c in u.values && u.values.Keys == t.values.Keys && u.values[c].options == t.values[c].options && g in u.values[c].groups.values;
    var ok := (s: Class) => s in store.subcommands;
    var bad := (e: LoadError) => e.UnmarkedSubcommand?;
    forall u: Tree, i: nat | 0 <= i < |subs| && inv(u, i)
      ensures && (step(u, subs[i]).Success? <==> ok(subs[i]))
              && (step(u, subs[i]).Success? ==> inv(step(u, subs[i]).value, i + 1))
              && (step(u, subs[i]).Failure? ==> bad(step(u, subs[i]).error))
    {
      LoadSubcommandOfGroupStep(u, c, g, subs[i], store);
    }
    FoldSound(t, subs, step, n, inv, ok, bad);
  }

  /** Under a registered command, one group loads exactly when it and its
      subcommands are marked. */
  lemma LoadSubcommandGroupStep(t: Tree, c: Class, g: Class, store: Store)
    requires c in t.values
    ensures var r := GroupLoaded(t, c, g, store);
            && (r.Success? <==> g in store.groups && SubcommandsMarked(store, store.groups[g].subcommands))
            && (r.Failure? ==> r.error == UnmarkedGroup(g) || r.error.UnmarkedSubcommand?)
            && (r.Success? ==>
                  && r.value.values.Keys == t.values.Keys
                  && r.value.values[c].options == t.values[c].options)
  {
    if g in store.groups {
      var info := store.groups[g];
      var registered := CommandTree.RegisterSubcommandGroup(t, c, g, info).value;
      LoadSubcommandsOfGroupSound(registered, c, g, info.subcommands, store, |info.subcommands|);
      SubcommandsMarkedAt(store, info.subcommands);
    }
  }

  lemma LoadSubcommandGroupsSound(t: Tree, c: Class, groups: seq<Class>, store: Store, n: nat)
    requires n <= |groups| && c in t.values
    ensures var r := GroupsLoaded(t, c, groups, store, n);
            && (r.Success? <==> forall i :: 0 <= i < n ==> groups[i] in store.groups && SubcommandsMarked(store, store.groups[groups[i]].subcommands))
            && (r.Failure? ==> r.error.UnmarkedGroup? || r.error.UnmarkedSubcommand?)
            && (r.Success? ==>
                  && r.value.values.Keys == t.values.Keys
                  && r.value.values[c].options == t.values[c].options)
  {
    var step := GroupStep(c, store);
    var inv := (u: Tree, i: nat) => c in u.values && u.values.Keys == t.values.Keys && u.values[c].options == t.values[c].options;
    var ok := (g: Class) => g in store.groups && SubcommandsMarked(store, store.groups[g].subcommands);
    var bad := (e: LoadError) => e.UnmarkedGroup? || e.UnmarkedSubcommand?;
    forall u: Tree, i: nat | 0 <= i < |groups| && inv(u, i)
      ensures && (step(u, groups[i]).Success? <==> ok(groups[i]))
              && (step(u, groups[i]).Success? ==> inv(step(u, groups[i]).value, i + 1))
              && (step(u, groups[i]).Failure? ==> bad(step(u, groups[i]).error))
    {
      LoadSubcommandGroupStep(u, c, groups[i], store);
    }
    FoldSound(t, groups, step, n, inv, ok, bad);
  }

  /** Under a registered command, its subcommands and groups load exactly
      when all of them are marked; they never meet a registry error and leave
      the set of commands and the command's own options as they were. */
  lemma ChildrenLoadedSound(t: Tree, c: Class, info: CommandInformation, store: Store)
    requires c in t.values
    ensures var r := ChildrenLoaded(t, c, info, store);
            && (r.Success? <==> ChildrenMarked(store, info))
            && (r.Failure? ==> !r.error.Registry?)
            && (r.Success? ==> r.value.values.Keys == t.values.Keys && r.value.values[c].options == t.values[c].options)
  {
    var mid := Success(t);
    if info.subcommands.Some? {
      var subs := info.subcommands.value;
      LoadSubcommandsSound(t, c, subs, store, |subs|);
      SubcommandsMarkedAt(store, subs);
      mid := SubcommandsLoaded(t, c, subs, store, |subs|);
    }
    if mid.Success? && info.groups.Some? {
      var groups := info.groups.value;
      LoadSubcommandGroupsSound(mid.value, c, groups, store, |groups|);
      GroupsMarkedAt(store, groups);
    }
  }

  /** One command loads exactly when it and every class it names carry their
      decorators; a failure is always an unmarked class, never a registry
      error, and success adds the command's class and no other. */
  lemma LoadCommandSound(t: Tree, c: Class, store: Store)
    ensures var r := CommandLoaded(t, c, store);
            && (r.Success? <==> FullyMarked(store, c))
            && (r.Failure? ==> !r.error.Registry?)
            && (r.Success? ==> forall d :: d in r.value.values <==> d in t.values || d == c)
  {
    if c in store.commands {
      var info := store.commands[c];
      var registered := CommandTree.RegisterCommand(t, c, info);
      LoadOptionsAtTarget(registered, OnCommand(c), c, store.options, |c.ownProperties|);
      var withOptions := WithOptionsAt(registered, OnCommand(c), AddDeclared(OptionsAt(registered, OnCommand(c)), c, store.options, |c.ownProperties|));
      ChildrenLoadedSound(withOptions, c, info, store);
    }
  }

  /** `load` succeeds exactly when every listed command is fully marked; it
      then registers exactly the listed classes, and it never fails with a
      registry error. */
  lemma LoadSound(commands: seq<Class>, store: Store, n: nat)
    requires n <= |commands|
    ensures var r := CommandsLoaded(commands, store, n);
            && (r.Success? <==> forall i :: 0 <= i < n ==> FullyMarked(store, commands[i]))
            && (r.Failure? ==> !r.error.Registry?)
            && (r.Success? ==> forall c :: c in r.value.values <==> c in commands[..n])
  {
    var step := CommandStep(store);
    var inv := (u: Tree, i: nat) => i <= |commands| && forall d :: d in u.values <==> d in commands[..i];
    var ok := (c: Class) => FullyMarked(store, c);
    var bad := (e: LoadError) => !e.Registry?;
    forall u: Tree, i: nat | 0 <= i < |commands| && inv(u, i)
      ensures && (step(u, commands[i]).Success? <==> ok(commands[i]))
              && (step(u, commands[i]).Success? ==> inv(step(u, commands[i]).value, i + 1))
              && (step(u, commands[i]).Failure? ==> bad(step(u, commands[i]).error))
    {
      LoadCommandSound(u, commands[i], store);
      assert commands[..i + 1] == commands[..i] + [commands[i]];
    }
    FoldSound(Empty(), commands, step, n, inv, ok, bad);
  }

  /** A newly loaded command's own options are exactly its declared own
      properties, in property order: neither its subcommands nor its groups
      touch them. */
  lemma LoadCommandOptions(t: Tree, c: Class, store: Store)
    requires c !in t.values && Distinct(c.ownProperties)
    requires CommandLoaded(t, c, store).Success?
    ensures c in CommandLoaded(t, c, store).value.values
    ensures var opts := CommandLoaded(t, c, store).value.values[c].options;
            && opts.keys == DeclaredProperties(c, store.options, |c.ownProperties|)
            && forall p :: p in opts.values ==> (c, p) in store.options && opts.values[p] == store.options[(c, p)]
  {
    var info := store.commands[c];
    var registered := CommandTree.RegisterCommand(t, c, info);
    LoadOptionsAtTarget(registered, OnCommand(c), c, store.options, |c.ownProperties|);
    AddDeclaredExactly(c, store.options, |c.ownProperties|);
    ChildrenLoadedSound(WithOptionsAt(registered, OnCommand(c), AddDeclared(Empty(), c, store.options, |c.ownProperties|)), c, info, store);
  }

  // ------------------------------------------------------------ the loader

  /** A method's outcome and new tree report the result `res` of the function
      it implements. */
  predicate Reports(res: Result<Tree, LoadError>, r: Outcome<LoadError>, t: Tree) {
    if res.Success? then r.Pass? && t == res.value else r == Fail(res.error)
  }

  /** One option registration, through the registry method the target calls for. */
  method RegisterOptionOn(reg: CommandRegistry, target: OptionTarget, key: string, o: OptionInfo) returns (r: Outcome<RegistryError>)
    modifies reg
    requires reg.Valid()
    ensures reg.Valid()
    ensures var res := RegisterOptionAt(old(reg.commands), target, key, o);
            if res.Success? then r.Pass? && reg.commands == res.value
            else r == Fail(res.error) && reg.commands == old(reg.commands)
  {
    match target
    case OnCommand(c) =>
      r := reg.RegisterOption(c, key, o);
    case OnSubcommand(c, s) =>
      r := reg.RegisterSubcommandOption(c, s, key, o);
    case OnGroupSubcommand(c, g, s) =>
      r := reg.RegisterSubcommandOptionOfGroup(c, g, s, key, o);
  }

  /** The option loop: every own property of a new instance of `c` that carries
      an option declaration is registered on `target`. */
  method RegisterDeclaredOptions(reg: CommandRegistry, target: OptionTarget, c: Class, store: Store) returns (r: Outcome<LoadError>)
    modifies reg
    requires reg.Valid()
    ensures reg.Valid()
    ensures var res := Lift(OptionsLoaded(old(reg.commands), target, c, store.options, |c.ownProperties|));
            Reports(res, r, reg.commands)
  {
    var instance := new Handler(c);
    var props := instance.cls.ownProperties;
    ghost var t0 := reg.commands;
    var i := 0;
    while i < |props|
      invariant 0 <= i <= |props| && reg.Valid()
      invariant OptionsLoaded(t0, target, c, store.options, i) == Success(reg.commands)
    {
      var prop := props[i];
      FoldNext(t0, props, OptionStep(target, c, store.options), i);
      if (c, prop) in store.options {
        ghost var before := reg.commands;
        var res := RegisterOptionOn(reg, target, prop, store.options[(c, prop)]);
        assert OptionStep(target, c, store.options)(before, prop) == RegisterOptionAt(before, target, prop, store.options[(c, prop)]);
        if res.Fail? {
          FoldFailureSticks(t0, props, OptionStep(target, c, store.options), i + 1, |props|);
          return Fail(Registry(res.error));
        }
      }
      i := i + 1;
    }
    return Pass;
  }

  /** The body of `loadSubcommands`' loop, for one subcommand class. */
  method LoadSubcommand(reg: CommandRegistry, c: Class, s: Class, store: Store) returns (r: Outcome<LoadError>)
    modifies reg
    requires reg.Valid()
    ensures reg.Valid()
    ensures var res := SubcommandLoaded(old(reg.commands), c, s, store);
            Reports(res, r, reg.commands)
  {
    if s !in store.subcommands {
      return Fail(UnmarkedSubcommand(s));
    }
    var res := reg.RegisterSubcommand(c, s, store.subcommands[s]);
    if res.Fail? {
      return Fail(Registry(res.error));
    }
    r := RegisterDeclaredOptions(reg, OnSubcommand(c, s), s, store);
  }

  /** `loadSubcommands`: nothing to do when the command lists no subcommands. */
  method LoadSubcommands(reg: CommandRegistry, c: Class, info: CommandInformation, store: Store) returns (r: Outcome<LoadError>)
    modifies reg
    requires reg.Valid()
    ensures reg.Valid()
    ensures var res := if info.subcommands.None? then Success(old(reg.commands))
                       else SubcommandsLoaded(old(reg.commands), c, info.subcommands.value, store, |info.subcommands.value|);
            Reports(res, r, reg.commands)
  {
    if info.subcommands.None? {
      return Pass;
    }
    var subs := info.subcommands.value;
    ghost var t0 := reg.commands;
    var i := 0;
    while i < |subs|
      invariant 0 <= i <= |subs| && reg.Valid()
      invariant SubcommandsLoaded(t0, c, subs, store, i) == Success(reg.commands)
    {
      ghost var before := reg.commands;
      r := LoadSubcommand(reg, c, subs[i], store);
      FoldNext(t0, subs, SubcommandStep(c, store), i);
      assert SubcommandStep(c, store)(before, subs[i]) == SubcommandLoaded(before, c, subs[i], store);
      if r.Fail? {
        FoldFailureSticks(t0, subs, SubcommandStep(c, store), i + 1, |subs|);
        return;
      }
      i := i + 1;
    }
    return Pass;
  }

  /** The body of `loadSubcommandsOfGroup`'s loop, for one subcommand class. */
  method LoadSubcommandOfGroup(reg: CommandRegistry, c: Class, g: Class, s: Class, store: Store) returns (r: Outcome<LoadError>)
    modifies reg
    requires reg.Valid()
    ensures reg.Valid()
    ensures var res := GroupSubcommandLoaded(old(reg.commands), c, g, s, store);
            Reports(res, r, reg.commands)
  {
    if s !in store.subcommands {
      return Fail(UnmarkedSubcommand(s));
    }
    var res := reg.RegisterSubcommandOfGroup(c, g, s, store.subcommands[s]);
    if res.Fail? {
      return Fail(Registry(res.error));
    }
    r := RegisterDeclaredOptions(reg, OnGroupSubcommand(c, g, s), s, store);
  }

  /** `loadSubcommandsOfGroup`. */
  method LoadSubcommandsOfGroup(reg: CommandRegistry, c: Class, g: Class, info: SubcommandGroupInformation, store: Store) returns (r: Outcome<LoadError>)
    modifies reg
    requires reg.Valid()
    ensures reg.Valid()
    ensures var res := GroupSubcommandsLoaded(old(reg.commands), c, g, info.subcommands, store, |info.subcommands|);
            Reports(res, r, reg.commands)
  {
    var subs := info.subcommands;
    ghost var t0 := reg.commands;
    var i := 0;
    while i < |subs|
      invariant 0 <= i <= |subs| && reg.Valid()
      invariant GroupSubcommandsLoaded(t0, c, g, subs, store, i) == Success(reg.commands)
    {
      ghost var before := reg.commands;
      r := LoadSubcommandOfGroup(reg, c, g, subs[i], store);
      FoldNext(t0, subs, GroupSubcommandStep(c, g, store), i);
      assert GroupSubcommandStep(c, g, store)(before, subs[i]) == GroupSubcommandLoaded(before, c, g, subs[i], store);
      if r.Fail? {
        FoldFailureSticks(t0, subs, GroupSubcommandStep(c, g, store), i + 1, |subs|);
        return;
      }
      i := i + 1;
    }
    return Pass;
  }

  /** The body of `loadSubcommandGroups`' loop, for one group class. */
  method LoadSubcommandGroup(reg: CommandRegistry, c: Class, g: Class, store: Store) returns (r: Outcome<LoadError>)
    modifies reg
    requires reg.Valid()
    ensures reg.Valid()
    ensures var res := GroupLoaded(old(reg.commands), c, g, store);
            Reports(res, r, reg.commands)
  {
    if g !in store.groups {
      return Fail(UnmarkedGroup(g));
    }
    var info := store.groups[g];
    var res := reg.RegisterSubcommandGroup(c, g, info);
    if res.Fail? {
      return Fail(Registry(res.error));
    }
    r := LoadSubcommandsOfGroup(reg, c, g, info, store);
  }

  /** `loadSubcommandGroups`: nothing to do when the command lists no groups. */
  method LoadSubcommandGroups(reg: CommandRegistry, c: Class, info: CommandInformation, store: Store) returns (r: Outcome<LoadError>)
    modifies reg
    requires reg.Valid()
    ensures reg.Valid()
    ensures var res := if info.groups.None? then Success(old(reg.commands))
                       else GroupsLoaded(old(reg.commands), c, info.groups.value, store, |info.groups.value|);
            Reports(res, r, reg.commands)
  {
    if info.groups.None? {
      return Pass;
    }
    var groups := info.groups.value;
    ghost var t0 := reg.commands;
    var i := 0;
    while i < |groups|
      invariant 0 <= i <= |groups| && reg.Valid()
      invariant GroupsLoaded(t0, c, groups, store, i) == Success(reg.commands)
    {
      ghost var before := reg.commands;
      r := LoadSubcommandGroup(reg, c, groups[i], store);
      FoldNext(t0, groups, GroupStep(c, store), i);
      assert GroupStep(c, store)(before, groups[i]) == GroupLoaded(before, c, groups[i], store);
      if r.Fail? {
        FoldFailureSticks(t0, groups, GroupStep(c, store), i + 1, |groups|);
        return;
      }
      i := i + 1;
    }
    return Pass;
  }

  /** `loadSubcommands`, then `loadSubcommandGroups`. */
  method LoadChildren(reg: CommandRegistry, c: Class, info: CommandInformation, store: Store) returns (r: Outcome<LoadError>)
    modifies reg
    requires reg.Valid()
    ensures reg.Valid()
    ensures Reports(ChildrenLoaded(old(reg.commands), c, info, store), r, reg.commands)
  {
    r := LoadSubcommands(reg, c, info, store);
    if r.Fail? {
      return;
    }
    r := LoadSubcommandGroups(reg, c, info, store);
  }

  /** The body of `load`'s loop, for one command class. */
  method LoadCommand(reg: CommandRegistry, c: Class, store: Store) returns (r: Outcome<LoadError>)
    modifies reg
    requires reg.Valid()
    ensures reg.Valid()
    ensures var res := CommandLoaded(old(reg.commands), c, store);
            Reports(res, r, reg.commands)
  {
    if c !in store.commands {
      return Fail(UnmarkedCommand(c));
    }
    var info := store.commands[c];
    reg.RegisterCommand(c, info);
    r := RegisterDeclaredOptions(reg, OnCommand(c), c, store);
    if r.Fail? {
      return;
    }
    r := LoadChildren(reg, c, info, store);
  }

  /** The state of `load`'s loop after the first `i` command classes: they
      loaded into `t`. Reached through `depth` unfoldings, like `OMap`'s
      constraint, so that the loop's proof does not expand `CommandsLoaded`. */
  ghost predicate CommandsLoadedUpTo(commands: seq<Class>, store: Store, i: nat, t: Tree, depth: nat)
    decreases depth
  {
    if depth == 0 then i <= |commands| && CommandsLoaded(commands, store, i) == Success(t)
    else CommandsLoadedUpTo(commands, store, i, t, depth - 1)
  }

  lemma {:induction false} CommandsLoadedUnsealed(commands: seq<Class>, store: Store, i: nat, t: Tree, depth: nat)
    ensures CommandsLoadedUpTo(commands, store, i, t, depth) <==> i <= |commands| && CommandsLoaded(commands, store, i) == Success(t)
    decreases depth
  {
    if depth > 0 {
      CommandsLoadedUnsealed(commands, store, i, t, depth - 1);
    }
  }

  /** `load`'s loop starts from the empty registry. */
  lemma LoadCommandsStart(commands: seq<Class>, store: Store)
    ensures CommandsLoadedUpTo(commands, store, 0, Empty(), 1)
  {
    CommandsLoadedUnsealed(commands, store, 0, Empty(), 1);
  }

  /** After the last class, the loop's state is `load`'s result. */
  lemma LoadCommandsDone(commands: seq<Class>, store: Store, t: Tree)
    requires CommandsLoadedUpTo(commands, store, |commands|, t, |commands| + 1)
    ensures Reports(CommandsLoaded(commands, store, |commands|), Pass, t)
  {
    CommandsLoadedUnsealed(commands, store, |commands|, t, |commands| + 1);
  }

  /** One command of `load`'s loop: a failure is the loop's outcome, a
      success extends the prefix loaded. */
  lemma LoadCommandsStep(commands: seq<Class>, store: Store, i: nat, before: Tree, r: Outcome<LoadError>, after: Tree)
    requires i < |commands| && CommandsLoadedUpTo(commands, store, i, before, i + 1)
    requires Reports(CommandLoaded(before, commands[i], store), r, after)
    ensures r.Fail? ==> Reports(CommandsLoaded(commands, store, |commands|), r, after)
    ensures r.Pass? ==> CommandsLoadedUpTo(commands, store, i + 1, after, i + 2)
  {
    CommandsLoadedUnsealed(commands, store, i, before, i + 1);
    CommandsLoadedUnsealed(commands, store, i + 1, after, i + 2);
    CommandsLoadedNext(commands, store, i);
    if r.Fail? {
      CommandsLoadedNext(commands, store, i + 1);
    }
  }

  /** `load`'s loop, run on a registry that starts out empty. */
  method LoadCommands(reg: CommandRegistry, commands: seq<Class>, store: Store) returns (r: Outcome<LoadError>)
    modifies reg
    requires reg.Valid() && reg.commands == Empty()
    ensures reg.Valid()
    ensures Reports(CommandsLoaded(commands, store, |commands|), r, reg.commands)
  {
    var i := 0;
    LoadCommandsStart(commands, store);
    while i < |commands|
      invariant i <= |commands| && reg.Valid() && CommandsLoadedUpTo(commands, store, i, reg.commands, i + 1)
    {
      ghost var before := reg.commands;
      r := LoadCommand(reg, commands[i], store);
      LoadCommandsStep(commands, store, i, before, r, reg.commands);
      if r.Fail? {
        return;
      }
      i := i + 1;
    }
    LoadCommandsDone(commands, store, reg.commands);
    return Pass;
  }

  /** `CommandLoader.load`: a new registry holding every listed command, or the
      error of the first class found unmarked. */
  method Load(commands: seq<Class>, store: Store) returns (r: Result<CommandRegistry, LoadError>)
    ensures var res := CommandsLoaded(commands, store, |commands|);
            && (r.Success? <==> res.Success?)
            && (r.Success? ==> fresh(r.value) && r.value.Valid() && r.value.commands == res.value)
            && (r.Failure? ==> r.error == res.error)
  {
    var reg := new CommandRegistry();
    var outcome := LoadCommands(reg, commands, store);
    if outcome.Fail? {
      return Failure(outcome.error);
    }
    return Success(reg);
  }
}
