/** src/commands/commandBuilder.ts: turns one registry item into its wire schema
    and its runtime lookup, in the same loops. */
module CommandBuilder {
  import opened Wrappers
  import opened OrderedMaps
  import opened Types
  import opened CommandTree

  /** `createOption`'s default branch: "Unknown option type". */
  datatype BuildError = UnknownOptionType

  function Message(e: BuildError): string {
    "Unknown option type"
  }

  // ----------------------------------------------------------------- options

  /** Choices are added only when the list is present and not empty. */
  function ChoicesToAdd<T>(choices: Option<seq<T>>): (r: Option<seq<T>>)
    ensures r.Some? <==> choices.Some? && |choices.value| > 0
    ensures r.Some? ==> r == choices
  {
    if choices.Some? && |choices.value| > 0 then choices else None
  }

  /** `createStringOption`: the wire name is the property key. */
  function CreateStringOption(prop: string, description: string, isRequired: bool,
                              choices: Option<seq<OptionChoice<string>>>): (r: OptionSchema)
    ensures SchemaType(r) == String && r.name == prop && r.description == description && r.required == isRequired
    ensures r.stringChoices.Some? <==> choices.Some? && |choices.value| > 0
    ensures r.stringChoices.Some? ==> r.stringChoices == choices
  {
    StringOptionSchema(prop, description, isRequired, ChoicesToAdd(choices))
  }

  /** `createNumberOption`: min and max are set only when defined. */
  function CreateNumberOption(prop: string, description: string, isRequired: bool,
                              choices: Option<seq<OptionChoice<real>>>, min: Option<real>, max: Option<real>): (r: OptionSchema)
    ensures SchemaType(r) == Number && r.name == prop && r.description == description && r.required == isRequired
    ensures r.numberChoices.Some? <==> choices.Some? && |choices.value| > 0
    ensures r.numberChoices.Some? ==> r.numberChoices == choices
    ensures r.minValue == min && r.maxValue == max
  {
    NumberOptionSchema(prop, description, isRequired, ChoicesToAdd(choices), min, max)
  }

  /** `createIntegerOption`. */
  function CreateIntegerOption(prop: string, description: string, isRequired: bool,
                               choices: Option<seq<OptionChoice<real>>>, min: Option<real>, max: Option<real>): (r: OptionSchema)
    ensures SchemaType(r) == Integer && r.name == prop && r.description == description && r.required == isRequired
    ensures r.numberChoices.Some? <==> choices.Some? && |choices.value| > 0
    ensures r.numberChoices.Some? ==> r.numberChoices == choices
    ensures r.minValue == min && r.maxValue == max
  {
    IntegerOptionSchema(prop, description, isRequired, ChoicesToAdd(choices), min, max)
  }

  /** `createBooleanOption`, `createUserOption`, `createChannelOption`,
      `createAttachmentOption`, `createMentionableOption`, `createRoleOption`:
      identical but for the builder method, so one function over the six types. */
  function CreatePlainOption(t: PlainOptionType, prop: string, description: string, isRequired: bool): (r: OptionSchema)
    ensures SchemaType(r) == t && r.name == prop && r.description == description && r.required == isRequired
  {
    PlainOptionSchema(t, prop, description, isRequired)
  }

  /** The option type a schema entry declares on the wire. */
  function SchemaType(o: OptionSchema): OptionType {
    match o
    case StringOptionSchema(_, _, _, _) => String
    case NumberOptionSchema(_, _, _, _, _, _) => Number
    case IntegerOptionSchema(_, _, _, _, _, _) => Integer
    case PlainOptionSchema(t, _, _, _) => t
  }

  /** `createOption`: each of the nine types goes to its own constructor, which
      names the entry after the property key and copies description and required
      flag; bounds appear only on Number and Integer entries and only when
      defined; anything else throws "Unknown option type". */
  function CreateOption(prop: string, info: OptionInfo): (r: Result<OptionSchema, BuildError>)
    ensures r.Failure? <==> TypeOf(info).None?
    ensures r.Success? ==>
      && SchemaType(r.value) == TypeOf(info).value
      && r.value.name == prop
      && r.value.description == info.description
      && r.value.required == info.isRequired
    ensures r.Success? && (info.NumberOption? || info.IntegerOption?) ==>
      r.value.minValue == info.min && r.value.maxValue == info.max
    ensures r.Success? && info.StringOption? ==>
      (r.value.stringChoices.Some? <==> info.stringChoices.Some? && |info.stringChoices.value| > 0)
    ensures r.Success? && (info.NumberOption? || info.IntegerOption?) ==>
      (r.value.numberChoices.Some? <==> info.numberChoices.Some? && |info.numberChoices.value| > 0)
  {
    match info
    case StringOption(d, req, ch) => Success(CreateStringOption(prop, d, req, ch))
    case NumberOption(d, req, ch, mn, mx) => Success(CreateNumberOption(prop, d, req, ch, mn, mx))
    case IntegerOption(d, req, ch, mn, mx) => Success(CreateIntegerOption(prop, d, req, ch, mn, mx))
    case PlainOption(t, d, req) => Success(CreatePlainOption(t, prop, d, req))
    case UndeclaredOption(_, _, _) => Failure(UnknownOptionType)
  }

  /** The schema entries of the first `n` options in insertion order, or the
      error of the first of them that fails. */
  function OptionSchemas(opts: OMap<string, OptionInfo>, n: nat): Result<seq<OptionSchema>, BuildError>
    requires n <= |opts.keys|
  {
    if n == 0 then Success([])
    else
      var prefix :- OptionSchemas(opts, n - 1);
      var o :- CreateOption(opts.keys[n - 1], ValueAt(opts, n - 1));
      Success(prefix + [o])
  }

  function AllOptionSchemas(opts: OMap<string, OptionInfo>): Result<seq<OptionSchema>, BuildError> {
    OptionSchemas(opts, |opts.keys|)
  }

  /** Once a prefix of the options fails, every longer prefix fails the same way. */
  lemma {:induction false} OptionSchemasFailureSticks(opts: OMap<string, OptionInfo>, n: nat, m: nat)
    requires n <= m <= |opts.keys|
    requires OptionSchemas(opts, n).Failure?
    ensures OptionSchemas(opts, m) == OptionSchemas(opts, n)
    decreases m - n
  {
    if n < m {
      OptionSchemasFailureSticks(opts, n, m - 1);
    }
  }

  /** Schema options come out in the option map's insertion order, one per key,
      named after the key; building fails exactly when some option has a type
      outside the nine. */
  lemma {:induction false} OptionSchemasInOrder(opts: OMap<string, OptionInfo>, n: nat)
    requires n <= |opts.keys|
    ensures OptionSchemas(opts, n).Failure? <==> exists i :: 0 <= i < n && TypeOf(ValueAt(opts, i)).None?
    ensures OptionSchemas(opts, n).Success? ==>
      var os := OptionSchemas(opts, n).value;
      && |os| == n
      && forall i :: 0 <= i < n ==>
           os[i] == CreateOption(opts.keys[i], ValueAt(opts, i)).value && os[i].name == opts.keys[i]
  {
    if n > 0 {
      OptionSchemasInOrder(opts, n - 1);
      var k := opts.keys[n - 1];
      if OptionSchemas(opts, n - 1).Success? && CreateOption(k, ValueAt(opts, n - 1)).Success? {
        var os := OptionSchemas(opts, n).value;
        assert os == OptionSchemas(opts, n - 1).value + [CreateOption(k, ValueAt(opts, n - 1)).value];
      }
    }
  }

  // -------------------------------------------------------- schema for items

  function SubcommandSchemaOf(item: SubcommandRegistryItem): Result<SubcommandSchema, BuildError> {
    var os :- AllOptionSchemas(item.options);
    Success(SubcommandSchema(item.information.name, item.information.description, os))
  }

  /** Schemas of the first `n` subcommands of a map, in insertion order. */
  function SubcommandSchemas(subs: OMap<Class, SubcommandRegistryItem>, n: nat): Result<seq<SubcommandSchema>, BuildError>
    requires n <= |subs.keys|
  {
    if n == 0 then Success([])
    else
      var prefix :- SubcommandSchemas(subs, n - 1);
      var s :- SubcommandSchemaOf(ValueAt(subs, n - 1));
      Success(prefix + [s])
  }

  lemma {:induction false} SubcommandSchemasFailureSticks(subs: OMap<Class, SubcommandRegistryItem>, n: nat, m: nat)
    requires n <= m <= |subs.keys|
    requires SubcommandSchemas(subs, n).Failure?
    ensures SubcommandSchemas(subs, m) == SubcommandSchemas(subs, n)
    decreases m - n
  {
    if n < m {
      SubcommandSchemasFailureSticks(subs, n, m - 1);
    }
  }

  function GroupSchemaOf(group: SubcommandGroupRegistryItem): Result<SubcommandGroupSchema, BuildError> {
    var ss :- SubcommandSchemas(group.subcommands, |group.subcommands.keys|);
    Success(SubcommandGroupSchema(group.information.name, group.information.description, ss))
  }

  function GroupSchemas(groups: OMap<Class, SubcommandGroupRegistryItem>, n: nat): Result<seq<SubcommandGroupSchema>, BuildError>
    requires n <= |groups.keys|
  {
    if n == 0 then Success([])
    else
      var prefix :- GroupSchemas(groups, n - 1);
      var g :- GroupSchemaOf(ValueAt(groups, n - 1));
      Success(prefix + [g])
  }

  lemma {:induction false} GroupSchemasFailureSticks(groups: OMap<Class, SubcommandGroupRegistryItem>, n: nat, m: nat)
    requires n <= m <= |groups.keys|
    requires GroupSchemas(groups, n).Failure?
    ensures GroupSchemas(groups, m) == GroupSchemas(groups, n)
    decreases m - n
  {
    if n < m {
      GroupSchemasFailureSticks(groups, n, m - 1);
    }
  }

  /** The wire schema `build` produces for a registry item, or the first error:
      options, then subcommands, then groups. */
  function CommandSchemaOf(data: CommandRegistryItem): Result<CommandSchema, BuildError>   {
    var os :- AllOptionSchemas(data.options);
    var ss :- SubcommandSchemas(data.subcommands, |data.subcommands.keys|);
    var gs :- GroupSchemas(data.groups, |data.groups.keys|);
    Success(CommandSchema(data.information.name, data.information.description, os, ss, gs))
  }
  /** A built command carries its declared name and description. */
  lemma CommandSchemaNamed(data: CommandRegistryItem)
    requires CommandSchemaOf(data).Success?
    ensures CommandSchemaOf(data).value.name == data.information.name
    ensures CommandSchemaOf(data).value.description == data.information.description
  {
  }


  // ---------------------------------------------------- runtime lookup shape

  /** A runtime subcommand entry with its fresh instance replaced by the
      instance's class. */
  datatype SubcommandShape = SubcommandShape(options: OMap<string, OptionInfo>, cls: Class)

  datatype GroupShape = GroupShape(cls: Class, subcommands: OMap<string, SubcommandShape>)

  /** The (name, entry) pairs `build` sets into a subcommand collection, one
      per registry subcommand in insertion order; the instance is a new object
      of the registry key's class. */
  function SubcommandEntries(subs: OMap<Class, SubcommandRegistryItem>): (es: seq<(string, SubcommandShape)>)
    ensures |es| == |subs.keys|
    ensures forall i :: 0 <= i < |es| ==>
      es[i] == (ValueAt(subs, i).information.name, SubcommandShape(ValueAt(subs, i).options, subs.keys[i]))
  {
    seq(|subs.keys|, i requires 0 <= i < |subs.keys| =>
      (ValueAt(subs, i).information.name, SubcommandShape(ValueAt(subs, i).options, subs.keys[i])))
  }

  /** The name-keyed runtime lookup of the first `n` subcommands of a map: a
      later subcommand with an equal name overwrites an earlier one. */
  function SubcommandLookupUpTo(subs: OMap<Class, SubcommandRegistryItem>, n: nat): OMap<string, SubcommandShape>
    requires n <= |subs.keys|
  {
    if n == 0 then Empty()
    else Set(SubcommandLookupUpTo(subs, n - 1), ValueAt(subs, n - 1).information.name,
             SubcommandShape(ValueAt(subs, n - 1).options, subs.keys[n - 1]))
  }

  function SubcommandLookup(subs: OMap<Class, SubcommandRegistryItem>): OMap<string, SubcommandShape> {
    SubcommandLookupUpTo(subs, |subs.keys|)
  }

  /** The lookup is the map obtained by setting the entries in turn. */
  lemma {:induction false} SubcommandLookupIsFromEntries(subs: OMap<Class, SubcommandRegistryItem>, n: nat)
    requires n <= |subs.keys|
    ensures SubcommandLookupUpTo(subs, n) == FromEntries(SubcommandEntries(subs), n)
  {
    if n > 0 {
      SubcommandLookupIsFromEntries(subs, n - 1);
    }
  }

  function GroupEntries(groups: OMap<Class, SubcommandGroupRegistryItem>): (es: seq<(string, GroupShape)>)
    ensures |es| == |groups.keys|
    ensures forall i :: 0 <= i < |es| ==>
      es[i] == (ValueAt(groups, i).information.name,
                GroupShape(groups.keys[i], SubcommandLookup(ValueAt(groups, i).subcommands)))
  {
    seq(|groups.keys|, i requires 0 <= i < |groups.keys| =>
      (ValueAt(groups, i).information.name,
       GroupShape(groups.keys[i], SubcommandLookup(ValueAt(groups, i).subcommands))))
  }

  /** The name-keyed runtime lookup of the first `n` groups; each entry nests
      the lookup of the group's own subcommands. */
  function GroupLookupUpTo(groups: OMap<Class, SubcommandGroupRegistryItem>, n: nat): OMap<string, GroupShape>
    requires n <= |groups.keys|
  {
    if n == 0 then Empty()
    else Set(GroupLookupUpTo(groups, n - 1), ValueAt(groups, n - 1).information.name,
             GroupShape(groups.keys[n - 1], SubcommandLookup(ValueAt(groups, n - 1).subcommands)))
  }

  function GroupLookup(groups: OMap<Class, SubcommandGroupRegistryItem>): OMap<string, GroupShape> {
    GroupLookupUpTo(groups, |groups.keys|)
  }

  lemma {:induction false} GroupLookupIsFromEntries(groups: OMap<Class, SubcommandGroupRegistryItem>, n: nat)
    requires n <= |groups.keys|
    ensures GroupLookupUpTo(groups, n) == FromEntries(GroupEntries(groups), n)
  {
    if n > 0 {
      GroupLookupIsFromEntries(groups, n - 1);
    }
  }

  function SubcommandEntryShape(e: DiscordSubcommandInformation): SubcommandShape {
    SubcommandShape(e.options, e.command.cls)
  }

  function EraseSubcommands(m: OMap<string, DiscordSubcommandInformation>): (r: OMap<string, SubcommandShape>)
    ensures r.keys == m.keys && r.values.Keys == m.values.Keys
    ensures forall k :: k in r.values ==> r.values[k] == SubcommandEntryShape(m.values[k])
  {
    Unsealed(m);
    Sealing(RawMap(m.keys, map k | k in m.values :: SubcommandEntryShape(m.values[k])))
  }

  function GroupEntryShape(e: DiscordSubcommandGroupInformation): GroupShape {
    GroupShape(e.command.cls, EraseSubcommands(e.subcommands))
  }

  function EraseGroups(m: OMap<string, DiscordSubcommandGroupInformation>): (r: OMap<string, GroupShape>)
    ensures r.keys == m.keys && r.values.Keys == m.values.Keys
    ensures forall k :: k in r.values ==> r.values[k] == GroupEntryShape(m.values[k])
  {
    Unsealed(m);
    Sealing(RawMap(m.keys, map k | k in m.values :: GroupEntryShape(m.values[k])))
  }

  lemma EraseSubcommandsSet(m: OMap<string, DiscordSubcommandInformation>, k: string, e: DiscordSubcommandInformation)
    ensures EraseSubcommands(Set(m, k, e)) == Set(EraseSubcommands(m), k, SubcommandEntryShape(e))
  {
  }

  lemma EraseGroupsSet(m: OMap<string, DiscordSubcommandGroupInformation>, k: string, e: DiscordSubcommandGroupInformation)
    ensures EraseGroups(Set(m, k, e)) == Set(EraseGroups(m), k, GroupEntryShape(e))
  {
  }

  function SubcommandNames(ss: seq<SubcommandSchema>): (names: seq<string>)
    ensures |names| == |ss| && forall i :: 0 <= i < |ss| ==> names[i] == ss[i].name
  {
    seq(|ss|, i requires 0 <= i < |ss| => ss[i].name)
  }

  function GroupNames(gs: seq<SubcommandGroupSchema>): (names: seq<string>)
    ensures |names| == |gs| && forall i :: 0 <= i < |gs| ==> names[i] == gs[i].name
  {
    seq(|gs|, i requires 0 <= i < |gs| => gs[i].name)
  }

  /** The subcommand schemas list one entry per registry subcommand, in order,
      named after it. */
  lemma {:induction false} SubcommandSchemasInOrder(subs: OMap<Class, SubcommandRegistryItem>, n: nat)
    requires n <= |subs.keys|
    requires SubcommandSchemas(subs, n).Success?
    ensures var ss := SubcommandSchemas(subs, n).value;
            |ss| == n && forall i :: 0 <= i < n ==> ss[i].name == ValueAt(subs, i).information.name
  {
    if n > 0 {
      SubcommandSchemasInOrder(subs, n - 1);
    }
  }

  lemma {:induction false} GroupSchemasInOrder(groups: OMap<Class, SubcommandGroupRegistryItem>, n: nat)
    requires n <= |groups.keys|
    requires GroupSchemas(groups, n).Success?
    ensures var gs := GroupSchemas(groups, n).value;
            |gs| == n && forall i :: 0 <= i < n ==> gs[i].name == ValueAt(groups, i).information.name
  {
    if n > 0 {
      GroupSchemasInOrder(groups, n - 1);
    }
  }

  /** Wire schema and runtime lookup agree on the subcommands of a built
      command: the lookup holds exactly the names the schema lists; each name
      is looked up under the name; with distinct names the lookup's keys are
      the schema's names in the schema's order and each name maps to the
      options and the class of its registry subcommand (with repeated names
      `FromEntriesLastWins` says which one wins); and there are never more
      entries than registry items. */
  lemma SubcommandSchemaMatchesLookup(subs: OMap<Class, SubcommandRegistryItem>)
    requires SubcommandSchemas(subs, |subs.keys|).Success?
    ensures var names := SubcommandNames(SubcommandSchemas(subs, |subs.keys|).value);
            var look := SubcommandLookup(subs);
            && |names| == |subs.keys|
            && (forall x :: x in look.values <==> x in names)
            && (Distinct(names) ==>
                  && look.keys == names
                  && forall i :: 0 <= i < |names| ==>
                       look.values[names[i]] == SubcommandShape(ValueAt(subs, i).options, subs.keys[i]))
            && Size(look) <= |subs.keys|
  {
    SubcommandSchemasInOrder(subs, |subs.keys|);
    SubcommandLookupIsFromEntries(subs, |subs.keys|);
    var es := SubcommandEntries(subs);
    assert KeysOf(es, |es|) == SubcommandNames(SubcommandSchemas(subs, |subs.keys|).value);
    FromEntriesAll(es);
  }

  /** The same agreement for the groups of a built command; each group entry
      nests the name-keyed lookup of that group's own subcommands. */
  lemma GroupSchemaMatchesLookup(groups: OMap<Class, SubcommandGroupRegistryItem>)
    requires GroupSchemas(groups, |groups.keys|).Success?
    ensures var names := GroupNames(GroupSchemas(groups, |groups.keys|).value);
            var look := GroupLookup(groups);
            && |names| == |groups.keys|
            && (forall x :: x in look.values <==> x in names)
            && (Distinct(names) ==>
                  && look.keys == names
                  && forall i :: 0 <= i < |names| ==>
                       look.values[names[i]] == GroupShape(groups.keys[i], SubcommandLookup(ValueAt(groups, i).subcommands)))
            && Size(look) <= |groups.keys|
  {
    GroupSchemasInOrder(groups, |groups.keys|);
    GroupLookupIsFromEntries(groups, |groups.keys|);
    var es := GroupEntries(groups);
    assert KeysOf(es, |es|) == GroupNames(GroupSchemas(groups, |groups.keys|).value);
    FromEntriesAll(es);
  }

  // --------------------------------------------------------------- whitelist

  /** `transformToRequiredWhitelist`: ids and message creator are copied and
      `ephemeral` becomes true exactly when it was given as true. */
  function TransformToRequiredWhitelist(w: WhitelistInformation): (r: RequiredWhitelist)
    ensures r.ids == w.ids && r.messageCreator == w.messageCreator
    ensures r.ephemeral <==> w.ephemeral == Some(true)
  {
    RequiredWhitelist(w.ids, w.messageCreator, w.ephemeral == Some(true))
  }

  /** The built whitelist as the source computes it: `build` tests
      `data.whitelist`, a property no `CommandRegistryItem` has (the declared
      whitelist lives in `data.information.whitelist`), so it is always absent. */
  function WhitelistAsWritten(data: CommandRegistryItem): (r: Option<RequiredWhitelist>)
    ensures r.None?
  {
    None
  }

  /** The built whitelist as evidently intended, taken from the command's
      declaration: absent when not declared, otherwise its required form. */
  function BuiltWhitelist(data: CommandRegistryItem): (r: Option<RequiredWhitelist>)
    ensures r.None? <==> data.information.whitelist.None?
    ensures r.Some? ==> r.value == TransformToRequiredWhitelist(data.information.whitelist.value)
  {
    match data.information.whitelist
    case None => None
    case Some(w) => Some(TransformToRequiredWhitelist(w))
  }

  /** A command declared with a whitelist loses it as written. */
  lemma WhitelistLostAsWritten(data: CommandRegistryItem)
    requires data.information.whitelist.Some?
    ensures WhitelistAsWritten(data) != BuiltWhitelist(data)
  {
  }

  // ----------------------------------------------------------------- methods

  /** The option loop of `build` and of `createSubcommand`: one schema entry per
      option, in insertion order. */
  method CreateOptions(opts: OMap<string, OptionInfo>) returns (r: Result<seq<OptionSchema>, BuildError>)
    ensures r == AllOptionSchemas(opts)
  {
    var added: seq<OptionSchema> := [];
    var i := 0;
    while i < |opts.keys|
      invariant 0 <= i <= |opts.keys|
      invariant OptionSchemas(opts, i) == Success(added)
    {
      var prop := opts.keys[i];
      var o := CreateOption(prop, ValueAt(opts, i));
      if o.Failure? {
        OptionSchemasFailureSticks(opts, i + 1, |opts.keys|);
        return Failure(o.error);
      }
      added := added + [o.value];
      i := i + 1;
    }
    return Success(added);
  }

  /** `createSubcommand`. */
  method CreateSubcommand(data: SubcommandRegistryItem) returns (r: Result<SubcommandSchema, BuildError>)
    ensures r == SubcommandSchemaOf(data)
  {
    var os := CreateOptions(data.options);
    if os.Failure? {
      return Failure(os.error);
    }
    return Success(SubcommandSchema(data.information.name, data.information.description, os.value));
  }

  /** `createSubcommandGroup`: the group's name and description. */
  function CreateSubcommandGroup(data: SubcommandGroupRegistryItem): (g: SubcommandGroupSchema)
    ensures g.name == data.information.name && g.description == data.information.description && g.subcommands == []
  {
    SubcommandGroupSchema(data.information.name, data.information.description, [])
  }

  /** What one subcommand of the subcommand loop yields: its schema, and its
      runtime entry holding its option map and an instance of `cls`. */
  ghost predicate SubcommandBuilt(cls: Class, item: SubcommandRegistryItem,
                                  r: Result<(SubcommandSchema, DiscordSubcommandInformation), BuildError>) {
    && (r.Failure? <==> SubcommandSchemaOf(item).Failure?)
    && (r.Failure? ==> r.error == SubcommandSchemaOf(item).error)
    && (r.Success? ==>
          && r.value.0 == SubcommandSchemaOf(item).value
          && SubcommandEntryShape(r.value.1) == SubcommandShape(item.options, cls))
  }

  /** One subcommand of the subcommand loop of `build`: a new instance of its
      class goes into its runtime entry, then its schema is created. */
  method BuildSubcommand(cls: Class, item: SubcommandRegistryItem)
      returns (r: Result<(SubcommandSchema, DiscordSubcommandInformation), BuildError>)
    ensures SubcommandBuilt(cls, item, r)
  {
    var instance := new Handler(cls);
    var entry := DiscordSubcommandInformation(item.options, instance);
    var s := CreateSubcommand(item);
    if s.Failure? {
      return Failure(s.error);
    }
    return Success((s.value, entry));
  }

  /** The subcommand loop's state after the first `i` subcommands: their
      schemas, and a collection that erases to their lookup. */
  ghost predicate SubcommandsBuiltUpTo(subs: OMap<Class, SubcommandRegistryItem>, i: nat, schemas: seq<SubcommandSchema>,
                                       collection: OMap<string, DiscordSubcommandInformation>) {
    && i <= |subs.keys|
    && SubcommandSchemas(subs, i) == Success(schemas)
    && EraseSubcommands(collection) == SubcommandLookupUpTo(subs, i)
  }

  /** What the subcommand loop returns: the schemas of all subcommands and a
      collection that erases to their lookup, or the first error. */
  ghost predicate SubcommandsBuilt(subs: OMap<Class, SubcommandRegistryItem>,
                                   r: Result<(seq<SubcommandSchema>, OMap<string, DiscordSubcommandInformation>), BuildError>) {
    && (r.Failure? <==> SubcommandSchemas(subs, |subs.keys|).Failure?)
    && (r.Failure? ==> r.error == SubcommandSchemas(subs, |subs.keys|).error)
    && (r.Success? ==>
          && r.value.0 == SubcommandSchemas(subs, |subs.keys|).value
          && EraseSubcommands(r.value.1) == SubcommandLookup(subs))
  }

  /** One subcommand of the subcommand loop: a failure is the loop's result,
      a success extends its state. */
  lemma BuildSubcommandsStep(subs: OMap<Class, SubcommandRegistryItem>, i: nat, schemas: seq<SubcommandSchema>,
                             collection: OMap<string, DiscordSubcommandInformation>,
                             built: Result<(SubcommandSchema, DiscordSubcommandInformation), BuildError>)
    requires SubcommandsBuiltUpTo(subs, i, schemas, collection) && i < |subs.keys|
    requires SubcommandBuilt(subs.keys[i], ValueAt(subs, i), built)
    ensures built.Failure? ==> SubcommandsBuilt(subs, Failure(built.error))
    ensures built.Success? ==>
      SubcommandsBuiltUpTo(subs, i + 1, schemas + [built.value.0], Set(collection, ValueAt(subs, i).information.name, built.value.1))
  {
    if built.Failure? {
      SubcommandSchemasFailureSticks(subs, i + 1, |subs.keys|);
    } else {
      EraseSubcommandsSet(collection, ValueAt(subs, i).information.name, built.value.1);
    }
  }

  lemma BuildSubcommandsDone(subs: OMap<Class, SubcommandRegistryItem>, schemas: seq<SubcommandSchema>,
                             collection: OMap<string, DiscordSubcommandInformation>)
    requires SubcommandsBuiltUpTo(subs, |subs.keys|, schemas, collection)
    ensures SubcommandsBuilt(subs, Success((schemas, collection)))
  {
  }

  /** The subcommand loop of `build` (for the command's own subcommands and
      for each group's): each subcommand's runtime entry, with a new instance of
      its class, goes under its name, and its schema is appended. */
  method BuildSubcommands(subs: OMap<Class, SubcommandRegistryItem>)
      returns (r: Result<(seq<SubcommandSchema>, OMap<string, DiscordSubcommandInformation>), BuildError>)
    ensures SubcommandsBuilt(subs, r)
  {
    var collection: OMap<string, DiscordSubcommandInformation> := Empty();
    var schemas: seq<SubcommandSchema> := [];
    var i := 0;
    while i < |subs.keys|
      invariant SubcommandsBuiltUpTo(subs, i, schemas, collection)
    {
      var built := BuildSubcommand(subs.keys[i], ValueAt(subs, i));
      BuildSubcommandsStep(subs, i, schemas, collection, built);
      if built.Failure? {
        return Failure(built.error);
      }
      schemas := schemas + [built.value.0];
      collection := Set(collection, ValueAt(subs, i).information.name, built.value.1);
      i := i + 1;
    }
    BuildSubcommandsDone(subs, schemas, collection);
    return Success((schemas, collection));
  }

  ghost predicate GroupBuilt(cls: Class, item: SubcommandGroupRegistryItem,
                             r: Result<(SubcommandGroupSchema, DiscordSubcommandGroupInformation), BuildError>) {
    && (r.Failure? <==> GroupSchemaOf(item).Failure?)
    && (r.Failure? ==> r.error == GroupSchemaOf(item).error)
    && (r.Success? ==>
          && r.value.0 == GroupSchemaOf(item).value
          && GroupEntryShape(r.value.1) == GroupShape(cls, SubcommandLookup(item.subcommands)))
  }

  /** One group of the group loop of `build`: its schema, with its
      subcommands nested in it, and its runtime entry, holding a new instance
      of the group class and its subcommands keyed by name. */
  method BuildGroup(cls: Class, item: SubcommandGroupRegistryItem)
      returns (r: Result<(SubcommandGroupSchema, DiscordSubcommandGroupInformation), BuildError>)
    ensures GroupBuilt(cls, item, r)
  {
    var groupBuilder := CreateSubcommandGroup(item);
    var built := BuildSubcommands(item.subcommands);
    if built.Failure? {
      return Failure(built.error);
    }
    var instance := new Handler(cls);
    groupBuilder := groupBuilder.(subcommands := built.value.0);
    return Success((groupBuilder, DiscordSubcommandGroupInformation(instance, built.value.1)));
  }

  /** The group loop's state after the first `j` groups. */
  ghost predicate GroupsBuiltUpTo(groups: OMap<Class, SubcommandGroupRegistryItem>, j: nat, schemas: seq<SubcommandGroupSchema>,
                                  collection: OMap<string, DiscordSubcommandGroupInformation>) {
    && j <= |groups.keys|
    && GroupSchemas(groups, j) == Success(schemas)
    && EraseGroups(collection) == GroupLookupUpTo(groups, j)
  }

  /** What the group loop returns. */
  ghost predicate GroupsBuilt(groups: OMap<Class, SubcommandGroupRegistryItem>,
                              r: Result<(seq<SubcommandGroupSchema>, OMap<string, DiscordSubcommandGroupInformation>), BuildError>) {
    && (r.Failure? <==> GroupSchemas(groups, |groups.keys|).Failure?)
    && (r.Failure? ==> r.error == GroupSchemas(groups, |groups.keys|).error)
    && (r.Success? ==>
          && r.value.0 == GroupSchemas(groups, |groups.keys|).value
          && EraseGroups(r.value.1) == GroupLookup(groups))
  }

  /** One group of the group loop. */
  lemma BuildGroupsStep(groups: OMap<Class, SubcommandGroupRegistryItem>, j: nat, schemas: seq<SubcommandGroupSchema>,
                        collection: OMap<string, DiscordSubcommandGroupInformation>,
                        built: Result<(SubcommandGroupSchema, DiscordSubcommandGroupInformation), BuildError>)
    requires GroupsBuiltUpTo(groups, j, schemas, collection) && j < |groups.keys|
    requires GroupBuilt(groups.keys[j], ValueAt(groups, j), built)
    ensures built.Failure? ==> GroupsBuilt(groups, Failure(built.error))
    ensures built.Success? ==>
      GroupsBuiltUpTo(groups, j + 1, schemas + [built.value.0], Set(collection, ValueAt(groups, j).information.name, built.value.1))
  {
    if built.Failure? {
      GroupSchemasFailureSticks(groups, j + 1, |groups.keys|);
    } else {
      EraseGroupsSet(collection, ValueAt(groups, j).information.name, built.value.1);
    }
  }

  lemma BuildGroupsDone(groups: OMap<Class, SubcommandGroupRegistryItem>, schemas: seq<SubcommandGroupSchema>,
                        collection: OMap<string, DiscordSubcommandGroupInformation>)
    requires GroupsBuiltUpTo(groups, |groups.keys|, schemas, collection)
    ensures GroupsBuilt(groups, Success((schemas, collection)))
  {
  }

  /** The group loop of `build`: each group's schema is appended and its
      runtime entry goes under its name. */
  method BuildGroups(groups: OMap<Class, SubcommandGroupRegistryItem>)
      returns (r: Result<(seq<SubcommandGroupSchema>, OMap<string, DiscordSubcommandGroupInformation>), BuildError>)
    ensures GroupsBuilt(groups, r)
  {
    var collection: OMap<string, DiscordSubcommandGroupInformation> := Empty();
    var schemas: seq<SubcommandGroupSchema> := [];
    var j := 0;
    while j < |groups.keys|
      invariant GroupsBuiltUpTo(groups, j, schemas, collection)
    {
      var built := BuildGroup(groups.keys[j], ValueAt(groups, j));
      BuildGroupsStep(groups, j, schemas, collection, built);
      if built.Failure? {
        return Failure(built.error);
      }
      schemas := schemas + [built.value.0];
      collection := Set(collection, ValueAt(groups, j).information.name, built.value.1);
      j := j + 1;
    }
    BuildGroupsDone(groups, schemas, collection);
    return Success((schemas, collection));
  }

  /** `CommandBuilder.build`: the wire schema is `CommandSchemaOf(data)`; every
      subcommand and group yields a runtime entry under its name holding a new
      instance of its class; the runtime options are the registry's own option
      map. The whitelist is computed as written: always absent, whatever the
      command declares (see `WhitelistAsWritten`). */
  method Build(command: Handler, data: CommandRegistryItem) returns (r: Result<DiscordCommandInformation, BuildError>)
    ensures r.Failure? <==> CommandSchemaOf(data).Failure?
    ensures r.Failure? ==> r.error == CommandSchemaOf(data).error
    ensures r.Success? ==>
      && r.value.cmd == CommandSchemaOf(data).value
      && r.value.command == command
      && r.value.options == data.options
      && EraseSubcommands(r.value.subcommands) == SubcommandLookup(data.subcommands)
      && EraseGroups(r.value.groups) == GroupLookup(data.groups)
      && r.value.whitelist == WhitelistAsWritten(data)
  {
    var os := CreateOptions(data.options);
    if os.Failure? {
      return Failure(os.error);
    }
    var subs := BuildSubcommands(data.subcommands);
    if subs.Failure? {
      return Failure(subs.error);
    }
    var groups := BuildGroups(data.groups);
    if groups.Failure? {
      return Failure(groups.error);
    }
    var cmdBuilder := CommandSchema(data.information.name, data.information.description, os.value, subs.value.0, groups.value.0);
    return Success(DiscordCommandInformation(cmdBuilder, data.options, command, subs.value.1, groups.value.1, WhitelistAsWritten(data)));
  }

  /** `build` as evidently intended: the command `Build` gives, with the
      whitelist read from the command's declaration. It fails exactly when
      `Build` does; otherwise it differs from `Build`'s result in the whitelist
      alone, and a declared whitelist reaches the built command with its ids
      and message creator. */
  method BuildIntended(command: Handler, data: CommandRegistryItem) returns (r: Result<DiscordCommandInformation, BuildError>)
    ensures r.Failure? <==> CommandSchemaOf(data).Failure?
    ensures r.Failure? ==> r.error == CommandSchemaOf(data).error
    ensures r.Success? ==>
      && r.value.cmd == CommandSchemaOf(data).value
      && r.value.command == command
      && r.value.options == data.options
      && EraseSubcommands(r.value.subcommands) == SubcommandLookup(data.subcommands)
      && EraseGroups(r.value.groups) == GroupLookup(data.groups)
      && r.value.whitelist == BuiltWhitelist(data)
    ensures r.Success? ==> (r.value.whitelist.Some? <==> data.information.whitelist.Some?)
    ensures r.Success? && data.information.whitelist.Some? ==>
      && r.value.whitelist.value.ids == data.information.whitelist.value.ids
      && r.value.whitelist.value.messageCreator == data.information.whitelist.value.messageCreator
  {
    r := Build(command, data);
    if r.Success? {
      r := Success(r.value.(whitelist := BuiltWhitelist(data)));
    }
  }
}
