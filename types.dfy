/** The shapes declared in src/types/commands.ts, src/types/events.ts and
    src/types/bot.ts, plus the handler instances those shapes describe. */
module Types {
  import opened Wrappers
  import opened OrderedMaps

  /** A JavaScript class as the library observes it: an identity (two classes
      of equal shape differ in `id`), the own properties of a fresh instance
      (`Object.getOwnPropertyNames(new C())`), the names on its prototype
      (`Object.getOwnPropertyNames(C.prototype)`), and whether instances
      have an `execute` method. */
  datatype Class = Class(id: nat, ownProperties: seq<string>, prototypeMethods: seq<string>, hasExecute: bool)

  /** An author-supplied JavaScript function the library only stores and hands on
      (a whitelist message creator, an interaction error handler). */
  datatype FunctionRef = FunctionRef(id: nat)

  // ---------------------------------------------------------------- options

  /** The nine option types. */
  datatype OptionType = String | Integer | Boolean | Number | User | Channel | Role | Mentionable | Attachment

  function OptionTypes(): seq<OptionType> {
    [String, Integer, Boolean, Number, User, Channel, Role, Mentionable, Attachment]
  }

  /** There are exactly nine option types. */
  lemma ExactlyNineOptionTypes()
    ensures |OptionTypes()| == 9 && Distinct(OptionTypes())
    ensures forall t: OptionType :: t in OptionTypes()
  {
    forall t: OptionType ensures t in OptionTypes() {
      match t
      case String => assert OptionTypes()[0] == t;
      case Integer => assert OptionTypes()[1] == t;
      case Boolean => assert OptionTypes()[2] == t;
      case Number => assert OptionTypes()[3] == t;
      case User => assert OptionTypes()[4] == t;
      case Channel => assert OptionTypes()[5] == t;
      case Role => assert OptionTypes()[6] == t;
      case Mentionable => assert OptionTypes()[7] == t;
      case Attachment => assert OptionTypes()[8] == t;
    }
  }

  /** The six types of `OptionInfoWithoutChoices`. */
  type PlainOptionType = t: OptionType | !(t.String? || t.Number? || t.Integer?) witness Boolean

  datatype OptionChoice<T> = OptionChoice(name: string, value: T)

  /** `OptionInfo`. Every variant has a description and a required flag; only the
      String, Number and Integer variants can carry choices; JavaScript numbers
      are `real`s. `min`/`max` are not declared by the TypeScript interfaces but
      the builder reads them on Number and Integer options, so those two variants
      carry them. `UndeclaredOption` is a record whose `type` lies outside the
      union: the loader reads option records through an unchecked cast from the
      metadata store, and both the builder and the resolver have a branch for it. */
  datatype OptionInfo =
    | StringOption(description: string, isRequired: bool, stringChoices: Option<seq<OptionChoice<string>>>)
    | NumberOption(description: string, isRequired: bool, numberChoices: Option<seq<OptionChoice<real>>>,
                   min: Option<real>, max: Option<real>)
    | IntegerOption(description: string, isRequired: bool, numberChoices: Option<seq<OptionChoice<real>>>,
                    min: Option<real>, max: Option<real>)
    | PlainOption(plainType: PlainOptionType, description: string, isRequired: bool)
    | UndeclaredOption(rawType: string, description: string, isRequired: bool)

  /** The declared type of an option record, if it has one of the nine. */
  function TypeOf(o: OptionInfo): Option<OptionType> {
    match o
    case StringOption(_, _, _) => Some(String)
    case NumberOption(_, _, _, _, _) => Some(Number)
    case IntegerOption(_, _, _, _, _) => Some(Integer)
    case PlainOption(t, _, _) => Some(t)
    case UndeclaredOption(_, _, _) => None
  }

  // ------------------------------------------------------ command declarations

  /** `WhitelistInformation`: `ephemeral` may be left out. */
  datatype WhitelistInformation = WhitelistInformation(ids: seq<string>, messageCreator: FunctionRef, ephemeral: Option<bool>)

  /** `Required<WhitelistInformation>`: the built form, `ephemeral` always present. */
  datatype RequiredWhitelist = RequiredWhitelist(ids: seq<string>, messageCreator: FunctionRef, ephemeral: bool)

  /** `CommandInformation`: subcommand and group lists may be left out. */
  datatype CommandInformation = CommandInformation(
    name: string, description: string,
    subcommands: Option<seq<Class>>, groups: Option<seq<Class>>,
    whitelist: Option<WhitelistInformation>)

  /** `SubcommandInformation`: a leaf, it lists no children. */
  datatype SubcommandInformation = SubcommandInformation(name: string, description: string)

  /** `SubcommandGroupInformation`: lists subcommand classes only. */
  datatype SubcommandGroupInformation = SubcommandGroupInformation(name: string, description: string, subcommands: seq<Class>)

  // ------------------------------------------------------------- wire schema

  /** The option part of the registration payload (what discord.js's option
      builders hold): absent choices and bounds are `None`. */
  datatype OptionSchema =
    | StringOptionSchema(name: string, description: string, required: bool,
                         stringChoices: Option<seq<OptionChoice<string>>>)
    | NumberOptionSchema(name: string, description: string, required: bool,
                         numberChoices: Option<seq<OptionChoice<real>>>, minValue: Option<real>, maxValue: Option<real>)
    | IntegerOptionSchema(name: string, description: string, required: bool,
                          numberChoices: Option<seq<OptionChoice<real>>>, minValue: Option<real>, maxValue: Option<real>)
    | PlainOptionSchema(plainType: PlainOptionType, name: string, description: string, required: bool)

  datatype SubcommandSchema = SubcommandSchema(name: string, description: string, options: seq<OptionSchema>)

  datatype SubcommandGroupSchema = SubcommandGroupSchema(name: string, description: string, subcommands: seq<SubcommandSchema>)

  /** A slash command's registration payload. On the wire the three lists are
      one `options` array, in the order options, subcommands, groups, which is
      the order in which the builder adds them. */
  datatype CommandSchema = CommandSchema(
    name: string, description: string,
    options: seq<OptionSchema>, subcommands: seq<SubcommandSchema>, groups: seq<SubcommandGroupSchema>)

  // ------------------------------------------------------- handler instances

  /** What `interaction.options.getX(name)` returned, named by the call that
      produced it; `Undefined` is a field nothing has written. */
  datatype Accessor = GetString | GetNumber | GetInteger | GetBoolean | GetUser | GetChannel | GetRole | GetMentionable | GetAttachment

  datatype Value = Undefined | Fetched(accessor: Accessor, name: string)

  /** The fields of a fresh instance: its own properties, not yet assigned. */
  function InitialFields(c: Class): (f: map<string, Value>)
    ensures f.Keys == set p | p in c.ownProperties
  {
    map p | p in c.ownProperties :: Undefined
  }

  /** An instance of a command, subcommand, group or event handler class
      (`DiscordCommand`, `DiscordSubcommand`, `DiscordSubcommandGroup`,
      `EventHandler`): its class, and its mutable fields. */
  class Handler {
    const cls: Class
    var fields: map<string, Value>

    /** `new cls()`. */
    constructor (c: Class)
      ensures cls == c && fields == InitialFields(c)
    {
      cls := c;
      fields := InitialFields(c);
    }
  }

  // ---------------------------------------------------------- built commands

  /** `DiscordSubcommandInformation`. */
  datatype DiscordSubcommandInformation = DiscordSubcommandInformation(options: OMap<string, OptionInfo>, command: Handler)

  /** `DiscordSubcommandGroupInformation`. */
  datatype DiscordSubcommandGroupInformation = DiscordSubcommandGroupInformation(
    command: Handler, subcommands: OMap<string, DiscordSubcommandInformation>)

  /** `DiscordCommandInformation`: the wire schema and the runtime lookup. */
  datatype DiscordCommandInformation = DiscordCommandInformation(
    cmd: CommandSchema,
    options: OMap<string, OptionInfo>,
    command: Handler,
    subcommands: OMap<string, DiscordSubcommandInformation>,
    groups: OMap<string, DiscordSubcommandGroupInformation>,
    whitelist: Option<RequiredWhitelist>)

  /** The name-keyed table the bot attaches to the client as `client.commands`. */
  type CommandTable = OMap<string, DiscordCommandInformation>

  // ------------------------------------------------------------------ events

  /** A method of a class, looked up on its prototype. */
  datatype MethodRef = MethodRef(cls: Class, key: string)

  /** `EventInformation`: `owner` is the prototype of `owner`'s class, which
      the `On` decorator records as the object the handler is bound to. */
  datatype EventInformation = EventInformation(name: string, once: bool, methodKey: string, handler: MethodRef, owner: Class)

  // --------------------------------------------------------------------- bot

  /** `BotConfig`, without the client options that are passed to discord.js. */
  datatype BotConfig = BotConfig(
    interactionCreateErrorHandler: Option<FunctionRef>,
    events: Option<seq<Class>>,
    commands: Option<seq<Class>>)
}
