# discord-simplified, modelled in Dafny

discord-simplified is a TypeScript wrapper around discord.js. Command, subcommand,
group, option and event-handler classes are marked with decorators. At startup the
bot does five things:

- The command loader reads those marks into a command registry: a three-level tree
  of commands, their subcommands and groups, and their options.
- The builder turns each registered command into a wire schema for Discord and a
  name-keyed runtime lookup.
- The event loader fills an event registry.
- Every event is bound on the client with `once` or `on`.
- A configured error handler is stored in a static error-handler registry.

At run time the library's own `interactionCreate` handler routes each slash-command
interaction through that lookup. It resolves the declared options onto the handler
instance and then calls `execute`.

The model has one module per source file:

- `CommandTree`: the registry tree and each `register*` operation, written as a function.
- `CommandRegistry`: the registry object. Its methods are proved against those functions, and `toDiscordCommands` is a loop proved against a table specification.
- `CommandBuilder`: `build` and its option, subcommand and group loops.
- `CommandLoader`: `load` and its nested loops, proved against a fold over the declarations.
- `OptionResolver`: `resolve` and `getOption`.
- `InteractionRouter`: the routing decision and the resolve/execute paths.
- `EventRegistry` and `EventLoader`: the event side.
- `ErrorHandlers`: the error-handler registry.
- `Bot`: the constructor's wiring, `initializeCommands`, `initializeEvents` and `deploy`.

Shared modules:

- `OrderedMaps`: JavaScript `Map`/`Collection`, an insertion-ordered map. Setting an existing key keeps its position; a new key is appended.
- `Types`: the declared shapes and handler instances.
- `Declarations`: the decorator metadata, as a store of plain maps.
- `Wrappers`: `Option`, `Result` and `Outcome`.

Sequential startup code is modelled as classes and methods with `modifies` clauses
and loop invariants. Pure branching is modelled as functions.

The model follows the code where the library's intended design says otherwise:

- No whitelist is checked before a command runs.
- Errors on the routed paths escape the listener; nothing catches or reports them, and the error-handler registry is never called by the router.
- `resolve` writes every value to the literal field `"prop"`.
- The bare path of a command without subcommands resolves and executes twice.
- A whitelist declared on a command never reaches the built command: `build` reads a field a registry item never has, so every built command's whitelist is absent (see Findings). The intended builder is modelled beside it as `CommandBuilder.BuildIntended`.

## Model

| member | source | states |
|---|---|---|
| OrderedMaps.Set | src/commands/commandRegistry.ts:52 | `Map.set`: the new value is stored under the key; an existing key keeps its position, a new key goes last |
| OrderedMaps.SetSize | src/commands/commandRegistry.ts:140 | setting a key grows the map by at most one, and by exactly one when the key is new |
| OrderedMaps.SetTwice | src/events/eventRegistry.ts:22 | setting a key twice is the same as setting it once to the second value |
| OrderedMaps.Values | src/events/eventRegistry.ts:32-34 | iterating a map yields its values in insertion order |
| OrderedMaps.FromEntriesKeys | src/commands/commandRegistry.ts:137-141 | a loop of `set`s holds exactly the keys of its entries, and no more of them than entries |
| OrderedMaps.FromEntriesLastWins | src/commands/commandRegistry.ts:137-141 | under each key, a loop of `set`s holds the value of the last entry with that key |
| OrderedMaps.FromEntriesOrder | src/commands/commandRegistry.ts:137-141 | with distinct keys, a loop of `set`s keeps the entries' order |
| OrderedMaps.FromEntriesValues | src/commands/commandRegistry.ts:137-141 | every value in a loop of `set`s comes from one of its entries |
| Types.ExactlyNineOptionTypes | src/types/commands.ts:97 | the option types are exactly nine, all distinct |
| Types.Handler.constructor | src/commands/commandLoader.ts:14 | `new C()` is an instance of `C` whose fields are C's own properties, none assigned |
| CommandTree.RegisterCommand | src/commands/commandRegistry.ts:29-44 | a registered class only has its information replaced; its options, subcommands, groups and position stay. A new class is appended with empty maps. No other command changes |
| CommandTree.RegisterOption | src/commands/commandRegistry.ts:46-53 | fails with the option-outside-command error exactly when the command is missing. Otherwise only that command's option map gets the option under its key |
| CommandTree.RegisterSubcommand | src/commands/commandRegistry.ts:55-66 | fails exactly when the command is missing; the message names the subcommand twice. Otherwise the subcommand is set to a fresh item with no options, dropping any earlier one |
| CommandTree.RegisterSubcommandOption | src/commands/commandRegistry.ts:68-80 | fails when the command or the subcommand is missing, with the error for the first one missing. Otherwise only that subcommand's options change |
| CommandTree.RegisterSubcommandGroup | src/commands/commandRegistry.ts:82-93 | fails exactly when the command is missing. Otherwise the group is set to a fresh item with no subcommands |
| CommandTree.RegisterSubcommandOfGroup | src/commands/commandRegistry.ts:95-110 | fails when the command or the group is missing, with the matching error. Otherwise the group's subcommand is set to a fresh item |
| CommandTree.RegisterSubcommandOptionOfGroup | src/commands/commandRegistry.ts:112-129 | fails when the command, group or subcommand is missing, with the error for the first one missing. Otherwise only that nested option map changes |
| CommandTree.EmptyConsistent | src/commands/commandRegistry.ts:26 | the empty registry is consistent: every item records the class it is keyed by |
| CommandTree.RegisterCommandConsistent | src/commands/commandRegistry.ts:34-42 | `registerCommand` keeps the registry consistent |
| CommandTree.RegisterOptionConsistent | src/commands/commandRegistry.ts:46-53 | `registerOption` keeps the registry consistent |
| CommandTree.RegisterSubcommandConsistent | src/commands/commandRegistry.ts:61-65 | `registerSubcommand` keeps the registry consistent |
| CommandTree.RegisterSubcommandOptionConsistent | src/commands/commandRegistry.ts:68-80 | `registerSubcommandOption` keeps the registry consistent |
| CommandTree.RegisterSubcommandGroupConsistent | src/commands/commandRegistry.ts:88-92 | `registerSubcommandGroup` keeps the registry consistent |
| CommandTree.RegisterSubcommandOfGroupConsistent | src/commands/commandRegistry.ts:105-109 | `registerSubcommandOfGroup` keeps the registry consistent |
| CommandTree.RegisterSubcommandOptionOfGroupConsistent | src/commands/commandRegistry.ts:112-129 | `registerSubcommandOptionOfGroup` keeps the registry consistent |
| CommandRegistry.CommandRegistry.constructor | src/commands/commandRegistry.ts:26 | a new registry is empty and consistent |
| CommandRegistry.CommandRegistry.RegisterCommand | src/commands/commandRegistry.ts:29-44 | the tree becomes `CommandTree.RegisterCommand` of the old tree; consistency is kept |
| CommandRegistry.CommandRegistry.RegisterOption | src/commands/commandRegistry.ts:46-53 | on success the tree is the function's result; on failure the error is returned and the tree is unchanged |
| CommandRegistry.CommandRegistry.RegisterSubcommand | src/commands/commandRegistry.ts:55-66 | the same, for `registerSubcommand` |
| CommandRegistry.CommandRegistry.RegisterSubcommandOption | src/commands/commandRegistry.ts:68-80 | the same, for `registerSubcommandOption` |
| CommandRegistry.CommandRegistry.RegisterSubcommandGroup | src/commands/commandRegistry.ts:82-93 | the same, for `registerSubcommandGroup` |
| CommandRegistry.CommandRegistry.RegisterSubcommandOfGroup | src/commands/commandRegistry.ts:95-110 | the same, for `registerSubcommandOfGroup` |
| CommandRegistry.CommandRegistry.RegisterSubcommandOptionOfGroup | src/commands/commandRegistry.ts:112-129 | the same, for `registerSubcommandOptionOfGroup` |
| CommandRegistry.CommandRegistry.IsRegistered | src/commands/commandRegistry.ts:131-133 | true exactly when the class is registered |
| CommandRegistry.CommandRegistry.ToDiscordCommands | src/commands/commandRegistry.ts:135-144 | throws exactly when some command fails to build, with the first such error in registration order. Otherwise the table has the keys of the name index `TableIndex`, in its order, and under each name the command built from the class the index points at (the last one registered with that name, by `TableIndexLastWins`). No entry has a whitelist, as written (`TableWhitelistsAbsent`) |
| CommandRegistry.BuildCommand | src/commands/commandRegistry.ts:138-139 | `build(new cmd(), info)`: fails exactly when the schema fails. Otherwise the entry is built from the item, holds an instance of `cmd`, is named by the item's name, and has no whitelist, as written |
| CommandRegistry.TableWhitelistsAbsent | src/commands/commandBuilder.ts:57 | as written, no command in a built table carries a whitelist, whatever it declares |
| CommandRegistry.TableInstancesOfConstructors | src/commands/commandRegistry.ts:137-140 | in a consistent registry, each built command's instance is of the class its registry item records as `constructor`, and its schema is that item's |
| CommandRegistry.FirstBuildErrorIsFirstRejected | src/commands/commandRegistry.ts:137-141 | the error `toDiscordCommands` reports is that of the first command that fails to build; with no error, every command builds |
| CommandRegistry.TableIndexProperties | src/commands/commandRegistry.ts:140 | the table's keys are exactly the command names. It has at most as many entries as classes, each key points at a command with that name, and with distinct names the keys are the names in order |
| CommandRegistry.TableIndexPositions | src/commands/commandRegistry.ts:140 | each table key points at a registered command of that name |
| CommandRegistry.TableIndexLastWins | src/commands/commandRegistry.ts:140 | a command with no later namesake is the one the table holds under its name |
| CommandBuilder.ChoicesToAdd | src/commands/commandBuilder.ts:111-113 | choices are added exactly when the list is present and not empty, and then unchanged |
| CommandBuilder.CreateStringOption | src/commands/commandBuilder.ts:101-115 | a string option named by the property key, with its description and required flag; choices exactly when declared non-empty |
| CommandBuilder.CreateNumberOption | src/commands/commandBuilder.ts:118-140 | a number option with the key, description and required flag; min and max exactly as declared; choices exactly when declared non-empty |
| CommandBuilder.CreateIntegerOption | src/commands/commandBuilder.ts:143-165 | the same, for an integer option |
| CommandBuilder.CreatePlainOption | src/commands/commandBuilder.ts:168-208 | a boolean, user, channel, attachment, mentionable or role option of the given type, with the key, description and required flag |
| CommandBuilder.CreateOption | src/commands/commandBuilder.ts:86-208 | fails ("Unknown option type") exactly for a record of no known type. Otherwise the schema has the option's type, the property key as name, its description and required flag. Number and Integer carry their min/max exactly as declared. Choices are present exactly when declared non-empty |
| CommandBuilder.OptionSchemasInOrder | src/commands/commandBuilder.ts:17-19 | the option loop fails exactly when some option has no known type. Otherwise it emits one schema per option, in map order, each named by its key |
| CommandBuilder.OptionSchemasFailureSticks | src/commands/commandBuilder.ts:65-67 | once an option throws, later options change nothing |
| CommandBuilder.SubcommandSchemasFailureSticks | src/commands/commandBuilder.ts:21-28 | once a subcommand throws, later subcommands change nothing |
| CommandBuilder.GroupSchemasFailureSticks | src/commands/commandBuilder.ts:30-49 | once a group throws, later groups change nothing |
| CommandBuilder.CommandSchemaNamed | src/commands/commandBuilder.ts:14-16 | a built command's schema carries the declared name and description |
| CommandBuilder.SubcommandSchemasInOrder | src/commands/commandBuilder.ts:21-28 | one subcommand schema per registry subcommand, in insertion order, with its declared name |
| CommandBuilder.GroupSchemasInOrder | src/commands/commandBuilder.ts:30-49 | one group schema per registry group, in insertion order, with its declared name |
| CommandBuilder.SubcommandSchemaMatchesLookup | src/commands/commandBuilder.ts:21-28 | the runtime subcommand lookup has exactly the schema's subcommand names, in the schema's order when names are distinct. Each entry holds that subcommand's options and an instance of its class |
| CommandBuilder.GroupSchemaMatchesLookup | src/commands/commandBuilder.ts:30-49 | the same for groups: the lookup keys match the schema's group names, and each entry nests its group's subcommand lookup |
| CommandBuilder.TransformToRequiredWhitelist | src/commands/commandBuilder.ts:78-84 | ids and message creator are copied; `ephemeral` is true exactly when it was given as true |
| CommandBuilder.WhitelistAsWritten | src/commands/commandBuilder.ts:57 | as written, the built whitelist is always absent |
| CommandBuilder.WhitelistLostAsWritten | src/commands/commandBuilder.ts:57 | a command declared with a whitelist gets a different built whitelist as written than as intended |
| CommandBuilder.BuiltWhitelist | src/commands/commandBuilder.ts:57 | the intended built whitelist: absent exactly when not declared, otherwise its required form |
| CommandBuilder.CreateOptions | src/commands/commandBuilder.ts:65-67 | the option loop returns the specified schemas or the first error |
| CommandBuilder.CreateSubcommand | src/commands/commandBuilder.ts:61-70 | `createSubcommand` returns the subcommand's specified schema or its first error |
| CommandBuilder.CreateSubcommandGroup | src/commands/commandBuilder.ts:72-76 | a group schema starts with the group's name and description and no subcommands |
| CommandBuilder.BuildSubcommand | src/commands/commandBuilder.ts:22-27 | one subcommand yields its schema and a runtime entry holding its options and an instance of its class, or the schema's error |
| CommandBuilder.BuildSubcommands | src/commands/commandBuilder.ts:21-28 | the subcommand loop yields all schemas and a collection equal to the name-keyed lookup, or the first error |
| CommandBuilder.BuildGroup | src/commands/commandBuilder.ts:31-48 | one group yields its schema with nested subcommands and a runtime entry holding a group instance and its subcommand lookup, or the first error |
| CommandBuilder.BuildGroups | src/commands/commandBuilder.ts:30-49 | the group loop yields all group schemas and a collection equal to the group lookup, or the first error |
| CommandBuilder.Build | src/commands/commandBuilder.ts:11-59 | fails exactly when the schema fails, with its error. Otherwise: the specified schema, the given instance, the registry's own option map, subcommand and group collections equal to the lookups, and the whitelist as written: always absent |
| CommandBuilder.BuildIntended | src/commands/commandBuilder.ts:11-59 | the corrected `build`: fails exactly when `Build` does. Otherwise it has the same schema, instance, options and lookups, and the whitelist read from the declaration: present exactly when declared, with its ids and message creator |
| CommandLoader.AddDeclaredExactly | src/commands/commandLoader.ts:20-25 | a class's options are exactly its own properties that carry option metadata, in property order, each under its metadata |
| CommandLoader.LoadCommandOptions | src/commands/commandLoader.ts:14-25 | a newly loaded command's option map is exactly its declared own properties with their metadata |
| CommandLoader.CommandsLoadedNext | src/commands/commandLoader.ts:8-32 | a throw ends `load`; otherwise each class extends the registry in list order |
| CommandLoader.LoadSubcommandStep | src/commands/commandLoader.ts:39-55 | one subcommand fails exactly when unmarked. Otherwise it is present with its declared options, and the command's options and groups stay |
| CommandLoader.LoadSubcommandOfGroupStep | src/commands/commandLoader.ts:60-77 | the same, for a subcommand inside a group |
| CommandLoader.LoadSubcommandsSound | src/commands/commandLoader.ts:37-57 | the subcommand loop succeeds exactly when every listed subcommand is marked, and otherwise fails with an unmarked-subcommand error |
| CommandLoader.LoadSubcommandsOfGroupSound | src/commands/commandLoader.ts:59-78 | the same, for a group's subcommands |
| CommandLoader.LoadSubcommandGroupStep | src/commands/commandLoader.ts:82-92 | one group succeeds exactly when it and its subcommands are marked; its error is unmarked-group or unmarked-subcommand |
| CommandLoader.LoadSubcommandGroupsSound | src/commands/commandLoader.ts:80-93 | the group loop succeeds exactly when every group and its subcommands are marked |
| CommandLoader.ChildrenLoadedSound | src/commands/commandLoader.ts:27-31 | children load exactly when all are marked; lists left undefined are skipped; no register error can arise |
| CommandLoader.LoadCommandSound | src/commands/commandLoader.ts:9-31 | a command loads exactly when it and everything it names are marked; no register error can arise; only that class is added |
| CommandLoader.LoadSound | src/commands/commandLoader.ts:5-35 | `load` succeeds exactly when every listed class is fully marked; it never fails with a register error; the registry holds exactly the listed classes |
| CommandLoader.RegisterOptionOn | src/commands/commandLoader.ts:23 | one option registration through the registry method for its level |
| CommandLoader.RegisterDeclaredOptions | src/commands/commandLoader.ts:20-25 | the property loop registers the declared options as specified, or reports the error |
| CommandLoader.LoadSubcommand | src/commands/commandLoader.ts:39-55 | the registry becomes the specified result for one subcommand, or the error is returned |
| CommandLoader.LoadSubcommands | src/commands/commandLoader.ts:37-57 | the same for `loadSubcommands`; an undefined list leaves the registry unchanged |
| CommandLoader.LoadSubcommandOfGroup | src/commands/commandLoader.ts:60-77 | the same for one subcommand of a group |
| CommandLoader.LoadSubcommandsOfGroup | src/commands/commandLoader.ts:59-78 | the same for `loadSubcommandsOfGroup` |
| CommandLoader.LoadSubcommandGroup | src/commands/commandLoader.ts:82-92 | the same for one group and its subcommands |
| CommandLoader.LoadSubcommandGroups | src/commands/commandLoader.ts:80-93 | the same for `loadSubcommandGroups`; an undefined list leaves the registry unchanged |
| CommandLoader.LoadChildren | src/commands/commandLoader.ts:27-31 | subcommands are loaded, then groups |
| CommandLoader.LoadCommand | src/commands/commandLoader.ts:9-31 | the registry becomes the specified result of loading one command (by `LoadCommandSound`: it loads exactly when fully marked, adding only that class), or that error is returned |
| CommandLoader.LoadCommands | src/commands/commandLoader.ts:8-32 | the class loop leaves the specified registry, or returns the first error |
| CommandLoader.Load | src/commands/commandLoader.ts:5-35 | returns a fresh, consistent registry holding the specified tree exactly when no class throws; otherwise the first error and no registry |
| OptionResolver.AccessorFor | src/commands/optionResolver.ts:15-24 | each type's accessor is the one that reads that type (`AccessorType`, its inverse) |
| OptionResolver.Resolved | src/commands/optionResolver.ts:7-11 | no more values are fetched than there are options; no field other than `"prop"` is added or changed |
| OptionResolver.AccessorForInjective | src/commands/optionResolver.ts:15-24 | every type has its own accessor |
| OptionResolver.GetOption | src/commands/optionResolver.ts:14-27 | a value from the accessor of the option's type, called with the name. A record of no known type throws "Unknown option type: " plus its type |
| OptionResolver.ResolvedCalls | src/commands/optionResolver.ts:7-11 | accessors are called once per option, in map order, with the option's name and type, up to the first unknown type. That option's error ends the loop |
| OptionResolver.ResolvedWritesProp | src/commands/optionResolver.ts:10 | the only field written is `"prop"`, holding the last value fetched; nothing else changes |
| OptionResolver.ResolvedFailureSticks | src/commands/optionResolver.ts:8-11 | once `getOption` throws, later options are not read |
| OptionResolver.ResolveEmpty | src/commands/optionResolver.ts:8 | an empty option map makes no calls and no writes |
| OptionResolver.ResolvedFetchesIndependent | src/commands/optionResolver.ts:8-9 | what is fetched, and whether it throws, does not depend on the instance's fields |
| OptionResolver.ResolveTwice | src/commands/optionResolver.ts:7-12 | resolving twice makes the same calls again and leaves the same fields as resolving once |
| OptionResolver.Resolve | src/commands/optionResolver.ts:7-12 | the loop leaves the specified fields, calls and outcome on the handler |
| InteractionRouter.RouteCases | src/events/interactionCreateEvent.ts:15-45 | no table or no chat-input command: ignored. Unknown name: stops. A group takes only the group path. A subcommand without a group takes the subcommand path. Otherwise the bare path. A running route runs exactly the handler the table holds for the names given |
| InteractionRouter.RouteOf | src/events/interactionCreateEvent.ts:15-45 | ignored exactly without a table or for a non-chat-input interaction; stops exactly on an unknown command name |
| InteractionRouter.GroupRoute | src/events/interactionCreateEvent.ts:98-126 | unknown group, no subcommand, unknown subcommand or the group path, each exactly in its case; the path runs the named subcommand of the named group |
| InteractionRouter.SubcommandRoute | src/events/interactionCreateEvent.ts:87-96 | the subcommand path exactly when the name is known, running that subcommand; otherwise nothing |
| InteractionRouter.RunOf | src/events/interactionCreateEvent.ts:78-85 | resolve is the first effect of every path; when it throws, the run ends there with that error |
| InteractionRouter.Dispatch | src/events/interactionCreateEvent.ts:28-76 | every running route resolves its target first; a failing route leaves the fields its first resolve wrote |
| InteractionRouter.RunOrder | src/events/interactionCreateEvent.ts:78-85 | resolve comes first; execute runs at most once, after it, and only when resolve did not throw. A missing execute is skipped on the bare path and throws where it is mandatory |
| InteractionRouter.BarePathRunsTwice | src/events/interactionCreateEvent.ts:45-58 | a bare command without subcommands whose first pass does not throw is resolved and executed again, with the same effects, and nothing the second pass throws escapes |
| InteractionRouter.PathErrorsEscape | src/events/interactionCreateEvent.ts:28-76 | errors of the group and subcommand paths and of the first bare pass escape unchanged; a bare command with subcommands fails at the second `getSubcommand()` |
| InteractionRouter.HandleRaw | src/events/interactionCreateEvent.ts:78-85 | resolve, then execute if present; the fields and effects are as specified |
| InteractionRouter.ResolveAndExecute | src/events/interactionCreateEvent.ts:94-95 | resolve, then a mandatory execute, as specified |
| InteractionRouter.HandleSubcommand | src/events/interactionCreateEvent.ts:87-96 | an unknown subcommand does nothing; otherwise the subcommand path as specified |
| InteractionRouter.HandleGroup | src/events/interactionCreateEvent.ts:98-126 | an unknown group, a missing subcommand or an unknown subcommand does nothing; otherwise the group path as specified |
| InteractionRouter.HandleBare | src/events/interactionCreateEvent.ts:45-76 | the bare path with its trailing block, as specified |
| InteractionRouter.InteractionCreate | src/events/interactionCreateEvent.ts:14-76 | the listener takes the route `RouteCases` describes and leaves the specified effects and fields |
| EventRegistry.WithHandler | src/events/eventRegistry.ts:9-14 | the class is then present; a present class changes nothing; a new one goes last with an empty event map |
| EventRegistry.WithEvent | src/events/eventRegistry.ts:16-23 | fails exactly for an unregistered class, with the "outside of a command" message; otherwise the classes keep their order (the change to that class's map is stated by `RegisterEventEffect`) |
| EventRegistry.RegisterHandlerIdempotent | src/events/eventRegistry.ts:9-14 | registering a handler class twice is registering it once; it is then present, and other classes and an existing entry stay |
| EventRegistry.RegisterEventEffect | src/events/eventRegistry.ts:16-23 | fails exactly for an unregistered class, with the "outside of a command" message. Otherwise only that class's map changes, at the event key |
| EventRegistry.RegisterEventOverwrites | src/events/eventRegistry.ts:22 | an event registered again under the same name replaces the earlier one |
| EventRegistry.EventsUpToContents | src/events/eventRegistry.ts:29-38 | the listing's length is the sum of the per-class map sizes, and an event is listed exactly when some class holds it |
| EventRegistry.EventsUpToPrefix | src/events/eventRegistry.ts:29-38 | the events of earlier classes come before those of later classes |
| EventRegistry.EventRegistry.constructor | src/events/eventRegistry.ts:8 | a new registry is empty |
| EventRegistry.EventRegistry.RegisterEventHandler | src/events/eventRegistry.ts:9-14 | a present class keeps its entry and instance; a new one gets a fresh instance of itself and an empty map |
| EventRegistry.EventRegistry.RegisterEvent | src/events/eventRegistry.ts:16-23 | the registry changes as `RegisterEventEffect` describes, or returns the error and changes nothing |
| EventRegistry.EventRegistry.IsRegistered | src/events/eventRegistry.ts:25-27 | true exactly when the class is registered |
| EventRegistry.EventRegistry.ToDiscordEvents | src/events/eventRegistry.ts:29-38 | the nested loops return every event, class by class in insertion order, each class's in its map order |
| EventLoader.LastDeclaredSound | src/events/eventLoader.ts:19-26 | an event name is registered exactly when some prototype method declares it. The value kept is the last such method's metadata, which carries that name |
| EventLoader.AddEventsContents | src/events/eventLoader.ts:21-26 | after the method loop the map holds the old names plus the declared ones, each declared name with its last declaration |
| EventLoader.AddEventsKeepsKeys | src/events/eventLoader.ts:21-26 | when every declared name is already present, the method loop keeps the keys and their order |
| EventLoader.AddEventsTwice | src/events/eventLoader.ts:19-26 | running the method loop again changes nothing |
| EventLoader.DeclaredEventsExactly | src/events/eventLoader.ts:19-26 | a class's events are exactly those its prototype methods declare, keyed by event name |
| EventLoader.HandlerLoaded | src/events/eventLoader.ts:9-26 | one class fails exactly when unmarked, with that class in the error |
| EventLoader.HandlerLoadedShape | src/events/eventLoader.ts:14-17 | a loaded class is registered; its position is kept if it was present, otherwise it goes last |
| EventLoader.HandlersLoadedFailureSticks | src/events/eventLoader.ts:8-12 | once a class throws, later classes change nothing |
| EventLoader.HandlerLoadedStep | src/events/eventLoader.ts:9-26 | loading one marked class keeps every class's events as declared |
| EventLoader.HandlersLoadedOutcome | src/events/eventLoader.ts:8-12 | `load` succeeds exactly when every class is marked; otherwise the error names the first unmarked class |
| EventLoader.HandlersLoadedMembers | src/events/eventLoader.ts:8-28 | a loaded registry holds exactly the given classes |
| EventLoader.HandlersLoadedAsDeclared | src/events/eventLoader.ts:8-28 | in a loaded registry each class holds exactly its declared events |
| EventLoader.HandlersLoadedOrder | src/events/eventLoader.ts:8-28 | with distinct classes, the registry's order is the list's order |
| EventLoader.LoadEvents | src/events/eventLoader.ts:19-26 | the method loop sets exactly the specified events into the class's map |
| EventLoader.LoadHandler | src/events/eventLoader.ts:9-26 | one class: the marked check, registration, then its events, as specified |
| EventLoader.Load | src/events/eventLoader.ts:5-31 | returns a fresh registry holding the specified events exactly when no class throws; otherwise the first error |
| ErrorHandlers.Called | src/utility/errorHandlerRegistry.ts:18-22 | `call` invokes the registered handler with exactly the arguments given, exactly when one is registered; otherwise it throws the no-handler message |
| ErrorHandlers.CodeText | src/utility/errorHandlerRegistry.ts:6-9 | an error type renders as its one-digit enum code |
| ErrorHandlers.NoHandlerMessageNamesType | src/utility/errorHandlerRegistry.ts:20 | the no-handler messages of two types are equal exactly when the types are |
| ErrorHandlers.RegisterThenCall | src/utility/errorHandlerRegistry.ts:14-22 | after `register(t, h)`, `call(t, args)` invokes `h` with exactly `args`; other types behave as before |
| ErrorHandlers.RegisterOverwrites | src/utility/errorHandlerRegistry.ts:15 | registering a type again replaces its handler |
| ErrorHandlers.CallUnregistered | src/utility/errorHandlerRegistry.ts:19-20 | `call` throws exactly for an unregistered type, with "No handler for error type " and its code |
| ErrorHandlers.ErrorHandlerRegistry.constructor | src/utility/errorHandlerRegistry.ts:12 | the map starts empty |
| ErrorHandlers.ErrorHandlerRegistry.Register | src/utility/errorHandlerRegistry.ts:14-16 | the map gains or replaces exactly that entry |
| ErrorHandlers.ErrorHandlerRegistry.Call | src/utility/errorHandlerRegistry.ts:18-22 | the invocation made, or the error thrown, as specified |
| Bot.RouterDeclaredEvents | src/events/interactionCreateEvent.ts:7-14 | the router class declares exactly one event, `interactionCreate`, with `once` false, bound to `interactionCreateHandler` |
| Bot.WithRouter | src/events/interactionCreateEvent.ts:7-14 | the router class is marked as an event handler and declares only `interactionCreateHandler`, with `RouterEvent`; every other class's declarations are unchanged |
| Bot.BindingOf | src/bot/bot.ts:76-80 | `once` exactly when the event's flag is set, for the event's name, with its handler, bound to its owner |
| Bot.BindingsOf | src/bot/bot.ts:75-81 | one binding per event, in list order |
| Bot.BindingsOfEach | src/bot/bot.ts:76-80 | an event is bound with `once` exactly when its flag is true, under its name, to its handler and owner |
| Bot.BindingsOfMember | src/bot/bot.ts:75-81 | the bindings are exactly those of the listed events |
| Bot.Client.constructor | src/bot/bot.ts:27 | a new client has no commands and no bindings |
| Bot.Client.Bind | src/bot/bot.ts:77-79 | `once`/`on` appends one binding and touches nothing else |
| Bot.BindEvents | src/bot/bot.ts:75-81 | the binding loop appends the bindings of the events in order |
| Bot.EventsOfFails | src/bot/bot.ts:36-38 | the event phase throws exactly when a configured class is unmarked (the router is always marked), and the error names a configured class |
| Bot.RouterListed | src/bot/bot.ts:36-39 | when events load, the router's `interactionCreate` event is listed and bound with `on` |
| Bot.RouterBoundIffEvents | src/bot/bot.ts:36-40 | after a successful start the router is bound exactly when events are configured |
| Bot.Bot.constructor | src/bot/bot.ts:25-27 | the configuration is kept, a fresh client is made, and nothing is loaded yet |
| Bot.Bot.InitializeCommands | src/bot/bot.ts:87-93 | without a registry nothing changes. Otherwise it fails with the first build error, or sets `commands` and `client.commands` to the same built table, in which no command has a whitelist, as written |
| Bot.Bot.InitializeEvents | src/bot/bot.ts:72-82 | without an event registry nothing is bound; otherwise every listed event is bound in order |
| Bot.Bot.CommandsPhase | src/bot/bot.ts:28-34 | fails with the loader's or the builder's error exactly when there is one. Otherwise the table, `client.commands` and the deployer are the one built from the loaded commands, with the as-written (absent) whitelists |
| Bot.Bot.EventsPhase | src/bot/bot.ts:36-40 | fails exactly when the event loader does. Otherwise the configured handlers and then the router are loaded, and their events bound in order |
| Bot.Bot.Deploy | src/bot/bot.ts:61-67 | throws "Bot has no valid commands." exactly when there is no deployer; otherwise hands on its table |
| Bot.NewBot | src/bot/bot.ts:25-46 | the constructor throws exactly the first error of the command and event phases. Otherwise commands are loaded and deployable only when configured, and events (with the router) are bound only when configured. A configured error handler is registered for both error types |

## Left out

- I/O and the discord.js client: `login`, the REST calls of `CommandDeployer`, its `commandsToJSON` and its logging are not modelled. The client is reduced to its `commands` table and the log of `once`/`on` bindings. `Bot.Bot.Deploy` returns the deployer's table in place of the REST call.
- The discord.js builder classes and `toJSON`: the wire schema is a datatype of its own (`CommandSchema` and its parts), holding what the builders are given.
- async/await: each path is one sequential call. What `execute` does is not modelled; a handler whose `execute` throws is named in a parameter set `throwing`.
- Decorators and `reflect-metadata`: the metadata is the `Declarations.Store` value the loaders read. A class is a value recording its identity, own properties, prototype names and whether it has `execute`; `new`, prototype lookup and inheritance are reduced to that.
- Accessor results and the functions a configuration supplies (handlers, message creators) are opaque values.
- `getSubcommand()`/`getSubcommandGroup()` throwing or returning `null` are modelled as an absent `Option`. The accessor is deterministic, so the second `getSubcommand()` on the bare path (src/events/interactionCreateEvent.ts:62) throws whenever it is reached, and lines 63-74 are unreachable.
- Whitelist enforcement, failure replies and calls to the error-handler registry: the router does none of them, so none is modelled.
- The static `ErrorHandlerRegistry` map is one object passed to `Bot.NewBot`; nothing else in the model writes it.
- The instance `EventLoader.load` makes before registering (src/events/eventLoader.ts:14) is reduced to the class's prototype names; the registry makes its own instance.
- The router class `InteractionCreateHandler` is the constant `Bot.RouterClass`, and its `@EventHandler`/`@On` metadata is merged into the store by `Bot.WithRouter`. A configured class equal to it in identity is treated as the router.
- `Bot.NewBot`: a throw is an error result, so a failed constructor's partial effects on the client and registries are not observable in the model.
- `EventLoader.HandlersLoadedOrder`: states the registry's order only for a list without repeated classes; with repeats, a class keeps its first position (`EventLoader.HandlerLoadedShape`).
- `CommandRegistry.CommandRegistry.ToDiscordCommands`: the table's key order is stated only for distinct command names (`CommandRegistry.TableIndexProperties`); with namesakes, membership and last-wins are stated.
- The proof devices `OrderedMaps.Sealed`, `EventLoader.Registering`, `Bot.CommandPhaseErrorSealed`, `Bot.BuiltFromLoaded` and `CommandLoader.CommandsLoadedUpTo` unfold a fixed number of times; they add no behaviour.
- Registry items and built commands are values. In the source the built command's `options` and each subcommand entry's `options` are the registry's own `Map` objects (src/commands/commandBuilder.ts:24, 37, 54), so they are shared. The model does not represent that sharing; it cannot be observed, because nothing registers into the command registry after `toDiscordCommands` has run.
- `src/index.ts`, `src/types/discord.d.ts` and `src/types/utility.ts` are re-exports and type declarations only.

## Findings

| source | as written | input that shows it | evidently intended | confidence | as-written member | corrected member |
|---|---|---|---|---|---|---|
| src/commands/commandBuilder.ts:57 | `build` reads `data.whitelist`, but a `CommandRegistryItem` (src/commands/commandRegistry.ts:5-11) has no such field; the declared whitelist lives in `data.information.whitelist`. Every built command therefore gets `whitelist: undefined` | a command declared with `whitelist: { ids: ["1"], messageCreator: f }` and built by `toDiscordCommands` | `data.information.whitelist ? this.transformToRequiredWhitelist(data.information.whitelist) : undefined` | not executed | CommandBuilder.Build, CommandBuilder.WhitelistAsWritten, CommandBuilder.WhitelistLostAsWritten, CommandRegistry.TableWhitelistsAbsent | CommandBuilder.BuildIntended, CommandBuilder.BuiltWhitelist |
