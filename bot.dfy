/** `Bot` (src/bot/bot.ts): the constructor loads the configured commands and
    events, attaches the command table to the client, binds every event with
    `once` or `on`, and registers the configured error handler. The discord.js
    client is reduced to the command table it carries and the log of the
    bindings made on it. */
module Bot {
  import opened Wrappers
  import opened OrderedMaps
  import opened Types
  import opened Declarations
  import opened CommandBuilder
  import opened CommandRegistry
  import opened CommandLoader
  import opened EventRegistry
  import opened EventLoader
  import opened ErrorHandlers

  // ---------------------------------------------------------- the router class

  /** `InteractionCreateHandler`, the library's own event handler class. */
  const RouterClass: Class := Class(0, [], ["constructor", "interactionCreateHandler", "handleRawInteraction", "handlesubcommandInteraction", "handleGroupInteraction"], false)

  /** The metadata its `@On` decorator records on `interactionCreateHandler`. */
  const RouterEvent: EventInformation :=
    EventInformation("interactionCreate", false, "interactionCreateHandler", MethodRef(RouterClass, "interactionCreateHandler"), RouterClass)

  /** The program's declarations together with the router class's own: the
      class is marked `@EventHandler` and its one decorated method is
      `interactionCreateHandler`. */
  function WithRouter(store: Store): (r: Store)
    ensures r.(eventHandlers := store.eventHandlers, events := store.events) == store
    ensures r.eventHandlers == store.eventHandlers + {RouterClass}
    ensures (RouterClass, "interactionCreateHandler") in r.events && r.events[(RouterClass, "interactionCreateHandler")] == RouterEvent
    ensures forall k :: k in r.events && k.0 == RouterClass ==> k.1 == "interactionCreateHandler"
    ensures forall k: (Class, string) :: k.0 != RouterClass ==> (k in r.events <==> k in store.events)
    ensures forall k :: k in store.events && k.0 != RouterClass ==> r.events[k] == store.events[k]
  {
    var others := map k | k in store.events && k.0 != RouterClass :: store.events[k];
    store.(eventHandlers := store.eventHandlers + {RouterClass},
           events := others[(RouterClass, "interactionCreateHandler") := RouterEvent])
  }

  /** The router class registers exactly one event, "interactionCreate". */
  lemma RouterDeclaredEvents(store: Store)
    ensures DeclaredEvents(RouterClass, WithRouter(store).events) == Set(Empty(), "interactionCreate", RouterEvent)
  {
    var ev := WithRouter(store).events;
    var m := RouterClass.prototypeMethods;
    assert (RouterClass, m[0]) !in ev && (RouterClass, m[2]) !in ev;
    assert (RouterClass, m[3]) !in ev && (RouterClass, m[4]) !in ev;
    assert AddEvents(Empty(), RouterClass, ev, 1) == Empty();
    assert AddEvents(Empty(), RouterClass, ev, 2) == Set(Empty(), "interactionCreate", RouterEvent);
    assert AddEvents(Empty(), RouterClass, ev, 4) == AddEvents(Empty(), RouterClass, ev, 2);
  }

  // ---------------------------------------------------------------- bindings

  /** `client.once` or `client.on`. */
  datatype Mode = Once | On

  /** One listener attached to the client: the event, the handler function and
      the object it is bound to. */
  datatype Binding = Binding(mode: Mode, eventName: string, handler: MethodRef, receiver: Class)

  /** The listener `initializeEvents` attaches for one event. */
  function BindingOf(e: EventInformation): (b: Binding)
    ensures b.mode == Once <==> e.once
    ensures b.eventName == e.name && b.handler == e.handler && b.receiver == e.owner
  {
    Binding(if e.once then Once else On, e.name, e.handler, e.owner)
  }

  /** The listeners for a list of events, in list order. */
  function BindingsOf(es: seq<EventInformation>): (bs: seq<Binding>)
    ensures |bs| == |es|
    ensures forall i :: 0 <= i < |es| ==> bs[i] == BindingOf(es[i])
  {
    seq(|es|, i requires 0 <= i < |es| => BindingOf(es[i]))
  }

  /** Each event gets one listener, in list order, attached with `once` exactly
      when its flag is set, for its event name, bound to its owner. */
  lemma BindingsOfEach(es: seq<EventInformation>, i: nat)
    requires i < |es|
    ensures BindingsOf(es)[i].mode == Once <==> es[i].once
    ensures BindingsOf(es)[i].eventName == es[i].name
    ensures BindingsOf(es)[i].handler == es[i].handler && BindingsOf(es)[i].receiver == es[i].owner
  {
  }

  /** An event is listened to exactly when it is in the list. */
  lemma BindingsOfMember(es: seq<EventInformation>, e: EventInformation)
    ensures e in es ==> BindingOf(e) in BindingsOf(es)
    ensures forall b :: b in BindingsOf(es) <==> exists i :: 0 <= i < |es| && b == BindingOf(es[i])
  {
    var bs := BindingsOf(es);
    if e in es {
      var i :| 0 <= i < |es| && es[i] == e;
      assert bs[i] == BindingOf(e);
    }
    forall b | b in bs ensures exists i :: 0 <= i < |es| && b == BindingOf(es[i]) {
      var i :| 0 <= i < |bs| && bs[i] == b;
      assert b == BindingOf(es[i]);
    }
    forall i | 0 <= i < |es| ensures BindingOf(es[i]) in bs {
      assert bs[i] == BindingOf(es[i]);
    }
  }

  /** The discord.js client: its `commands` property and its listeners. */
  class Client {
    var commands: Option<CommandTable>
    var bindings: seq<Binding>

    constructor ()
      ensures commands == None && bindings == []
    {
      commands := None;
      bindings := [];
    }

    /** `client.once(name, fn.bind(receiver))` or `client.on(…)`. */
    method Bind(mode: Mode, eventName: string, handler: MethodRef, receiver: Class)
      modifies this
      ensures bindings == old(bindings) + [Binding(mode, eventName, handler, receiver)]
      ensures commands == old(commands)
    {
      bindings := bindings + [Binding(mode, eventName, handler, receiver)];
    }
  }

  /** The loop of `initializeEvents`: `once` for an event whose flag is
      set, `on` otherwise, in list order. */
  method BindEvents(client: Client, events: seq<EventInformation>)
    modifies client
    ensures client.commands == old(client.commands)
    ensures client.bindings == old(client.bindings) + BindingsOf(events)
  {
    ghost var bindings := BindingsOf(events);
    var i := 0;
    while i < |events|
      invariant i <= |events| && client.commands == old(client.commands)
      invariant client.bindings == old(client.bindings) + bindings[..i]
    {
      var event := events[i];
      if event.once {
        client.Bind(Once, event.name, event.handler, event.owner);
      } else {
        client.Bind(On, event.name, event.handler, event.owner);
      }
      assert bindings[..i + 1] == bindings[..i] + [bindings[i]];
      i := i + 1;
    }
    assert bindings[..i] == bindings;
  }

  // --------------------------------------------------------------------- bot

  /** Why the constructor throws: the command loader, the builder inside
      `toDiscordCommands`, or the event loader threw. */
  datatype BotError =
    | CommandLoadFailed(load: LoadError)
    | CommandBuildFailed(build: BuildError)
    | EventLoadFailed(events: EventLoadError)

  /** The message `deploy` throws without a deployer. */
  const NoCommandsMessage: string := "Bot has no valid commands."

  /** The classes `load` is given: the configured handlers, then the router. */
  function EventClasses(handlers: seq<Class>): seq<Class> {
    handlers + [RouterClass]
  }

  /** What the event loader produces for the configured handlers. */
  function EventsOf(handlers: seq<Class>, store: Store): Result<EventShape, EventLoadError> {
    HandlersLoaded(EventClasses(handlers), WithRouter(store), |EventClasses(handlers)|)
  }

  /** The command phase's error, if it throws: the loader's, or the
      builder's inside `toDiscordCommands`. */
  ghost function CommandPhaseError(commands: seq<Class>, store: Store): Option<BotError> {
    CommandPhaseErrorSealed(commands, store, |commands| + 1)
  }

  /** `CommandPhaseError` through `depth` unfoldings (as `Sealed` is), so the
      load and build it summarises stay folded in the bot's proofs. */
  ghost function CommandPhaseErrorSealed(commands: seq<Class>, store: Store, depth: nat): Option<BotError>
    decreases depth
  {
    if depth > 0 then CommandPhaseErrorSealed(commands, store, depth - 1)
    else
      var loaded := CommandsLoaded(commands, store, |commands|);
      if loaded.Failure? then Some(CommandLoadFailed(loaded.error))
      else if FirstBuildError(loaded.value).Some? then Some(CommandBuildFailed(FirstBuildError(loaded.value).value))
      else None
  }

  /** `table` is what `toDiscordCommands` builds from the registry the loader
      fills from `commands`, through `depth` unfoldings. */
  ghost predicate BuiltFromLoaded(table: CommandTable, commands: seq<Class>, store: Store, depth: nat)
    decreases depth
  {
    if depth > 0 then BuiltFromLoaded(table, commands, store, depth - 1)
    else
      var loaded := CommandsLoaded(commands, store, |commands|);
      loaded.Success? && TableBuilt(table, loaded.value, TableIndex(loaded.value))
  }

  lemma {:induction false} CommandPhaseErrorUnsealed(commands: seq<Class>, store: Store, depth: nat)
    ensures CommandPhaseErrorSealed(commands, store, depth) == CommandPhaseErrorSealed(commands, store, 0)
    decreases depth
  {
    if depth > 0 {
      CommandPhaseErrorUnsealed(commands, store, depth - 1);
    }
  }

  lemma {:induction false} BuiltFromLoadedUnsealed(table: CommandTable, commands: seq<Class>, store: Store, depth: nat)
    ensures BuiltFromLoaded(table, commands, store, depth) == BuiltFromLoaded(table, commands, store, 0)
    decreases depth
  {
    if depth > 0 {
      BuiltFromLoadedUnsealed(table, commands, store, depth - 1);
    }
  }

  /** The constructor's error, if it throws: the phases run commands first,
      then events. */
  ghost function StartupError(config: BotConfig, store: Store): Option<BotError> {
    if config.commands.Some? && CommandPhaseError(config.commands.value, store).Some? then
      CommandPhaseError(config.commands.value, store)
    else if config.events.Some? && EventsOf(config.events.value, store).Failure? then
      Some(EventLoadFailed(EventsOf(config.events.value, store).error))
    else None
  }

  /** The event loader throws exactly for an unmarked configured class; the
      router class it appends is always marked. */
  lemma EventsOfFails(handlers: seq<Class>, store: Store)
    ensures EventsOf(handlers, store).Failure? <==> exists i :: 0 <= i < |handlers| && handlers[i] !in WithRouter(store).eventHandlers
    ensures EventsOf(handlers, store).Failure? ==> EventsOf(handlers, store).error.cls in handlers
  {
    var hs := EventClasses(handlers);
    HandlersLoadedOutcome(hs, WithRouter(store), |hs|);
    assert forall i :: 0 <= i < |handlers| ==> hs[i] == handlers[i];
  }

  /** When events are loaded, the router's "interactionCreate" listener is
      among the listed events, so it is bound with `on`. */
  lemma RouterListed(handlers: seq<Class>, store: Store)
    requires EventsOf(handlers, store).Success?
    ensures RouterEvent in AllEvents(EventsOf(handlers, store).value)
    ensures BindingOf(RouterEvent) in BindingsOf(AllEvents(EventsOf(handlers, store).value))
    ensures BindingOf(RouterEvent).mode == On
  {
    var hs := EventClasses(handlers);
    var st := WithRouter(store);
    var s := EventsOf(handlers, store).value;
    HandlersLoadedMembers(hs, st, |hs|);
    HandlersLoadedAsDeclared(hs, st, |hs|);
    assert hs[..|hs|][|hs| - 1] == RouterClass;
    assert RouterClass in s.values;
    RouterDeclaredEvents(store);
    KeysAreDomain(s);
    var i :| 0 <= i < |s.keys| && s.keys[i] == RouterClass;
    assert ValueAt(ValueAt(s, i), 0) == RouterEvent;
    EventsUpToContents(s, |s.keys|);
    BindingsOfMember(AllEvents(s), RouterEvent);
  }

  class Bot {
    const configuration: BotConfig
    const client: Client
    var commands: Option<CommandTable>
    /** `_commandDeployer`, reduced to the table it deploys. */
    var commandDeployer: Option<CommandTable>
    var commandRegistry: Option<CommandRegistry>
    var eventRegistry: Option<EventRegistry>

    /** The fields before the constructor's three phases run. */
    constructor (config: BotConfig)
      ensures configuration == config && fresh(client)
      ensures client.commands == None && client.bindings == []
      ensures commands == None && commandDeployer == None
      ensures commandRegistry == None && eventRegistry == None
    {
      configuration := config;
      client := new Client();
      commands := None;
      commandDeployer := None;
      commandRegistry := None;
      eventRegistry := None;
    }

    /** `initializeCommands`: builds the table from the command registry, when
        there is one, and attaches it to the client. */
    method InitializeCommands() returns (r: Outcome<BuildError>)
      modifies this, client
      ensures commandRegistry == old(commandRegistry) && eventRegistry == old(eventRegistry)
      ensures commandDeployer == old(commandDeployer) && client.bindings == old(client.bindings)
      ensures r.Fail? <==> commandRegistry.Some? && FirstBuildError(commandRegistry.value.commands).Some?
      ensures r.Fail? ==> r.error == FirstBuildError(commandRegistry.value.commands).value
      ensures r.Fail? ==> commands == old(commands) && client.commands == old(client.commands)
      ensures r.Pass? && commandRegistry.None? ==> commands == None && client.commands == old(client.commands)
      ensures r.Pass? && commandRegistry.Some? ==>
                && commands.Some? && client.commands == commands
                && TableBuilt(commands.value, commandRegistry.value.commands, TableIndex(commandRegistry.value.commands))
    {
      if commandRegistry.None? {
        commands := None;
        return Pass;
      }
      var table := commandRegistry.value.ToDiscordCommands();
      if table.Failure? {
        return Fail(table.error);
      }
      commands := Some(table.value);
      client.commands := commands;
      return Pass;
    }

    /** `initializeEvents`: one listener per listed event, in list order. */
    method InitializeEvents()
      modifies client
      ensures client.commands == old(client.commands)
      ensures client.bindings == old(client.bindings) +
                if eventRegistry.Some? then BindingsOf(AllEvents(ShapeOf(eventRegistry.value.events))) else []
    {
      if eventRegistry.None? {
        return;
      }
      var events := eventRegistry.value.ToDiscordEvents();
      BindEvents(client, events);
    }

    /** The constructor's command phase: load the classes into a new command
        registry, build the table and attach it, and create the deployer. */
    method CommandsPhase(classes: seq<Class>, store: Store) returns (r: Outcome<BotError>)
      modifies this, client
      ensures eventRegistry == old(eventRegistry) && client.bindings == old(client.bindings)
      ensures r.Fail? <==> CommandPhaseError(classes, store).Some?
      ensures r.Fail? ==> r.error == CommandPhaseError(classes, store).value
      ensures r.Pass? ==> CommandsReady(this, Some(classes), store)
    {
      CommandPhaseErrorUnsealed(classes, store, |classes| + 1);
      var loaded := CommandLoader.Load(classes, store);
      if loaded.Failure? {
        return Fail(CommandLoadFailed(loaded.error));
      }
      commandRegistry := Some(loaded.value);
      var built := InitializeCommands();
      if built.Fail? {
        return Fail(CommandBuildFailed(built.error));
      }
      if commands.Some? {
        commandDeployer := commands;
      }
      BuiltFromLoadedUnsealed(commands.value, classes, store, |classes| + 1);
      return Pass;
    }

    /** The constructor's event phase: load the handlers and the router into a
        new event registry and bind every event. */
    method EventsPhase(handlers: seq<Class>, store: Store) returns (r: Outcome<BotError>)
      modifies this, client
      ensures commands == old(commands) && commandDeployer == old(commandDeployer)
      ensures client.commands == old(client.commands)
      ensures r.Fail? <==> EventsOf(handlers, store).Failure?
      ensures r.Fail? ==> r.error == EventLoadFailed(EventsOf(handlers, store).error)
      ensures r.Pass? ==> client.bindings == old(client.bindings) + BindingsOf(AllEvents(EventsOf(handlers, store).value))
    {
      var loaded := EventLoader.Load(EventClasses(handlers), WithRouter(store));
      if loaded.Failure? {
        return Fail(EventLoadFailed(loaded.error));
      }
      eventRegistry := Some(loaded.value);
      InitializeEvents();
      return Pass;
    }

    /** `deploy`: throws without a deployer; otherwise hands its table to the
        deployer, whose REST call is not part of this model. */
    method Deploy() returns (r: Result<CommandTable, string>)
      ensures commandDeployer.None? ==> r == Failure(NoCommandsMessage)
      ensures commandDeployer.Some? ==> r == Success(commandDeployer.value)
    {
      if commandDeployer.None? {
        return Failure(NoCommandsMessage);
      }
      return Success(commandDeployer.value);
    }
  }

  /** After the command phase: a table exactly when commands are configured,
      the same one on the bot, on the client and in the deployer, built from
      the loaded registry. */
  ghost predicate CommandsReady(bot: Bot, commands: Option<seq<Class>>, store: Store)
    reads bot, bot.client
  {
    && (bot.commands.Some? <==> commands.Some?)
    && bot.client.commands == bot.commands && bot.commandDeployer == bot.commands
    && (commands.Some? ==> BuiltFromLoaded(bot.commands.value, commands.value, store, |commands.value| + 1))
  }

  /** After the event phase: one listener per loaded event when events are
      configured, none otherwise. */
  ghost predicate EventsBound(bot: Bot, events: Option<seq<Class>>, store: Store)
    reads bot, bot.client
  {
    if events.Some? then
      EventsOf(events.value, store).Success? && bot.client.bindings == BindingsOf(AllEvents(EventsOf(events.value, store).value))
    else bot.client.bindings == []
  }

  /** What a constructed bot holds. */
  ghost predicate Started(bot: Bot, config: BotConfig, store: Store)
    reads bot, bot.client
  {
    && bot.configuration == config
    && CommandsReady(bot, config.commands, store)
    && EventsBound(bot, config.events, store)
  }

  /** `new Bot(configuration)`, with `errors` the program's one
      `ErrorHandlerRegistry`. */
  method NewBot(config: BotConfig, store: Store, errors: ErrorHandlerRegistry) returns (r: Result<Bot, BotError>)
    modifies errors
    ensures r.Failure? <==> StartupError(config, store).Some?
    ensures r.Failure? ==> r.error == StartupError(config, store).value && errors.handlers == old(errors.handlers)
    ensures r.Success? ==>
      && fresh(r.value) && fresh(r.value.client) && Started(r.value, config, store)
      && errors.handlers == match config.interactionCreateErrorHandler
                            case Some(h) => old(errors.handlers)[UnhandledErrorInInteraction := h][UnknownCommandInInteraction := h]
                            case None => old(errors.handlers)
  {
    var bot := new Bot(config);
    if config.commands.Some? {
      var phase := bot.CommandsPhase(config.commands.value, store);
      if phase.Fail? {
        return Failure(phase.error);
      }
    }
    if config.events.Some? {
      var phase := bot.EventsPhase(config.events.value, store);
      if phase.Fail? {
        return Failure(phase.error);
      }
    }
    if config.interactionCreateErrorHandler.Some? {
      errors.Register(UnhandledErrorInInteraction, config.interactionCreateErrorHandler.value);
      errors.Register(UnknownCommandInInteraction, config.interactionCreateErrorHandler.value);
    }
    return Success(bot);
  }

  /** The router is bound exactly when events are configured: with events, its
      listener is among the client's; without, the client has none. */
  lemma RouterBoundIffEvents(config: BotConfig, store: Store, bindings: seq<Binding>)
    requires StartupError(config, store).None?
    requires bindings == if config.events.Some? then BindingsOf(AllEvents(EventsOf(config.events.value, store).value)) else []
    ensures BindingOf(RouterEvent) in bindings <==> config.events.Some?
  {
    if config.events.Some? {
      RouterListed(config.events.value, store);
    }
  }
}
