/** `InteractionCreateHandler` (src/events/interactionCreateEvent.ts): the
    `interactionCreate` listener. It looks the interaction up in the command
    table and takes one of the group, subcommand and bare paths; each path
    resolves the handler's options and then calls its `execute`. No whitelist
    is checked, nothing calls the error handler registry, and the bare path of
    a command without subcommands resolves and executes a second time. */
module InteractionRouter {
  import opened Wrappers
  import opened OrderedMaps
  import opened Types
  import opened OptionResolver

  /** What the listener reads from an interaction: whether it is a chat-input
      command, the command name, `getSubcommandGroup()` (`null` is `None`),
      and `getSubcommand()` (a throw is `None`). */
  datatype Interaction = Interaction(chatInput: bool, commandName: string, group: Option<string>, subcommand: Option<string>)

  /** What the listener does to a handler, in order. */
  datatype Effect = Resolved(target: Handler) | Executed(target: Handler)

  /** The errors that escape the listener: `resolve` throwing, `execute`
      throwing, calling an `execute` that is not there, and the second
      `getSubcommand()` on the bare path of a command with subcommands. */
  datatype RouteError = OptionError(message: string) | ExecuteThrew(target: Handler)
                      | NotAFunction(target: Handler) | NoSubcommand

  /** The effects of a path and its outcome. */
  datatype Run = Run(effects: seq<Effect>, outcome: Outcome<RouteError>)

  // ------------------------------------------------------------- routing

  /** Where an interaction goes. The first five stop without touching any
      handler; the last three run one. */
  datatype Route =
    | Ignored                       // no command table, or not a chat-input command
    | UnknownCommand
    | UnknownGroup
    | GroupWithoutSubcommand
    | UnknownSubcommand
    | GroupPath(sub: DiscordSubcommandInformation)
    | SubcommandPath(sub: DiscordSubcommandInformation)
    | BarePath(data: DiscordCommandInformation)
  {
    predicate Runs() {
      GroupPath? || SubcommandPath? || BarePath?
    }

    /** The handler a running route resolves and executes. */
    function Target(): Handler
      requires Runs()
    {
      if BarePath? then data.command else sub.command
    }

    /** The options a running route resolves. */
    function Options(): OMap<string, OptionInfo>
      requires Runs()
    {
      if BarePath? then data.options else sub.options
    }
  }

  /** `handleGroupInteraction`'s decision. */
  function GroupRoute(data: DiscordCommandInformation, group: string, subcommand: Option<string>): (r: Route)
    ensures r.UnknownGroup? || r.GroupWithoutSubcommand? || r.UnknownSubcommand? || r.GroupPath?
    ensures r.UnknownGroup? <==> group !in data.groups.values
    ensures r.GroupWithoutSubcommand? <==> group in data.groups.values && subcommand.None?
    ensures r.GroupPath? <==> group in data.groups.values && subcommand.Some? && subcommand.value in data.groups.values[group].subcommands.values
    ensures r.GroupPath? ==> r.sub == data.groups.values[group].subcommands.values[subcommand.value]
  {
    if group !in data.groups.values then UnknownGroup
    else if subcommand.None? then GroupWithoutSubcommand
    else if subcommand.value !in data.groups.values[group].subcommands.values then UnknownSubcommand
    else GroupPath(data.groups.values[group].subcommands.values[subcommand.value])
  }

  /** `handlesubcommandInteraction`'s decision. */
  function SubcommandRoute(data: DiscordCommandInformation, subcommand: string): (r: Route)
    ensures r.UnknownSubcommand? || r.SubcommandPath?
    ensures r.SubcommandPath? <==> subcommand in data.subcommands.values
    ensures r.SubcommandPath? ==> r.sub == data.subcommands.values[subcommand]
  {
    if subcommand !in data.subcommands.values then UnknownSubcommand
    else SubcommandPath(data.subcommands.values[subcommand])
  }

  /** `interactionCreateHandler`'s decision. */
  function RouteOf(commands: Option<CommandTable>, it: Interaction): (r: Route)
    ensures r.Ignored? <==> commands.None? || !it.chatInput
    ensures r.UnknownCommand? <==> commands.Some? && it.chatInput && it.commandName !in commands.value.values
  {
    if commands.None? || !it.chatInput then Ignored
    else if it.commandName !in commands.value.values then UnknownCommand
    else
      var data := commands.value.values[it.commandName];
      if it.group.Some? then GroupRoute(data, it.group.value, it.subcommand)
      else if it.subcommand.Some? then SubcommandRoute(data, it.subcommand.value)
      else BarePath(data)
  }

  /** Without a table or a chat-input command nothing is looked up; an unknown
      name stops; a group takes the group path and nothing else; a subcommand
      without a group takes the subcommand path; otherwise the bare path. A
      running route runs the handler the table holds for the names given. */
  lemma RouteCases(commands: Option<CommandTable>, it: Interaction)
    ensures var route := RouteOf(commands, it);
            && (route == Ignored <==> commands.None? || !it.chatInput)
            && (route == UnknownCommand <==> commands.Some? && it.chatInput && it.commandName !in commands.value.values)
            && (route.GroupPath? || route == UnknownGroup || route == GroupWithoutSubcommand ==> it.group.Some?)
            && (route.SubcommandPath? || route.BarePath? ==> it.group.None?)
            && (route.BarePath? <==> route != Ignored && route != UnknownCommand && it.group.None? && it.subcommand.None?)
            && (route.GroupPath? ==>
                  && commands.Some? && it.commandName in commands.value.values && it.group.Some? && it.subcommand.Some?
                  && it.group.value in commands.value.values[it.commandName].groups.values
                  && var g := commands.value.values[it.commandName].groups.values[it.group.value];
                     it.subcommand.value in g.subcommands.values && route.sub == g.subcommands.values[it.subcommand.value])
            && (route.SubcommandPath? ==>
                  && commands.Some? && it.commandName in commands.value.values && it.subcommand.Some?
                  && it.subcommand.value in commands.value.values[it.commandName].subcommands.values
                  && route.sub == commands.value.values[it.commandName].subcommands.values[it.subcommand.value])
            && (route.BarePath? ==> commands.Some? && it.commandName in commands.value.values && route.data == commands.value.values[it.commandName])
  {
  }

  // ------------------------------------------------------------ the paths

  /** `resolve` followed by `execute` on `h`, given what `resolve` did. When
      `mandatory`, a missing `execute` is called anyway and throws; otherwise
      it is skipped. `throwing` holds the handlers whose `execute` throws. */
  function RunOf(h: Handler, res: Resolution, mandatory: bool, throwing: set<Handler>): (r: Run)
    ensures 1 <= |r.effects| <= 2 && r.effects[0] == Resolved(h)
    ensures res.outcome.Fail? ==> r == Run([Resolved(h)], Fail(OptionError(res.outcome.error)))
  {
    if res.outcome.Fail? then Run([Resolved(h)], Fail(OptionError(res.outcome.error)))
    else if !h.cls.hasExecute then Run([Resolved(h)], if mandatory then Fail(NotAFunction(h)) else Pass)
    else if h in throwing then Run([Resolved(h), Executed(h)], Fail(ExecuteThrew(h)))
    else Run([Resolved(h), Executed(h)], Pass)
  }

  /** On every path `resolve` comes first and `execute` at most once after it,
      and only when `resolve` did not throw. */
  lemma RunOrder(h: Handler, res: Resolution, mandatory: bool, throwing: set<Handler>)
    ensures var run := RunOf(h, res, mandatory, throwing);
            && 1 <= |run.effects| <= 2 && run.effects[0] == Resolved(h)
            && (|run.effects| == 2 <==> res.outcome.Pass? && h.cls.hasExecute)
            && (|run.effects| == 2 ==> run.effects[1] == Executed(h))
            && (run.outcome.Pass? <==> res.outcome.Pass? && if h.cls.hasExecute then h !in throwing else !mandatory)
  {
  }

  /** What the listener does along a running route, from the target's fields
      `fields`: the run, and the target's fields afterwards. */
  function Dispatch(route: Route, fields: map<string, Value>, throwing: set<Handler>): (d: (Run, map<string, Value>))
    requires route.Runs()
    ensures |d.0.effects| >= 1 && d.0.effects[0] == Resolved(route.Target())
    ensures d.0.outcome.Fail? ==> d.1 == ResolvedAll(fields, route.Options()).fields
  {
    var res := ResolvedAll(fields, route.Options());
    match route
    case GroupPath(sub) => (RunOf(sub.command, res, true, throwing), res.fields)
    case SubcommandPath(sub) => (RunOf(sub.command, res, true, throwing), res.fields)
    case BarePath(data) =>
      var first := RunOf(data.command, res, false, throwing);
      if first.outcome.Fail? then (first, res.fields)
      else if |data.subcommands.keys| == 0 then
        var again := ResolvedAll(res.fields, data.options);
        (Run(first.effects + RunOf(data.command, again, true, throwing).effects, Pass), again.fields)
      else (Run(first.effects, Fail(NoSubcommand)), res.fields)
  }

  /** On the bare path of a command with no subcommands, a first pass that
      does not throw is repeated exactly: the same effects again, the same
      fields, and nothing the second pass throws escapes. */
  lemma BarePathRunsTwice(data: DiscordCommandInformation, fields: map<string, Value>, throwing: set<Handler>)
    requires |data.subcommands.keys| == 0
    requires RunOf(data.command, ResolvedAll(fields, data.options), false, throwing).outcome.Pass?
    ensures var first := RunOf(data.command, ResolvedAll(fields, data.options), false, throwing);
            var d := Dispatch(BarePath(data), fields, throwing);
            && d.0 == Run(first.effects + first.effects, Pass)
            && d.1 == ResolvedAll(fields, data.options).fields
  {
    ResolveTwice(fields, data.options);
  }

  /** Errors on the group and subcommand paths, and from the bare path's first
      pass, escape the listener as they are; a command with subcommands
      reached without one fails at the second `getSubcommand()`. */
  lemma PathErrorsEscape(route: Route, fields: map<string, Value>, throwing: set<Handler>)
    requires route.Runs()
    ensures var res := ResolvedAll(fields, route.Options());
            && (!route.BarePath? ==> Dispatch(route, fields, throwing).0 == RunOf(route.Target(), res, true, throwing))
            && (route.BarePath? && RunOf(route.Target(), res, false, throwing).outcome.Fail? ==>
                  Dispatch(route, fields, throwing).0 == RunOf(route.Target(), res, false, throwing))
            && (route.BarePath? && RunOf(route.Target(), res, false, throwing).outcome.Pass? && |route.data.subcommands.keys| > 0 ==>
                  Dispatch(route, fields, throwing).0.outcome == Fail(NoSubcommand))
  {
  }

  // ----------------------------------------------------------- the methods

  /** `handleRawInteraction`. */
  method HandleRaw(data: DiscordCommandInformation, throwing: set<Handler>) returns (run: Run)
    modifies data.command
    ensures var res := ResolvedAll(old(data.command.fields), data.options);
            run == RunOf(data.command, res, false, throwing) && data.command.fields == res.fields
  {
    var fetched, resolved := Resolve(data.command, data.options);
    if resolved.Fail? {
      return Run([Resolved(data.command)], Fail(OptionError(resolved.error)));
    }
    if data.command.cls.hasExecute {
      if data.command in throwing {
        return Run([Resolved(data.command), Executed(data.command)], Fail(ExecuteThrew(data.command)));
      }
      return Run([Resolved(data.command), Executed(data.command)], Pass);
    }
    return Run([Resolved(data.command)], Pass);
  }

  /** `resolve` then a mandatory `execute`: the tail of the subcommand and
      group paths. */
  method ResolveAndExecute(sub: DiscordSubcommandInformation, throwing: set<Handler>) returns (run: Run)
    modifies sub.command
    ensures var res := ResolvedAll(old(sub.command.fields), sub.options);
            run == RunOf(sub.command, res, true, throwing) && sub.command.fields == res.fields
  {
    var fetched, resolved := Resolve(sub.command, sub.options);
    if resolved.Fail? {
      return Run([Resolved(sub.command)], Fail(OptionError(resolved.error)));
    }
    if !sub.command.cls.hasExecute {
      return Run([Resolved(sub.command)], Fail(NotAFunction(sub.command)));
    }
    if sub.command in throwing {
      return Run([Resolved(sub.command), Executed(sub.command)], Fail(ExecuteThrew(sub.command)));
    }
    return Run([Resolved(sub.command), Executed(sub.command)], Pass);
  }

  /** The handlers a route may write to. */
  function Writes(route: Route): set<Handler> {
    if route.Runs() then {route.Target()} else {}
  }

  /** `handlesubcommandInteraction`. */
  method HandleSubcommand(data: DiscordCommandInformation, subcommand: string, throwing: set<Handler>) returns (run: Run)
    modifies Writes(SubcommandRoute(data, subcommand))
    ensures var route := SubcommandRoute(data, subcommand);
            && (!route.Runs() ==> run == Run([], Pass))
            && (route.Runs() ==>
                  var d := Dispatch(route, old(route.Target().fields), throwing);
                  run == d.0 && route.Target().fields == d.1)
  {
    if subcommand !in data.subcommands.values {
      return Run([], Pass);
    }
    var subCommandData := data.subcommands.values[subcommand];
    run := ResolveAndExecute(subCommandData, throwing);
  }

  /** `handleGroupInteraction`. */
  method HandleGroup(data: DiscordCommandInformation, group: string, subcommand: Option<string>, throwing: set<Handler>) returns (run: Run)
    modifies Writes(GroupRoute(data, group, subcommand))
    ensures var route := GroupRoute(data, group, subcommand);
            && (!route.Runs() ==> run == Run([], Pass))
            && (route.Runs() ==>
                  var d := Dispatch(route, old(route.Target().fields), throwing);
                  run == d.0 && route.Target().fields == d.1)
  {
    if group !in data.groups.values {
      return Run([], Pass);
    }
    var groupCommandData := data.groups.values[group];
    if subcommand.None? {
      return Run([], Pass);
    }
    if subcommand.value !in groupCommandData.subcommands.values {
      return Run([], Pass);
    }
    var subcommandData := groupCommandData.subcommands.values[subcommand.value];
    run := ResolveAndExecute(subcommandData, throwing);
  }

  /** The bare path: `handleRawInteraction`, then, for a command with no
      subcommands, `resolve` and `execute` again inside a `try` whose `catch`
      does nothing; for a command with subcommands, `getSubcommand()` throws. */
  method HandleBare(data: DiscordCommandInformation, throwing: set<Handler>) returns (run: Run)
    modifies data.command
    ensures var d := Dispatch(BarePath(data), old(data.command.fields), throwing);
            run == d.0 && data.command.fields == d.1
  {
    run := HandleRaw(data, throwing);
    if run.outcome.Fail? {
      return;
    }
    if |data.subcommands.keys| == 0 {
      // the `try` block: its `catch` drops whatever it throws
      var fetched, resolved := Resolve(data.command, data.options);
      if resolved.Pass? && data.command.cls.hasExecute {
        run := Run(run.effects + [Resolved(data.command), Executed(data.command)], Pass);
      } else {
        run := Run(run.effects + [Resolved(data.command)], Pass);
      }
    } else {
      run := Run(run.effects, Fail(NoSubcommand));
    }
  }

  /** `interactionCreateHandler`: a route that stops touches nothing; a
      running route resolves and executes its target as `Dispatch` says. */
  method InteractionCreate(commands: Option<CommandTable>, it: Interaction, throwing: set<Handler>) returns (run: Run)
    modifies Writes(RouteOf(commands, it))
    ensures var route := RouteOf(commands, it);
            && (!route.Runs() ==> run == Run([], Pass))
            && (route.Runs() ==>
                  var d := Dispatch(route, old(route.Target().fields), throwing);
                  run == d.0 && route.Target().fields == d.1)
  {
    if commands.None? || !it.chatInput {
      return Run([], Pass);
    }
    if it.commandName !in commands.value.values {
      return Run([], Pass);
    }
    var commandData := commands.value.values[it.commandName];
    if it.group.Some? {
      run := HandleGroup(commandData, it.group.value, it.subcommand, throwing);
      return;
    }
    if it.subcommand.Some? {
      run := HandleSubcommand(commandData, it.subcommand.value, throwing);
      return;
    }
    run := HandleBare(commandData, throwing);
  }
}
