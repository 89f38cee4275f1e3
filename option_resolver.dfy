/** `OptionResolver` (src/commands/optionResolver.ts): before a handler runs,
    each declared option's value is fetched from the interaction with the
    accessor for its type and written onto the handler instance. The write goes
    to the literal field "prop", not to the option's own property. */
module OptionResolver {
  import opened Wrappers
  import opened OrderedMaps
  import opened Types

  /** The field `resolve` writes: the string literal "prop". */
  const WrittenField: string := "prop"

  /** The option type whose value an accessor reads. */
  function AccessorType(a: Accessor): OptionType {
    match a
    case GetString => String
    case GetNumber => Number
    case GetInteger => Integer
    case GetBoolean => Boolean
    case GetAttachment => Attachment
    case GetChannel => Channel
    case GetMentionable => Mentionable
    case GetRole => Role
    case GetUser => User
  }

  /** The accessor `getOption` calls for each type: the one that reads that
      type. */
  function AccessorFor(t: OptionType): (a: Accessor)
    ensures AccessorType(a) == t
  {
    match t
    case String => GetString
    case Number => GetNumber
    case Integer => GetInteger
    case Boolean => GetBoolean
    case Attachment => GetAttachment
    case Channel => GetChannel
    case Mentionable => GetMentionable
    case Role => GetRole
    case User => GetUser
  }

  /** Each type has an accessor of its own. */
  lemma AccessorForInjective(s: OptionType, t: OptionType)
    ensures AccessorFor(s) == AccessorFor(t) <==> s == t
  {
  }

  /** The message `getOption` throws for a record of no known type. */
  function UnknownTypeMessage(rawType: string): string {
    "Unknown option type: " + rawType
  }

  /** `getOption`: the value the type's accessor returns for `name`, or the
      error for a record of no known type. */
  function GetOption(name: string, o: OptionInfo): (r: Result<Value, string>)
    ensures r.Success? <==> TypeOf(o).Some?
    ensures r.Success? ==> r.value == Fetched(AccessorFor(TypeOf(o).value), name)
    ensures r.Failure? ==> o.UndeclaredOption? && r.error == UnknownTypeMessage(o.rawType)
  {
    match TypeOf(o)
    case Some(t) => Success(Fetched(AccessorFor(t), name))
    case None => Failure(UnknownTypeMessage(o.rawType))
  }

  /** What `resolve` leaves behind: the handler's fields, the values the
      accessors returned (one per accessor call, in call order), and whether
      it threw. */
  datatype Resolution = Resolution(fields: map<string, Value>, fetched: seq<Value>, outcome: Outcome<string>)

  /** `resolve` over the first `n` entries of `options`, from fields `fields`:
      each value overwrites "prop"; the first record of no known type throws,
      leaving the writes made so far. */
  function Resolved(fields: map<string, Value>, options: OMap<string, OptionInfo>, n: nat): (r: Resolution)
    requires n <= |options.keys|
    ensures |r.fetched| <= n
    ensures r.fields.Keys <= fields.Keys + {WrittenField}
    ensures forall k :: k in fields && k != WrittenField ==> k in r.fields && r.fields[k] == fields[k]
  {
    if n == 0 then Resolution(fields, [], Pass)
    else
      var prev := Resolved(fields, options, n - 1);
      if prev.outcome.Fail? then prev
      else
        match GetOption(options.keys[n - 1], ValueAt(options, n - 1))
        case Success(v) => Resolution(prev.fields[WrittenField := v], prev.fetched + [v], Pass)
        case Failure(e) => Resolution(prev.fields, prev.fetched, Fail(e))
  }

  /** `resolve` over every entry of `options`. */
  function ResolvedAll(fields: map<string, Value>, options: OMap<string, OptionInfo>): Resolution {
    Resolved(fields, options, |options.keys|)
  }

  /** The value the accessor of entry `i` returns. */
  function FetchedAt(options: OMap<string, OptionInfo>, i: nat): Value
    requires i < |options.keys| && TypeOf(ValueAt(options, i)).Some?
  {
    Fetched(AccessorFor(TypeOf(ValueAt(options, i)).value), options.keys[i])
  }

  /** The accessors are called once per entry, in map order, with the entry's
      name and the accessor of its type, up to the first entry of no known
      type; that entry ends the loop with its error. */
  lemma {:induction false} ResolvedCalls(fields: map<string, Value>, options: OMap<string, OptionInfo>, n: nat)
    requires n <= |options.keys|
    ensures var r := Resolved(fields, options, n);
            && |r.fetched| <= n
            && (forall i :: 0 <= i < |r.fetched| ==> TypeOf(ValueAt(options, i)).Some? && r.fetched[i] == FetchedAt(options, i))
            && (r.outcome.Pass? <==> |r.fetched| == n)
            && (r.outcome.Fail? ==>
                  && ValueAt(options, |r.fetched|).UndeclaredOption?
                  && r.outcome.error == UnknownTypeMessage(ValueAt(options, |r.fetched|).rawType))
  {
    if n > 0 {
      ResolvedCalls(fields, options, n - 1);
    }
  }

  /** The only field written is "prop", and it holds the last value fetched;
      with nothing fetched the fields are untouched. */
  lemma {:induction false} ResolvedWritesProp(fields: map<string, Value>, options: OMap<string, OptionInfo>, n: nat)
    requires n <= |options.keys|
    ensures var r := Resolved(fields, options, n);
            r.fields == if |r.fetched| == 0 then fields else fields[WrittenField := r.fetched[|r.fetched| - 1]]
  {
    if n > 0 {
      ResolvedWritesProp(fields, options, n - 1);
    }
  }

  /** Once `resolve` has thrown, later entries change nothing. */
  lemma {:induction false} ResolvedFailureSticks(fields: map<string, Value>, options: OMap<string, OptionInfo>, n: nat, m: nat)
    requires n <= m <= |options.keys| && Resolved(fields, options, n).outcome.Fail?
    ensures Resolved(fields, options, m) == Resolved(fields, options, n)
    decreases m - n
  {
    if m > n {
      ResolvedFailureSticks(fields, options, n, m - 1);
    }
  }

  /** An empty option map makes no accessor call and no write. */
  lemma ResolveEmpty(fields: map<string, Value>, options: OMap<string, OptionInfo>)
    requires |options.keys| == 0
    ensures ResolvedAll(fields, options) == Resolution(fields, [], Pass)
  {
  }

  /** What is fetched does not depend on the fields. */
  lemma {:induction false} ResolvedFetchesIndependent(a: map<string, Value>, b: map<string, Value>, options: OMap<string, OptionInfo>, n: nat)
    requires n <= |options.keys|
    ensures Resolved(a, options, n).fetched == Resolved(b, options, n).fetched
    ensures Resolved(a, options, n).outcome == Resolved(b, options, n).outcome
  {
    if n > 0 {
      ResolvedFetchesIndependent(a, b, options, n - 1);
    }
  }

  /** Resolving the same options again fetches the same values and leaves the
      fields as the first pass left them. */
  lemma ResolveTwice(fields: map<string, Value>, options: OMap<string, OptionInfo>)
    ensures var once := ResolvedAll(fields, options);
            var twice := ResolvedAll(once.fields, options);
            && twice.fetched == once.fetched && twice.outcome == once.outcome
            && twice.fields == once.fields
  {
    var once := ResolvedAll(fields, options);
    ResolvedFetchesIndependent(fields, once.fields, options, |options.keys|);
    ResolvedWritesProp(fields, options, |options.keys|);
    ResolvedWritesProp(once.fields, options, |options.keys|);
  }

  /** `resolve`: writes each declared option's value onto the handler, in map
      order; `fetched` lists the values the accessors returned. */
  method Resolve(command: Handler, options: OMap<string, OptionInfo>) returns (fetched: seq<Value>, r: Outcome<string>)
    modifies command
    ensures Resolution(command.fields, fetched, r) == ResolvedAll(old(command.fields), options)
  {
    fetched := [];
    var i := 0;
    while i < |options.keys|
      invariant i <= |options.keys|
      invariant Resolved(old(command.fields), options, i) == Resolution(command.fields, fetched, Pass)
    {
      var value := GetOption(options.keys[i], ValueAt(options, i));
      if value.Failure? {
        ResolvedFailureSticks(old(command.fields), options, i + 1, |options.keys|);
        return fetched, Fail(value.error);
      }
      command.fields := command.fields[WrittenField := value.value];
      fetched := fetched + [value.value];
      i := i + 1;
    }
    return fetched, Pass;
  }
}
