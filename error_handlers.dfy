/** `ErrorHandlerRegistry` (src/utility/errorHandlerRegistry.ts): one map from
    error type to handler function, shared by the whole program. `call`
    forwards its arguments to the registered handler and throws when there is
    none. */
module ErrorHandlers {
  import opened Wrappers
  import opened Types

  /** `ErrorType`, a numeric enum. */
  datatype ErrorType = UnknownCommandInInteraction | UnhandledErrorInInteraction

  /** The enum's numeric value. */
  function Code(t: ErrorType): nat {
    match t
    case UnknownCommandInInteraction => 0
    case UnhandledErrorInInteraction => 1
  }

  /** The decimal text of the code, as string concatenation renders a number. */
  function CodeText(t: ErrorType): (s: string)
    ensures |s| == 1 && s[0] as int == '0' as int + Code(t)
  {
    match t
    case UnknownCommandInInteraction => "0"
    case UnhandledErrorInInteraction => "1"
  }

  /** The message `call` throws for a type with no handler. */
  function NoHandlerMessage(t: ErrorType): string {
    "No handler for error type " + CodeText(t)
  }

  /** The two types have different codes, so their messages differ. */
  lemma NoHandlerMessageNamesType(s: ErrorType, t: ErrorType)
    ensures NoHandlerMessage(s) == NoHandlerMessage(t) <==> s == t
  {
    if s != t {
      assert NoHandlerMessage(s)[26] != NoHandlerMessage(t)[26];
    }
  }

  /** A handler called with these arguments: `handler(...args)`. */
  datatype Invocation<A> = Invocation(handler: FunctionRef, args: seq<A>)

  /** What `call(t, ...args)` does with the map `handlers`. */
  function Called<A>(handlers: map<ErrorType, FunctionRef>, t: ErrorType, args: seq<A>): (r: Result<Invocation<A>, string>)
    ensures r.Success? <==> t in handlers
    ensures r.Success? ==> r.value.handler == handlers[t] && r.value.args == args
    ensures r.Failure? ==> r.error == NoHandlerMessage(t)
  {
    if t in handlers then Success(Invocation(handlers[t], args)) else Failure(NoHandlerMessage(t))
  }

  /** After `register(t, h)`, `call(t, args)` invokes `h` with exactly `args`,
      and calls of the other type behave as before. */
  lemma RegisterThenCall<A>(handlers: map<ErrorType, FunctionRef>, t: ErrorType, h: FunctionRef, u: ErrorType, args: seq<A>)
    ensures Called(handlers[t := h], t, args) == Success(Invocation(h, args))
    ensures u != t ==> Called(handlers[t := h], u, args) == Called(handlers, u, args)
  {
  }

  /** Registering a type again replaces its handler. */
  lemma RegisterOverwrites<A>(handlers: map<ErrorType, FunctionRef>, t: ErrorType, g: FunctionRef, h: FunctionRef, args: seq<A>)
    ensures Called(handlers[t := g][t := h], t, args) == Called(handlers[t := h], t, args)
  {
  }

  /** `call` throws exactly for a type never registered. */
  lemma CallUnregistered<A>(handlers: map<ErrorType, FunctionRef>, t: ErrorType, args: seq<A>)
    ensures Called(handlers, t, args).Failure? <==> t !in handlers
    ensures t !in handlers ==> Called(handlers, t, args).error == NoHandlerMessage(t)
  {
  }

  /** The static map: a program has one instance of this class, which every
      `Bot` registers into and every caller reads; nothing removes an entry. */
  class ErrorHandlerRegistry {
    var handlers: map<ErrorType, FunctionRef>

    constructor ()
      ensures handlers == map[]
    {
      handlers := map[];
    }

    method Register(t: ErrorType, handler: FunctionRef)
      modifies this
      ensures handlers == old(handlers)[t := handler]
    {
      handlers := handlers[t := handler];
    }

    /** `call`: the invocation it makes, or the error it throws. */
    method Call<A>(t: ErrorType, args: seq<A>) returns (r: Result<Invocation<A>, string>)
      ensures r == Called(handlers, t, args)
    {
      if t !in handlers {
        return Failure(NoHandlerMessage(t));
      }
      var handler := handlers[t];
      return Success(Invocation(handler, args));
    }
  }
}
