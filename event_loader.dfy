/** `EventLoader.load` (src/events/eventLoader.ts): registers each handler
    class marked `@EventHandler`, then each of its prototype's methods that
    carries `@On` metadata, under the event name that metadata gives. */
module EventLoader {
  import opened Wrappers
  import opened OrderedMaps
  import opened Types
  import opened Declarations
  import opened EventRegistry

  /** The error `load` throws: a class without the `@EventHandler` mark. */
  datatype EventLoadError = UnmarkedHandler(cls: Class)

  /** The event the `@On` metadata of `c`'s method `m` names, if any. */
  predicate DeclaresAt(c: Class, ev: map<(Class, string), EventInformation>, j: nat, k: string)
    requires j < |c.prototypeMethods|
  {
    (c, c.prototypeMethods[j]) in ev && ev[(c, c.prototypeMethods[j])].name == k
  }

  /** The event map after the methods' loop over the first `n` methods of `c`,
      from map `m`. */
  function AddEvents(m: OMap<string, EventInformation>, c: Class, ev: map<(Class, string), EventInformation>, n: nat): OMap<string, EventInformation>
    requires n <= |c.prototypeMethods|
  {
    if n == 0 then m
    else
      var prev := AddEvents(m, c, ev, n - 1);
      var prop := c.prototypeMethods[n - 1];
      if (c, prop) in ev then Set(prev, ev[(c, prop)].name, ev[(c, prop)]) else prev
  }

  /** The metadata of the last of the first `n` methods of `c` that names the
      event `k`. */
  function LastDeclared(c: Class, ev: map<(Class, string), EventInformation>, k: string, n: nat): (r: Option<EventInformation>)
    requires n <= |c.prototypeMethods|
  {
    if n == 0 then None
    else if DeclaresAt(c, ev, n - 1, k) then Some(ev[(c, c.prototypeMethods[n - 1])])
    else LastDeclared(c, ev, k, n - 1)
  }

  /** `LastDeclared` finds a method declaring `k` exactly when there is one,
      and what it finds is that method's metadata, named `k`. */
  lemma {:induction false} LastDeclaredSound(c: Class, ev: map<(Class, string), EventInformation>, k: string, n: nat)
    requires n <= |c.prototypeMethods|
    ensures LastDeclared(c, ev, k, n).Some? <==> exists j :: 0 <= j < n && DeclaresAt(c, ev, j, k)
    ensures LastDeclared(c, ev, k, n).Some? ==>
              exists j :: 0 <= j < n && DeclaresAt(c, ev, j, k) && ev[(c, c.prototypeMethods[j])] == LastDeclared(c, ev, k, n).value
    ensures LastDeclared(c, ev, k, n).Some? ==> LastDeclared(c, ev, k, n).value.name == k
  {
    if n > 0 {
      LastDeclaredSound(c, ev, k, n - 1);
    }
  }

  /** The loop keeps the keys it starts with and adds those some method
      declares; each declared key holds the last declaring method's metadata. */
  lemma {:induction false} AddEventsContents(m: OMap<string, EventInformation>, c: Class, ev: map<(Class, string), EventInformation>, n: nat)
    requires n <= |c.prototypeMethods|
    ensures forall k :: k in AddEvents(m, c, ev, n).values <==> k in m.values || LastDeclared(c, ev, k, n).Some?
    ensures forall k :: k in AddEvents(m, c, ev, n).values ==>
              AddEvents(m, c, ev, n).values[k] == if LastDeclared(c, ev, k, n).Some? then LastDeclared(c, ev, k, n).value else m.values[k]
  {
    if n > 0 {
      AddEventsContents(m, c, ev, n - 1);
    }
  }

  /** Starting from a map that already holds every key the methods declare,
      the loop keeps the keys in place. */
  lemma {:induction false} AddEventsKeepsKeys(m: OMap<string, EventInformation>, c: Class, ev: map<(Class, string), EventInformation>, n: nat)
    requires n <= |c.prototypeMethods|
    requires forall j :: 0 <= j < n && (c, c.prototypeMethods[j]) in ev ==> ev[(c, c.prototypeMethods[j])].name in m.values
    ensures AddEvents(m, c, ev, n).keys == m.keys
    ensures AddEvents(m, c, ev, n).values.Keys == m.values.Keys
  {
    if n > 0 {
      AddEventsKeepsKeys(m, c, ev, n - 1);
    }
  }

  /** Running the methods' loop of a class twice leaves what running it once
      leaves, so a class listed twice gets the events it gets when listed once. */
  lemma AddEventsTwice(m: OMap<string, EventInformation>, c: Class, ev: map<(Class, string), EventInformation>)
    ensures var once := AddEvents(m, c, ev, |c.prototypeMethods|);
            AddEvents(once, c, ev, |c.prototypeMethods|) == once
  {
    var n := |c.prototypeMethods|;
    var once := AddEvents(m, c, ev, n);
    var twice := AddEvents(once, c, ev, n);
    AddEventsContents(m, c, ev, n);
    AddEventsContents(once, c, ev, n);
    forall j | 0 <= j < n && (c, c.prototypeMethods[j]) in ev
      ensures ev[(c, c.prototypeMethods[j])].name in once.values
    {
      assert DeclaresAt(c, ev, j, ev[(c, c.prototypeMethods[j])].name);
      LastDeclaredSound(c, ev, ev[(c, c.prototypeMethods[j])].name, n);
    }
    AddEventsKeepsKeys(once, c, ev, n);
    assert twice.values == once.values;
  }

  /** The events `c` gets when it is registered: the map its methods' loop
      builds from empty. */
  function DeclaredEvents(c: Class, ev: map<(Class, string), EventInformation>): OMap<string, EventInformation> {
    AddEvents(Empty(), c, ev, |c.prototypeMethods|)
  }

  /** A class's events are exactly the names its methods' metadata give, each
      with the metadata of the last method giving it. */
  lemma DeclaredEventsExactly(c: Class, ev: map<(Class, string), EventInformation>)
    ensures forall k :: k in DeclaredEvents(c, ev).values <==> exists j :: 0 <= j < |c.prototypeMethods| && DeclaresAt(c, ev, j, k)
    ensures forall k :: k in DeclaredEvents(c, ev).values ==>
              && LastDeclared(c, ev, k, |c.prototypeMethods|).Some?
              && DeclaredEvents(c, ev).values[k] == LastDeclared(c, ev, k, |c.prototypeMethods|).value
              && DeclaredEvents(c, ev).values[k].name == k
  {
    var n := |c.prototypeMethods|;
    AddEventsContents(Empty(), c, ev, n);
    forall k ensures LastDeclared(c, ev, k, n).Some? <==> exists j :: 0 <= j < n && DeclaresAt(c, ev, j, k) {
      LastDeclaredSound(c, ev, k, n);
    }
    forall k | k in DeclaredEvents(c, ev).values ensures DeclaredEvents(c, ev).values[k].name == k {
      LastDeclaredSound(c, ev, k, n);
    }
  }

  // ------------------------------------------------------------------ load

  /** What one turn does to the shape of a marked class `c`, reached through
      `depth` unfoldings (as `Sealed` is), so that the turn stays folded in
      proofs about the whole loop until `RegisteringUnsealed` opens it. */
  function Registering(s: EventShape, c: Class, ev: map<(Class, string), EventInformation>, depth: nat): EventShape
    decreases depth
  {
    if depth == 0 then
      var s1 := WithHandler(s, c);
      Set(s1, c, AddEvents(s1.values[c], c, ev, |c.prototypeMethods|))
    else Registering(s, c, ev, depth - 1)
  }

  lemma {:induction false} RegisteringUnsealed(s: EventShape, c: Class, ev: map<(Class, string), EventInformation>, depth: nat)
    ensures Registering(s, c, ev, depth) == Registering(s, c, ev, 0)
    decreases depth
  {
    if depth > 0 {
      RegisteringUnsealed(s, c, ev, depth - 1);
    }
  }

  /** One turn of the handlers' loop, on shapes: an unmarked class throws; a
      marked one is registered, then its methods' loop runs. */
  function HandlerLoaded(s: EventShape, c: Class, store: Store): (r: Result<EventShape, EventLoadError>)
    ensures r.Success? <==> c in store.eventHandlers
    ensures r.Failure? ==> r.error == UnmarkedHandler(c)
  {
    if c !in store.eventHandlers then Failure(UnmarkedHandler(c))
    else Success(Registering(s, c, store.events, |s.keys| + 1))
  }

  /** A marked class's turn registers it, last unless it was there already,
      and registers no other class. */
  lemma HandlerLoadedShape(s: EventShape, c: Class, store: Store)
    requires c in store.eventHandlers
    ensures var r := HandlerLoaded(s, c, store).value;
            && (forall d :: d in r.values <==> d in s.values || d == c)
            && r.keys == if c in s.values then s.keys else s.keys + [c]
  {
    RegisteringUnsealed(s, c, store.events, |s.keys| + 1);
  }

  /** `load` over the first `n` handler classes. */
  function HandlersLoaded(handlers: seq<Class>, store: Store, n: nat): Result<EventShape, EventLoadError>
    requires n <= |handlers|
  {
    if n == 0 then Success(Empty())
    else
      var prev :- HandlersLoaded(handlers, store, n - 1);
      HandlerLoaded(prev, handlers[n - 1], store)
  }

  lemma {:induction false} HandlersLoadedFailureSticks(handlers: seq<Class>, store: Store, n: nat, m: nat)
    requires n <= m <= |handlers| && HandlersLoaded(handlers, store, n).Failure?
    ensures HandlersLoaded(handlers, store, m) == HandlersLoaded(handlers, store, n)
    decreases m - n
  {
    if m > n {
      HandlersLoadedFailureSticks(handlers, store, n, m - 1);
    }
  }

  /** Every registered class holds the events its methods declare. */
  ghost predicate AsDeclared(s: EventShape, store: Store) {
    forall c :: c in s.values ==> s.values[c] == DeclaredEvents(c, store.events)
  }

  /** One turn for a marked class: the class is registered with the events it
      declares, and no other class changes. */
  lemma HandlerLoadedStep(s: EventShape, c: Class, store: Store)
    requires c in store.eventHandlers && AsDeclared(s, store)
    ensures var r := HandlerLoaded(s, c, store);
            && r.Success? && AsDeclared(r.value, store)
  {
    RegisteringUnsealed(s, c, store.events, |s.keys| + 1);
    if c in s.values {
      AddEventsTwice(Empty(), c, store.events);
    }
  }

  /** `load` throws exactly when some class is unmarked, naming the first. */
  lemma {:induction false} HandlersLoadedOutcome(handlers: seq<Class>, store: Store, n: nat)
    requires n <= |handlers|
    ensures var r := HandlersLoaded(handlers, store, n);
            && (r.Success? <==> forall i :: 0 <= i < n ==> handlers[i] in store.eventHandlers)
            && (r.Failure? ==> exists i :: 0 <= i < n && r.error == UnmarkedHandler(handlers[i]) && handlers[i] !in store.eventHandlers
                                 && forall j :: 0 <= j < i ==> handlers[j] in store.eventHandlers)
  {
    if n > 0 {
      HandlersLoadedOutcome(handlers, store, n - 1);

    }
  }

  /** When `load` succeeds, the classes registered are those listed. */
  lemma {:induction false} HandlersLoadedMembers(handlers: seq<Class>, store: Store, n: nat)
    requires n <= |handlers| && HandlersLoaded(handlers, store, n).Success?
    ensures forall c :: c in HandlersLoaded(handlers, store, n).value.values <==> c in handlers[..n]
  {
    if n > 0 {
      HandlersLoadedMembers(handlers, store, n - 1);
      HandlerLoadedShape(HandlersLoaded(handlers, store, n - 1).value, handlers[n - 1], store);
      assert handlers[..n] == handlers[..n - 1] + [handlers[n - 1]];
    }
  }

  /** When `load` succeeds, each class holds exactly the events its methods
      declare. */
  lemma {:induction false} HandlersLoadedAsDeclared(handlers: seq<Class>, store: Store, n: nat)
    requires n <= |handlers| && HandlersLoaded(handlers, store, n).Success?
    ensures AsDeclared(HandlersLoaded(handlers, store, n).value, store)
  {
    if n > 0 {
      HandlersLoadedAsDeclared(handlers, store, n - 1);
      HandlerLoadedStep(HandlersLoaded(handlers, store, n - 1).value, handlers[n - 1], store);
    }
  }

  /** Distinct classes are registered in list order. */
  lemma {:induction false} HandlersLoadedOrder(handlers: seq<Class>, store: Store, n: nat)
    requires n <= |handlers| && HandlersLoaded(handlers, store, n).Success? && Distinct(handlers[..n])
    ensures HandlersLoaded(handlers, store, n).value.keys == handlers[..n]
  {
    if n > 0 {
      var init := handlers[..n - 1];
      assert handlers[..n] == init + [handlers[n - 1]];
      assert Distinct(init) by {
        forall i, j | 0 <= i < j < n - 1 ensures init[i] != init[j] {
          assert handlers[..n][i] != handlers[..n][j];
        }
      }
      HandlersLoadedOrder(handlers, store, n - 1);
      HandlersLoadedMembers(handlers, store, n - 1);
      HandlerLoadedShape(HandlersLoaded(handlers, store, n - 1).value, handlers[n - 1], store);
      assert handlers[n - 1] !in init by {
        forall i | 0 <= i < n - 1 ensures init[i] != handlers[n - 1] {
          assert handlers[..n][i] != handlers[..n][n - 1];
        }
      }
    }
  }

  /** The methods' loop of `load` for class `c`, which `registerEventHandler`
      has just registered: every `registerEvent` call finds the class. */
  method LoadEvents(reg: EventRegistry, c: Class, ev: map<(Class, string), EventInformation>)
    modifies reg
    requires reg.Valid() && c in reg.events.values
    ensures reg.Valid()
    ensures var s := old(ShapeOf(reg.events)); ShapeOf(reg.events) == Set(s, c, AddEvents(s.values[c], c, ev, |c.prototypeMethods|))
  {
    ghost var s0 := ShapeOf(reg.events);
    ghost var m0 := reg.events.values[c].events;
    SetSame(s0, c);
    var methods := c.prototypeMethods;
    var j := 0;
    while j < |methods|
      invariant j <= |methods| && reg.Valid() && c in reg.events.values
      invariant ShapeOf(reg.events) == Set(s0, c, AddEvents(m0, c, ev, j))
    {
      var prop := methods[j];
      if (c, prop) in ev {
        var eventInfo := ev[(c, prop)];
        var r := reg.RegisterEvent(c, eventInfo.name, eventInfo);
        assert r.Pass?;
        SetTwice(s0, c, AddEvents(m0, c, ev, j), Set(AddEvents(m0, c, ev, j), eventInfo.name, eventInfo));
      }
      j := j + 1;
    }
  }

  /** One turn of the handlers' loop of `load`: throw for an unmarked class;
      otherwise create the instance whose prototype lists the methods, register
      the class, then its events. */
  method LoadHandler(reg: EventRegistry, c: Class, store: Store) returns (r: Outcome<EventLoadError>)
    modifies reg
    requires reg.Valid()
    ensures reg.Valid()
    ensures var res := HandlerLoaded(old(ShapeOf(reg.events)), c, store);
            if res.Success? then r.Pass? && ShapeOf(reg.events) == res.value else r == Fail(res.error)
  {
    if c !in store.eventHandlers {
      return Fail(UnmarkedHandler(c));
    }
    // `new eventHandlerClass()`
    var probe := new Handler(c);
    ghost var before := ShapeOf(reg.events);
    reg.RegisterEventHandler(c);
    LoadEvents(reg, c, store.events);
    RegisteringUnsealed(before, c, store.events, |before.keys| + 1);
    return Pass;
  }

  /** `load`: a new registry holding what `HandlersLoaded` describes, or the
      error for the first unmarked class. */
  method Load(handlers: seq<Class>, store: Store) returns (r: Result<EventRegistry, EventLoadError>)
    ensures var spec := HandlersLoaded(handlers, store, |handlers|);
            && (r.Success? <==> spec.Success?)
            && (r.Failure? ==> r.error == spec.error)
            && (r.Success? ==> fresh(r.value) && r.value.Valid() && ShapeOf(r.value.events) == spec.value)
  {
    var reg := new EventRegistry();
    var i := 0;
    while i < |handlers|
      invariant i <= |handlers| && fresh(reg) && reg.Valid()
      invariant HandlersLoaded(handlers, store, i) == Success(ShapeOf(reg.events))
    {
      var loaded := LoadHandler(reg, handlers[i], store);
      if loaded.Fail? {
        HandlersLoadedFailureSticks(handlers, store, i + 1, |handlers|);
        return Failure(loaded.error);
      }
      i := i + 1;
    }
    return Success(reg);
  }
}
