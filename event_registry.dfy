/** `EventRegistry` (src/events/eventRegistry.ts): handler classes in
    insertion order, each with one instance and its events keyed by event
    name; `toDiscordEvents` lists every event, class by class. */
module EventRegistry {
  import opened Wrappers
  import opened OrderedMaps
  import opened Types

  /** `EventRegistryItem`. */
  datatype EventRegistryItem = EventRegistryItem(instance: Handler, events: OMap<string, EventInformation>)

  /** The registry without its instances: each class's event map. */
  type EventShape = OMap<Class, OMap<string, EventInformation>>

  function ShapeOf(t: OMap<Class, EventRegistryItem>): (s: EventShape)
    ensures s.keys == t.keys
    ensures forall c :: c in s.values <==> c in t.values
    ensures forall c :: c in t.values ==> s.values[c] == t.values[c].events
  {
    Unsealed(t);
    Sealing(RawMap(t.keys, map c | c in t.values :: t.values[c].events))
  }

  /** Setting an item sets its event map in the shape. */
  lemma ShapeOfSet(t: OMap<Class, EventRegistryItem>, c: Class, item: EventRegistryItem)
    ensures ShapeOf(Set(t, c, item)) == Set(ShapeOf(t), c, item.events)
  {
    var l := ShapeOf(Set(t, c, item));
    var r := Set(ShapeOf(t), c, item.events);
    assert l.keys == r.keys;
    assert l.values == r.values;
  }

  // ------------------------------------------------------ the operations, on shapes

  /** `registerEventHandler`: a class already present keeps its entry; a new
      one gets an empty event map. */
  function WithHandler(s: EventShape, c: Class): (r: EventShape)
    ensures c in r.values
    ensures c in s.values ==> r == s
    ensures c !in s.values ==> r.keys == s.keys + [c] && r.values == s.values[c := Empty()]
  {
    if c in s.values then s else Set(s, c, Empty())
  }

  function OutsideMessage(eventKey: string): string {
    "Encountered event \"" + eventKey + "\" declaration outside of a command."
  }

  /** `registerEvent`: throws for a class not registered; otherwise sets the
      event under `eventKey` in the class's map. */
  function WithEvent(s: EventShape, c: Class, eventKey: string, info: EventInformation): (r: Result<EventShape, string>)
    ensures r.Success? <==> c in s.values
    ensures r.Failure? ==> r.error == OutsideMessage(eventKey)
    ensures r.Success? ==> r.value.keys == s.keys
  {
    if c !in s.values then Failure(OutsideMessage(eventKey))
    else Success(Set(s, c, Set(s.values[c], eventKey, info)))
  }

  /** Registering a handler class twice is registering it once; afterwards it
      is present, and nothing else changes. */
  lemma RegisterHandlerIdempotent(s: EventShape, c: Class)
    ensures WithHandler(WithHandler(s, c), c) == WithHandler(s, c)
    ensures c in WithHandler(s, c).values
    ensures forall d :: d != c ==> (d in WithHandler(s, c).values <==> d in s.values)
    ensures c in s.values ==> WithHandler(s, c).values[c] == s.values[c]
  {
  }

  /** `registerEvent` succeeds exactly for a registered class, and then only
      that class's map changes, at `eventKey`. */
  lemma RegisterEventEffect(s: EventShape, c: Class, eventKey: string, info: EventInformation)
    ensures WithEvent(s, c, eventKey, info).Success? <==> c in s.values
    ensures WithEvent(s, c, eventKey, info).Failure? ==> WithEvent(s, c, eventKey, info).error == OutsideMessage(eventKey)
    ensures c in s.values ==>
      var r := WithEvent(s, c, eventKey, info).value;
      && r.keys == s.keys
      && r.values.Keys == s.values.Keys
      && (forall d :: d in s.values && d != c ==> r.values[d] == s.values[d])
      && r.values[c].values == s.values[c].values[eventKey := info]
  {
  }

  /** An event registered again under the same key replaces the first, in the
      first one's position. */
  lemma RegisterEventOverwrites(s: EventShape, c: Class, eventKey: string, a: EventInformation, b: EventInformation)
    requires c in s.values
    ensures WithEvent(WithEvent(s, c, eventKey, a).value, c, eventKey, b) == WithEvent(s, c, eventKey, b)
  {
    SetTwice(s.values[c], eventKey, a, b);
    SetTwice(s, c, Set(s.values[c], eventKey, a), Set(s.values[c], eventKey, b));
  }

  // ------------------------------------------------------------ the listing

  /** The events of the first `n` classes, class by class, each class's in its
      map's order. */
  function EventsUpTo(s: EventShape, n: nat): seq<EventInformation>
    requires n <= |s.keys|
  {
    if n == 0 then [] else EventsUpTo(s, n - 1) + Values(ValueAt(s, n - 1))
  }

  /** What `toDiscordEvents` returns. */
  function AllEvents(s: EventShape): seq<EventInformation> {
    EventsUpTo(s, |s.keys|)
  }

  /** The number of events of the first `n` classes. */
  function SizesUpTo(s: EventShape, n: nat): nat
    requires n <= |s.keys|
  {
    if n == 0 then 0 else SizesUpTo(s, n - 1) + Size(ValueAt(s, n - 1))
  }

  /** The listing has one event per (class, key) pair: its length is the sum
      of the map sizes, and an event is listed exactly when some class holds
      it under some key. */
  lemma {:induction false} EventsUpToContents(s: EventShape, n: nat)
    requires n <= |s.keys|
    ensures |EventsUpTo(s, n)| == SizesUpTo(s, n)
    ensures forall e :: e in EventsUpTo(s, n) <==>
              exists i, j :: 0 <= i < n && 0 <= j < |ValueAt(s, i).keys| && e == ValueAt(ValueAt(s, i), j)
  {
    if n > 0 {
      EventsUpToContents(s, n - 1);
      var vs := Values(ValueAt(s, n - 1));
      forall e ensures e in EventsUpTo(s, n) <==>
                 exists i, j :: 0 <= i < n && 0 <= j < |ValueAt(s, i).keys| && e == ValueAt(ValueAt(s, i), j)
      {
        if e in vs {
          var j :| 0 <= j < |vs| && vs[j] == e;
          assert e == ValueAt(ValueAt(s, n - 1), j);
        }
        if exists i, j :: 0 <= i < n && 0 <= j < |ValueAt(s, i).keys| && e == ValueAt(ValueAt(s, i), j) {
          var i, j :| 0 <= i < n && 0 <= j < |ValueAt(s, i).keys| && e == ValueAt(ValueAt(s, i), j);
          if i == n - 1 {
            assert vs[j] == e;
          }
        }
      }
    }
  }

  /** The events of the first `n` classes open the listing. */
  lemma {:induction false} EventsUpToPrefix(s: EventShape, n: nat, m: nat)
    requires n <= m <= |s.keys|
    ensures |EventsUpTo(s, n)| <= |EventsUpTo(s, m)| && EventsUpTo(s, m)[..|EventsUpTo(s, n)|] == EventsUpTo(s, n)
    decreases m - n
  {
    if n < m {
      EventsUpToPrefix(s, n, m - 1);
      assert EventsUpTo(s, m) == EventsUpTo(s, m - 1) + Values(ValueAt(s, m - 1));
    }
  }

  // ---------------------------------------------------------- the object

  class EventRegistry {
    /** `_events`, in insertion order. */
    var events: OMap<Class, EventRegistryItem>

    /** Each class's instance is an instance of that class. */
    ghost predicate Valid()
      reads this
    {
      forall c :: c in events.values ==> events.values[c].instance.cls == c
    }

    constructor ()
      ensures events == Empty() && Valid()
    {
      events := Empty();
    }

    method RegisterEventHandler(c: Class)
      modifies this
      requires Valid()
      ensures Valid()
      ensures ShapeOf(events) == WithHandler(ShapeOf(old(events)), c)
      ensures c in old(events.values) ==> events == old(events)
      ensures c !in old(events.values) ==> fresh(events.values[c].instance)
      ensures forall d :: d in old(events.values) ==> events.values[d].instance == old(events.values[d].instance)
    {
      if c !in events.values {
        var instance := new Handler(c);
        ShapeOfSet(events, c, EventRegistryItem(instance, Empty()));
        events := Set(events, c, EventRegistryItem(instance, Empty()));
      }
    }

    method RegisterEvent(c: Class, eventKey: string, eventInfo: EventInformation) returns (r: Outcome<string>)
      modifies this
      requires Valid()
      ensures Valid()
      ensures var res := WithEvent(ShapeOf(old(events)), c, eventKey, eventInfo);
              if res.Success? then r.Pass? && ShapeOf(events) == res.value else r == Fail(res.error) && events == old(events)
      ensures events.values.Keys == old(events.values.Keys)
      ensures forall d :: d in old(events.values) ==> events.values[d].instance == old(events.values[d].instance)
    {
      if c !in events.values {
        return Fail(OutsideMessage(eventKey));
      }
      var event := events.values[c];
      ShapeOfSet(events, c, event.(events := Set(event.events, eventKey, eventInfo)));
      events := Set(events, c, event.(events := Set(event.events, eventKey, eventInfo)));
      return Pass;
    }

    method IsRegistered(c: Class) returns (b: bool)
      ensures b <==> c in events.values
    {
      b := c in events.values;
    }

    /** `toDiscordEvents`: for each class in order, its events in order. */
    method ToDiscordEvents() returns (list: seq<EventInformation>)
      ensures list == AllEvents(ShapeOf(events))
    {
      ghost var s := ShapeOf(events);
      list := [];
      var i := 0;
      while i < |events.keys|
        invariant i <= |events.keys| && list == EventsUpTo(s, i)
      {
        var item := ValueAt(events, i);
        var j := 0;
        while j < |item.events.keys|
          invariant j <= |item.events.keys| && list == EventsUpTo(s, i) + Values(item.events)[..j]
        {
          list := list + [ValueAt(item.events, j)];
          j := j + 1;
        }
        assert Values(item.events)[..j] == Values(ValueAt(s, i));
        i := i + 1;
      }
    }
  }
}
