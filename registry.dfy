/**
  The state of an `Evento` emitter as a value, and every registry operation
  as a function from the old state to the new one.

  The emitter keeps two collections: the wildcard observers (`onAny`), an
  ordered set of listeners called on every emit, and the per-name listeners,
  a `Map` from event name to an ordered set. A JavaScript `Map` remembers the
  order in which its keys were first set; `names` records that order and
  `sets` the entries.
 */
module Registry {
  import opened OrderedSet

  /** Listeners are opaque callables compared by identity; an id stands for that identity. */
  type ListenerId = nat

  /** Event names are strings; symbol names are not modelled. */
  type EventName = string

  /** An optional argument: `None` is an omitted (undefined) name. */
  datatype Option<T> = None | Some(value: T)

  /**
    What sits in a per-name set: a listener passed to `on`, or the wrapper
    closure that `once` installs around a listener. Every call of `once`
    allocates a new closure; `closure` is that closure's identity.
   */
  datatype Handler = Listener(id: ListenerId) | OnceWrapper(closure: nat, target: ListenerId)
  {
    /** The user listener that runs when this handler is called. */
    function Target(): ListenerId {
      match this
      case Listener(id) => id
      case OnceWrapper(_, target) => target
    }
  }

  /** The function that `on` and `onAny` return: `off` or `offAny` bound to their arguments. */
  datatype Unsubscriber = OffFor(name: EventName, handler: Handler) | OffAnyFor(listener: ListenerId)

  datatype State = State(wildcard: seq<ListenerId>, names: seq<EventName>, sets: map<EventName, seq<Handler>>)

  /** The shape every reachable state has: sets without duplicates, `names` listing the keys once each. */
  ghost predicate Wf(s: State) {
    && NoDup(s.wildcard)
    && NoDup(s.names)
    && (forall n :: n in s.names <==> n in s.sets)
    && (forall n | n in s.sets :: NoDup(s.sets[n]))
  }

  /** A new emitter: no observers, no names. */
  function Empty(): (s: State)
    ensures Wf(s)
    ensures s.wildcard == [] && s.names == []
    ensures forall n :: n !in s.sets
  {
    State([], [], map[])
  }

  /** The listeners for `name`; an absent entry reads as the empty set. */
  function Get(s: State, name: EventName): seq<Handler> {
    if name in s.sets then s.sets[name] else []
  }

  /** JavaScript truthiness of an optional string name: `undefined` and `""` are falsy. */
  predicate Truthy(name: Option<EventName>) {
    name.Some? && name.value != ""
  }

  /**
    `r` differs from `s` at most in the entry for `name`, which exists in `r`
    and was appended to the key order if it was new.
   */
  ghost predicate OnlyEntryChanged(s: State, r: State, name: EventName) {
    && r.wildcard == s.wildcard
    && r.names == (if name in s.sets then s.names else s.names + [name])
    && name in r.sets
    && (forall n :: n in r.sets <==> n in s.sets || n == name)
    && (forall n | n in s.sets && n != name :: r.sets[n] == s.sets[n])
  }

  /**
    The side effect of `listeners(name)`: a missing entry is created empty;
    an existing one is left as it is.
   */
  function EnsureEntry(s: State, name: EventName): (r: State)
    requires Wf(s)
    ensures Wf(r)
    ensures OnlyEntryChanged(s, r, name)
    ensures r.sets[name] == Get(s, name)
    ensures name in s.sets ==> r == s
  {
    if name in s.sets then s
    else State(s.wildcard, s.names + [name], s.sets[name := []])
  }

  /**
    `on(name, listener)` (and the `on` inside `once`): add the handler to the
    set for `name`, appending it unless it is already there.
   */
  function Subscribe(s: State, name: EventName, h: Handler): (r: State)
    requires Wf(s)
    ensures Wf(r)
    ensures OnlyEntryChanged(s, r, name)
    ensures h in r.sets[name]
    ensures forall g :: g in r.sets[name] <==> g in Get(s, name) || g == h
    ensures h in Get(s, name) ==> r.sets[name] == Get(s, name)
    ensures h !in Get(s, name) ==> r.sets[name] == Get(s, name) + [h]
  {
    var e := EnsureEntry(s, name);
    e.(sets := e.sets[name := Add(e.sets[name], h)])
  }

  /** `off(name, listener)`: remove the handler from the set for `name`, if it is there. */
  function Off(s: State, name: EventName, h: Handler): (r: State)
    requires Wf(s)
    ensures Wf(r)
    ensures OnlyEntryChanged(s, r, name)
    ensures h !in r.sets[name]
    ensures forall g :: g in r.sets[name] <==> g in Get(s, name) && g != h
    ensures h !in Get(s, name) ==> r == EnsureEntry(s, name)
  {
    var e := EnsureEntry(s, name);
    e.(sets := e.sets[name := Delete(e.sets[name], h)])
  }

  /** `onAny(listener)`: add a wildcard observer, appending it unless it is already there. */
  function OnAny(s: State, l: ListenerId): (r: State)
    requires Wf(s)
    ensures Wf(r)
    ensures r.names == s.names && r.sets == s.sets
    ensures l in r.wildcard
    ensures forall m :: m in r.wildcard <==> m in s.wildcard || m == l
    ensures l in s.wildcard ==> r == s
    ensures l !in s.wildcard ==> r.wildcard == s.wildcard + [l]
  {
    s.(wildcard := Add(s.wildcard, l))
  }

  /** `offAny(listener)`: remove a wildcard observer, if it is there. */
  function OffAny(s: State, l: ListenerId): (r: State)
    requires Wf(s)
    ensures Wf(r)
    ensures r.names == s.names && r.sets == s.sets
    ensures l !in r.wildcard
    ensures forall m :: m in r.wildcard <==> m in s.wildcard && m != l
    ensures l !in s.wildcard ==> r == s
  {
    s.(wildcard := Delete(s.wildcard, l))
  }

  /** Calling the function returned by `on` or `onAny`. */
  function Release(s: State, u: Unsubscriber): (r: State)
    requires Wf(s)
    ensures Wf(r)
  {
    match u
    case OffFor(name, h) => Off(s, name, h)
    case OffAnyFor(l) => OffAny(s, l)
  }

  /**
    `clearListeners(name?)`: with a truthy name, only that name's set is
    emptied; otherwise every observer and every entry of the map is dropped.
   */
  function ClearListeners(s: State, name: Option<EventName>): (r: State)
    requires Wf(s)
    ensures Wf(r)
    ensures Truthy(name) ==> OnlyEntryChanged(s, r, name.value) && r.sets[name.value] == []
    ensures !Truthy(name) ==> r.wildcard == [] && r.names == [] && forall n :: n !in r.sets
  {
    if Truthy(name) then
      var e := EnsureEntry(s, name.value);
      e.(sets := e.sets[name.value := []])
    else
      Empty()
  }

  /** The per-name handlers never use a closure identity at or above `bound`. */
  ghost predicate ClosuresBelow(s: State, bound: nat) {
    forall n, h | n in s.sets && h in s.sets[n] :: h.OnceWrapper? ==> h.closure < bound
  }

  /** Adding a handler twice is adding it once. */
  lemma SubscribeIdempotent(s: State, name: EventName, h: Handler)
    requires Wf(s)
    ensures Subscribe(Subscribe(s, name, h), name, h) == Subscribe(s, name, h)
  {
  }

  /** Removing a handler that was just added gives back the state before the `on`, apart from the entry it created. */
  lemma OffUndoesSubscribe(s: State, name: EventName, h: Handler)
    requires Wf(s)
    requires h !in Get(s, name)
    ensures Off(Subscribe(s, name, h), name, h) == EnsureEntry(s, name)
  {
    var e := EnsureEntry(s, name);
    DeleteUndoesAdd(e.sets[name], h);
    assert Off(Subscribe(s, name, h), name, h).sets == e.sets;
  }

  /** `off` keeps the other listeners for the name in their order. */
  lemma OffKeepsOrder(s: State, name: EventName, a: seq<Handler>, h: Handler, b: seq<Handler>)
    requires Wf(s)
    requires Get(s, name) == a + [h] + b
    ensures Off(s, name, h).sets[name] == a + b
  {
    DeleteMiddle(a, h, b);
  }

  /** Calling an unsubscribe function a second time changes nothing. */
  lemma ReleaseTwice(s: State, u: Unsubscriber)
    requires Wf(s)
    ensures Release(Release(s, u), u) == Release(s, u)
  {
  }

  /** Removing an observer that was just added gives back the original state. */
  lemma OffAnyUndoesOnAny(s: State, l: ListenerId)
    requires Wf(s)
    requires l !in s.wildcard
    ensures OffAny(OnAny(s, l), l) == s
  {
    DeleteUndoesAdd(s.wildcard, l);
  }

  /** `offAny` keeps the other observers in their order. */
  lemma OffAnyKeepsOrder(s: State, a: seq<ListenerId>, l: ListenerId, b: seq<ListenerId>)
    requires Wf(s)
    requires s.wildcard == a + [l] + b
    ensures OffAny(s, l).wildcard == a + b
  {
    DeleteMiddle(a, l, b);
  }
}
