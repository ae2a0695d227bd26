/**
  The `Evento` emitter object. Its fields are the two collections the class
  mutates in place: the wildcard observer set and the map from event name to
  listener set (`eventOrder` is the map's key order). Every method is proved
  to move `Model()` exactly as the corresponding function of `Registry` or
  `Dispatch` says.
 */
module Emitter {
  import opened OrderedSet
  import opened Registry
  import opened Dispatch
  import opened Counting

  class Evento {
    var listenersWildcard: seq<ListenerId>
    var eventOrder: seq<EventName>
    var listenersEvent: map<EventName, seq<Handler>>
    /** Identities already given to `once` wrapper closures; the next one is fresh. */
    var closures: nat

    /** The emitter's state as a value. */
    function Model(): State
      reads this
    {
      State(listenersWildcard, eventOrder, listenersEvent)
    }

    ghost predicate Valid()
      reads this
    {
      Wf(Model()) && ClosuresBelow(Model(), closures)
    }

    constructor ()
      ensures Valid() && Model() == Empty()
    {
      listenersWildcard := [];
      eventOrder := [];
      listenersEvent := map[];
      closures := 0;
    }

    /** `listeners(name)`: the set for `name`, created empty if the map has none. */
    method Listeners(name: EventName) returns (handlers: seq<Handler>)
      requires Valid()
      modifies this
      ensures Valid() && closures == old(closures)
      ensures Model() == EnsureEntry(old(Model()), name)
      ensures handlers == Get(old(Model()), name)
    {
      if name !in listenersEvent {
        listenersEvent := listenersEvent[name := []];
        eventOrder := eventOrder + [name];
      }
      handlers := listenersEvent[name];
    }

    /** `this.listeners(name).add(h)`, shared by `on` and `once`. */
    method AddHandler(name: EventName, h: Handler)
      requires Valid()
      requires h.OnceWrapper? ==> h.closure < closures
      modifies this
      ensures Valid() && closures == old(closures)
      ensures Model() == Subscribe(old(Model()), name, h)
    {
      var handlers := Listeners(name);
      listenersEvent := listenersEvent[name := Add(handlers, h)];
    }

    /** `on(name, listener)`: subscribe, and hand back `off` bound to this pair. */
    method On(name: EventName, l: ListenerId) returns (off: Unsubscriber)
      requires Valid()
      modifies this
      ensures Valid() && closures == old(closures)
      ensures Model() == Subscribe(old(Model()), name, Listener(l))
      ensures off == OffFor(name, Listener(l))
    {
      AddHandler(name, Listener(l));
      off := OffFor(name, Listener(l));
    }

    /** `off(name, listener)`. */
    method Off(name: EventName, h: Handler)
      requires Valid()
      modifies this
      ensures Valid() && closures == old(closures)
      ensures Model() == Registry.Off(old(Model()), name, h)
    {
      var handlers := Listeners(name);
      listenersEvent := listenersEvent[name := Delete(handlers, h)];
    }

    /**
      `once(name, listener)`: a new wrapper closure is subscribed; it is
      appended, since no handler already present can be that closure.
     */
    method Once(name: EventName, l: ListenerId)
      requires Valid()
      modifies this
      ensures Valid() && closures == old(closures) + 1
      ensures Model() == Subscribe(old(Model()), name, OnceWrapper(old(closures), l))
      ensures Model().sets[name] == Get(old(Model()), name) + [OnceWrapper(old(closures), l)]
    {
      var wrapper := OnceWrapper(closures, l);
      closures := closures + 1;
      AddHandler(name, wrapper);
    }

    /**
      `emitSync(name, data)`: the handlers for `name`, read through
      `listeners(name)` and iterated live, then every wildcard observer.
     */
    method EmitSync<D>(name: EventName, data: D) returns (trace: seq<Invocation<D>>)
      requires Valid()
      modifies this
      ensures Valid() && closures == old(closures)
      ensures Model() == AfterDispatch(old(Model()), name)
      ensures trace == PlanFor(old(Model()), name, data)
    {
      var handlers := Listeners(name);
      var handled := RunLive(name, data);
      assert Model() == AfterDispatch(old(Model()), name);
      DispatchKeepsClosures(old(Model()), name, closures);
      var observers := listenersWildcard;
      var observed := CallObservers(observers, name, data);
      trace := handled + observed;
    }

    /**
      `emit(name, data)`: the same calls, with the handlers taken from a
      snapshot (`Array.from`) of the set for `name`. The first `await` and
      `Promise.all` are scheduling only.
     */
    method Emit<D>(name: EventName, data: D) returns (trace: seq<Invocation<D>>)
      requires Valid()
      modifies this
      ensures Valid() && closures == old(closures)
      ensures Model() == AfterDispatch(old(Model()), name)
      ensures trace == PlanFor(old(Model()), name, data)
    {
      var snapshot := Listeners(name);
      var handled := RunSnapshot(name, snapshot, data);
      assert Model() == AfterDispatch(old(Model()), name);
      DispatchKeepsClosures(old(Model()), name, closures);
      var observers := listenersWildcard;
      var observed := CallObservers(observers, name, data);
      trace := handled + observed;
    }

    /**
      The first loop of `emitSync` and `emitSeq`: iterate the live set for
      `name`. A `once` wrapper first deletes itself through its bound `off`;
      a live `Set` iterator then moves on to the element that followed it,
      which now sits at the same position.
     */
    method RunLive<D>(name: EventName, data: D) returns (calls: seq<Invocation<D>>)
      requires name in listenersEvent && NoDup(listenersEvent[name])
      modifies this
      ensures listenersWildcard == old(listenersWildcard) && eventOrder == old(eventOrder) && closures == old(closures)
      ensures listenersEvent == old(listenersEvent)[name := WithoutOnce(old(listenersEvent)[name])]
      ensures calls == HandlerCalls(old(listenersEvent)[name], data)
    {
      ghost var handlers := listenersEvent[name];
      ProgressStart(handlers);
      assert old(listenersEvent)[name := Progress(handlers, 0)] == old(listenersEvent);
      ghost var k := 0;
      var i := 0;
      calls := [];
      while i < |listenersEvent[name]|
        invariant k <= |handlers|
        invariant listenersWildcard == old(listenersWildcard) && eventOrder == old(eventOrder) && closures == old(closures)
        invariant listenersEvent == old(listenersEvent)[name := Progress(handlers, k)]
        invariant i == |WithoutOnce(handlers[..k])| && |listenersEvent[name]| == i + |handlers| - k
        invariant calls == HandlerCalls(handlers[..k], data)
        decreases |handlers| - k
      {
        HandlerCallsStep(handlers, k, data);
        var call;
        i, call := RunHandler(name, handlers, k, i, data);
        UpdateTwice(old(listenersEvent), name, Progress(handlers, k), Progress(handlers, k + 1));
        calls := calls + [call];
        k := k + 1;
      }
      assert k == |handlers| && handlers[..k] == handlers;
      ProgressEnd(handlers);
    }

    /**
      Calling the handler at position `i` of the live set for `name`, the
      `k`-th of the `handlers` the loop started with. Returns where the
      iterator goes next.
     */
    method RunHandler<D>(name: EventName, ghost handlers: seq<Handler>, ghost k: nat, i: nat, data: D)
      returns (next: nat, call: Invocation<D>)
      requires k < |handlers| && NoDup(handlers) && i == |WithoutOnce(handlers[..k])|
      requires name in listenersEvent && listenersEvent[name] == Progress(handlers, k)
      modifies this
      ensures listenersWildcard == old(listenersWildcard) && eventOrder == old(eventOrder) && closures == old(closures)
      ensures listenersEvent == old(listenersEvent)[name := Progress(handlers, k + 1)]
      ensures next == |WithoutOnce(handlers[..k + 1])|
      ensures call == Handle(handlers[k].Target(), data)
    {
      LiveStep(handlers, k);
      var h := listenersEvent[name][i];
      if h.OnceWrapper? {
        // the wrapper runs its bound `off` first: the entry exists, so that is a delete
        listenersEvent := listenersEvent[name := Delete(listenersEvent[name], h)];
        next := i;
      } else {
        next := i + 1;
      }
      call := Handle(h.Target(), data);
    }

    /** The first loop of `emit`: the same handler calls, over a snapshot of the set. */
    method RunSnapshot<D>(name: EventName, snapshot: seq<Handler>, data: D) returns (calls: seq<Invocation<D>>)
      requires name in listenersEvent && listenersEvent[name] == snapshot && NoDup(snapshot)
      modifies this
      ensures listenersWildcard == old(listenersWildcard) && eventOrder == old(eventOrder) && closures == old(closures)
      ensures listenersEvent == old(listenersEvent)[name := WithoutOnce(snapshot)]
      ensures calls == HandlerCalls(snapshot, data)
    {
      ProgressStart(snapshot);
      assert old(listenersEvent)[name := Progress(snapshot, 0)] == old(listenersEvent);
      calls := [];
      for k := 0 to |snapshot|
        invariant listenersWildcard == old(listenersWildcard) && eventOrder == old(eventOrder) && closures == old(closures)
        invariant listenersEvent == old(listenersEvent)[name := Progress(snapshot, k)]
        invariant calls == HandlerCalls(snapshot[..k], data)
      {
        HandlerCallsStep(snapshot, k, data);
        var call := RunSnapshotHandler(name, snapshot, k, data);
        UpdateTwice(old(listenersEvent), name, Progress(snapshot, k), Progress(snapshot, k + 1));
        calls := calls + [call];
      }
      assert snapshot[..|snapshot|] == snapshot;
      ProgressEnd(snapshot);
    }

    /** Calling the `k`-th handler of the snapshot; a wrapper deletes itself from the live set. */
    method RunSnapshotHandler<D>(name: EventName, snapshot: seq<Handler>, k: nat, data: D) returns (call: Invocation<D>)
      requires k < |snapshot| && NoDup(snapshot)
      requires name in listenersEvent && listenersEvent[name] == Progress(snapshot, k)
      modifies this
      ensures listenersWildcard == old(listenersWildcard) && eventOrder == old(eventOrder) && closures == old(closures)
      ensures listenersEvent == old(listenersEvent)[name := Progress(snapshot, k + 1)]
      ensures call == Handle(snapshot[k].Target(), data)
    {
      LiveStep(snapshot, k);
      var h := snapshot[k];
      if h.OnceWrapper? {
        // the wrapper runs its bound `off` first: the entry exists, so that is a delete
        listenersEvent := listenersEvent[name := Delete(listenersEvent[name], h)];
      }
      call := Handle(h.Target(), data);
    }

    /** The second loop of every emit: each wildcard observer, in order, with `(name, data)`. */
    static method CallObservers<D>(observers: seq<ListenerId>, name: EventName, data: D) returns (calls: seq<Invocation<D>>)
      ensures calls == ObserverCalls(observers, name, data)
    {
      calls := [];
      for j := 0 to |observers|
        invariant calls == ObserverCalls(observers[..j], name, data)
      {
        calls := calls + [Observe(observers[j], name, data)];
        assert observers[..j + 1][..j] == observers[..j];
      }
      assert observers[..|observers|] == observers;
    }

    /**
      `emitSeq(name, data)`: the loops of `emitSync`, with every listener
      awaited before the next; awaiting is scheduling only.
     */
    method EmitSeq<D>(name: EventName, data: D) returns (trace: seq<Invocation<D>>)
      requires Valid()
      modifies this
      ensures Valid() && closures == old(closures)
      ensures Model() == AfterDispatch(old(Model()), name)
      ensures trace == PlanFor(old(Model()), name, data)
    {
      trace := EmitSync(name, data);
    }

    /** `onAny(listener)`: add an observer, and hand back `offAny` bound to it. */
    method OnAny(l: ListenerId) returns (off: Unsubscriber)
      requires Valid()
      modifies this
      ensures Valid() && closures == old(closures)
      ensures Model() == Registry.OnAny(old(Model()), l)
      ensures off == OffAnyFor(l)
    {
      listenersWildcard := Add(listenersWildcard, l);
      off := OffAnyFor(l);
    }

    /** `offAny(listener)`. */
    method OffAny(l: ListenerId)
      requires Valid()
      modifies this
      ensures Valid() && closures == old(closures)
      ensures Model() == Registry.OffAny(old(Model()), l)
    {
      listenersWildcard := Delete(listenersWildcard, l);
    }

    /** Calling a function that `on` or `onAny` returned. */
    method Unsubscribe(u: Unsubscriber)
      requires Valid()
      modifies this
      ensures Valid() && closures == old(closures)
      ensures Model() == Release(old(Model()), u)
    {
      match u
      case OffFor(name, h) => Off(name, h);
      case OffAnyFor(l) => OffAny(l);
    }

    /** `clearListeners(name?)`. */
    method ClearListeners(name: Option<EventName>)
      requires Valid()
      modifies this
      ensures Valid() && closures == old(closures)
      ensures Model() == Registry.ClearListeners(old(Model()), name)
    {
      if name.Some? && name.value != "" {
        var _ := Listeners(name.value);
        listenersEvent := listenersEvent[name.value := []];
      } else {
        listenersWildcard := [];
        listenersEvent := map[];
        eventOrder := [];
      }
    }

    /**
      `listenerCount(name?)`: with a truthy name, the observers plus that
      name's listeners (the lookup may create the entry); otherwise the
      observers plus the size of every set, summed over the map's entries.
     */
    method ListenerCount(name: Option<EventName>) returns (count: nat)
      requires Valid()
      modifies this
      ensures Valid() && closures == old(closures)
      ensures Truthy(name) ==> count == NamedCount(old(Model()), name.value)
      ensures Truthy(name) ==> Model() == EnsureEntry(old(Model()), name.value)
      ensures !Truthy(name) ==> count == TotalCount(old(Model())) && Model() == old(Model())
    {
      if name.Some? && name.value != "" {
        var handlers := Listeners(name.value);
        count := |listenersWildcard| + |handlers|;
      } else {
        count := |listenersWildcard|;
        for i := 0 to |eventOrder|
          invariant count == |listenersWildcard| + SumSizes(eventOrder[..i], listenersEvent)
        {
          count := count + |listenersEvent[eventOrder[i]]|;
          assert eventOrder[..i + 1][..i] == eventOrder[..i];
        }
        assert eventOrder[..|eventOrder|] == eventOrder;
      }
    }

    /** `rawListeners(name)`: a copy of the set for `name`, in insertion order. */
    method RawListeners(name: EventName) returns (handlers: seq<Handler>)
      requires Valid()
      modifies this
      ensures Valid() && closures == old(closures)
      ensures Model() == EnsureEntry(old(Model()), name)
      ensures handlers == Get(old(Model()), name)
    {
      var live := Listeners(name);
      handlers := live[..];
    }

    /** `eventNames()`: every name the map has an entry for, in first-insertion order, once each. */
    method EventNames() returns (names: seq<EventName>)
      requires Valid()
      ensures NoDup(names)
      ensures forall n :: n in names <==> n in Model().sets
      ensures names == Model().names
    {
      names := eventOrder[..];
    }
  }
}
