/**
  Client code driving one `Evento` object through the situations the
  repository's own tests describe, with what each emit does proved from the
  methods' contracts and the lemmas about them. Listener ids stand for the
  test's arrow functions; the payloads are the tests' values.
 */
module Scenarios {
  import opened OrderedSet
  import opened Registry
  import opened Dispatch
  import opened Counting
  import opened Emitter

  /** Three listeners on one name, then `emitSeq`: they run in the order they were added. */
  method ListenersInOrder() returns (trace: seq<Invocation<int>>)
    ensures trace == [Handle(1, 7), Handle(2, 7), Handle(3, 7)]
  {
    var e := new Evento();
    var _ := e.On("firstEvent", 1);
    var _ := e.On("firstEvent", 2);
    var _ := e.On("firstEvent", 3);
    ThreeInOrder("firstEvent");
    trace := e.EmitSeq("firstEvent", 7);
  }

  /** Three `on` calls with distinct listeners append them in call order. */
  lemma ThreeInOrder(a: EventName)
    ensures
      var s := Subscribe(Subscribe(Subscribe(Empty(), a, Listener(1)), a, Listener(2)), a, Listener(3));
      PlanFor(s, a, 7) == [Handle(1, 7), Handle(2, 7), Handle(3, 7)]
  {
    FirstName(a);
    AppendListener(a, [Listener(1)], Listener(2));
    assert [Listener(1)] + [Listener(2)] == [Listener(1), Listener(2)];
    AppendListener(a, [Listener(1), Listener(2)], Listener(3));
    assert [Listener(1), Listener(2)] + [Listener(3)] == [Listener(1), Listener(2), Listener(3)];
    var s3 := State([], [a], map[a := [Listener(1), Listener(2), Listener(3)]]);
    assert PlanFor(s3, a, 7) == Plan([Listener(1), Listener(2), Listener(3)], [], a, 7);
    PlanThree(a);
  }

  /** `on(a, h)` on an emitter whose only entry is `a` appends a new `h`. */
  lemma AppendListener(a: EventName, hs: seq<Handler>, h: Handler)
    requires NoDup(hs) && h !in hs
    ensures Wf(State([], [a], map[a := hs]))
    ensures Subscribe(State([], [a], map[a := hs]), a, h) == State([], [a], map[a := hs + [h]])
  {
    var s := State([], [a], map[a := hs]);
    assert EnsureEntry(s, a) == s;
    assert s.sets[a := hs + [h]] == map[a := hs + [h]];
  }

  lemma PlanThree(a: EventName)
    ensures Plan([Listener(1), Listener(2), Listener(3)], [], a, 7) == [Handle(1, 7), Handle(2, 7), Handle(3, 7)]
  {
  }

  /** `on` three times with one listener, then `emit`: the listener runs once. */
  method DuplicateListeners() returns (received: seq<bool>)
    ensures received == [true]
  {
    var e := new Evento();
    var _ := e.On("firstEvent", 1);
    var _ := e.On("firstEvent", 1);
    var s2 := e.Model();
    var _ := e.On("firstEvent", 1);
    assert e.Model() == Subscribe(s2, "firstEvent", Listener(1));
    var trace := e.Emit("firstEvent", true);
    OnTwiceCallsOnce(Empty(), "firstEvent", 1, true);
    received := Received(trace, 1);
  }

  /** `on`, `emit`, the returned `off`, `emit`: one call in all. */
  method UnsubscribeAfterOneEmit() returns (first: seq<bool>, second: seq<bool>)
    ensures first == [true] && second == []
  {
    var e := new Evento();
    var off := e.On("firstEvent", 1);
    var t1 := e.Emit("firstEvent", true);
    OnTwiceCallsOnce(Empty(), "firstEvent", 1, true);
    DispatchWithoutWrappers(Subscribe(Empty(), "firstEvent", Listener(1)), "firstEvent");
    e.Unsubscribe(off);
    var t2 := e.Emit("firstEvent", true);
    OffSilences(Subscribe(Empty(), "firstEvent", Listener(1)), "firstEvent", 1, true);
    first, second := Received(t1, 1), Received(t2, 1);
  }

  /** `once`, then two `emitSeq` calls: the listener sees the first payload only. */
  method ListenOnce() returns (first: seq<bool>, second: seq<bool>)
    ensures first == [true] && second == []
  {
    var e := new Evento();
    e.Once("firstEvent", 1);
    var t1 := e.EmitSeq("firstEvent", true);
    var t2 := e.EmitSeq("firstEvent", false);
    OnceFiresAtMostOnce(Empty(), "firstEvent", 1, 0, true, false);
    first, second := Received(t1, 1), Received(t2, 1);
  }

  /** `onAny`, `emit`, `offAny`, `emit`: the observer sees the first emit only. */
  method ObserverRemoved() returns (first: seq<(EventName, bool)>, second: seq<(EventName, bool)>)
    ensures first == [("firstEvent", true)] && second == []
  {
    var e := new Evento();
    var _ := e.OnAny(1);
    var t1 := e.Emit("firstEvent", true);
    OnAnyObservesEveryEmit(Empty(), 1, "firstEvent", true);
    var s1 := e.Model();
    e.OffAny(1);
    var t2 := e.Emit("firstEvent", true);
    OnAnyObservesEveryEmit(s1, 1, "firstEvent", true);
    first, second := Observed(t1, 1), Observed(t2, 1);
  }

  /** The state the two-name tests build: a listener on each name and one observer. */
  function TwoNames(a: EventName, b: EventName): State {
    State([3], [a, b], map[a := [Listener(1)], b := [Listener(2)]])
  }

  /** The two-name state with the first name's set emptied. */
  function FirstCleared(a: EventName, b: EventName): State {
    TwoNames(a, b).(sets := TwoNames(a, b).sets[a := []])
  }

  /** `on(a, 1)`, `on(b, 2)` and `onAny(3)` on a new emitter build `TwoNames(a, b)`. */
  lemma TwoNamesBuilt(a: EventName, b: EventName)
    requires a != b
    ensures OnAny(Subscribe(Subscribe(Empty(), a, Listener(1)), b, Listener(2)), 3) == TwoNames(a, b)
  {
    FirstName(a);
    SecondName(a, b);
  }

  /** Both two-name states are well formed. */
  lemma TwoNamesWf(a: EventName, b: EventName)
    requires a != b
    ensures Wf(TwoNames(a, b)) && Wf(FirstCleared(a, b))
  {
  }

  lemma FirstName(a: EventName)
    ensures Subscribe(Empty(), a, Listener(1)) == State([], [a], map[a := [Listener(1)]])
  {
    var e := EnsureEntry(Empty(), a);
    assert e == State([], [a], map[a := []]);
    assert Add(e.sets[a], Listener(1)) == [Listener(1)];
    assert e.sets[a := [Listener(1)]] == map[a := [Listener(1)]];
  }

  lemma SecondName(a: EventName, b: EventName)
    requires a != b
    ensures Wf(State([], [a], map[a := [Listener(1)]]))
    ensures Subscribe(State([], [a], map[a := [Listener(1)]]), b, Listener(2)) == TwoNames(a, b).(wildcard := [])
  {
    var one := State([], [a], map[a := [Listener(1)]]);
    var e := EnsureEntry(one, b);
    assert e == State([], [a, b], one.sets[b := []]);
    assert Add(e.sets[b], Listener(2)) == [Listener(2)];
    assert e.sets[b := [Listener(2)]] == TwoNames(a, b).sets;
  }

  /** A new emitter after `on(a, 1)`, `on(b, 2)` and `onAny(3)`. */
  method SetUpTwoNames(a: EventName, b: EventName) returns (e: Evento)
    requires a != b
    ensures fresh(e) && e.Valid() && e.Model() == TwoNames(a, b)
  {
    e := new Evento();
    var _ := e.On(a, 1);
    var _ := e.On(b, 2);
    var _ := e.OnAny(3);
    TwoNamesBuilt(a, b);
    TwoNamesWf(a, b);
  }

  /** The test's two event names differ. */
  lemma TestNamesDiffer()
    ensures "firstEvent" != "secondEvent"
  {
    assert |"firstEvent"| != |"secondEvent"|;
  }

  /**
    An emit of the first name calls its listener and then the observer;
    after `clearListeners("firstEvent")` it calls the observer alone, and
    the second name is unaffected.
   */
  method ClearOneName() returns (before: seq<Invocation<bool>>, after: seq<Invocation<bool>>, other: seq<Invocation<bool>>)
    ensures before == [Handle(1, true), Observe(3, "firstEvent", true)]
    ensures after == [Observe(3, "firstEvent", true)]
    ensures other == [Handle(2, true), Observe(3, "secondEvent", true)]
  {
    var a, b := "firstEvent", "secondEvent";
    TestNamesDiffer();
    var e := SetUpTwoNames(a, b);
    EmitFirstOfTwo(a, b);
    before := e.Emit(a, true);
    ClearFirstOfTwo(a, b);
    e.ClearListeners(Some(a));
    after := e.Emit(a, true);
    EmitSecondAfterClear(a, b);
    other := e.Emit(b, true);
  }

  /** The first emit of `ClearOneName`, computed on the model. */
  lemma EmitFirstOfTwo(a: EventName, b: EventName)
    requires a != b
    ensures Wf(TwoNames(a, b))
    ensures PlanFor(TwoNames(a, b), a, true) == [Handle(1, true), Observe(3, a, true)]
    ensures AfterDispatch(TwoNames(a, b), a) == TwoNames(a, b)
  {
    TwoNamesWf(a, b);
    assert Get(TwoNames(a, b), a) == [Listener(1)];
    PlanOneEach(1, 3, a, true);
    DispatchWithoutWrappers(TwoNames(a, b), a);
  }

  /** `clearListeners(a)` and the emit of `a` after it, computed on the model. */
  lemma ClearFirstOfTwo(a: EventName, b: EventName)
    requires a != b && a != ""
    ensures Wf(TwoNames(a, b)) && Wf(FirstCleared(a, b))
    ensures ClearListeners(TwoNames(a, b), Some(a)) == FirstCleared(a, b)
    ensures PlanFor(FirstCleared(a, b), a, true) == [Observe(3, a, true)]
    ensures AfterDispatch(FirstCleared(a, b), a) == FirstCleared(a, b)
  {
    TwoNamesWf(a, b);
    assert Get(FirstCleared(a, b), a) == [];
    DispatchWithoutWrappers(FirstCleared(a, b), a);
    assert Plan([], [3], a, true) == [Observe(3, a, true)];
  }

  /** The emit of the other name after the clear, computed on the model. */
  lemma EmitSecondAfterClear(a: EventName, b: EventName)
    requires a != b
    ensures PlanFor(FirstCleared(a, b), b, true) == [Handle(2, true), Observe(3, b, true)]
  {
    assert Get(FirstCleared(a, b), b) == [Listener(2)];
    PlanOneEach(2, 3, b, true);
  }

  /** One listener and one observer: the listener's call, then the observer's. */
  lemma PlanOneEach<D>(l: ListenerId, o: ListenerId, name: EventName, data: D)
    ensures Plan([Listener(l)], [o], name, data) == [Handle(l, data), Observe(o, name, data)]
  {
  }

  /**
    Both names emitted before `clearListeners()`: each calls its listener and
    then the observer. After it, neither emit calls anything.
   */
  method ClearEverything() returns (before: seq<Invocation<bool>>, after: seq<Invocation<bool>>)
    ensures before == [Handle(1, true), Observe(3, "firstEvent", true), Handle(2, true), Observe(3, "secondEvent", true)]
    ensures after == []
  {
    var a, b := "firstEvent", "secondEvent";
    TestNamesDiffer();
    var e := SetUpTwoNames(a, b);
    before := EmitBoth(e, a, b);
    e.ClearListeners(None);
    EmitBothAfterClear(TwoNames(a, b), a, b);
    var t3 := e.Emit(a, true);
    var t4 := e.Emit(b, true);
    after := t3 + t4;
  }

  /** Emitting both names of the two-name state, one after the other. */
  method EmitBoth(e: Evento, a: EventName, b: EventName) returns (trace: seq<Invocation<bool>>)
    requires a != b && e.Valid() && e.Model() == TwoNames(a, b)
    modifies e
    ensures e.Valid() && e.Model() == TwoNames(a, b)
    ensures trace == [Handle(1, true), Observe(3, a, true), Handle(2, true), Observe(3, b, true)]
  {
    EmitFirstOfTwo(a, b);
    var t1 := e.Emit(a, true);
    EmitSecondOfTwo(a, b);
    var t2 := e.Emit(b, true);
    trace := t1 + t2;
  }

  /** After `clearListeners()`, an emit of one name and then of another make no call. */
  lemma EmitBothAfterClear(s: State, a: EventName, b: EventName)
    requires Wf(s)
    ensures Wf(ClearListeners(s, None))
    ensures PlanFor(ClearListeners(s, None), a, true) == []
    ensures PlanFor(AfterDispatch(ClearListeners(s, None), a), b, true) == []
  {
    var c := ClearListeners(s, None);
    assert c == Empty();
    var d := AfterDispatch(c, a);
    assert d.wildcard == [] && Get(d, b) == [];
  }

  /** The emit of the second name in the two-name state, computed on the model. */
  lemma EmitSecondOfTwo(a: EventName, b: EventName)
    requires a != b
    ensures Wf(TwoNames(a, b))
    ensures PlanFor(TwoNames(a, b), b, true) == [Handle(2, true), Observe(3, b, true)]
    ensures AfterDispatch(TwoNames(a, b), b) == TwoNames(a, b)
  {
    TwoNamesWf(a, b);
    assert Get(TwoNames(a, b), b) == [Listener(2)];
    PlanOneEach(2, 3, b, true);
    DispatchWithoutWrappers(TwoNames(a, b), b);
  }

  /** Two names with one listener each and one observer: counts 2, 2 and 3. */
  method CountListeners() returns (first: nat, second: nat, total: nat)
    ensures first == 2 && second == 2 && total == 3
  {
    var a, b := "firstEvent", "secondEvent";
    TestNamesDiffer();
    var e := SetUpTwoNames(a, b);
    first := e.ListenerCount(Some(a));
    second := e.ListenerCount(Some(b));
    TwoNamesTotal(a, b);
    total := e.ListenerCount(None);
  }

  lemma TwoNamesTotal(a: EventName, b: EventName)
    requires a != b
    ensures TotalCount(TwoNames(a, b)) == 3
  {
    var t := TwoNames(a, b);
    assert [a][..0] == [];
    assert SumSizes([a], t.sets) == 1;
    assert t.names[..1] == [a];
    assert SumSizes(t.names, t.sets) == 2;
  }
}
