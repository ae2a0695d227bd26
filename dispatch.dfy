/**
  What one emit of an event does: the ordered list of listener calls it
  makes, and the state it leaves behind (the `once` wrappers that ran have
  removed themselves). `emit`, `emitSeq` and `emitSync` all make the same
  calls in the same order; they differ only in scheduling.
 */
module Dispatch {
  import opened OrderedSet
  import opened Registry

  /** One call made by an emit: a per-name listener gets `(data)`, a wildcard observer `(name, data)`. */
  datatype Invocation<D> = Handle(listener: ListenerId, data: D) | Observe(listener: ListenerId, name: EventName, data: D)

  /** The calls made by running the per-name handlers `hs` in order. */
  function HandlerCalls<D>(hs: seq<Handler>, data: D): (r: seq<Invocation<D>>)
    ensures |r| == |hs|
    ensures forall i | 0 <= i < |hs| :: r[i] == Handle(hs[i].Target(), data)
  {
    if hs == [] then []
    else HandlerCalls(hs[..|hs| - 1], data) + [Handle(hs[|hs| - 1].Target(), data)]
  }

  /** The calls made by running the wildcard observers `obs` in order. */
  function ObserverCalls<D>(obs: seq<ListenerId>, name: EventName, data: D): (r: seq<Invocation<D>>)
    ensures |r| == |obs|
    ensures forall i | 0 <= i < |obs| :: r[i] == Observe(obs[i], name, data)
  {
    if obs == [] then []
    else ObserverCalls(obs[..|obs| - 1], name, data) + [Observe(obs[|obs| - 1], name, data)]
  }

  /**
    The dispatch plan: every handler for the name in insertion order with
    `(data)`, then every wildcard observer in insertion order with
    `(name, data)`, and no other call.
   */
  function Plan<D>(hs: seq<Handler>, obs: seq<ListenerId>, name: EventName, data: D): (p: seq<Invocation<D>>)
    ensures |p| == |hs| + |obs|
    ensures forall i | 0 <= i < |hs| :: p[i] == Handle(hs[i].Target(), data)
    ensures forall j | 0 <= j < |obs| :: p[|hs| + j] == Observe(obs[j], name, data)
  {
    HandlerCalls(hs, data) + ObserverCalls(obs, name, data)
  }

  /** The calls an emit of `name` makes in state `s`. */
  function PlanFor<D>(s: State, name: EventName, data: D): seq<Invocation<D>> {
    Plan(Get(s, name), s.wildcard, name, data)
  }

  /** The handlers left once every `once` wrapper among `hs` has removed itself. */
  function WithoutOnce(hs: seq<Handler>): (r: seq<Handler>)
    ensures forall h :: h in r <==> h in hs && h.Listener?
    ensures |r| <= |hs|
    ensures NoDup(hs) ==> NoDup(r)
  {
    if hs == [] then []
    else
      var init, last := hs[..|hs| - 1], hs[|hs| - 1];
      assert NoDup(hs) ==> NoDup(init) && last !in init;
      WithoutOnce(init) + (if last.Listener? then [last] else [])
  }

  /**
    Removing the `once` wrappers works element by element: the plain
    listeners that stay keep their relative order.
   */
  lemma {:induction false} WithoutOnceAppend(a: seq<Handler>, b: seq<Handler>)
    ensures WithoutOnce(a + b) == WithoutOnce(a) + WithoutOnce(b)
    decreases |b|
  {
    if b == [] {
      assert a + b == a;
    } else {
      var init, last := b[..|b| - 1], b[|b| - 1];
      var keep := if last.Listener? then [last] else [];
      assert (a + b)[..|a + b| - 1] == a + init;
      assert WithoutOnce(a + b) == WithoutOnce(a + init) + keep;
      assert WithoutOnce(b) == WithoutOnce(init) + keep;
      WithoutOnceAppend(a, init);
    }
  }

  /** A single handler survives exactly when it is a plain listener. */
  lemma WithoutOnceSingle(h: Handler)
    ensures WithoutOnce([h]) == (if h.Listener? then [h] else [])
  {
    assert [h][..0] == [];
  }

  /**
    The state after an emit of `name`: the entry exists (the emit reads it
    through `listeners(name)`), every `once` wrapper in it has removed
    itself, and the plain listeners stay.
   */
  function AfterDispatch(s: State, name: EventName): (r: State)
    requires Wf(s)
    ensures Wf(r)
    ensures OnlyEntryChanged(s, r, name)
    ensures forall h :: h in r.sets[name] <==> h in Get(s, name) && h.Listener?
  {
    var e := EnsureEntry(s, name);
    e.(sets := e.sets[name := WithoutOnce(e.sets[name])])
  }

  /** An emit adds no handler, so it keeps every closure identity below a bound. */
  lemma DispatchKeepsClosures(s: State, name: EventName, bound: nat)
    requires Wf(s) && ClosuresBelow(s, bound)
    ensures ClosuresBelow(AfterDispatch(s, name), bound)
  {
  }

  /**
    The live set for the emitted name after the first `k` handlers have run:
    the wrappers among them have deleted themselves, the rest is untouched.
   */
  ghost function Progress(hs: seq<Handler>, k: nat): seq<Handler>
    requires k <= |hs|
  {
    WithoutOnce(hs[..k]) + hs[k..]
  }

  lemma ProgressStart(hs: seq<Handler>)
    ensures Progress(hs, 0) == hs
  {
    assert hs[..0] == [];
  }

  lemma ProgressEnd(hs: seq<Handler>)
    ensures Progress(hs, |hs|) == WithoutOnce(hs)
  {
    assert hs[..|hs|] == hs;
  }

  lemma ProgressNoDup(hs: seq<Handler>, k: nat)
    requires k <= |hs| && NoDup(hs)
    ensures NoDup(Progress(hs, k))
  {
    var done := WithoutOnce(hs[..k]);
    assert hs == hs[..k] + hs[k..];
    assert NoDup(hs[..k]) && NoDup(hs[k..]);
    forall i, j | 0 <= i < j < |Progress(hs, k)|
      ensures Progress(hs, k)[i] != Progress(hs, k)[j]
    {
      if i < |done| && j >= |done| {
        assert Progress(hs, k)[i] in hs[..k];
        assert Progress(hs, k)[j] == hs[k + j - |done|];
      }
    }
  }

  /**
    Running handler `k`: it sits right after the survivors of the first `k`;
    a plain listener stays, and a `once` wrapper deleting itself gives the
    next stage.
   */
  lemma ProgressStep(hs: seq<Handler>, k: nat)
    requires k < |hs|
    requires NoDup(Progress(hs, k))
    ensures |Progress(hs, k)| == |WithoutOnce(hs[..k])| + |hs| - k
    ensures Progress(hs, k)[|WithoutOnce(hs[..k])|] == hs[k]
    ensures |WithoutOnce(hs[..k + 1])| == |WithoutOnce(hs[..k])| + (if hs[k].Listener? then 1 else 0)
    ensures hs[k].Listener? ==> Progress(hs, k + 1) == Progress(hs, k)
    ensures hs[k].OnceWrapper? ==> Progress(hs, k + 1) == Delete(Progress(hs, k), hs[k])
  {
    var done := WithoutOnce(hs[..k]);
    var upto := hs[..k + 1];
    assert upto[..k] == hs[..k] && upto[k] == hs[k];
    assert hs[k..] == [hs[k]] + hs[k + 1..];
    assert Progress(hs, k) == done + [hs[k]] + hs[k + 1..];
    if hs[k].Listener? {
      assert WithoutOnce(upto) == done + [hs[k]];
    } else {
      assert WithoutOnce(upto) == done;
      DeleteMiddle(done, hs[k], hs[k + 1..]);
    }
  }

  /** `ProgressStep` for a set that started without duplicates. */
  lemma LiveStep(hs: seq<Handler>, k: nat)
    requires k < |hs| && NoDup(hs)
    ensures |Progress(hs, k)| == |WithoutOnce(hs[..k])| + |hs| - k
    ensures Progress(hs, k)[|WithoutOnce(hs[..k])|] == hs[k]
    ensures |WithoutOnce(hs[..k + 1])| == |WithoutOnce(hs[..k])| + (if hs[k].Listener? then 1 else 0)
    ensures hs[k].Listener? ==> Progress(hs, k + 1) == Progress(hs, k)
    ensures hs[k].OnceWrapper? ==> Progress(hs, k + 1) == Delete(Progress(hs, k), hs[k])
  {
    ProgressNoDup(hs, k);
    ProgressStep(hs, k);
  }

  /** Writing an entry twice leaves the second value. */
  lemma UpdateTwice(m: map<EventName, seq<Handler>>, name: EventName, a: seq<Handler>, b: seq<Handler>)
    ensures m[name := a][name := b] == m[name := b]
  {
  }

  lemma HandlerCallsStep<D>(hs: seq<Handler>, k: nat, data: D)
    requires k < |hs|
    ensures HandlerCalls(hs[..k + 1], data) == HandlerCalls(hs[..k], data) + [Handle(hs[k].Target(), data)]
  {
    assert hs[..k + 1][..k] == hs[..k];
  }

  /** Dropping the wrappers from a set of plain listeners leaves it as it is. */
  lemma {:induction false} WithoutOnceKeepsListeners(hs: seq<Handler>)
    requires forall h | h in hs :: h.Listener?
    ensures WithoutOnce(hs) == hs
  {
    if hs != [] {
      assert hs == hs[..|hs| - 1] + [hs[|hs| - 1]];
      WithoutOnceKeepsListeners(hs[..|hs| - 1]);
    }
  }

  /** An emit over plain listeners changes nothing but the lazily created entry. */
  lemma DispatchWithoutWrappers(s: State, name: EventName)
    requires Wf(s)
    requires forall h | h in Get(s, name) :: h.Listener?
    ensures AfterDispatch(s, name) == EnsureEntry(s, name)
  {
    WithoutOnceKeepsListeners(Get(s, name));
    assert AfterDispatch(s, name).sets == EnsureEntry(s, name).sets;
  }

  /** A second emit finds no wrapper left to remove. */
  lemma DispatchIdempotent(s: State, name: EventName)
    requires Wf(s)
    ensures AfterDispatch(AfterDispatch(s, name), name) == AfterDispatch(s, name)
  {
    DispatchWithoutWrappers(AfterDispatch(s, name), name);
  }

  // ---------------------------------------------------------------------
  // What each listener receives

  /** The payloads `l` received as a per-name listener, in call order. */
  function Received<D>(trace: seq<Invocation<D>>, l: ListenerId): seq<D> {
    if trace == [] then []
    else (if trace[0].Handle? && trace[0].listener == l then [trace[0].data] else []) + Received(trace[1..], l)
  }

  /** The `(name, data)` pairs `l` received as a wildcard observer, in call order. */
  function Observed<D>(trace: seq<Invocation<D>>, l: ListenerId): seq<(EventName, D)> {
    if trace == [] then []
    else (if trace[0].Observe? && trace[0].listener == l then [(trace[0].name, trace[0].data)] else []) + Observed(trace[1..], l)
  }

  /** How many of the handlers `hs` call the user listener `l`. */
  function Targeting(hs: seq<Handler>, l: ListenerId): nat {
    if hs == [] then 0
    else Targeting(hs[..|hs| - 1], l) + (if hs[|hs| - 1].Target() == l then 1 else 0)
  }

  /** `k` copies of `d`. */
  function Repeat<D>(d: D, k: nat): (r: seq<D>)
    ensures |r| == k
    ensures forall i | 0 <= i < k :: r[i] == d
  {
    seq(k, _ => d)
  }

  lemma {:induction false} ReceivedAppend<D>(a: seq<Invocation<D>>, b: seq<Invocation<D>>, l: ListenerId)
    ensures Received(a + b, l) == Received(a, l) + Received(b, l)
  {
    if a == [] {
      assert a + b == b;
    } else {
      assert (a + b)[1..] == a[1..] + b;
      ReceivedAppend(a[1..], b, l);
    }
  }

  lemma {:induction false} ObservedAppend<D>(a: seq<Invocation<D>>, b: seq<Invocation<D>>, l: ListenerId)
    ensures Observed(a + b, l) == Observed(a, l) + Observed(b, l)
  {
    if a == [] {
      assert a + b == b;
    } else {
      assert (a + b)[1..] == a[1..] + b;
      ObservedAppend(a[1..], b, l);
    }
  }

  /** Handler calls carry nothing for observers, and observer calls nothing for handlers. */
  lemma {:induction false} NoObservationsInHandlerCalls<D>(hs: seq<Handler>, data: D, l: ListenerId)
    ensures Observed(HandlerCalls(hs, data), l) == []
  {
    if hs != [] {
      var init := hs[..|hs| - 1];
      NoObservationsInHandlerCalls(init, data, l);
      ObservedAppend(HandlerCalls(init, data), [Handle(hs[|hs| - 1].Target(), data)], l);
    }
  }

  lemma {:induction false} NoReceptionsInObserverCalls<D>(obs: seq<ListenerId>, name: EventName, data: D, l: ListenerId)
    ensures Received(ObserverCalls(obs, name, data), l) == []
  {
    if obs != [] {
      var init := obs[..|obs| - 1];
      NoReceptionsInObserverCalls(init, name, data, l);
      ReceivedAppend(ObserverCalls(init, name, data), [Observe(obs[|obs| - 1], name, data)], l);
    }
  }

  lemma {:induction false} ReceivedFromHandlers<D>(hs: seq<Handler>, data: D, l: ListenerId)
    ensures Received(HandlerCalls(hs, data), l) == Repeat(data, Targeting(hs, l))
  {
    if hs != [] {
      var init, last := hs[..|hs| - 1], hs[|hs| - 1];
      ReceivedFromHandlers(init, data, l);
      ReceivedAppend(HandlerCalls(init, data), [Handle(last.Target(), data)], l);
    }
  }

  /** In one emit, a listener receives the payload once for every handler that targets it, and nothing else. */
  lemma ReceivedFromPlan<D>(hs: seq<Handler>, obs: seq<ListenerId>, name: EventName, data: D, l: ListenerId)
    ensures Received(Plan(hs, obs, name, data), l) == Repeat(data, Targeting(hs, l))
  {
    ReceivedAppend(HandlerCalls(hs, data), ObserverCalls(obs, name, data), l);
    ReceivedFromHandlers(hs, data, l);
    NoReceptionsInObserverCalls(obs, name, data, l);
  }

  lemma {:induction false} ObservedFromObservers<D>(obs: seq<ListenerId>, name: EventName, data: D, l: ListenerId)
    requires NoDup(obs)
    ensures Observed(ObserverCalls(obs, name, data), l) == if l in obs then [(name, data)] else []
  {
    if obs != [] {
      var init, last := obs[..|obs| - 1], obs[|obs| - 1];
      assert obs == init + [last];
      assert NoDup(init) && last !in init;
      ObservedFromObservers(init, name, data, l);
      ObservedAppend(ObserverCalls(init, name, data), [Observe(last, name, data)], l);
    }
  }

  /** In one emit, every wildcard observer is called exactly once, with the event name and the payload. */
  lemma ObservedFromPlan<D>(hs: seq<Handler>, obs: seq<ListenerId>, name: EventName, data: D, l: ListenerId)
    requires NoDup(obs)
    ensures Observed(Plan(hs, obs, name, data), l) == if l in obs then [(name, data)] else []
  {
    ObservedAppend(HandlerCalls(hs, data), ObserverCalls(obs, name, data), l);
    NoObservationsInHandlerCalls(hs, data, l);
    ObservedFromObservers(obs, name, data, l);
  }

  /** No handler targets `l` exactly when the count is zero. */
  lemma {:induction false} TargetingZero(hs: seq<Handler>, l: ListenerId)
    ensures Targeting(hs, l) == 0 <==> forall h | h in hs :: h.Target() != l
  {
    if hs != [] {
      var init, last := hs[..|hs| - 1], hs[|hs| - 1];
      assert hs == init + [last];
      TargetingZero(init, l);
    }
  }

  /** Without `once` wrappers for `l`, a duplicate-free set targets `l` once if it holds `l`, else never. */
  lemma {:induction false} TargetingPlain(hs: seq<Handler>, l: ListenerId)
    requires NoDup(hs)
    requires forall h | h in hs && h.OnceWrapper? :: h.target != l
    ensures Targeting(hs, l) == if Listener(l) in hs then 1 else 0
  {
    if hs != [] {
      var init, last := hs[..|hs| - 1], hs[|hs| - 1];
      assert hs == init + [last];
      assert NoDup(init) && last !in init;
      TargetingPlain(init, l);
    }
  }

  // ---------------------------------------------------------------------
  // Properties of emit sequences

  /** Registering the same listener twice: an emit calls it once. */
  lemma OnTwiceCallsOnce<D>(s: State, name: EventName, l: ListenerId, data: D)
    requires Wf(s)
    requires forall h | h in Get(s, name) && h.OnceWrapper? :: h.target != l
    ensures
      var s2 := Subscribe(Subscribe(s, name, Listener(l)), name, Listener(l));
      Received(PlanFor(s2, name, data), l) == [data]
  {
    var s2 := Subscribe(Subscribe(s, name, Listener(l)), name, Listener(l));
    TargetingPlain(Get(s2, name), l);
    ReceivedFromPlan(Get(s2, name), s2.wildcard, name, data, l);
  }

  /** After `off(name, l)` an emit of `name` never calls `l` as a handler. */
  lemma OffSilences<D>(s: State, name: EventName, l: ListenerId, data: D)
    requires Wf(s)
    requires forall h | h in Get(s, name) && h.OnceWrapper? :: h.target != l
    ensures Received(PlanFor(Off(s, name, Listener(l)), name, data), l) == []
  {
    var s2 := Off(s, name, Listener(l));
    TargetingPlain(Get(s2, name), l);
    ReceivedFromPlan(Get(s2, name), s2.wildcard, name, data, l);
  }

  /** Appending one handler for `l` to a set with none gives a count of one. */
  lemma TargetingAppendOne(hs: seq<Handler>, h: Handler, l: ListenerId)
    requires forall g | g in hs :: g.Target() != l
    requires h.Target() == l
    ensures Targeting(hs + [h], l) == 1
  {
    TargetingZero(hs, l);
    assert (hs + [h])[..|hs|] == hs;
  }

  /** The first emit after `once(name, l)` calls `l` exactly once, with its payload. */
  lemma OnceFirstEmit<D>(s: State, name: EventName, l: ListenerId, c: nat, first: D)
    requires Wf(s)
    requires OnceWrapper(c, l) !in Get(s, name)
    requires forall h | h in Get(s, name) :: h.Target() != l
    ensures Received(PlanFor(Subscribe(s, name, OnceWrapper(c, l)), name, first), l) == [first]
  {
    var s1 := Subscribe(s, name, OnceWrapper(c, l));
    assert Get(s1, name) == Get(s, name) + [OnceWrapper(c, l)];
    TargetingAppendOne(Get(s, name), OnceWrapper(c, l), l);
    ReceivedOnce(Get(s1, name), s1.wildcard, name, first, l);
  }

  /** A set with exactly one handler for `l`: an emit hands `l` the payload once. */
  lemma ReceivedOnce<D>(hs: seq<Handler>, obs: seq<ListenerId>, name: EventName, data: D, l: ListenerId)
    requires Targeting(hs, l) == 1
    ensures Received(Plan(hs, obs, name, data), l) == [data]
  {
    ReceivedFromPlan(hs, obs, name, data, l);
    assert Repeat(data, 1) == [data];
  }

  /**
    A listener that was only reached through `once` wrappers is not called by
    the emit after the one that fired them.
   */
  lemma FiredOnceIsSilent<D>(s: State, name: EventName, l: ListenerId, data: D)
    requires Wf(s)
    requires forall h | h in Get(s, name) && h.Target() == l :: h.OnceWrapper?
    ensures Received(PlanFor(AfterDispatch(s, name), name, data), l) == []
  {
    var s2 := AfterDispatch(s, name);
    assert forall h | h in Get(s2, name) :: h.Target() != l;
    TargetingZero(Get(s2, name), l);
    ReceivedFromPlan(Get(s2, name), s2.wildcard, name, data, l);
  }

  /**
    `once(name, l)` followed by two emits of `name`: the first calls `l`
    exactly once, with the first payload; the second does not call it.
    `c` is the new wrapper closure, distinct from every handler present.
   */
  lemma OnceFiresAtMostOnce<D>(s: State, name: EventName, l: ListenerId, c: nat, first: D, second: D)
    requires Wf(s)
    requires OnceWrapper(c, l) !in Get(s, name)
    requires forall h | h in Get(s, name) :: h.Target() != l
    ensures
      var s1 := Subscribe(s, name, OnceWrapper(c, l));
      && Received(PlanFor(s1, name, first), l) == [first]
      && Received(PlanFor(AfterDispatch(s1, name), name, second), l) == []
  {
    OnceFirstEmit(s, name, l, c, first);
    FiredOnceIsSilent(Subscribe(s, name, OnceWrapper(c, l)), name, l, second);
  }

  /** `onAny(l)`: every later emit calls `l` once with its name and payload; after `offAny(l)`, never. */
  lemma OnAnyObservesEveryEmit<D>(s: State, l: ListenerId, name: EventName, data: D)
    requires Wf(s)
    ensures Observed(PlanFor(OnAny(s, l), name, data), l) == [(name, data)]
    ensures Observed(PlanFor(OffAny(s, l), name, data), l) == []
  {
    ObservedFromPlan(Get(OnAny(s, l), name), OnAny(s, l).wildcard, name, data, l);
    ObservedFromPlan(Get(OffAny(s, l), name), OffAny(s, l).wildcard, name, data, l);
  }

  /** After `clearListeners()` (or with a falsy name) no emit calls anything. */
  lemma ClearAllSilences<D>(s: State, name: Option<EventName>, emitted: EventName, data: D)
    requires Wf(s)
    requires !Truthy(name)
    ensures PlanFor(ClearListeners(s, name), emitted, data) == []
  {
  }

  /**
    After `clearListeners(name)` with a truthy name, an emit of that name
    calls only the wildcard observers, and an emit of any other name makes
    the same calls as before.
   */
  lemma ClearNamedIsLocal<D>(s: State, name: EventName, other: EventName, data: D)
    requires Wf(s)
    requires name != ""
    ensures PlanFor(ClearListeners(s, Some(name)), name, data) == ObserverCalls(s.wildcard, name, data)
    ensures other != name ==> PlanFor(ClearListeners(s, Some(name)), other, data) == PlanFor(s, other, data)
  {
    assert Plan([], s.wildcard, name, data) == ObserverCalls(s.wildcard, name, data);
  }
}
