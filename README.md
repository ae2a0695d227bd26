# Evento: a verified model of an in-memory event emitter

This project models `Evento`, the in-process event emitter of
`emitter-memory`, in Dafny. An `Evento` object keeps two collections:

- the wildcard observers registered with `onAny`, an insertion-ordered `Set`
  of listeners called with `(name, data)` on every emit;
- a `Map` from event name to an insertion-ordered `Set` of listeners called
  with `data` when that name is emitted.

The model follows the class's own shape. `Emitter.Evento` is a class whose
fields are those two collections (`listenersWildcard`, `listenersEvent`),
plus `eventOrder`, the key order a JavaScript `Map` remembers, and
`closures`, which hands out the identity of each closure that `once`
allocates. Every method changes the fields in place, and its contract ties
the new state to a pure function of the old one:

- `OrderedSet` gives the `Set.add` / `Set.delete` behaviour on sequences;
- `Registry` describes the state as a value and every registry operation
  (`listeners`, `on`, `off`, `onAny`, `offAny`, calling a returned
  unsubscribe function, `clearListeners`) as a function on it;
- `Dispatch` describes what an emit does. It gives the ordered list of
  calls an emit makes (`Plan`) and the state it leaves behind
  (`AfterDispatch`): each `once` wrapper deletes itself. It then proves the
  listener-level properties: `once` fires at most once, registering twice
  calls once, `off` and `offAny` silence, and clearing is local or global;
- `Counting` gives the two results of `listenerCount` and proves how each
  operation moves them;
- `Emitter` is the class itself;
- `Scenarios` drives one object through the situations the repository's
  tests describe and proves what each emit calls.

A listener is an opaque callable compared by identity, so it is modelled by
an id. What sits in a per-name set is a `Handler`: a plain listener, or the
wrapper closure that `once` installs around a listener. An emit returns its
trace, the ordered list of calls it makes: `Handle(listener, data)` for a
per-name handler and `Observe(listener, name, data)` for an observer.

`emitSync` and `emitSeq` iterate the live `Set` for the name. A `once`
wrapper deletes itself before calling its listener, and the iterator then
moves on to the element that followed it. `emit` iterates a snapshot taken
with `Array.from`. The model keeps both loops (`RunLive` and
`RunSnapshot`) and proves that they make the same calls and leave the same
state.

The optional name argument of `clearListeners` and `listenerCount` is an
`Option<string>`. JavaScript truthiness is explicit: `None` (undefined) and
`Some("")` are falsy.

`src/index.ts` has no dispatch on glob patterns such as `user.*` and no
batch dispatch of several names. Its only wildcard is the `onAny` observer
set, and an emit takes one exact name.

## Model

| member | source | states |
|---|---|---|
| OrderedSet.Add | src/index.ts:15 | `Set.add`: the element is present afterwards and nothing else is added. A new element goes to the end, a present one leaves the sequence unchanged, and having no duplicates is preserved. |
| OrderedSet.Delete | src/index.ts:21 | `Set.delete`: exactly the deleted element is gone, an absent element changes nothing, and having no duplicates is preserved. |
| OrderedSet.DeleteAt | src/index.ts:21 | Deleting the element at position `i` of a duplicate-free sequence closes the gap and keeps the rest in order. |
| OrderedSet.DeleteMiddle | src/index.ts:21 | Deleting `x` from `a + [x] + b` leaves `a + b`. |
| OrderedSet.DeleteUndoesAdd | src/index.ts:14-22 | Deleting an element that was just added gives back the original sequence. |
| Registry.Empty | src/index.ts:8-12 | A new emitter has no observers, no names in the key order and no map entries, and is well formed. |
| Registry.EnsureEntry | src/index.ts:100-106 | `listeners(name)` creates an empty entry if the map has none, appended to the key order. An existing entry leaves the state unchanged, and no other entry changes. |
| Registry.Subscribe | src/index.ts:14-18 | `on`: the handler is in the name's set. A new handler is appended and a present one changes nothing. Only that entry changes, and well-formedness is kept. |
| Registry.Off | src/index.ts:20-22 | `off`: exactly that handler leaves the name's set. If it was absent, only the lazy entry creation happens. |
| Registry.OnAny | src/index.ts:67-71 | `onAny`: the observer is present, appended if new, and a present one changes nothing. The per-name map is untouched. |
| Registry.OffAny | src/index.ts:73-75 | `offAny`: exactly that observer is gone, an absent one changes nothing, and the map is untouched. |
| Registry.ClearListeners | src/index.ts:77-84 | A truthy name empties only that name's set (creating the entry if needed). A falsy name (undefined or `""`) drops every observer and every map entry. |
| Registry.SubscribeIdempotent | src/index.ts:14-18 | Registering the same handler twice is registering it once. |
| Registry.OffUndoesSubscribe | src/index.ts:14-22 | `off` after an `on` of a new handler restores the state, apart from the entry `on` created. |
| Registry.OffKeepsOrder | src/index.ts:20-22 | `off` keeps the other listeners of the name in their order. |
| Registry.ReleaseTwice | src/index.ts:17 | Calling an unsubscribe function a second time changes nothing. |
| Registry.OffAnyUndoesOnAny | src/index.ts:67-75 | `offAny` after `onAny` of a new observer gives back the original state. |
| Registry.OffAnyKeepsOrder | src/index.ts:73-75 | `offAny` keeps the other observers in their order. |
| Dispatch.HandlerCalls | src/index.ts:58-60 | One call per handler, in set order, each calling the handler's listener with `data`. |
| Dispatch.ObserverCalls | src/index.ts:62-64 | One call per observer, in set order, each with `(name, data)`. |
| Dispatch.Plan | src/index.ts:57-65 | An emit makes every per-name call first, in order, then every observer call, in order, and nothing else. |
| Dispatch.WithoutOnce | src/index.ts:24-30 | What remains once every `once` wrapper has removed itself: exactly the plain listeners, still without duplicates. |
| Dispatch.WithoutOnceAppend | src/index.ts:24-30 | Removing the `once` wrappers works element by element: the result for `a + b` is the result for `a` followed by the result for `b`, so the plain listeners keep their order. |
| Dispatch.WithoutOnceSingle | src/index.ts:24-30 | A single handler survives the emit exactly when it is a plain listener, not a `once` wrapper. |
| Dispatch.AfterDispatch | src/index.ts:24-30 | After an emit, the name's set holds exactly its plain listeners. The entry exists, and nothing else changes. |
| Dispatch.DispatchKeepsClosures | src/index.ts:24-30 | An emit adds no wrapper closure. |
| Dispatch.ProgressStep | src/index.ts:58-60 | Live iteration, one step: the next handler sits right after the survivors. A plain listener stays, and a wrapper deleting itself gives the next stage. |
| Dispatch.LiveStep | src/index.ts:58-60 | The same step for a set that started without duplicates. |
| Dispatch.DispatchWithoutWrappers | src/index.ts:57-60 | With no wrappers in the set, an emit changes nothing but the lazily created entry. |
| Dispatch.DispatchIdempotent | src/index.ts:24-30 | A second emit of the same name finds no wrapper left to remove. |
| Dispatch.ReceivedFromPlan | src/index.ts:57-65 | In one emit, a listener receives `data` once for every handler that targets it, and nothing else. |
| Dispatch.ObservedFromPlan | src/index.ts:62-64 | In one emit, an observer sees `(name, data)` once if registered, and never otherwise. |
| Dispatch.TargetingPlain | src/index.ts:14-18 | In a set without `once` wrappers for `l`, exactly one handler targets `l` if `l` is registered, and none if not. |
| Dispatch.OnTwiceCallsOnce | __tests__/evento.test.ts:31-42 | After `on(name, l)` twice, an emit calls `l` exactly once. |
| Dispatch.OffSilences | __tests__/evento.test.ts:45-61 | After `off(name, l)`, an emit never calls `l` as a handler. |
| Dispatch.OnceFirstEmit | src/index.ts:24-30 | The first emit after `once(name, l)` calls `l` exactly once, with its payload. |
| Dispatch.FiredOnceIsSilent | src/index.ts:24-30 | A listener reached only through `once` wrappers is not called by the emit after the one that fired them. |
| Dispatch.OnceFiresAtMostOnce | src/index.ts:24-30 | `once` then two emits: `l` receives exactly `[first]`, then nothing. |
| Dispatch.OnAnyObservesEveryEmit | src/index.ts:67-75 | After `onAny(l)`, every emit shows `l` exactly `(name, data)`. After `offAny(l)`, it shows nothing. |
| Dispatch.ClearAllSilences | src/index.ts:80-83 | After `clearListeners()` with a falsy name, an emit makes no call at all. |
| Dispatch.ClearNamedIsLocal | src/index.ts:78-79 | After `clearListeners(name)`, an emit of that name calls only the observers. An emit of any other name makes the same calls as before. |
| Counting.SumSizesUpdate | src/index.ts:93-95 | Replacing one listed set moves the per-name sum by the change in its size. |
| Counting.EmptyCount | src/index.ts:8-12 | A new emitter counts no listener, in total or for any name. |
| Counting.NamedCountAtMostTotal | src/index.ts:86-98 | `listenerCount(name)` never exceeds `listenerCount()`. |
| Counting.EnsureEntryKeepsCount | src/index.ts:100-106 | The lazily created entry leaves `listenerCount()` unchanged. |
| Counting.EnsureEntryKeepsNamedCount | src/index.ts:100-106 | The lazily created entry leaves every `listenerCount(name)` unchanged. |
| Counting.ReplaceEntryCount | src/index.ts:86-98 | Replacing a name's set after the lookup moves the total by the change in that set's size. |
| Counting.SubscribeCount | src/index.ts:14-18 | `on` adds one to the total for a new handler, and nothing for a present one. |
| Counting.OffCount | src/index.ts:20-22 | `off` takes one from the total if the handler was there, and nothing otherwise. |
| Counting.OnAnyCount | src/index.ts:67-71 | `onAny` adds one to both counts for a new observer. |
| Counting.OffAnyCount | src/index.ts:73-75 | `offAny` takes one from both counts if the observer was there. |
| Counting.ClearCount | src/index.ts:77-84 | A truthy clear takes exactly that name's listeners out of the total. A falsy clear brings both counts to zero. |
| Counting.DispatchCount | src/index.ts:24-30 | An emit takes exactly the fired `once` wrappers out of the total. |
| Emitter.Evento.constructor | src/index.ts:8-12 | A new object is in the empty state. |
| Emitter.Evento.Listeners | src/index.ts:100-106 | Returns the name's set as it was and moves the state by `EnsureEntry`. |
| Emitter.Evento.AddHandler | src/index.ts:15 | Adds a handler through `listeners(name)`, moving the state by `Subscribe`. |
| Emitter.Evento.On | src/index.ts:14-18 | Moves the state by `Subscribe` and returns `off` bound to the name and listener. |
| Emitter.Evento.Off | src/index.ts:20-22 | Moves the state by `Registry.Off`. |
| Emitter.Evento.Once | src/index.ts:24-30 | Subscribes a fresh wrapper closure, which is appended to the name's set. |
| Emitter.Evento.EmitSync | src/index.ts:57-65 | The calls are exactly `PlanFor` of the old state, and the new state is `AfterDispatch` of the old one. |
| Emitter.Evento.Emit | src/index.ts:32-43 | Over a snapshot, the same calls and the same new state as `emitSync`. |
| Emitter.Evento.EmitSeq | src/index.ts:45-55 | The same calls and the same new state as `emitSync`. |
| Emitter.Evento.RunLive | src/index.ts:58-60 | Iterating the live set makes one call per handler of the original set, in order, and leaves exactly the plain listeners. |
| Emitter.Evento.RunHandler | src/index.ts:25-28 | Calling the handler under the live iterator: a wrapper deletes itself first and the iterator stays; a plain listener advances it. |
| Emitter.Evento.RunSnapshot | src/index.ts:36-38 | Iterating the snapshot makes one call per handler, in order, and leaves exactly the plain listeners in the live set. |
| Emitter.Evento.RunSnapshotHandler | src/index.ts:36-38 | Calling one snapshot handler: a wrapper deletes itself from the live set. |
| Emitter.Evento.CallObservers | src/index.ts:62-64 | The observer loop makes exactly `ObserverCalls`. |
| Emitter.Evento.OnAny | src/index.ts:67-71 | Moves the state by `Registry.OnAny` and returns `offAny` bound to the listener. |
| Emitter.Evento.OffAny | src/index.ts:73-75 | Moves the state by `Registry.OffAny`. |
| Emitter.Evento.Unsubscribe | src/index.ts:17 | Calling a returned unsubscribe function moves the state by `Release`. |
| Emitter.Evento.ClearListeners | src/index.ts:77-84 | Moves the state by `Registry.ClearListeners`, with truthiness decided as JavaScript does. |
| Emitter.Evento.ListenerCount | src/index.ts:86-98 | For a truthy name, returns the observers plus that name's listeners, creating the entry if needed. Otherwise it returns the observers plus every set's size, summed in map order, and changes nothing. |
| Emitter.Evento.RawListeners | src/index.ts:108-110 | Returns a copy of the name's set, in insertion order, after the lazy lookup. |
| Emitter.Evento.EventNames | src/index.ts:112-114 | Returns every map key once, in first-insertion order, including entries created only by a lookup. |
| Scenarios.ListenersInOrder | __tests__/evento.test.ts:120-137 | Three listeners on one name are called in the order they were added. |
| Scenarios.ThreeInOrder | __tests__/evento.test.ts:132-136 | Three `on` calls with distinct listeners give a plan in call order. |
| Scenarios.DuplicateListeners | __tests__/evento.test.ts:31-42 | `on` three times with one listener, then an emit: one call. |
| Scenarios.UnsubscribeAfterOneEmit | __tests__/evento.test.ts:18-29 | The function `on` returns silences the listener: `[true]`, then nothing. |
| Scenarios.ListenOnce | __tests__/evento.test.ts:64-81 | `once`, then two `emitSeq` calls: the listener sees `true` only. |
| Scenarios.ObserverRemoved | __tests__/evento.test.ts:162-178 | `onAny`, emit, `offAny`, emit: the observer sees the first emit only. |
| Scenarios.ClearOneName | __tests__/evento.test.ts:202-220 | Before `clearListeners("firstEvent")`, an emit of that name calls its listener and then the observer. After it, the emit calls the observer alone, and the other name is unaffected. |
| Scenarios.ClearEverything | __tests__/evento.test.ts:181-200 | With a listener on each of two names and one observer, emitting both names calls each listener and then the observer. After `clearListeners()`, emitting both names makes no call. |
| Scenarios.EmitSecondOfTwo | __tests__/evento.test.ts:189-191 | In the two-name state, an emit of the second name calls its listener and then the observer, and leaves the state as it was. |
| Scenarios.EmitBoth | __tests__/evento.test.ts:189-192 | In the two-name state, emitting both names calls the first listener, the observer, the second listener and the observer, in that order, and leaves the state as it was. |
| Scenarios.EmitBothAfterClear | __tests__/evento.test.ts:194-199 | After `clearListeners()`, an emit of one name and then of another make no call. |
| Scenarios.CountListeners | __tests__/evento.test.ts:223-232 | Counts 2, 2 and 3 for two names with one listener each and one observer. |
| Scenarios.TwoNamesBuilt | __tests__/evento.test.ts:225-227 | `on`, `on`, `onAny` on a new emitter build the two-name state. |
| Scenarios.TwoNamesTotal | __tests__/evento.test.ts:231 | The two-name state has a total count of 3. |

## Left out

- Asynchronous scheduling. `emit` and `emitSeq` start with `await Promise.resolve()`, so their bodies read the emitter's state only after other pending code has run: `emit("firstEvent")` followed at once by `off("firstEvent", l)` never calls `l`. `emitSeq` also awaits each listener, and other tasks may change the live `Set` between two calls. `Emitter.Evento.Emit` and `Emitter.Evento.EmitSeq` build the plan from the state at the call and assume that no other operation on the emitter runs before the emit finishes. The model makes the calls in sequence and returns them as a trace.
- The result of `emit`. It passes two arrays to `Promise.all`, so the listeners' promises are never awaited, and a rejected listener promise does not reject `emit`. The model has no promises.
- Listener bodies, exceptions thrown by listeners, and listeners that change the emitter during an emit. An emit changes the emitter in two ways only: `listeners(name)` creates the name's entry if it is missing, and each `once` wrapper removes itself. A listener that throws would end the loop early; this is not modelled.
- Symbol event names. `EventName` is `string | symbol` in the source; the model has strings only.
- The `Set` object that `listeners(name)` returns is live, and callers can change it. `Emitter.Evento.Listeners` returns its contents as a value instead, so changes made through the returned object are not modelled.
- `on` with a `once` wrapper obtained from `rawListeners`. `Emitter.Evento.On` takes user listeners only. `Emitter.Evento.Off` accepts any handler, wrappers included.
- Number overflow. Counts are unbounded naturals. A JavaScript number stays exact up to 2^53, beyond any reachable listener count.
- Registry.Release: its contract states only that the state stays well formed. What it does is `Registry.Off` or `Registry.OffAny`, whose contracts carry the properties. `Registry.ReleaseTwice` states its idempotence.
