/**
  `listenerCount(name?)`: with a truthy name, the wildcard observers plus the
  listeners for that name; otherwise the wildcard observers plus the size of
  every per-name set. This module defines the total and proves how each
  registry operation moves it.
 */
module Counting {
  import opened OrderedSet
  import opened Registry
  import opened Dispatch

  /** The size of the set for `n`, or 0 when the map has no entry for it. */
  function Size(sets: map<EventName, seq<Handler>>, n: EventName): nat {
    if n in sets then |sets[n]| else 0
  }

  /** The sizes of the sets for `names` added up, in the order of `names`. */
  function SumSizes(names: seq<EventName>, sets: map<EventName, seq<Handler>>): nat {
    if names == [] then 0
    else SumSizes(names[..|names| - 1], sets) + Size(sets, names[|names| - 1])
  }

  /** What `listenerCount()` returns: every observer and every per-name listener. */
  function TotalCount(s: State): nat {
    |s.wildcard| + SumSizes(s.names, s.sets)
  }

  /** What `listenerCount(name)` returns for a truthy name. */
  function NamedCount(s: State, name: EventName): nat {
    |s.wildcard| + |Get(s, name)|
  }

  /** Changing an entry whose name is not listed leaves the sum alone. */
  lemma {:induction false} SumSizesFrame(names: seq<EventName>, sets: map<EventName, seq<Handler>>, n: EventName, v: seq<Handler>)
    requires n !in names
    ensures SumSizes(names, sets[n := v]) == SumSizes(names, sets)
  {
    if names != [] {
      SumSizesFrame(names[..|names| - 1], sets, n, v);
    }
  }

  /** Replacing the set for a listed name moves the sum by the difference in size. */
  lemma {:induction false} SumSizesUpdate(names: seq<EventName>, sets: map<EventName, seq<Handler>>, n: EventName, v: seq<Handler>)
    requires NoDup(names) && n in names
    ensures SumSizes(names, sets[n := v]) + Size(sets, n) == SumSizes(names, sets) + |v|
  {
    var init, last := names[..|names| - 1], names[|names| - 1];
    assert names == init + [last];
    assert NoDup(init) && last !in init;
    if last == n {
      SumSizesFrame(init, sets, n, v);
    } else {
      SumSizesUpdate(init, sets, n, v);
    }
  }

  /** One set's size never exceeds the sum over all names. */
  lemma {:induction false} SizeAtMostSum(names: seq<EventName>, sets: map<EventName, seq<Handler>>, n: EventName)
    requires n in names
    ensures Size(sets, n) <= SumSizes(names, sets)
  {
    var init, last := names[..|names| - 1], names[|names| - 1];
    assert names == init + [last];
    if last != n {
      SizeAtMostSum(init, sets, n);
    }
  }

  /** A new emitter counts no listener, in total or for any name. */
  lemma EmptyCount(name: EventName)
    ensures TotalCount(Empty()) == 0 && NamedCount(Empty(), name) == 0
  {
  }

  /** `listenerCount(name)` never exceeds `listenerCount()`. */
  lemma NamedCountAtMostTotal(s: State, name: EventName)
    requires Wf(s)
    ensures NamedCount(s, name) <= TotalCount(s)
  {
    if name in s.sets {
      SizeAtMostSum(s.names, s.sets, name);
    }
  }

  /** The lazily created entry of `listeners(name)` changes neither count. */
  lemma {:induction false} EnsureEntryKeepsCount(s: State, name: EventName)
    requires Wf(s)
    ensures TotalCount(EnsureEntry(s, name)) == TotalCount(s)
  {
    if name !in s.sets {
      NewEntrySum(s, name);
    }
  }

  lemma {:induction false} EnsureEntryKeepsNamedCount(s: State, name: EventName, other: EventName)
    requires Wf(s)
    ensures NamedCount(EnsureEntry(s, name), other) == NamedCount(s, other)
  {
  }

  lemma NewEntrySum(s: State, name: EventName)
    requires Wf(s) && name !in s.sets
    ensures SumSizes(EnsureEntry(s, name).names, EnsureEntry(s, name).sets) == SumSizes(s.names, s.sets)
  {
    var r := EnsureEntry(s, name);
    assert r.names[..|r.names| - 1] == s.names;
    SumSizesFrame(s.names, s.sets, name, []);
  }

  /** Replacing the set for `name` after the lazy lookup. */
  lemma ReplaceEntryCount(s: State, name: EventName, v: seq<Handler>)
    requires Wf(s)
    ensures
      var e := EnsureEntry(s, name);
      TotalCount(e.(sets := e.sets[name := v])) + |Get(s, name)| == TotalCount(s) + |v|
  {
    var e := EnsureEntry(s, name);
    EnsureEntryKeepsCount(s, name);
    SumSizesUpdate(e.names, e.sets, name, v);
  }

  /** `on` adds one to the total when the handler is new, and nothing otherwise. */
  lemma SubscribeCount(s: State, name: EventName, h: Handler)
    requires Wf(s)
    ensures TotalCount(Subscribe(s, name, h)) == TotalCount(s) + (if h in Get(s, name) then 0 else 1)
  {
    ReplaceEntryCount(s, name, Subscribe(s, name, h).sets[name]);
  }

  /** `off` takes one from the total when the handler was there, and nothing otherwise. */
  lemma OffCount(s: State, name: EventName, h: Handler)
    requires Wf(s)
    ensures TotalCount(Off(s, name, h)) + (if h in Get(s, name) then 1 else 0) == TotalCount(s)
  {
    var hs := Get(s, name);
    if h in hs {
      var i :| 0 <= i < |hs| && hs[i] == h;
      DeleteAt(hs, i);
    }
    ReplaceEntryCount(s, name, Off(s, name, h).sets[name]);
  }

  /** `onAny` adds one to both counts when the observer is new. */
  lemma OnAnyCount(s: State, l: ListenerId, name: EventName)
    requires Wf(s)
    ensures TotalCount(OnAny(s, l)) == TotalCount(s) + (if l in s.wildcard then 0 else 1)
    ensures NamedCount(OnAny(s, l), name) == NamedCount(s, name) + (if l in s.wildcard then 0 else 1)
  {
  }

  /** `offAny` takes one from both counts when the observer was there. */
  lemma OffAnyCount(s: State, l: ListenerId, name: EventName)
    requires Wf(s)
    ensures TotalCount(OffAny(s, l)) + (if l in s.wildcard then 1 else 0) == TotalCount(s)
    ensures NamedCount(OffAny(s, l), name) + (if l in s.wildcard then 1 else 0) == NamedCount(s, name)
  {
    if l in s.wildcard {
      var i :| 0 <= i < |s.wildcard| && s.wildcard[i] == l;
      DeleteAt(s.wildcard, i);
    }
  }

  /**
    `clearListeners(name)` with a truthy name takes that name's listeners out
    of the total; without one it brings every count to zero.
   */
  lemma ClearCount(s: State, name: Option<EventName>, other: EventName)
    requires Wf(s)
    ensures Truthy(name) ==> TotalCount(ClearListeners(s, name)) + |Get(s, name.value)| == TotalCount(s)
    ensures !Truthy(name) ==> TotalCount(ClearListeners(s, name)) == 0 && NamedCount(ClearListeners(s, name), other) == 0
  {
    if Truthy(name) {
      ReplaceEntryCount(s, name.value, []);
    }
  }

  /** An emit takes the fired `once` wrappers out of the total. */
  lemma DispatchCount(s: State, name: EventName)
    requires Wf(s)
    ensures TotalCount(AfterDispatch(s, name)) + |Get(s, name)| == TotalCount(s) + |WithoutOnce(Get(s, name))|
  {
    ReplaceEntryCount(s, name, WithoutOnce(Get(s, name)));
  }
}
