# useIntersectionObserver: a verified model of the observation manager

`useIntersectionObserver(callback, options)` is a React hook. Under the React plumbing it
is a small stateful manager. It keeps three refs alive across renders:

- `cachedOptions`: the last observer options.
- `observer`: the current `IntersectionObserver`, or null.
- `observableCache`: an ordered, duplicate-free list of observed elements.

It hands out three functions: `update` (reconfigure), `observe` (add an element) and
`unobserve` (remove an element). A `useEffect` cleanup tears everything down on unmount.

The model has four modules:

- `Wrappers` (wrappers.dfy): `Option`, for the nullable refs.
- `Seqs` (seqs.dfy): the element set of a list, duplicate-freedom, subsequences, and
  `Without`, the model of `cache.filter(n => n !== node)`.
- `Browser` (browser.dfy): the browser API the hook calls. `Element` is an element
  reference together with whether it is an `HTMLElement`, so `IsHTML` plays the part of
  `node instanceof HTMLElement`. `Config` is `IntersectionObserverInit`, left opaque. A
  `Handle` models one `IntersectionObserver`: its options, its set of targets, and whether
  it is connected. A `World` holds the handles created so far, indexed by a
  `WatcherId`, plus an ordered log of every `new`/`observe`/`unobserve`/`disconnect`
  call. The functions `Construct`, `ObserveOn`, `UnobserveOn` and `DisconnectOn` are
  those four calls.
- `Manager` (manager.dfy): the manager's abstract `State` and one step function per
  operation (`Observed`, `Unobserved`, `Updated`, `TornDown`). Their contracts state what
  each operation guarantees. `Inv` is the invariant every operation keeps. `Live`
  strengthens it outside teardown, requiring the current observer to be connected. The
  class `ObservationManager` has the fields `cache`, `options`, `current` and `world`. Its
  methods perform the steps of the callbacks in `useIntersectionObserver.ts`, in the same order; `Update` re-registers the
  cached nodes with a loop, as the `forEach` does. Each method is proved to end in the
  state its step function gives.

`Inv` says the following:

- The cache holds distinct `HTMLElement`s.
- Before the first observer is created, there are no observers and the cache is empty.
- After that, the current observer is the newest one, and its targets are exactly the
  cached elements. It is connected whenever the cache is non-empty.
- Every older observer is disconnected and has no targets.

## Model

| member | source | states |
|---|---|---|
| `Seqs.Without` | src/useIntersectionObserver.ts:53-55 | the filtered list keeps every entry other than the node, in its original order (a subsequence whose multiset is the old one with the node's count set to zero); a node that is absent leaves the list unchanged |
| `Seqs.WithoutElems` | src/useIntersectionObserver.ts:53-55 | after filtering, the node is gone and the element set is the old set minus the node |
| `Seqs.WithoutNoDup` | src/useIntersectionObserver.ts:53-55 | filtering a duplicate-free list leaves it duplicate-free |
| `Seqs.ElemsPush` | src/useIntersectionObserver.ts:37-42 | pushing a node that is not in the list keeps the list duplicate-free and adds exactly that node to its element set |
| `Browser.ObserveAll` | src/useIntersectionObserver.ts:20 | the forEach over the cache adds every cached node to the new observer's targets and connects it if any node was added; it touches no other observer and makes exactly one observe call per node, in cache order |
| `Manager.Observed` | src/useIntersectionObserver.ts:31-44 | keeps `Inv` and `Live`; creates an observer with the cached options exactly when there is none, otherwise keeps the current one; the cache only grows by at most one entry, gaining the node exactly when it is an HTMLElement; no existing observer changes its options, and every observer other than the current one is untouched; when an observer exists and the node is cached or not an HTMLElement, nothing in the browser changes; logs `new` only on lazy creation and `observe(node)` only when the node was new and an HTMLElement |
| `Manager.Unobserved` | src/useIntersectionObserver.ts:52-57 | keeps `Inv` and `Live`; never creates an observer and keeps the current one and the options; the cache loses every occurrence of the node, keeping the order of the rest, and is unchanged when the node is absent; no observer changes its options or its connected flag, and every observer other than the current one is untouched; logs at most one `unobserve` on the current observer |
| `Manager.Updated` | src/useIntersectionObserver.ts:16-23 | establishes `Live`; installs a fresh observer, distinct from every earlier one, built with the new options, connected, and targeting exactly the cached elements; the old observer ends released; the cache is unchanged and the options are the new ones; the calls are `new`, then `disconnect` of the old observer, then one `observe` per cached node in order |
| `Manager.TornDown` | src/useIntersectionObserver.ts:62-66 | keeps `Inv`; empties the cache, nulls the options, leaves `current` unchanged and every observer released; creates no observer, keeps every observer's options and leaves every observer but the current one untouched; the only call it makes is one `disconnect` of the current observer, and none when there is no observer yet |
| `Manager.Step` | src/useIntersectionObserver.ts:15-68 | any one of the four operations keeps `Inv` |
| `Manager.Run` | src/useIntersectionObserver.ts:15-68 | any sequence of operations keeps `Inv`, so every state reachable from mount satisfies it |
| `Manager.AtMostOneConnected` | src/useIntersectionObserver.ts:17-21 | in any state satisfying `Inv`, only the current observer can be connected |
| `Manager.ObserveIdempotent` | src/useIntersectionObserver.ts:37-43 | observing a node twice in a row leaves everything, call log included, as the first call left it, so the second call registers nothing |
| `Manager.UnobserveIdempotent` | src/useIntersectionObserver.ts:53-56 | unobserving a node a second time leaves the cache and every observer's targets as they were |
| `Manager.NoObserverWithoutObserveOrUpdate` | src/useIntersectionObserver.ts:51-66 | with no observer yet, any run of unobserves and teardowns creates no observer and makes no API call |
| `Manager.ObserveTwiceAfterMount` | src/useIntersectionObserver.ts:30-46 | mount, then observe the same HTML element twice: exactly one observer is built, with the mount options, and the element is observed on it once |
| `Manager.UpdateAfterTwoObserves` | src/useIntersectionObserver.ts:15-46 | mount, observe `a` and `b`, then update: the current observer is a second one, built with the new options, targeting `a` and `b`; the first one is released |
| `Manager.UnobserveAfterObserve` | src/useIntersectionObserver.ts:30-57 | mount, observe `a`, unobserve `a`: the observer remains but no longer targets `a` |
| `Manager.ObservationManager.constructor` | src/useIntersectionObserver.ts:7-9 | the refs start as the mount options, no observer and an empty cache |
| `Manager.ObservationManager.ObserveCached` | src/useIntersectionObserver.ts:20 | the loop leaves the world exactly as `ObserveAll` over the cache describes |
| `Manager.ObservationManager.Update` | src/useIntersectionObserver.ts:16-23 | the new state is `Updated` of the old, so it is `Live` |
| `Manager.ObservationManager.Observe` | src/useIntersectionObserver.ts:31-44 | the new state is `Observed` of the old; keeps `Inv`, and `Live` if it held |
| `Manager.ObservationManager.Unobserve` | src/useIntersectionObserver.ts:52-57 | the new state is `Unobserved` of the old; keeps `Inv`, and `Live` if it held |
| `Manager.ObservationManager.Teardown` | src/useIntersectionObserver.ts:62-66 | the new state is `TornDown` of the old; keeps `Inv` |

## Teardown and later calls

- The cleanup (lines 62-66) does not clear `observer.current`. A later `observe` therefore
  reuses the disconnected observer and builds no new one, because the test `!observer.current`
  at line 32 is false. `TornDown` keeps `current`, so `Inv` holds after teardown but `Live`
  does not.
- A later `observe` of an HTML element registers it again on that observer. Following the
  W3C Intersection Observer specification, where `disconnect()` only empties the target
  list, `ObserveOn` marks the observer connected again.
- After teardown the cached options are null. An `observe` that has to create the first
  observer then passes null; the model records this as a handle whose `config` is `None`.

## Left out

- React machinery is not modelled: `useRef`, the `useCallback` dependency arrays and the
  memoised identity of the returned functions, and when `useEffect` runs its cleanup. The
  refs are fields, and the cleanup is an explicit `Teardown` method.
- The `callback` argument is only forwarded to every `new IntersectionObserver`. The model
  does not carry it, and it does not model notification delivery, the entry payload, or
  geometry and thresholds. "Delivers nothing" is modelled as a released handle: one that
  is disconnected and has no targets.
- `IntersectionObserverInit` is the opaque type `Config`. `instanceof HTMLElement` is a flag
  carried by each element reference. A `null` ref passed by React is an element whose
  flag is false.
- The world holds only the observers this manager creates. Observers belonging to other
  hooks on the page are not modelled.
- Exceptions thrown by the `IntersectionObserver` constructor are not modelled. In the
  source, `update` changes no ref before construction succeeds (lines 17-18).
- The optional chains `observer.current?.observe` and `?.unobserve` are modelled only
  where `current` can be null. Inside `observe`, lazy creation has already made it
  non-null.
