/**
 * The observation manager behind `useIntersectionObserver`: the three refs
 * it keeps across renders (`cachedOptions`, `observer`, `observableCache`)
 * and its four operations (`update`, `observe`, `unobserve` and the unmount
 * cleanup). Each operation is specified by a step function on the
 * manager's abstract `State`; the class `ObservationManager` implements
 * the operations on mutable fields and is proved to follow the step
 * functions.
 */
module Manager {
  import opened Wrappers
  import opened Seqs
  import opened Browser

  /**
   * `cache` is `observableCache.current`, `options` is
   * `cachedOptions.current` (`None` once it has been set to null),
   * `current` is `observer.current`, and `world` holds the observers this
   * manager has created.
   */
  datatype State = State(
    cache: seq<Element>,
    options: Option<Config>,
    current: Option<WatcherId>,
    world: World)

  /** The refs right after the hook is first called with `options`. */
  function Initial(options: Config): State {
    State([], Some(options), None, NoWatchers)
  }

  /**
   * The invariant kept by every operation, teardown included:
   * the cache holds distinct HTML elements; no observer and no cached node
   * exist before the first observer is created, and afterwards the current
   * observer is the newest, its targets are exactly the cached elements and
   * it is connected whenever the cache is not empty; every older observer
   * is released.
   */
  ghost predicate Inv(s: State) {
    && NoDup(s.cache)
    && (forall e :: e in s.cache ==> IsHTML(e))
    && (match s.current
        case None => s.world.handles == [] && s.cache == []
        case Some(id) =>
          && id + 1 == |s.world.handles|
          && s.world.handles[id].targets == Elems(s.cache)
          && (s.cache != [] ==> s.world.handles[id].connected))
    && (forall k :: 0 <= k < |s.world.handles| && s.current != Some(k) ==> Released(s.world.handles[k]))
  }

  /** Outside teardown, the current observer (if any) is also connected. */
  ghost predicate Live(s: State) {
    Inv(s) && (s.current.Some? ==> s.world.handles[s.current.value].connected)
  }

  /**
   * `observe(node)`: create an observer with the cached options if there is
   * none; then, when `node` is not cached yet and is an `HTMLElement`,
   * observe it and append it to the cache.
   */
  function Observed(s: State, n: Element): (r: State)
    requires Inv(s)
    ensures Inv(r)
    ensures Live(s) || IsHTML(n) ==> Live(r)
    ensures r.options == s.options && r.current.Some?
    ensures s.current.Some? ==> r.current == s.current && |r.world.handles| == |s.world.handles|
    ensures s.current.None? ==> r.current == Some(0) && |r.world.handles| == 1
                                && r.world.handles[0].config == s.options
    ensures s.cache <= r.cache && |r.cache| <= |s.cache| + 1
    ensures Elems(r.cache) == Elems(s.cache) + (if IsHTML(n) then {n} else {})
    ensures forall k :: 0 <= k < |s.world.handles| ==> r.world.handles[k].config == s.world.handles[k].config
    ensures forall k :: 0 <= k < |s.world.handles| && s.current != Some(k) ==> r.world.handles[k] == s.world.handles[k]
    ensures s.current.Some? && (n in s.cache || !IsHTML(n)) ==> r.world == s.world
    ensures r.world.calls == s.world.calls
                             + (if s.current.None? then [New(s.options)] else [])
                             + (if n in s.cache || !IsHTML(n) then [] else [Observe(r.current.value, n)])
  {
    var s1 :=
      if s.current.None? then s.(current := Some(NextId(s.world)), world := Construct(s.world, s.options))
      else s;
    if n !in s1.cache && IsHTML(n) then
      ElemsPush(s1.cache, n);
      s1.(world := ObserveOn(s1.world, s1.current.value, n), cache := s1.cache + [n])
    else
      s1
  }

  /**
   * `unobserve(node)`: drop `node` from the cache and, for an
   * `HTMLElement`, unobserve it on the current observer if there is one.
   */
  function Unobserved(s: State, n: Element): (r: State)
    requires Inv(s)
    ensures Inv(r)
    ensures Live(s) ==> Live(r)
    ensures r.options == s.options && r.current == s.current
    ensures |r.world.handles| == |s.world.handles|
    ensures forall k :: 0 <= k < |s.world.handles| ==>
              r.world.handles[k].config == s.world.handles[k].config
              && r.world.handles[k].connected == s.world.handles[k].connected
    ensures forall k :: 0 <= k < |s.world.handles| && s.current != Some(k) ==> r.world.handles[k] == s.world.handles[k]
    ensures IsSubseq(r.cache, s.cache) && multiset(r.cache) == multiset(s.cache)[n := 0]
    ensures Elems(r.cache) == Elems(s.cache) - {n}
    ensures n !in s.cache ==> r.cache == s.cache
    ensures r.world.calls == s.world.calls
                             + (if IsHTML(n) && s.current.Some? then [Unobserve(s.current.value, n)] else [])
  {
    WithoutElems(s.cache, n);
    WithoutNoDup(s.cache, n);
    assert forall e :: e in Without(s.cache, n) ==> e in Elems(Without(s.cache, n));
    s.(cache := Without(s.cache, n),
       world := if IsHTML(n) && s.current.Some? then UnobserveOn(s.world, s.current.value, n) else s.world)
  }

  /**
   * `update(options)`: build a new observer with `options`, disconnect the
   * old one, observe every cached node on the new one, and make it current.
   */
  function Updated(s: State, options: Config): (r: State)
    requires Inv(s)
    ensures Live(r)
    ensures r.cache == s.cache && r.options == Some(options)
    ensures r.current == Some(|s.world.handles|) && |r.world.handles| == |s.world.handles| + 1
    ensures r.world.handles[|s.world.handles|] == Handle(Some(options), Elems(s.cache), true)
    ensures s.current.Some? ==> Released(r.world.handles[s.current.value])
    ensures forall k :: 0 <= k < |s.world.handles| ==> r.world.handles[k].config == s.world.handles[k].config
    ensures var old_ := if s.current.Some? then [Disconnect(s.current.value)] else [];
            var m := |s.world.calls| + 1 + |old_|;
            && |r.world.calls| == m + |s.cache|
            && r.world.calls[..m] == s.world.calls + [New(Some(options))] + old_
            && forall i :: 0 <= i < |s.cache| ==> r.world.calls[m + i] == Observe(|s.world.handles|, s.cache[i])
  {
    var id := NextId(s.world);
    var w1 := Construct(s.world, Some(options));
    var w2 := if s.current.Some? then DisconnectOn(w1, s.current.value) else w1;
    State(s.cache, Some(options), Some(id), ObserveAll(w2, id, s.cache))
  }

  /**
   * The unmount cleanup: empty the cache, null the cached options and
   * disconnect the current observer. `observer.current` keeps its value.
   */
  function TornDown(s: State): (r: State)
    requires Inv(s)
    ensures Inv(r)
    ensures r.cache == [] && r.options == None && r.current == s.current
    ensures |r.world.handles| == |s.world.handles|
    ensures forall k :: 0 <= k < |r.world.handles| ==> Released(r.world.handles[k])
    ensures forall k :: 0 <= k < |s.world.handles| ==> r.world.handles[k].config == s.world.handles[k].config
    ensures forall k :: 0 <= k < |s.world.handles| && s.current != Some(k) ==> r.world.handles[k] == s.world.handles[k]
    ensures r.world.calls == s.world.calls + (if s.current.Some? then [Disconnect(s.current.value)] else [])
  {
    State([], None, s.current,
          if s.current.Some? then DisconnectOn(s.world, s.current.value) else s.world)
  }

  /** One call the host makes on the hook's surface. */
  datatype Op =
    | UpdateOp(options: Config)
    | ObserveOp(node: Element)
    | UnobserveOp(node: Element)
    | CleanupOp

  function Step(s: State, op: Op): (r: State)
    requires Inv(s)
    ensures Inv(r)
  {
    match op
    case UpdateOp(o) => Updated(s, o)
    case ObserveOp(n) => Observed(s, n)
    case UnobserveOp(n) => Unobserved(s, n)
    case CleanupOp => TornDown(s)
  }

  /** The state after the host makes the calls `ops` in order. */
  function Run(s: State, ops: seq<Op>): (r: State)
    requires Inv(s)
    ensures Inv(r)
    decreases |ops|
  {
    if ops == [] then s else Run(Step(s, ops[0]), ops[1..])
  }

  /** At most one observer can deliver notifications at any time. */
  lemma AtMostOneConnected(s: State, j: WatcherId, k: WatcherId)
    requires Inv(s)
    requires j < |s.world.handles| && k < |s.world.handles|
    requires s.world.handles[j].connected && s.world.handles[k].connected
    ensures j == k && s.current == Some(j)
  {
  }

  /**
   * Observing the same node twice leaves everything as the first call left
   * it: the cache, every observer, and the call log, so the node is
   * registered with an observer at most once.
   */
  lemma ObserveIdempotent(s: State, n: Element)
    requires Inv(s)
    ensures Observed(Observed(s, n), n) == Observed(s, n)
  {
  }

  /**
   * Unobserving the same node twice leaves the cache and every observer's
   * targets as the first call left them.
   */
  lemma UnobserveIdempotent(s: State, n: Element)
    requires Inv(s)
    ensures Unobserved(Unobserved(s, n), n).cache == Unobserved(s, n).cache
    ensures Unobserved(Unobserved(s, n), n).world.handles == Unobserved(s, n).world.handles
  {
  }

  /**
   * Calls that never observe and never update create no observer and make
   * no call on the API: an unobserve before any observe, or a teardown
   * right after mount, leaves the browser untouched.
   */
  lemma {:induction false} NoObserverWithoutObserveOrUpdate(s: State, ops: seq<Op>)
    requires Inv(s) && s.current.None?
    requires forall i :: 0 <= i < |ops| ==> ops[i].UnobserveOp? || ops[i].CleanupOp?
    ensures Run(s, ops).world == s.world && Run(s, ops).current.None?
    decreases |ops|
  {
    if ops != [] {
      NoObserverWithoutObserveOrUpdate(Step(s, ops[0]), ops[1..]);
    }
  }

  /**
   * Mount with `options`, observe node `a` twice: exactly one observer has
   * been built, with `options`, and `a` has been observed on it once.
   */
  lemma ObserveTwiceAfterMount(options: Config, a: Element)
    requires IsHTML(a)
    ensures var r := Observed(Observed(Initial(options), a), a);
            r.world.calls == [New(Some(options)), Observe(0, a)] && r.cache == [a]
  {
  }

  /**
   * Mount, observe `a` and `b`, update to `options2`: the current observer
   * is a second one, built with `options2`, targeting `a` and `b`; the
   * first is released.
   */
  lemma UpdateAfterTwoObserves(options: Config, a: Element, b: Element, options2: Config)
    requires IsHTML(a) && IsHTML(b)
    ensures var r := Updated(Observed(Observed(Initial(options), a), b), options2);
            && r.current == Some(1) && r.cache == (if a == b then [a] else [a, b])
            && r.world.handles[1] == Handle(Some(options2), {a, b}, true)
            && Released(r.world.handles[0])
  {
    var s1 := Observed(Initial(options), a);
    var s2 := Observed(s1, b);
    assert Elems(s2.cache) == {a, b};
  }

  /**
   * Mount, observe `a`, unobserve `a`: the observer stays, but it no longer
   * targets `a`, so it delivers nothing for it.
   */
  lemma UnobserveAfterObserve(options: Config, a: Element)
    requires IsHTML(a)
    ensures var r := Unobserved(Observed(Initial(options), a), a);
            r.current == Some(0) && r.cache == [] && r.world.handles[0].targets == {}
  {
  }

  /**
   * The hook's refs together with the observers it has created. Each
   * method performs the steps of the corresponding callback in
   * `useIntersectionObserver.ts`, in the same order, on the fields and ends
   * in the state its step function gives.
   */
  class ObservationManager {
    var cache: seq<Element>
    var options: Option<Config>
    var current: Option<WatcherId>
    var world: World

    function Abs(): State
      reads this
    {
      State(cache, options, current, world)
    }

    ghost predicate Valid()
      reads this
    {
      Inv(Abs())
    }

    /** The first render: `useRef(options)`, `useRef(null)`, `useRef([])`. */
    constructor (initial: Config)
      ensures Valid() && Abs() == Initial(initial)
    {
      cache := [];
      options := Some(initial);
      current := None;
      world := NoWatchers;
    }

    method Update(newOptions: Config)
      requires Valid()
      modifies this
      ensures Abs() == Updated(old(Abs()), newOptions)
      ensures Valid() && Live(Abs())
    {
      ghost var start := Abs();
      var oldObserver := current;
      var newObserver := NextId(world);
      world := Construct(world, Some(newOptions));
      if oldObserver.Some? {
        world := DisconnectOn(world, oldObserver.value);
      }
      ObserveCached(newObserver);
      current := Some(newObserver);
      options := Some(newOptions);
      assert Abs() == Updated(start, newOptions);
    }

    /** `observableCache.current.forEach((node) => newObserver.observe(node))` */
    method ObserveCached(id: WatcherId)
      requires id < |world.handles|
      modifies this`world
      ensures world == ObserveAll(old(world), id, cache)
    {
      ghost var before := world;
      var i := 0;
      while i < |cache|
        invariant 0 <= i <= |cache|
        invariant world == ObserveAll(before, id, cache[..i])
      {
        assert cache[..i + 1][..i] == cache[..i];
        world := ObserveOn(world, id, cache[i]);
        i := i + 1;
      }
      assert cache[..|cache|] == cache;
    }

    method Observe(node: Element)
      requires Valid()
      modifies this
      ensures Abs() == Observed(old(Abs()), node)
      ensures Valid() && (old(Live(Abs())) ==> Live(Abs()))
    {
      if current.None? {
        current := Some(NextId(world));
        world := Construct(world, options);
      }
      if node !in cache && IsHTML(node) {
        world := ObserveOn(world, current.value, node);
        cache := cache + [node];
      }
    }

    method Unobserve(node: Element)
      requires Valid()
      modifies this
      ensures Abs() == Unobserved(old(Abs()), node)
      ensures Valid() && (old(Live(Abs())) ==> Live(Abs()))
    {
      cache := Without(cache, node);
      if IsHTML(node) && current.Some? {
        world := UnobserveOn(world, current.value, node);
      }
    }

    /** The function returned by the `useEffect` callback, run on unmount. */
    method Teardown()
      requires Valid()
      modifies this
      ensures Abs() == TornDown(old(Abs()))
      ensures Valid()
    {
      cache := [];
      options := None;
      if current.Some? {
        world := DisconnectOn(world, current.value);
      }
    }
  }
}
