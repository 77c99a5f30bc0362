/**
 * The part of the browser the hook talks to: DOM element references and
 * the `IntersectionObserver` handles it creates. A handle is modelled by
 * what the hook relies on: the options it was built with, the set of
 * targets registered with it, and whether it can still deliver
 * notifications. Every call the hook makes on the API is also recorded,
 * in order, in a call log.
 */
module Browser {
  import opened Wrappers
  import opened Seqs

  /**
   * An element reference. Equality is reference identity; `html` records
   * whether the referenced node is an instance of `HTMLElement` (a `null`
   * ref, an SVG node or a text node is not).
   */
  datatype Element = Element(ref: nat, html: bool)

  /** `node instanceof HTMLElement` */
  predicate IsHTML(e: Element) {
    e.html
  }

  /** `IntersectionObserverInit`, never inspected by the hook. */
  type Config

  /** The identity of an `IntersectionObserver` instance: its creation index. */
  type WatcherId = nat

  /**
   * One `IntersectionObserver`. `config` is `None` when it was built with
   * a null options argument.
   */
  datatype Handle = Handle(config: Option<Config>, targets: set<Element>, connected: bool)

  /** A handle that delivers nothing any more: disconnected, no targets. */
  predicate Released(h: Handle) {
    !h.connected && h.targets == {}
  }

  /** One call the hook makes on the API. */
  datatype Call =
    | New(config: Option<Config>)
    | Observe(id: WatcherId, target: Element)
    | Unobserve(id: WatcherId, target: Element)
    | Disconnect(id: WatcherId)

  /** The handles created so far, indexed by id, and the calls made on them. */
  datatype World = World(handles: seq<Handle>, calls: seq<Call>)

  const NoWatchers := World([], [])

  /** The id `new IntersectionObserver(...)` hands out next. */
  function NextId(w: World): WatcherId {
    |w.handles|
  }

  /** `new IntersectionObserver(callback, config)`: a fresh, live handle with no targets. */
  function Construct(w: World, config: Option<Config>): World {
    World(w.handles + [Handle(config, {}, true)], w.calls + [New(config)])
  }

  /**
   * `observer.observe(e)`: `e` becomes a target. Adding a target to a
   * disconnected observer makes it deliver again.
   */
  function ObserveOn(w: World, id: WatcherId, e: Element): World
    requires id < |w.handles|
  {
    var h := w.handles[id];
    World(w.handles[id := h.(targets := h.targets + {e}, connected := true)],
          w.calls + [Observe(id, e)])
  }

  /** `observer.unobserve(e)`: `e` stops being a target. */
  function UnobserveOn(w: World, id: WatcherId, e: Element): World
    requires id < |w.handles|
  {
    var h := w.handles[id];
    World(w.handles[id := h.(targets := h.targets - {e})], w.calls + [Unobserve(id, e)])
  }

  /** `observer.disconnect()`: all targets dropped, no further delivery. */
  function DisconnectOn(w: World, id: WatcherId): World
    requires id < |w.handles|
  {
    World(w.handles[id := w.handles[id].(targets := {}, connected := false)],
          w.calls + [Disconnect(id)])
  }

  /**
   * `nodes.forEach(node => observer.observe(node))`: the handle gains every
   * node as a target, one `observe` call per node in list order, and no
   * other handle is touched.
   */
  function ObserveAll(w: World, id: WatcherId, nodes: seq<Element>): (r: World)
    requires id < |w.handles|
    ensures |r.handles| == |w.handles|
    ensures r.handles[id].config == w.handles[id].config
    ensures r.handles[id].targets == w.handles[id].targets + Elems(nodes)
    ensures r.handles[id].connected == (w.handles[id].connected || nodes != [])
    ensures forall k :: 0 <= k < |w.handles| && k != id ==> r.handles[k] == w.handles[k]
    ensures |r.calls| == |w.calls| + |nodes| && r.calls[..|w.calls|] == w.calls
    ensures forall i :: 0 <= i < |nodes| ==> r.calls[|w.calls| + i] == Observe(id, nodes[i])
    decreases |nodes|
  {
    if nodes == [] then w
    else
      var init := nodes[..|nodes| - 1];
      assert nodes == init + [nodes[|nodes| - 1]];
      assert Elems(nodes) == Elems(init) + {nodes[|nodes| - 1]};
      ObserveOn(ObserveAll(w, id, init), id, nodes[|nodes| - 1])
  }
}
