/**
 * Properties of the promise engine, stated over the reference semantics in PromiseSpec.
 *
 * Most lemmas give the exact world an operation produces when the nodes it
 * reaches carry the default (no-op) slots, so that they compose: building a
 * chain, then settling its root, is a sequence of such rewrites.
 */
module PromiseProperties {
  import opened PromiseSpec

  /** The log entry the finally slot produces when it is invoked. */
  function FinallyEvents(s: FinallySlot): (r: seq<Event>) {
    if s.FinallyBlock? then [FinallyRan(s.tag)] else []
  }

  /** The world after node `id` took the settled form `x` and its finally block (if any) ran. */
  function Settled(w: World, id: NodeId, x: Node): (r: World)
    requires id < |w.nodes|
  {
    World(w.nodes[id := x], w.log + FinallyEvents(x.onFinally))
  }

  /** The root trigger a child of `id` inherits: `id`'s own one, or `id.start` if it has none. */
  function Trigger(w: World, id: NodeId): (r: Option<NodeId>)
    requires id < |w.nodes|
  {
    if w.nodes[id].initialStart.Some? then w.nodes[id].initialStart else Some(id)
  }

  /** A child of `id` built by a chain operation, once started and handed the root trigger. */
  function Child(w: World, id: NodeId, o: Origin): (r: Node)
    requires id < |w.nodes|
  {
    Fresh(o).(promiseStarted := true, initialStart := Trigger(w, id), initialStarted := w.nodes[id].initialStarted)
  }

  // ---------------------------------------------------------------------------
  // Settlement (Source/Promise.swift:211-223)
  // ---------------------------------------------------------------------------

  /** Resolving a node with no success reaction: state and value change, error and progress do not, then finally runs. */
  lemma ResolveLeaf(w: World, id: NodeId, v: int, fuel: nat)
    requires Valid(w) && id < |w.nodes| && fuel >= 1 && w.nodes[id].onSuccess.NoSuccess?
    ensures Resolve(w, id, v, fuel) == Settled(w, id, w.nodes[id].(state := Fulfilled, value := Some(v)))
  {
  }

  /** Rejecting a node with no failure reaction: state and error change, value and progress do not, then finally runs. */
  lemma RejectLeaf(w: World, id: NodeId, e: Error, fuel: nat)
    requires Valid(w) && id < |w.nodes| && fuel >= 1 && w.nodes[id].onFail.NoFailure?
    ensures Reject(w, id, e, fuel) == Settled(w, id, w.nodes[id].(state := Rejected, error := Some(e)))
  {
  }

  // ---------------------------------------------------------------------------
  // Map-style then (Source/Promise.swift:66-83, 198-202)
  // ---------------------------------------------------------------------------

  /** Handing the root trigger of `base[id]` to the node just appended after `base`. */
  lemma PassAlongAppended(d: World, base: seq<Node>, id: NodeId, x: Node)
    requires Valid(d) && id < |base| && d.nodes == base + [x]
    ensures PassAlong(d, id, |base|) ==
            World(base + [x.(initialStart := if base[id].initialStart.Some? then base[id].initialStart else Some(id),
                             initialStarted := base[id].initialStarted)], d.log)
  {
    var r := PassAlong(d, id, |base|);
    assert r.nodes == base + [x.(initialStart := r.nodes[|base|].initialStart, initialStarted := base[id].initialStarted)];
  }

  /** Handing the root trigger to a child just appended after a dispatcher changed only the parent's slots. */
  lemma PassAlongToChild(w: World, d: World, id: NodeId, y: Node, x: Node)
    requires Valid(w) && Valid(d) && id < |w.nodes|
    requires d.nodes == w.nodes[id := y] + [x]
    requires y.initialStart == w.nodes[id].initialStart
    ensures PassAlong(d, id, |w.nodes|) ==
            World(w.nodes[id := y] + [x.(initialStart := Trigger(w, id), initialStarted := y.initialStarted)], d.log)
  {
    var r := PassAlong(d, id, |w.nodes|);
    assert r.nodes == w.nodes[id := y] + [x.(initialStart := Trigger(w, id), initialStarted := y.initialStarted)];
  }

  /** `registerThen(block)` appends the child, starts it, and hands it the root trigger. */
  lemma RegisterThenUnfold(w: World, id: NodeId, blk: MapBlock, fuel: nat)
    requires Valid(w) && id < |w.nodes| && MapBlockOk(blk, |w.nodes|) && fuel >= 1
    ensures var w2 := StartedChild(w, MapOf(id, blk));
            RegisterThen(w, id, blk, fuel) ==
            (PassAlong(DispatchMap(w2, id, |w.nodes|, blk, fuel - 1), id, |w.nodes|), |w.nodes|)
  {
    var w1 := Append(w, Fresh(MapOf(id, blk)));
    assert Start(w1, |w.nodes|, fuel) == Launch(StartedChild(w, MapOf(id, blk)), |w.nodes|, fuel - 1);
    assert Start(w1, |w.nodes|, fuel) == DispatchMap(StartedChild(w, MapOf(id, blk)), id, |w.nodes|, blk, fuel - 1);
  }

  /** Map over a Fulfilled parent: the child is Fulfilled with `f(value)` and the block's run is logged. */
  lemma RegisterThenFulfilled(w: World, id: NodeId, f: int -> int, fuel: nat)
    requires Valid(w) && id < |w.nodes| && fuel >= 2 && w.nodes[id].state == Fulfilled
    ensures var c := |w.nodes|;
            var pn := w.nodes[id];
            RegisterThen(w, id, Transform(f), fuel) ==
            (World(w.nodes[id := pn.(onProgress := ForwardProgress(c))]
                     + [Child(w, id, MapOf(id, Transform(f))).(state := Fulfilled, value := Some(f(pn.value.value)))],
                   w.log + [Started(c), BlockRan(c)]), c)
  {
    var c := |w.nodes|;
    var pn := w.nodes[id];
    var blk := Transform(f);
    RegisterThenUnfold(w, id, blk, fuel);
    var w2 := StartedChild(w, MapOf(id, blk));
    var a := ApplyMap(w2, c, blk, pn.value.value, fuel - 1);
    assert a == (Emit(w2, BlockRan(c)), f(pn.value.value));
    ResolveLeaf(a.0, c, f(pn.value.value), fuel - 1);
    var w3 := Resolve(a.0, c, a.1, fuel - 1);
    var d := DispatchMap(w2, id, c, blk, fuel - 1);
    assert d == SetNode(w3, id, w3.nodes[id].(onProgress := ForwardProgress(c)));
    assert d.nodes == w.nodes[id := pn.(onProgress := ForwardProgress(c))]
                     + [Fresh(MapOf(id, blk)).(promiseStarted := true, state := Fulfilled, value := Some(f(pn.value.value)))];
    PassAlongToChild(w, d, id, pn.(onProgress := ForwardProgress(c)),
                     Fresh(MapOf(id, blk)).(promiseStarted := true, state := Fulfilled, value := Some(f(pn.value.value))));
    assert d.log == w.log + [Started(c), BlockRan(c)];
  }

  /** Map over a Rejected parent: the child is Rejected with the same error and the block never runs. */
  lemma RegisterThenRejected(w: World, id: NodeId, f: int -> int, fuel: nat)
    requires Valid(w) && id < |w.nodes| && fuel >= 2 && w.nodes[id].state == Rejected
    ensures var c := |w.nodes|;
            var pn := w.nodes[id];
            RegisterThen(w, id, Transform(f), fuel) ==
            (World(w.nodes[id := pn.(onProgress := ForwardProgress(c))]
                     + [Child(w, id, MapOf(id, Transform(f))).(state := Rejected, error := pn.error)],
                   w.log + [Started(c)]), c)
  {
    var c := |w.nodes|;
    var pn := w.nodes[id];
    var blk := Transform(f);
    RegisterThenUnfold(w, id, blk, fuel);
    var w2 := StartedChild(w, MapOf(id, blk));
    RejectLeaf(w2, c, pn.error.value, fuel - 1);
    var w3 := Reject(w2, c, pn.error.value, fuel - 1);
    var d := DispatchMap(w2, id, c, blk, fuel - 1);
    assert d == SetNode(w3, id, w3.nodes[id].(onProgress := ForwardProgress(c)));
    assert d.nodes == w.nodes[id := pn.(onProgress := ForwardProgress(c))]
                     + [Fresh(MapOf(id, blk)).(promiseStarted := true, state := Rejected, error := pn.error)];
    PassAlongToChild(w, d, id, pn.(onProgress := ForwardProgress(c)), Fresh(MapOf(id, blk)).(promiseStarted := true, state := Rejected, error := pn.error));
  }

  /** Map over a Pending parent: the parent's slots resolve and reject the child, which stays Pending. */
  lemma RegisterThenPending(w: World, id: NodeId, f: int -> int, fuel: nat)
    requires Valid(w) && id < |w.nodes| && fuel >= 2 && w.nodes[id].state == Pending
    ensures var c := |w.nodes|;
            var pn := w.nodes[id];
            RegisterThen(w, id, Transform(f), fuel) ==
            (World(w.nodes[id := pn.(onSuccess := ResolveChild(c, Transform(f)), onFail := RejectChild(c),
                                     onProgress := ForwardProgress(c))]
                     + [Child(w, id, MapOf(id, Transform(f)))],
                   w.log + [Started(c)]), c)
  {
    var c := |w.nodes|;
    var pn := w.nodes[id];
    var blk := Transform(f);
    RegisterThenUnfold(w, id, blk, fuel);
    var w2 := StartedChild(w, MapOf(id, blk));
    var d := DispatchMap(w2, id, c, blk, fuel - 1);
    assert d.nodes == w.nodes[id := pn.(onSuccess := ResolveChild(c, blk), onFail := RejectChild(c),
                                        onProgress := ForwardProgress(c))]
                     + [Fresh(MapOf(id, blk)).(promiseStarted := true)];
    PassAlongToChild(w, d, id, pn.(onSuccess := ResolveChild(c, blk), onFail := RejectChild(c),
                                        onProgress := ForwardProgress(c)), Fresh(MapOf(id, blk)).(promiseStarted := true));
  }

  /**
   * `registerThen(block)` on a node in each of its three states: a Fulfilled parent
   * resolves the child with `f(value)`; a Rejected one rejects it with the same
   * error and never calls `f`; a Pending one gets the child's reactions installed.
   * In every case the parent's progress slot forwards to the child.
   */
  lemma RegisterThenOutcome(w: World, id: NodeId, f: int -> int, fuel: nat)
    requires Valid(w) && id < |w.nodes| && fuel >= 2
    ensures var r := RegisterThen(w, id, Transform(f), fuel);
            var c := |w.nodes|;
            var pn := w.nodes[id];
            var ch := Child(w, id, MapOf(id, Transform(f)));
            r.1 == c &&
            (pn.state == Fulfilled ==>
              r.0 == World(w.nodes[id := pn.(onProgress := ForwardProgress(c))]
                             + [ch.(state := Fulfilled, value := Some(f(pn.value.value)))],
                           w.log + [Started(c), BlockRan(c)])) &&
            (pn.state == Rejected ==>
              r.0 == World(w.nodes[id := pn.(onProgress := ForwardProgress(c))]
                             + [ch.(state := Rejected, error := pn.error)],
                           w.log + [Started(c)])) &&
            (pn.state == Pending ==>
              r.0 == World(w.nodes[id := pn.(onSuccess := ResolveChild(c, Transform(f)), onFail := RejectChild(c),
                                             onProgress := ForwardProgress(c))]
                             + [ch],
                           w.log + [Started(c)]))
  {
    match w.nodes[id].state
    case Fulfilled => RegisterThenFulfilled(w, id, f, fuel);
    case Rejected => RegisterThenRejected(w, id, f, fuel);
    case Pending => RegisterThenPending(w, id, f, fuel);
  }

  /** A later `resolve(v)` on a parent whose success slot is the map reaction resolves the child with `f(v)`, before the parent's finally. */
  lemma ResolveThroughMap(w: World, id: NodeId, c: NodeId, f: int -> int, v: int, fuel: nat)
    requires Valid(w) && id < |w.nodes| && c < |w.nodes| && c != id && fuel >= 2
    requires w.nodes[id].onSuccess == ResolveChild(c, Transform(f)) && w.nodes[c].onSuccess.NoSuccess?
    ensures Resolve(w, id, v, fuel) ==
            World(w.nodes[id := w.nodes[id].(state := Fulfilled, value := Some(v))]
                         [c := w.nodes[c].(state := Fulfilled, value := Some(f(v)))],
                  w.log + [BlockRan(c)] + FinallyEvents(w.nodes[c].onFinally) + FinallyEvents(w.nodes[id].onFinally))
  {
    var w1 := SetNode(w, id, w.nodes[id].(state := Fulfilled, value := Some(v)));
    var a := ApplyMap(w1, c, Transform(f), v, fuel - 1);
    assert a == (Emit(w1, BlockRan(c)), f(v));
    ResolveLeaf(a.0, c, f(v), fuel - 1);
  }

  /** A later `reject(e)` on a parent whose failure slot forwards to the child rejects the child with the same `e`. */
  lemma RejectThroughForward(w: World, id: NodeId, c: NodeId, e: Error, fuel: nat)
    requires Valid(w) && id < |w.nodes| && c < |w.nodes| && c != id && fuel >= 2
    requires w.nodes[id].onFail == RejectChild(c) && w.nodes[c].onFail.NoFailure?
    ensures Reject(w, id, e, fuel) ==
            World(w.nodes[id := w.nodes[id].(state := Rejected, error := Some(e))]
                         [c := w.nodes[c].(state := Rejected, error := Some(e))],
                  w.log + FinallyEvents(w.nodes[c].onFinally) + FinallyEvents(w.nodes[id].onFinally))
  {
    var w1 := SetNode(w, id, w.nodes[id].(state := Rejected, error := Some(e)));
    RejectLeaf(w1, c, e, fuel - 1);
  }

  /**
   * Map over a Pending parent: once the chain is built, resolving the parent with `v`
   * fulfils the child with `f(v)`, and rejecting it with `e` rejects the child with `e`
   * without calling `f`.
   */
  lemma MapOnPendingParent(w: World, id: NodeId, f: int -> int, v: int, e: Error, fuel: nat)
    requires Valid(w) && id < |w.nodes| && fuel >= 2 && w.nodes[id].state == Pending
    ensures var r := RegisterThen(w, id, Transform(f), fuel);
            var ok := Resolve(r.0, id, v, fuel);
            var bad := Reject(r.0, id, e, fuel);
            ok.nodes[r.1].state == Fulfilled && ok.nodes[r.1].value == Some(f(v)) &&
            bad.nodes[r.1].state == Rejected && bad.nodes[r.1].error == Some(e) &&
            bad.log == r.0.log + FinallyEvents(w.nodes[id].onFinally)
  {
    RegisterThenOutcome(w, id, f, fuel);
    var r := RegisterThen(w, id, Transform(f), fuel);
    ResolveThroughMap(r.0, id, r.1, f, v, fuel);
    RejectThroughForward(r.0, id, r.1, e, fuel);
  }

  // ---------------------------------------------------------------------------
  // onError (Source/Promise.swift:131-154)
  // ---------------------------------------------------------------------------

  /** `registerOnError(block)` appends the child, starts it, and hands it the root trigger. */
  lemma RegisterOnErrorUnfold(w: World, id: NodeId, blk: RecoverBlock, fuel: nat)
    requires Valid(w) && id < |w.nodes| && RecoverBlockOk(blk, |w.nodes|) && fuel >= 1
    ensures var w2 := StartedChild(w, RecoverOf(id, blk));
            RegisterOnError(w, id, blk, fuel) ==
            (PassAlong(DispatchRecover(w2, id, |w.nodes|, blk, fuel - 1), id, |w.nodes|), |w.nodes|)
  {
    var w1 := Append(w, Fresh(RecoverOf(id, blk)));
    assert Start(w1, |w.nodes|, fuel) == Launch(StartedChild(w, RecoverOf(id, blk)), |w.nodes|, fuel - 1);
    assert Start(w1, |w.nodes|, fuel) == DispatchRecover(StartedChild(w, RecoverOf(id, blk)), id, |w.nodes|, blk, fuel - 1);
  }

  /** onError over a Fulfilled parent: the child is Rejected with the synthetic error; the value is dropped and `h` never runs. */
  lemma RegisterOnErrorFulfilled(w: World, id: NodeId, h: Error -> int, fuel: nat)
    requires Valid(w) && id < |w.nodes| && fuel >= 2 && w.nodes[id].state == Fulfilled
    ensures var c := |w.nodes|;
            var pn := w.nodes[id];
            RegisterOnError(w, id, Handle(h), fuel) ==
            (World(w.nodes[id := pn.(onProgress := ForwardProgress(c))]
                     + [Child(w, id, RecoverOf(id, Handle(h))).(state := Rejected, error := Some(Synthetic))],
                   w.log + [Started(c)]), c)
  {
    var c := |w.nodes|;
    var pn := w.nodes[id];
    var blk := Handle(h);
    RegisterOnErrorUnfold(w, id, blk, fuel);
    var w2 := StartedChild(w, RecoverOf(id, blk));
    RejectLeaf(w2, c, Synthetic, fuel - 1);
    var w3 := Reject(w2, c, Synthetic, fuel - 1);
    var d := DispatchRecover(w2, id, c, blk, fuel - 1);
    assert d == SetNode(w3, id, w3.nodes[id].(onProgress := ForwardProgress(c)));
    assert d.nodes == w.nodes[id := pn.(onProgress := ForwardProgress(c))]
                     + [Fresh(RecoverOf(id, blk)).(promiseStarted := true, state := Rejected, error := Some(Synthetic))];
    PassAlongToChild(w, d, id, pn.(onProgress := ForwardProgress(c)), Fresh(RecoverOf(id, blk)).(promiseStarted := true, state := Rejected, error := Some(Synthetic)));
  }

  /** onError over a Rejected parent: the child is Fulfilled with `h(error)`. */
  lemma RegisterOnErrorRejected(w: World, id: NodeId, h: Error -> int, fuel: nat)
    requires Valid(w) && id < |w.nodes| && fuel >= 2 && w.nodes[id].state == Rejected
    ensures var c := |w.nodes|;
            var pn := w.nodes[id];
            RegisterOnError(w, id, Handle(h), fuel) ==
            (World(w.nodes[id := pn.(onProgress := ForwardProgress(c))]
                     + [Child(w, id, RecoverOf(id, Handle(h))).(state := Fulfilled, value := Some(h(pn.error.value)))],
                   w.log + [Started(c), BlockRan(c)]), c)
  {
    var c := |w.nodes|;
    var pn := w.nodes[id];
    var blk := Handle(h);
    RegisterOnErrorUnfold(w, id, blk, fuel);
    var w2 := StartedChild(w, RecoverOf(id, blk));
    var a := ApplyRecover(w2, c, blk, pn.error.value, fuel - 1);
    assert a == (Emit(w2, BlockRan(c)), h(pn.error.value));
    ResolveLeaf(a.0, c, h(pn.error.value), fuel - 1);
    var w3 := Resolve(a.0, c, a.1, fuel - 1);
    var d := DispatchRecover(w2, id, c, blk, fuel - 1);
    assert d == SetNode(w3, id, w3.nodes[id].(onProgress := ForwardProgress(c)));
    assert d.nodes == w.nodes[id := pn.(onProgress := ForwardProgress(c))]
                     + [Fresh(RecoverOf(id, blk)).(promiseStarted := true, state := Fulfilled, value := Some(h(pn.error.value)))];
    PassAlongToChild(w, d, id, pn.(onProgress := ForwardProgress(c)),
                     Fresh(RecoverOf(id, blk)).(promiseStarted := true, state := Fulfilled, value := Some(h(pn.error.value))));
    assert d.log == w.log + [Started(c), BlockRan(c)];
  }

  /** onError over a Pending parent: the recovery and the synthetic rejection are installed; the child stays Pending. */
  lemma RegisterOnErrorPending(w: World, id: NodeId, h: Error -> int, fuel: nat)
    requires Valid(w) && id < |w.nodes| && fuel >= 2 && w.nodes[id].state == Pending
    ensures var c := |w.nodes|;
            var pn := w.nodes[id];
            RegisterOnError(w, id, Handle(h), fuel) ==
            (World(w.nodes[id := pn.(onFail := RecoverChild(c, Handle(h)), onSuccess := RejectSynthetic(c),
                                     onProgress := ForwardProgress(c))]
                     + [Child(w, id, RecoverOf(id, Handle(h)))],
                   w.log + [Started(c)]), c)
  {
    var c := |w.nodes|;
    var pn := w.nodes[id];
    var blk := Handle(h);
    RegisterOnErrorUnfold(w, id, blk, fuel);
    var w2 := StartedChild(w, RecoverOf(id, blk));
    var d := DispatchRecover(w2, id, c, blk, fuel - 1);
    assert d.nodes == w.nodes[id := pn.(onFail := RecoverChild(c, blk), onSuccess := RejectSynthetic(c),
                                        onProgress := ForwardProgress(c))]
                     + [Fresh(RecoverOf(id, blk)).(promiseStarted := true)];
    PassAlongToChild(w, d, id, pn.(onFail := RecoverChild(c, blk), onSuccess := RejectSynthetic(c),
                                        onProgress := ForwardProgress(c)), Fresh(RecoverOf(id, blk)).(promiseStarted := true));
  }

  /**
   * `registerOnError(block)` in each state of the parent: Rejected recovers the child
   * with `h(error)`; Fulfilled rejects it with the synthetic error and never forwards
   * the value nor calls `h`; Pending installs the recovery and the synthetic rejection.
   * The parent's progress slot forwards to the child.
   */
  lemma RegisterOnErrorOutcome(w: World, id: NodeId, h: Error -> int, fuel: nat)
    requires Valid(w) && id < |w.nodes| && fuel >= 2
    ensures var r := RegisterOnError(w, id, Handle(h), fuel);
            var c := |w.nodes|;
            var pn := w.nodes[id];
            var ch := Child(w, id, RecoverOf(id, Handle(h)));
            r.1 == c &&
            (pn.state == Fulfilled ==>
              r.0 == World(w.nodes[id := pn.(onProgress := ForwardProgress(c))]
                             + [ch.(state := Rejected, error := Some(Synthetic))],
                           w.log + [Started(c)])) &&
            (pn.state == Rejected ==>
              r.0 == World(w.nodes[id := pn.(onProgress := ForwardProgress(c))]
                             + [ch.(state := Fulfilled, value := Some(h(pn.error.value)))],
                           w.log + [Started(c), BlockRan(c)])) &&
            (pn.state == Pending ==>
              r.0 == World(w.nodes[id := pn.(onFail := RecoverChild(c, Handle(h)), onSuccess := RejectSynthetic(c),
                                             onProgress := ForwardProgress(c))]
                             + [ch],
                           w.log + [Started(c)]))
  {
    match w.nodes[id].state
    case Fulfilled => RegisterOnErrorFulfilled(w, id, h, fuel);
    case Rejected => RegisterOnErrorRejected(w, id, h, fuel);
    case Pending => RegisterOnErrorPending(w, id, h, fuel);
  }

  /** A later `reject(e)` on a parent whose failure slot is the recovery fulfils the child with `h(e)`. */
  lemma RejectThroughRecover(w: World, id: NodeId, c: NodeId, h: Error -> int, e: Error, fuel: nat)
    requires Valid(w) && id < |w.nodes| && c < |w.nodes| && c != id && fuel >= 2
    requires w.nodes[id].onFail == RecoverChild(c, Handle(h)) && w.nodes[c].onSuccess.NoSuccess?
    ensures Reject(w, id, e, fuel) ==
            World(w.nodes[id := w.nodes[id].(state := Rejected, error := Some(e))]
                         [c := w.nodes[c].(state := Fulfilled, value := Some(h(e)))],
                  w.log + [BlockRan(c)] + FinallyEvents(w.nodes[c].onFinally) + FinallyEvents(w.nodes[id].onFinally))
  {
    var w1 := SetNode(w, id, w.nodes[id].(state := Rejected, error := Some(e)));
    var a := ApplyRecover(w1, c, Handle(h), e, fuel - 1);
    assert a == (Emit(w1, BlockRan(c)), h(e));
    ResolveLeaf(a.0, c, h(e), fuel - 1);
  }

  /** A later `resolve(v)` on a parent whose success slot is the synthetic rejection rejects the child with `Synthetic`, not `v`. */
  lemma ResolveThroughSynthetic(w: World, id: NodeId, c: NodeId, v: int, fuel: nat)
    requires Valid(w) && id < |w.nodes| && c < |w.nodes| && c != id && fuel >= 2
    requires w.nodes[id].onSuccess == RejectSynthetic(c) && w.nodes[c].onFail.NoFailure?
    ensures Resolve(w, id, v, fuel) ==
            World(w.nodes[id := w.nodes[id].(state := Fulfilled, value := Some(v))]
                         [c := w.nodes[c].(state := Rejected, error := Some(Synthetic))],
                  w.log + FinallyEvents(w.nodes[c].onFinally) + FinallyEvents(w.nodes[id].onFinally))
  {
    var w1 := SetNode(w, id, w.nodes[id].(state := Fulfilled, value := Some(v)));
    RejectLeaf(w1, c, Synthetic, fuel - 1);
  }

  /**
   * onError over a Pending parent: a later failure `e` fulfils the child with `h(e)`;
   * a later success `v` rejects it with the synthetic error, whatever `v` is.
   */
  lemma OnErrorOnPendingParent(w: World, id: NodeId, h: Error -> int, v: int, e: Error, fuel: nat)
    requires Valid(w) && id < |w.nodes| && fuel >= 2 && w.nodes[id].state == Pending
    ensures var r := RegisterOnError(w, id, Handle(h), fuel);
            var ok := Resolve(r.0, id, v, fuel);
            var bad := Reject(r.0, id, e, fuel);
            ok.nodes[r.1].state == Rejected && ok.nodes[r.1].error == Some(Synthetic) && ok.nodes[r.1].value == None &&
            bad.nodes[r.1].state == Fulfilled && bad.nodes[r.1].value == Some(h(e))
  {
    RegisterOnErrorOutcome(w, id, h, fuel);
    var r := RegisterOnError(w, id, Handle(h), fuel);
    ResolveThroughSynthetic(r.0, id, r.1, v, fuel);
    RejectThroughRecover(r.0, id, r.1, h, e, fuel);
  }

  // ---------------------------------------------------------------------------
  // flatMap-style then (Source/Promise.swift:93-110, 114-120, 204-209)
  // ---------------------------------------------------------------------------

  /** What `registerNextPromise` does once the nested promise `n` is known: `n.then { x in resolve(x) }.onError(reject)`. */
  function ForwardNested(w: World, n: NodeId, c: NodeId, fuel: nat): (r: World)
    requires Valid(w) && n < |w.nodes| && c < |w.nodes|
  {
    var mapped := Then(w, n, ResolveInto(c), fuel);
    OnError(mapped.0, mapped.1, RejectInto(c), fuel).0
  }

  /** Both start flags of `n` are set: the preamble of `then`/`onError` on `n` does nothing. */
  predicate Booted(x: Node) {
    x.promiseStarted && x.initialStarted
  }

  lemma ThenOnBooted(w: World, id: NodeId, blk: MapBlock, fuel: nat)
    requires Valid(w) && id < |w.nodes| && MapBlockOk(blk, |w.nodes|) && Booted(w.nodes[id])
    ensures Then(w, id, blk, fuel) == RegisterThen(w, id, blk, fuel)
  {
  }

  lemma OnErrorOnBooted(w: World, id: NodeId, blk: RecoverBlock, fuel: nat)
    requires Valid(w) && id < |w.nodes| && RecoverBlockOk(blk, |w.nodes|) && Booted(w.nodes[id])
    ensures OnError(w, id, blk, fuel) == RegisterOnError(w, id, blk, fuel)
  {
  }

  /**
   * The internal block `{ x in resolve(x) }` of node `m` on value `v`: it resolves `c` with `v`,
   * and then `m` itself is resolved with the block's `()` (0).
   */
  lemma ResolveIntoApplied(w: World, m: NodeId, c: NodeId, v: int, fuel: nat)
    requires Valid(w) && m < |w.nodes| && c < |w.nodes| && m != c && fuel >= 1
    requires w.nodes[c].onSuccess.NoSuccess? && w.nodes[m].onSuccess.NoSuccess?
    ensures var a := ApplyMap(w, m, ResolveInto(c), v, fuel);
            Resolve(a.0, m, a.1, fuel) ==
            World(w.nodes[c := w.nodes[c].(state := Fulfilled, value := Some(v))]
                         [m := w.nodes[m].(state := Fulfilled, value := Some(0))],
                  w.log + [BlockRan(m)] + FinallyEvents(w.nodes[c].onFinally) + FinallyEvents(w.nodes[m].onFinally))
  {
    var w1 := Emit(w, BlockRan(m));
    ResolveLeaf(w1, c, v, fuel);
    ResolveLeaf(Resolve(w1, c, v, fuel), m, 0, fuel);
  }

  /**
   * The internal block `reject` of the onError node `o` on error `e`: it rejects `c` with `e`,
   * and then `o` itself is resolved with the block's `()` (0).
   */
  lemma RejectIntoApplied(w: World, o: NodeId, c: NodeId, e: Error, fuel: nat)
    requires Valid(w) && o < |w.nodes| && c < |w.nodes| && o != c && fuel >= 1
    requires w.nodes[c].onFail.NoFailure? && w.nodes[o].onSuccess.NoSuccess?
    ensures var a := ApplyRecover(w, o, RejectInto(c), e, fuel);
            Resolve(a.0, o, a.1, fuel) ==
            World(w.nodes[c := w.nodes[c].(state := Rejected, error := Some(e))]
                         [o := w.nodes[o].(state := Fulfilled, value := Some(0))],
                  w.log + [BlockRan(o)] + FinallyEvents(w.nodes[c].onFinally) + FinallyEvents(w.nodes[o].onFinally))
  {
    var w1 := Emit(w, BlockRan(o));
    RejectLeaf(w1, c, e, fuel);
    ResolveLeaf(Reject(w1, c, e, fuel), o, 0, fuel);
  }

  /** The dispatcher of the internal map node `m` over a Fulfilled `n`: `c` is resolved, then `m`, and `n` forwards progress to `m`. */
  lemma ResolveIntoDispatched(w: World, n: NodeId, c: NodeId, fuel: nat)
    requires Valid(w) && n < |w.nodes| && c < |w.nodes| && n != c && fuel >= 1
    requires w.nodes[n].state == Fulfilled && w.nodes[c].onSuccess.NoSuccess?
    ensures var x := w.nodes[n];
            var m := |w.nodes|;
            DispatchMap(StartedChild(w, MapOf(n, ResolveInto(c))), n, m, ResolveInto(c), fuel) ==
            World(w.nodes[c := w.nodes[c].(state := Fulfilled, value := x.value)][n := x.(onProgress := ForwardProgress(m))]
                    + [Fresh(MapOf(n, ResolveInto(c))).(promiseStarted := true, state := Fulfilled, value := Some(0))],
                  w.log + [Started(m), BlockRan(m)] + FinallyEvents(w.nodes[c].onFinally))
  {
    var x := w.nodes[n];
    var m := |w.nodes|;
    var w2 := StartedChild(w, MapOf(n, ResolveInto(c)));
    ResolveIntoApplied(w2, m, c, x.value.value, fuel);
    var a := ApplyMap(w2, m, ResolveInto(c), x.value.value, fuel);
    var w3 := Resolve(a.0, m, a.1, fuel);
    var y := Fresh(MapOf(n, ResolveInto(c))).(promiseStarted := true);
    var base := w.nodes[c := w.nodes[c].(state := Fulfilled, value := x.value)];
    assert w2.nodes == w.nodes + [y];
    assert w3 == World(base + [y.(state := Fulfilled, value := Some(0))],
                       w.log + [Started(m), BlockRan(m)] + FinallyEvents(w.nodes[c].onFinally));
    assert DispatchMap(w2, n, m, ResolveInto(c), fuel) == World(w3.nodes[n := x.(onProgress := ForwardProgress(m))], w3.log);
  }

  /** `registerThen` of the internal block `{ x in resolve(x) }` on a Fulfilled `n`: the map node `m` resolves `c`, then itself. */
  lemma ResolveIntoRegistered(w: World, n: NodeId, c: NodeId, fuel: nat)
    requires Valid(w) && n < |w.nodes| && c < |w.nodes| && n != c && fuel >= 2
    requires w.nodes[n].state == Fulfilled && w.nodes[c].onSuccess.NoSuccess?
    ensures var x := w.nodes[n];
            var m := |w.nodes|;
            RegisterThen(w, n, ResolveInto(c), fuel) ==
            (World(w.nodes[c := w.nodes[c].(state := Fulfilled, value := x.value)][n := x.(onProgress := ForwardProgress(m))]
                     + [Child(w, n, MapOf(n, ResolveInto(c))).(state := Fulfilled, value := Some(0))],
                   w.log + [Started(m), BlockRan(m)] + FinallyEvents(w.nodes[c].onFinally)), m)
  {
    var x := w.nodes[n];
    var m := |w.nodes|;
    RegisterThenUnfold(w, n, ResolveInto(c), fuel);
    ResolveIntoDispatched(w, n, c, fuel - 1);
    var base := w.nodes[c := w.nodes[c].(state := Fulfilled, value := x.value)][n := x.(onProgress := ForwardProgress(m))];
    var y := Fresh(MapOf(n, ResolveInto(c))).(promiseStarted := true, state := Fulfilled, value := Some(0));
    var d := World(base + [y], w.log + [Started(m), BlockRan(m)] + FinallyEvents(w.nodes[c].onFinally));
    assert DispatchMap(StartedChild(w, MapOf(n, ResolveInto(c))), n, m, ResolveInto(c), fuel - 1) == d;
    PassAlongAppended(d, base, n, y);
    assert base[n].initialStart == w.nodes[n].initialStart && base[n].initialStarted == w.nodes[n].initialStarted;
    assert y.(initialStart := Trigger(w, n), initialStarted := w.nodes[n].initialStarted)
        == Child(w, n, MapOf(n, ResolveInto(c))).(state := Fulfilled, value := Some(0));
  }

  /** First half of `ForwardNested` on a Fulfilled nested promise `n`: the map node `m` resolves `c`, then itself. */
  lemma NestedMapStageFulfilled(w: World, n: NodeId, c: NodeId, fuel: nat)
    requires Valid(w) && n < |w.nodes| && c < |w.nodes| && n != c && fuel >= 2
    requires Booted(w.nodes[n]) && w.nodes[n].state == Fulfilled && w.nodes[c].onSuccess.NoSuccess?
    ensures var r := Then(w, n, ResolveInto(c), fuel);
            var x := w.nodes[n];
            var m := |w.nodes|;
            r.1 == m && |r.0.nodes| == m + 1 &&
            (forall j | 0 <= j < |w.nodes| && j != c && j != n :: r.0.nodes[j] == w.nodes[j]) &&
            Booted(r.0.nodes[m]) && r.0.nodes[m].state == Fulfilled &&
            r.0.nodes[m].onSuccess.NoSuccess? && r.0.nodes[m].onFail.NoFailure? &&
            r.0.nodes[c] == w.nodes[c].(state := Fulfilled, value := x.value) &&
            r.0.nodes[n].onProgress == ForwardProgress(m) &&
            r.0.log == w.log + [Started(m), BlockRan(m)] + FinallyEvents(w.nodes[c].onFinally)
  {
    var x := w.nodes[n];
    var m := |w.nodes|;
    ThenOnBooted(w, n, ResolveInto(c), fuel);
    ResolveIntoRegistered(w, n, c, fuel);
    var r := World(w.nodes[c := w.nodes[c].(state := Fulfilled, value := x.value)][n := x.(onProgress := ForwardProgress(m))]
                     + [Child(w, n, MapOf(n, ResolveInto(c))).(state := Fulfilled, value := Some(0))],
                   w.log + [Started(m), BlockRan(m)] + FinallyEvents(w.nodes[c].onFinally));
    assert Then(w, n, ResolveInto(c), fuel) == (r, m);
    assert r.nodes[c] == w.nodes[c].(state := Fulfilled, value := x.value);
    assert Booted(r.nodes[m]);
  }

  /** First half of `ForwardNested` on a Rejected nested promise `n`: the map node `m` takes its error; `c` is untouched. */
  lemma NestedMapStageRejected(w: World, n: NodeId, c: NodeId, fuel: nat)
    requires Valid(w) && n < |w.nodes| && c < |w.nodes| && n != c && fuel >= 2
    requires Booted(w.nodes[n]) && w.nodes[n].state == Rejected
    ensures var r := Then(w, n, ResolveInto(c), fuel);
            var x := w.nodes[n];
            var m := |w.nodes|;
            r.1 == m && |r.0.nodes| == m + 1 &&
            (forall j | 0 <= j < |w.nodes| && j != n :: r.0.nodes[j] == w.nodes[j]) &&
            Booted(r.0.nodes[m]) && r.0.nodes[m].state == Rejected && r.0.nodes[m].error == x.error &&
            r.0.nodes[m].onSuccess.NoSuccess? && r.0.nodes[m].onFail.NoFailure? &&
            r.0.log == w.log + [Started(m)]
  {
    var x := w.nodes[n];
    var m := |w.nodes|;
    ThenOnBooted(w, n, ResolveInto(c), fuel);
    RegisterThenUnfold(w, n, ResolveInto(c), fuel);
    var w2 := StartedChild(w, MapOf(n, ResolveInto(c)));
    RejectLeaf(w2, m, x.error.value, fuel - 1);
    var w3 := Reject(w2, m, x.error.value, fuel - 1);
    assert DispatchMap(w2, n, m, ResolveInto(c), fuel - 1) == SetNode(w3, n, w3.nodes[n].(onProgress := ForwardProgress(m)));
  }


  /** Second half of `ForwardNested` over a Fulfilled map node `m`: the onError node is Rejected with the synthetic error; `c` is untouched. */
  lemma NestedErrorStageFulfilled(w: World, m: NodeId, c: NodeId, fuel: nat)
    requires Valid(w) && m < |w.nodes| && c < |w.nodes| && m != c && fuel >= 2
    requires Booted(w.nodes[m]) && w.nodes[m].state == Fulfilled
    ensures var r := OnError(w, m, RejectInto(c), fuel);
            var o := |w.nodes|;
            r.1 == o && |r.0.nodes| == o + 1 &&
            (forall j | 0 <= j < |w.nodes| && j != m :: r.0.nodes[j] == w.nodes[j]) &&
            r.0.nodes[o].state == Rejected && r.0.nodes[o].error == Some(Synthetic) &&
            r.0.log == w.log + [Started(o)]
  {
    var o := |w.nodes|;
    OnErrorOnBooted(w, m, RejectInto(c), fuel);
    RegisterOnErrorUnfold(w, m, RejectInto(c), fuel);
    var v2 := StartedChild(w, RecoverOf(m, RejectInto(c)));
    RejectLeaf(v2, o, Synthetic, fuel - 1);
    var v3 := Reject(v2, o, Synthetic, fuel - 1);
    assert DispatchRecover(v2, m, o, RejectInto(c), fuel - 1) == SetNode(v3, m, v3.nodes[m].(onProgress := ForwardProgress(o)));
  }

  /** The dispatcher of the internal onError node `o` over a Rejected `m`: `c` is rejected, `o` resolved, and `m` forwards progress to `o`. */
  lemma RejectIntoDispatched(w: World, m: NodeId, c: NodeId, fuel: nat)
    requires Valid(w) && m < |w.nodes| && c < |w.nodes| && m != c && fuel >= 1
    requires w.nodes[m].state == Rejected && w.nodes[c].onFail.NoFailure?
    ensures var x := w.nodes[m];
            var o := |w.nodes|;
            DispatchRecover(StartedChild(w, RecoverOf(m, RejectInto(c))), m, o, RejectInto(c), fuel) ==
            World(w.nodes[c := w.nodes[c].(state := Rejected, error := x.error)][m := x.(onProgress := ForwardProgress(o))]
                    + [Fresh(RecoverOf(m, RejectInto(c))).(promiseStarted := true, state := Fulfilled, value := Some(0))],
                  w.log + [Started(o), BlockRan(o)] + FinallyEvents(w.nodes[c].onFinally))
  {
    var x := w.nodes[m];
    var o := |w.nodes|;
    var v2 := StartedChild(w, RecoverOf(m, RejectInto(c)));
    RejectIntoApplied(v2, o, c, x.error.value, fuel);
    var a := ApplyRecover(v2, o, RejectInto(c), x.error.value, fuel);
    var v3 := Resolve(a.0, o, a.1, fuel);
    var y := Fresh(RecoverOf(m, RejectInto(c))).(promiseStarted := true);
    var base := w.nodes[c := w.nodes[c].(state := Rejected, error := x.error)];
    assert v2.nodes == w.nodes + [y];
    assert v3 == World(base + [y.(state := Fulfilled, value := Some(0))],
                       w.log + [Started(o), BlockRan(o)] + FinallyEvents(w.nodes[c].onFinally));
    assert DispatchRecover(v2, m, o, RejectInto(c), fuel) == World(v3.nodes[m := x.(onProgress := ForwardProgress(o))], v3.log);
  }

  /** `registerOnError` of the internal block `reject` on a Rejected `m`: the onError node `o` rejects `c`, then resolves itself. */
  lemma RejectIntoRegistered(w: World, m: NodeId, c: NodeId, fuel: nat)
    requires Valid(w) && m < |w.nodes| && c < |w.nodes| && m != c && fuel >= 2
    requires w.nodes[m].state == Rejected && w.nodes[c].onFail.NoFailure?
    ensures var x := w.nodes[m];
            var o := |w.nodes|;
            RegisterOnError(w, m, RejectInto(c), fuel) ==
            (World(w.nodes[c := w.nodes[c].(state := Rejected, error := x.error)][m := x.(onProgress := ForwardProgress(o))]
                     + [Child(w, m, RecoverOf(m, RejectInto(c))).(state := Fulfilled, value := Some(0))],
                   w.log + [Started(o), BlockRan(o)] + FinallyEvents(w.nodes[c].onFinally)), o)
  {
    var x := w.nodes[m];
    var o := |w.nodes|;
    RegisterOnErrorUnfold(w, m, RejectInto(c), fuel);
    RejectIntoDispatched(w, m, c, fuel - 1);
    var base := w.nodes[c := w.nodes[c].(state := Rejected, error := x.error)][m := x.(onProgress := ForwardProgress(o))];
    var y := Fresh(RecoverOf(m, RejectInto(c))).(promiseStarted := true, state := Fulfilled, value := Some(0));
    var d := World(base + [y], w.log + [Started(o), BlockRan(o)] + FinallyEvents(w.nodes[c].onFinally));
    assert DispatchRecover(StartedChild(w, RecoverOf(m, RejectInto(c))), m, o, RejectInto(c), fuel - 1) == d;
    PassAlongAppended(d, base, m, y);
    assert base[m].initialStart == w.nodes[m].initialStart && base[m].initialStarted == w.nodes[m].initialStarted;
    assert y.(initialStart := Trigger(w, m), initialStarted := w.nodes[m].initialStarted)
        == Child(w, m, RecoverOf(m, RejectInto(c))).(state := Fulfilled, value := Some(0));
  }

  /** Second half of `ForwardNested` over a Rejected map node `m`: the onError node rejects `c` with `m`'s error. */
  lemma NestedErrorStageRejected(w: World, m: NodeId, c: NodeId, fuel: nat)
    requires Valid(w) && m < |w.nodes| && c < |w.nodes| && m != c && fuel >= 2
    requires Booted(w.nodes[m]) && w.nodes[m].state == Rejected && w.nodes[c].onFail.NoFailure?
    ensures var r := OnError(w, m, RejectInto(c), fuel);
            var x := w.nodes[m];
            var o := |w.nodes|;
            r.1 == o && |r.0.nodes| == o + 1 &&
            (forall j | 0 <= j < |w.nodes| && j != c && j != m :: r.0.nodes[j] == w.nodes[j]) &&
            r.0.nodes[c] == w.nodes[c].(state := Rejected, error := x.error) &&
            r.0.log == w.log + [Started(o), BlockRan(o)] + FinallyEvents(w.nodes[c].onFinally)
  {
    var x := w.nodes[m];
    var o := |w.nodes|;
    OnErrorOnBooted(w, m, RejectInto(c), fuel);
    RejectIntoRegistered(w, m, c, fuel);
    var r := World(w.nodes[c := w.nodes[c].(state := Rejected, error := x.error)][m := x.(onProgress := ForwardProgress(o))]
                     + [Child(w, m, RecoverOf(m, RejectInto(c))).(state := Fulfilled, value := Some(0))],
                   w.log + [Started(o), BlockRan(o)] + FinallyEvents(w.nodes[c].onFinally));
    assert OnError(w, m, RejectInto(c), fuel) == (r, o);
    assert r.nodes[c] == w.nodes[c].(state := Rejected, error := x.error);
  }

  /** Forwarding from a Fulfilled nested promise: `c` takes its value. */
  lemma ForwardFulfilledNested(w: World, n: NodeId, c: NodeId, fuel: nat)
    requires Valid(w) && n < |w.nodes| && c < |w.nodes| && n != c && fuel >= 2
    requires Booted(w.nodes[n]) && w.nodes[n].state == Fulfilled
    requires w.nodes[c].onSuccess.NoSuccess?
    ensures var r := ForwardNested(w, n, c, fuel);
            var m := |w.nodes|;
            |r.nodes| == |w.nodes| + 2 &&
            (forall j | 0 <= j < |w.nodes| && j != c && j != n :: r.nodes[j] == w.nodes[j]) &&
            r.nodes[c] == w.nodes[c].(state := Fulfilled, value := w.nodes[n].value) &&
            r.nodes[n].onProgress == ForwardProgress(m) &&
            r.log == w.log + [Started(m), BlockRan(m)] + FinallyEvents(w.nodes[c].onFinally) + [Started(m + 1)]
  {
    NestedMapStageFulfilled(w, n, c, fuel);
    var mapped := Then(w, n, ResolveInto(c), fuel);
    NestedErrorStageFulfilled(mapped.0, mapped.1, c, fuel);
  }

  /** Forwarding from a Rejected nested promise: `c` takes its error. */
  lemma ForwardRejectedNested(w: World, n: NodeId, c: NodeId, fuel: nat)
    requires Valid(w) && n < |w.nodes| && c < |w.nodes| && n != c && fuel >= 2
    requires Booted(w.nodes[n]) && w.nodes[n].state == Rejected
    requires w.nodes[c].onFail.NoFailure?
    ensures var r := ForwardNested(w, n, c, fuel);
            var m := |w.nodes|;
            |r.nodes| == |w.nodes| + 2 &&
            (forall j | 0 <= j < |w.nodes| && j != c && j != n :: r.nodes[j] == w.nodes[j]) &&
            r.nodes[c] == w.nodes[c].(state := Rejected, error := w.nodes[n].error) &&
            r.log == w.log + [Started(m), Started(m + 1), BlockRan(m + 1)] + FinallyEvents(w.nodes[c].onFinally)
  {
    NestedMapStageRejected(w, n, c, fuel);
    var mapped := Then(w, n, ResolveInto(c), fuel);
    NestedErrorStageRejected(mapped.0, mapped.1, c, fuel);
  }

  /**
   * Forwarding from a nested promise that is already settled: its value fulfils `c`, its
   * error rejects `c`; apart from `c` and `n`, no node that existed before changes, and two
   * intermediate nodes are appended.
   */
  lemma ForwardSettledNested(w: World, n: NodeId, c: NodeId, fuel: nat)
    requires Valid(w) && n < |w.nodes| && c < |w.nodes| && n != c && fuel >= 2
    requires Booted(w.nodes[n]) && w.nodes[n].state != Pending
    requires w.nodes[c].onSuccess.NoSuccess? && w.nodes[c].onFail.NoFailure?
    ensures var r := ForwardNested(w, n, c, fuel);
            var x := w.nodes[n];
            var m := |w.nodes|;
            |r.nodes| == |w.nodes| + 2 &&
            (forall j | 0 <= j < |w.nodes| && j != c && j != n :: r.nodes[j] == w.nodes[j]) &&
            (x.state == Fulfilled ==>
              r.nodes[c] == w.nodes[c].(state := Fulfilled, value := x.value) &&
              r.log == w.log + [Started(m), BlockRan(m)] + FinallyEvents(w.nodes[c].onFinally) + [Started(m + 1)]) &&
            (x.state == Rejected ==>
              r.nodes[c] == w.nodes[c].(state := Rejected, error := x.error) &&
              r.log == w.log + [Started(m), Started(m + 1), BlockRan(m + 1)] + FinallyEvents(w.nodes[c].onFinally))
  {
    if w.nodes[n].state == Fulfilled {
      ForwardFulfilledNested(w, n, c, fuel);
    } else {
      ForwardRejectedNested(w, n, c, fuel);
    }
  }

  /** A node exactly as `init(callback:)` leaves it. */
  ghost predicate FreshRoot(x: Node) {
    x.origin.Root? && x == Fresh(x.origin)
  }

  /** A root after its producer was started through the preamble: both flags set and the behaviour applied. */
  function Launched(b: Behaviour): (r: Node) {
    var x := Fresh(Root(b)).(promiseStarted := true, initialStarted := true);
    match b
    case ResolveNow(v) => x.(state := Fulfilled, value := Some(v))
    case RejectNow(e) => x.(state := Rejected, error := Some(e))
    case Defer => x
  }

  /** The preamble of `then`/`onError` on a fresh root runs its producer once, and nothing else. */
  lemma PreambleOnFreshRoot(w: World, n: NodeId, fuel: nat)
    requires Valid(w) && n < |w.nodes| && fuel >= 2 && FreshRoot(w.nodes[n])
    ensures StartIfNeeded(TryStartInitial(w, n, fuel), n, fuel) ==
            World(w.nodes[n := Launched(w.nodes[n].origin.behaviour)], w.log + [Started(n)])
  {
    var b := w.nodes[n].origin.behaviour;
    var w1 := TryStartInitial(w, n, fuel);
    assert w1 == SetNode(w, n, w.nodes[n].(initialStarted := true));
    var w2 := Emit(SetNode(w1, n, w1.nodes[n].(promiseStarted := true)), Started(n));
    assert Start(w1, n, fuel) == Launch(w2, n, fuel - 1);
    match b
    case ResolveNow(v) => ResolveLeaf(w2, n, v, fuel - 1);
    case RejectNow(e) => RejectLeaf(w2, n, e, fuel - 1);
    case Defer =>
  }

  lemma ForwardNestedAfterPreamble(w: World, n: NodeId, c: NodeId, fuel: nat)
    requires Valid(w) && n < |w.nodes| && c < |w.nodes|
    ensures var p := StartIfNeeded(TryStartInitial(w, n, fuel), n, fuel);
            Booted(p.nodes[n]) ==> ForwardNested(w, n, c, fuel) == ForwardNested(p, n, c, fuel)
  {
    var p := StartIfNeeded(TryStartInitial(w, n, fuel), n, fuel);
    if Booted(p.nodes[n]) {
      ThenOnBooted(p, n, ResolveInto(c), fuel);
    }
  }

  /** First half of `ForwardNested` on a pending nested promise: `n` now feeds the pending map node `m`. */
  lemma PendingMapStage(w: World, n: NodeId, c: NodeId, fuel: nat)
    requires Valid(w) && n < |w.nodes| && c < |w.nodes| && n != c && fuel >= 1
    requires Booted(w.nodes[n]) && w.nodes[n].state == Pending
    ensures var r := Then(w, n, ResolveInto(c), fuel);
            var m := |w.nodes|;
            r.1 == m && |r.0.nodes| == m + 1 &&
            (forall j | 0 <= j < |w.nodes| && j != n :: r.0.nodes[j] == w.nodes[j]) &&
            r.0.nodes[n].onSuccess == ResolveChild(m, ResolveInto(c)) && r.0.nodes[n].onFail == RejectChild(m) &&
            Booted(r.0.nodes[m]) && r.0.nodes[m].state == Pending &&
            r.0.log == w.log + [Started(m)]
  {
    var m := |w.nodes|;
    ThenOnBooted(w, n, ResolveInto(c), fuel);
    var w1 := Append(w, Fresh(MapOf(n, ResolveInto(c))));
    var w2 := Emit(SetNode(w1, m, w1.nodes[m].(promiseStarted := true)), Started(m));
    assert Start(w1, m, fuel) == Launch(w2, m, fuel - 1);
    assert Start(w1, m, fuel) == DispatchMap(w2, n, m, ResolveInto(c), fuel - 1);
  }

  /** Second half of `ForwardNested` on a pending map node `m`: `m` now feeds the onError node `o`, which rejects `c`. */
  lemma PendingErrorStage(w: World, m: NodeId, c: NodeId, fuel: nat)
    requires Valid(w) && m < |w.nodes| && c < |w.nodes| && m != c && fuel >= 1
    requires Booted(w.nodes[m]) && w.nodes[m].state == Pending
    ensures var r := OnError(w, m, RejectInto(c), fuel);
            var o := |w.nodes|;
            r.1 == o && |r.0.nodes| == o + 1 &&
            (forall j | 0 <= j < |w.nodes| && j != m :: r.0.nodes[j] == w.nodes[j]) &&
            r.0.nodes[m].onSuccess == RejectSynthetic(o) && r.0.nodes[m].onFail == RecoverChild(o, RejectInto(c)) &&
            r.0.nodes[o].onSuccess.NoSuccess? && r.0.nodes[o].onFail.NoFailure? &&
            r.0.log == w.log + [Started(o)]
  {
    var o := |w.nodes|;
    OnErrorOnBooted(w, m, RejectInto(c), fuel);
    var v1 := Append(w, Fresh(RecoverOf(m, RejectInto(c))));
    var v2 := Emit(SetNode(v1, o, v1.nodes[o].(promiseStarted := true)), Started(o));
    assert Start(v1, o, fuel) == Launch(v2, o, fuel - 1);
    assert Start(v1, o, fuel) == DispatchRecover(v2, m, o, RejectInto(c), fuel - 1);
  }

  /** Forwarding from a nested promise `n` that is still pending: the reactions are installed and `c` is left as it was. */
  lemma ForwardPendingNested(w: World, n: NodeId, c: NodeId, fuel: nat)
    requires Valid(w) && n < |w.nodes| && c < |w.nodes| && n != c && fuel >= 1
    requires Booted(w.nodes[n]) && w.nodes[n].state == Pending
    ensures var r := ForwardNested(w, n, c, fuel);
            |r.nodes| == |w.nodes| + 2 &&
            (forall j | 0 <= j < |w.nodes| && j != n :: r.nodes[j] == w.nodes[j]) &&
            Wired(r, n, |w.nodes|, c) &&
            r.log == w.log + [Started(|w.nodes|), Started(|w.nodes| + 1)]
  {
    PendingMapStage(w, n, c, fuel);
    var mapped := Then(w, n, ResolveInto(c), fuel);
    PendingErrorStage(mapped.0, mapped.1, c, fuel);
  }

  /**
   * The reactions `registerNextPromise` leaves on a pending nested promise `n`: `n` feeds the
   * map node `m`, whose success resolves `c` and whose failure flows on to the onError node `m + 1`,
   * which rejects `c`.
   */
  ghost predicate Wired(w: World, n: NodeId, m: NodeId, c: NodeId) {
    n < |w.nodes| && c < |w.nodes| && m + 1 < |w.nodes| &&
    n != c && m != c && m + 1 != c && n != m && n != m + 1 &&
    w.nodes[n].onSuccess == ResolveChild(m, ResolveInto(c)) && w.nodes[n].onFail == RejectChild(m) &&
    w.nodes[m].onSuccess == RejectSynthetic(m + 1) && w.nodes[m].onFail == RecoverChild(m + 1, RejectInto(c)) &&
    w.nodes[m + 1].onSuccess.NoSuccess? && w.nodes[m + 1].onFail.NoFailure?
  }

  /** The map node's recovery `RejectInto(c)`: a failure of `m` rejects `c` with the same error, then settles the onError node `o`. */
  lemma RejectThroughRejectInto(w: World, m: NodeId, o: NodeId, c: NodeId, e: Error, fuel: nat)
    requires Valid(w) && m < |w.nodes| && o < |w.nodes| && c < |w.nodes| && fuel >= 2
    requires m != o && m != c && o != c
    requires w.nodes[m].onFail == RecoverChild(o, RejectInto(c))
    requires w.nodes[c].onFail.NoFailure? && w.nodes[o].onSuccess.NoSuccess?
    ensures Reject(w, m, e, fuel).nodes[c] == w.nodes[c].(state := Rejected, error := Some(e))
  {
    var f2 := SetNode(w, m, w.nodes[m].(state := Rejected, error := Some(e)));
    var f3 := Emit(f2, BlockRan(o));
    assert ApplyRecover(f2, o, RejectInto(c), e, fuel - 1) == (Reject(f3, c, e, fuel - 1), 0);
    RejectLeaf(f3, c, e, fuel - 1);
    var f4 := Reject(f3, c, e, fuel - 1);
    ResolveLeaf(f4, o, 0, fuel - 1);
  }

  /** Resolving a wired nested promise later fulfils `c` with the same value. */
  lemma NestedResolvesLater(w: World, n: NodeId, m: NodeId, c: NodeId, x: int, fuel: nat)
    requires Valid(w) && Wired(w, n, m, c) && fuel >= 3
    requires w.nodes[c].onSuccess.NoSuccess?
    ensures Resolve(w, n, x, fuel).nodes[c] == w.nodes[c].(state := Fulfilled, value := Some(x))
  {
    var s1 := SetNode(w, n, w.nodes[n].(state := Fulfilled, value := Some(x)));
    var s2 := Emit(s1, BlockRan(m));
    assert ApplyMap(s1, m, ResolveInto(c), x, fuel - 1) == (Resolve(s2, c, x, fuel - 1), 0);
    ResolveLeaf(s2, c, x, fuel - 1);
    var s3 := Resolve(s2, c, x, fuel - 1);
    ResolveThroughSynthetic(s3, m, m + 1, 0, fuel - 1);
  }

  /** Rejecting a wired nested promise later rejects `c` with the same error. */
  lemma NestedRejectsLater(w: World, n: NodeId, m: NodeId, c: NodeId, e: Error, fuel: nat)
    requires Valid(w) && Wired(w, n, m, c) && fuel >= 3
    requires w.nodes[c].onFail.NoFailure?
    ensures Reject(w, n, e, fuel).nodes[c] == w.nodes[c].(state := Rejected, error := Some(e))
  {
    var f1 := SetNode(w, n, w.nodes[n].(state := Rejected, error := Some(e)));
    RejectThroughRejectInto(f1, m, m + 1, c, e, fuel - 1);
  }

  /** `registerNextPromise` with a user block `g`: the block's run is logged, then `g(t)` is created, launched, and forwarded into `c`. */
  lemma NextPromiseUnfold(w: World, c: NodeId, g: int -> Behaviour, t: int, fuel: nat)
    requires Valid(w) && c < |w.nodes| && fuel >= 2
    ensures var n := |w.nodes|;
            var p := World(w.nodes + [Launched(g(t))], w.log + [BlockRan(c), Started(n)]);
            Valid(p) && Booted(p.nodes[n]) &&
            RegisterNextPromise(w, c, Chain(g), t, fuel) == ForwardNested(p, n, c, fuel)
  {
    var n := |w.nodes|;
    var w1 := Emit(w, BlockRan(c));
    var w2 := Create(w1, g(t)).0;
    assert RegisterNextPromise(w, c, Chain(g), t, fuel) == ForwardNested(w2, n, c, fuel);
    PreambleOnFreshRoot(w2, n, fuel);
    assert w2.nodes[n := Launched(g(t))] == w.nodes + [Launched(g(t))];
    assert w2.log + [Started(n)] == w.log + [BlockRan(c), Started(n)];
    ForwardNestedAfterPreamble(w2, n, c, fuel);
  }

  /** `registerNextPromise` when `g(t)` settles at once: `c` takes its value or error, and only `c` changes among the old nodes. */
  lemma NextPromiseSettles(w: World, c: NodeId, g: int -> Behaviour, t: int, fuel: nat)
    requires Valid(w) && c < |w.nodes| && fuel >= 2 && !g(t).Defer?
    requires w.nodes[c].onSuccess.NoSuccess? && w.nodes[c].onFail.NoFailure?
    ensures var r := RegisterNextPromise(w, c, Chain(g), t, fuel);
            var b := g(t);
            var n := |w.nodes|;
            |r.nodes| == n + 3 && r.log[|w.log|] == BlockRan(c) &&
            (forall j | 0 <= j < n && j != c :: r.nodes[j] == w.nodes[j]) &&
            (b.ResolveNow? ==> r.nodes[c] == w.nodes[c].(state := Fulfilled, value := Some(b.v))) &&
            (b.RejectNow? ==> r.nodes[c] == w.nodes[c].(state := Rejected, error := Some(b.e)))
  {
    var n := |w.nodes|;
    NextPromiseUnfold(w, c, g, t, fuel);
    var p := World(w.nodes + [Launched(g(t))], w.log + [BlockRan(c), Started(n)]);
    ForwardSettledNested(p, n, c, fuel);
  }

  /** What `registerNextPromise` with a user block logs when `g(t)` settles at once: the block, then the starts of the nested promise and its two internal nodes, and the reactions that fire. */
  lemma NextPromiseSettlesLog(w: World, c: NodeId, g: int -> Behaviour, t: int, fuel: nat)
    requires Valid(w) && c < |w.nodes| && fuel >= 2 && !g(t).Defer?
    requires w.nodes[c].onSuccess.NoSuccess? && w.nodes[c].onFail.NoFailure?
    ensures var r := RegisterNextPromise(w, c, Chain(g), t, fuel);
            var n := |w.nodes|;
            (g(t).ResolveNow? ==>
              r.log == w.log + [BlockRan(c), Started(n), Started(n + 1), BlockRan(n + 1)]
                       + FinallyEvents(w.nodes[c].onFinally) + [Started(n + 2)]) &&
            (g(t).RejectNow? ==>
              r.log == w.log + [BlockRan(c), Started(n), Started(n + 1), Started(n + 2), BlockRan(n + 2)]
                       + FinallyEvents(w.nodes[c].onFinally))
  {
    var n := |w.nodes|;
    NextPromiseUnfold(w, c, g, t, fuel);
    var p := World(w.nodes + [Launched(g(t))], w.log + [BlockRan(c), Started(n)]);
    ForwardSettledNested(p, n, c, fuel);
    assert p.log + [Started(n + 1), BlockRan(n + 1)] == w.log + [BlockRan(c), Started(n), Started(n + 1), BlockRan(n + 1)];
    assert p.log + [Started(n + 1), Started(n + 2), BlockRan(n + 2)] == w.log + [BlockRan(c), Started(n), Started(n + 1), Started(n + 2), BlockRan(n + 2)];
  }

  /** `registerNextPromise` when `g(t)` defers: `c` is untouched and wired to settle when the nested promise `n` does. */
  lemma NextPromiseDefers(w: World, c: NodeId, g: int -> Behaviour, t: int, fuel: nat)
    requires Valid(w) && c < |w.nodes| && fuel >= 2 && g(t).Defer?
    ensures var r := RegisterNextPromise(w, c, Chain(g), t, fuel);
            var n := |w.nodes|;
            |r.nodes| == n + 3 && r.log[|w.log|] == BlockRan(c) &&
            (forall j | 0 <= j < n :: r.nodes[j] == w.nodes[j]) &&
            Wired(r, n, n + 1, c)
  {
    var n := |w.nodes|;
    NextPromiseUnfold(w, c, g, t, fuel);
    var p := World(w.nodes + [Launched(g(t))], w.log + [BlockRan(c), Started(n)]);
    ForwardPendingNested(p, n, c, fuel);
  }

  /** What `registerNextPromise` with a user block logs when `g(t)` defers: the block, then the starts of the nested promise and its two internal nodes. */
  lemma NextPromiseDefersLog(w: World, c: NodeId, g: int -> Behaviour, t: int, fuel: nat)
    requires Valid(w) && c < |w.nodes| && fuel >= 2 && g(t).Defer?
    ensures var n := |w.nodes|;
            RegisterNextPromise(w, c, Chain(g), t, fuel).log == w.log + [BlockRan(c), Started(n), Started(n + 1), Started(n + 2)]
  {
    var n := |w.nodes|;
    NextPromiseUnfold(w, c, g, t, fuel);
    var p := World(w.nodes + [Launched(g(t))], w.log + [BlockRan(c), Started(n)]);
    ForwardPendingNested(p, n, c, fuel);
    assert p.log + [Started(n + 1), Started(n + 2)] == w.log + [BlockRan(c), Started(n), Started(n + 1), Started(n + 2)];
  }

  /**
   * `registerNextPromise` with a user block `g`: the nested promise `g(t)` is created and
   * started; if it settles at once, `c` takes its value or error; if it defers, `c` is
   * untouched and wired to settle when the nested promise does.
   */
  lemma NextPromiseFromBlock(w: World, c: NodeId, g: int -> Behaviour, t: int, fuel: nat)
    requires Valid(w) && c < |w.nodes| && fuel >= 2
    requires w.nodes[c].onSuccess.NoSuccess? && w.nodes[c].onFail.NoFailure?
    ensures var r := RegisterNextPromise(w, c, Chain(g), t, fuel);
            var b := g(t);
            var n := |w.nodes|;
            |r.nodes| == n + 3 && r.log[|w.log|] == BlockRan(c) &&
            (forall j | 0 <= j < n && j != c :: r.nodes[j] == w.nodes[j]) &&
            (b.ResolveNow? ==> r.nodes[c] == w.nodes[c].(state := Fulfilled, value := Some(b.v))) &&
            (b.RejectNow? ==> r.nodes[c] == w.nodes[c].(state := Rejected, error := Some(b.e))) &&
            (b.Defer? ==> r.nodes[c] == w.nodes[c] && Wired(r, n, n + 1, c))
  {
    if g(t).Defer? {
      NextPromiseDefers(w, c, g, t, fuel);
    } else {
      NextPromiseSettles(w, c, g, t, fuel);
    }
  }

  /**
   * `x` has been started, and the preamble of `then` on it starts no producer: its chain has run
   * its root start already, or it has no inherited start (a root started by `start()` or `finally`).
   */
  predicate Primed(x: Node) {
    x.promiseStarted && (x.initialStarted || x.initialStart.None?)
  }

  /** On a primed promise the preamble of `then`/`onError` only sets `initialPromiseStarted`. */
  lemma PreambleOnPrimed(w: World, n: NodeId, fuel: nat)
    requires Valid(w) && n < |w.nodes| && Primed(w.nodes[n])
    ensures StartIfNeeded(TryStartInitial(w, n, fuel), n, fuel) == World(w.nodes[n := w.nodes[n].(initialStarted := true)], w.log)
  {
    if w.nodes[n].initialStarted {
      assert w.nodes[n := w.nodes[n].(initialStarted := true)] == w.nodes;
    }
  }

  /** `registerNextPromise` with `then(p:)`'s constant block over a primed, settled `p`: `c` takes `p`'s outcome. */
  lemma NextPromiseReused(w: World, c: NodeId, p: NodeId, t: int, fuel: nat)
    requires Valid(w) && c < |w.nodes| && p < |w.nodes| && p != c && fuel >= 2
    requires Primed(w.nodes[p]) && w.nodes[p].state != Pending
    requires w.nodes[c].onSuccess.NoSuccess? && w.nodes[c].onFail.NoFailure?
    ensures var r := RegisterNextPromise(w, c, Always(p), t, fuel);
            var x := w.nodes[p];
            (x.state == Fulfilled ==> r.nodes[c] == w.nodes[c].(state := Fulfilled, value := x.value)) &&
            (x.state == Rejected ==> r.nodes[c] == w.nodes[c].(state := Rejected, error := x.error))
  {
    var w1 := Emit(w, BlockRan(c));
    PreambleOnPrimed(w1, p, fuel);
    ForwardNestedAfterPreamble(w1, p, c, fuel);
    var q := World(w1.nodes[p := w1.nodes[p].(initialStarted := true)], w1.log);
    ForwardSettledNested(q, p, c, fuel);
  }

  /**
   * `registerNextPromise` with `then(p:)`'s constant block over a primed, still Pending `p`:
   * `c` is untouched and wired to settle when `p` does (NestedResolvesLater, NestedRejectsLater).
   */
  lemma NextPromisePendingReused(w: World, c: NodeId, p: NodeId, t: int, fuel: nat)
    requires Valid(w) && c < |w.nodes| && p < |w.nodes| && p != c && fuel >= 2
    requires Primed(w.nodes[p]) && w.nodes[p].state == Pending
    ensures var r := RegisterNextPromise(w, c, Always(p), t, fuel);
            r.nodes[c] == w.nodes[c] && Wired(r, p, |w.nodes|, c) &&
            r.log == w.log + [BlockRan(c), Started(|w.nodes|), Started(|w.nodes| + 1)]
  {
    var w1 := Emit(w, BlockRan(c));
    PreambleOnPrimed(w1, p, fuel);
    ForwardNestedAfterPreamble(w1, p, c, fuel);
    var q := World(w1.nodes[p := w1.nodes[p].(initialStarted := true)], w1.log);
    ForwardPendingNested(q, p, c, fuel);
  }

  /**
   * `registerNextPromise` with `then(p:)`'s constant block over a root `p` nobody has started:
   * the block runs, then `p`'s producer is started; `c` takes `p`'s outcome when the producer
   * settles at once, and is otherwise wired to settle when `p` does.
   */
  lemma NextPromiseFreshRoot(w: World, c: NodeId, p: NodeId, t: int, fuel: nat)
    requires Valid(w) && c < |w.nodes| && p < |w.nodes| && p != c && fuel >= 2
    requires FreshRoot(w.nodes[p])
    requires w.nodes[c].onSuccess.NoSuccess? && w.nodes[c].onFail.NoFailure?
    ensures var r := RegisterNextPromise(w, c, Always(p), t, fuel);
            var b := w.nodes[p].origin.behaviour;
            |r.log| >= |w.log| + 2 && r.log[|w.log|] == BlockRan(c) && r.log[|w.log| + 1] == Started(p) &&
            (b.ResolveNow? ==> r.nodes[c] == w.nodes[c].(state := Fulfilled, value := Some(b.v))) &&
            (b.RejectNow? ==> r.nodes[c] == w.nodes[c].(state := Rejected, error := Some(b.e))) &&
            (b.Defer? ==> r.nodes[c] == w.nodes[c] && Wired(r, p, |w.nodes|, c))
  {
    var b := w.nodes[p].origin.behaviour;
    var w1 := Emit(w, BlockRan(c));
    assert RegisterNextPromise(w, c, Always(p), t, fuel) == ForwardNested(w1, p, c, fuel);
    PreambleOnFreshRoot(w1, p, fuel);
    ForwardNestedAfterPreamble(w1, p, c, fuel);
    var q := World(w1.nodes[p := Launched(b)], w1.log + [Started(p)]);
    assert q.log == w.log + [BlockRan(c), Started(p)];
    if b.Defer? {
      ForwardPendingNested(q, p, c, fuel);
    } else {
      ForwardSettledNested(q, p, c, fuel);
    }
  }

  /**
   * `registerThen(p:)` over a Fulfilled parent with a root `p` nobody has started: `p`'s
   * producer runs, and the child takes `p`'s outcome, or waits for `p` when it defers.
   */
  lemma ThenPromiseStartsFreshRoot(w: World, id: NodeId, p: NodeId, fuel: nat)
    requires Valid(w) && id < |w.nodes| && p < |w.nodes| && fuel >= 3
    requires w.nodes[id].state == Fulfilled && FreshRoot(w.nodes[p])
    ensures var r := RegisterThenPromise(w, id, p, fuel);
            var c := r.1;
            var b := w.nodes[p].origin.behaviour;
            c == |w.nodes| && Started(p) in r.0.log[|w.log|..] &&
            (b.ResolveNow? ==> r.0.nodes[c].state == Fulfilled && r.0.nodes[c].value == Some(b.v)) &&
            (b.RejectNow? ==> r.0.nodes[c].state == Rejected && r.0.nodes[c].error == Some(b.e)) &&
            (b.Defer? ==> r.0.nodes[c].state == Pending && Wired(r.0, p, c + 1, c))
  {
    RegisterThenFlatOnFulfilled(w, id, Always(p), fuel);
    var w2 := StartedChild(w, FlatOf(id, Always(p)));
    ThenPromiseFreshRootStep(w, id, p, fuel, w2, RegisterNextPromise(w2, |w.nodes|, Always(p), w.nodes[id].value.value, fuel - 1));
  }

  /** ThenPromiseStartsFreshRoot, stated on the world after the child is started and `registerNextPromise` has run. */
  lemma ThenPromiseFreshRootStep(w: World, id: NodeId, p: NodeId, fuel: nat, w2: World, d: World)
    requires Valid(w) && id < |w.nodes| && p < |w.nodes| && fuel >= 3
    requires w.nodes[id].state == Fulfilled && FreshRoot(w.nodes[p])
    requires w2 == StartedChild(w, FlatOf(id, Always(p)))
    requires d == RegisterNextPromise(w2, |w.nodes|, Always(p), w.nodes[id].value.value, fuel - 1)
    ensures var c := |w.nodes|;
            var r := PassAlong(d, id, c);
            var b := w.nodes[p].origin.behaviour;
            Started(p) in r.log[|w.log|..] &&
            (b.ResolveNow? ==> r.nodes[c].state == Fulfilled && r.nodes[c].value == Some(b.v)) &&
            (b.RejectNow? ==> r.nodes[c].state == Rejected && r.nodes[c].error == Some(b.e)) &&
            (b.Defer? ==> r.nodes[c].state == Pending && Wired(r, p, c + 1, c))
  {
    var c := |w.nodes|;
    var b := w.nodes[p].origin.behaviour;
    assert Valid(d) && |d.log| >= |w.log| + 3 && d.log[|w.log| + 2] == Started(p) && |d.nodes| >= c + 1 &&
           (b.ResolveNow? ==> d.nodes[c].state == Fulfilled && d.nodes[c].value == Some(b.v)) &&
           (b.RejectNow? ==> d.nodes[c].state == Rejected && d.nodes[c].error == Some(b.e)) &&
           (b.Defer? ==> d.nodes[c].state == Pending && Wired(d, p, c + 1, c)) by {
      assert w2.log == w.log + [Started(c)] && |w2.nodes| == c + 1 && w2.nodes[p] == w.nodes[p];
      assert w2.nodes[c].state == Pending && w2.nodes[c].onSuccess.NoSuccess? && w2.nodes[c].onFail.NoFailure?;
      NextPromiseFreshRoot(w2, c, p, w.nodes[id].value.value, fuel - 1);
    }
    var r := PassAlong(d, id, c);
    assert r.log[|w.log|..][2] == Started(p);
    if w.nodes[p].origin.behaviour.Defer? {
      PassAlongKeepsWired(d, id, c, p, c + 1, c);
    }
  }

  /** Passing the start trigger along changes no reaction, so it keeps a forwarding wiring. */
  lemma PassAlongKeepsWired(w: World, from: NodeId, to: NodeId, n: NodeId, m: NodeId, c: NodeId)
    requires Valid(w) && from < |w.nodes| && to < |w.nodes| && Wired(w, n, m, c)
    ensures Wired(PassAlong(w, from, to), n, m, c)
  {
    var r := PassAlong(w, from, to);
    assert r.nodes[to].onSuccess == w.nodes[to].onSuccess && r.nodes[to].onFail == w.nodes[to].onFail;
  }

  /**
   * `registerThen(block: T -> Promise<X>)` over a Rejected parent rejects the child with the
   * parent's error without calling the block, and over a Pending parent installs the
   * flattening reactions; neither touches the parent's progress slot.
   */
  lemma RegisterThenFlatOutcome(w: World, id: NodeId, blk: FlatBlock, fuel: nat)
    requires Valid(w) && id < |w.nodes| && FlatBlockOk(blk, |w.nodes|) && fuel >= 2
    ensures var r := RegisterThenFlat(w, id, blk, fuel);
            var c := |w.nodes|;
            var pn := w.nodes[id];
            var ch := Child(w, id, FlatOf(id, blk));
            r.1 == c &&
            (pn.state == Rejected ==>
              r.0 == World(w.nodes + [ch.(state := Rejected, error := pn.error)], w.log + [Started(c)])) &&
            (pn.state == Pending ==>
              r.0 == World(w.nodes[id := pn.(onSuccess := FlattenInto(c, blk), onFail := RejectChild(c))] + [ch],
                           w.log + [Started(c)]))
  {
    var c := |w.nodes|;
    var pn := w.nodes[id];
    var w1 := Append(w, Fresh(FlatOf(id, blk)));
    var w2 := Emit(SetNode(w1, c, w1.nodes[c].(promiseStarted := true)), Started(c));
    assert Start(w1, c, fuel) == Launch(w2, c, fuel - 1);
    assert Start(w1, c, fuel) == DispatchFlat(w2, id, c, blk, fuel - 1);
    if pn.state == Rejected {
      RejectLeaf(w2, c, pn.error.value, fuel - 1);
      assert Reject(w2, c, pn.error.value, fuel - 1).nodes ==
             w.nodes + [Fresh(FlatOf(id, blk)).(promiseStarted := true, state := Rejected, error := pn.error)];
    } else if pn.state == Pending {
      assert DispatchFlat(w2, id, c, blk, fuel - 1).nodes ==
             w.nodes[id := pn.(onSuccess := FlattenInto(c, blk), onFail := RejectChild(c))]
             + [Fresh(FlatOf(id, blk)).(promiseStarted := true)];
    }
  }

  /** A chain operation's child just appended to `w` and started: the world its dispatcher runs in. */
  function StartedChild(w: World, o: Origin): (r: World)
    requires Valid(w) && NodeOk(Fresh(o), |w.nodes| + 1)
  {
    var w1 := Append(w, Fresh(o));
    Emit(SetNode(w1, |w.nodes|, w1.nodes[|w.nodes|].(promiseStarted := true)), Started(|w.nodes|))
  }

  lemma RegisterThenFlatOnFulfilled(w: World, id: NodeId, blk: FlatBlock, fuel: nat)
    requires Valid(w) && id < |w.nodes| && FlatBlockOk(blk, |w.nodes|) && fuel >= 1 && w.nodes[id].state == Fulfilled
    ensures var w2 := StartedChild(w, FlatOf(id, blk));
            RegisterThenFlat(w, id, blk, fuel).1 == |w.nodes| &&
            RegisterThenFlat(w, id, blk, fuel).0 ==
            PassAlong(RegisterNextPromise(w2, |w.nodes|, blk, w.nodes[id].value.value, fuel - 1), id, |w.nodes|)
  {
    var c := |w.nodes|;
    var w1 := Append(w, Fresh(FlatOf(id, blk)));
    var w2 := StartedChild(w, FlatOf(id, blk));
    assert Start(w1, c, fuel) == Launch(w2, c, fuel - 1);
    assert Start(w1, c, fuel) == DispatchFlat(w2, id, c, blk, fuel - 1);
  }

  /** flatMap over a Fulfilled parent with value `v`, when `g(v)` settles at once: the child takes its value or error. */
  lemma FlatOnFulfilledParent(w: World, id: NodeId, g: int -> Behaviour, fuel: nat)
    requires Valid(w) && id < |w.nodes| && fuel >= 3 && w.nodes[id].state == Fulfilled
    ensures var r := RegisterThenFlat(w, id, Chain(g), fuel);
            var c := r.1;
            var b := g(w.nodes[id].value.value);
            c == |w.nodes| &&
            (b.ResolveNow? ==> r.0.nodes[c].state == Fulfilled && r.0.nodes[c].value == Some(b.v)) &&
            (b.RejectNow? ==> r.0.nodes[c].state == Rejected && r.0.nodes[c].error == Some(b.e)) &&
            (b.Defer? ==> r.0.nodes[c].state == Pending)
  {
    var c := |w.nodes|;
    var v := w.nodes[id].value.value;
    var w2 := StartedChild(w, FlatOf(id, Chain(g)));
    RegisterThenFlatOnFulfilled(w, id, Chain(g), fuel);
    NextPromiseFromBlock(w2, c, g, v, fuel - 1);
  }

  /** flatMap over a Fulfilled parent whose block defers: the child is wired to the nested promise `c + 1`. */
  lemma FlatDeferWiring(w: World, id: NodeId, g: int -> Behaviour, fuel: nat)
    requires Valid(w) && id < |w.nodes| && fuel >= 3 && w.nodes[id].state == Fulfilled
    requires g(w.nodes[id].value.value).Defer?
    ensures var r := RegisterThenFlat(w, id, Chain(g), fuel);
            var c := r.1;
            c == |w.nodes| && Wired(r.0, c + 1, c + 2, c) &&
            r.0.nodes[c].onSuccess.NoSuccess? && r.0.nodes[c].onFail.NoFailure?
  {
    RegisterThenFlatOnFulfilled(w, id, Chain(g), fuel);
    FlatChildWired(w, id, g, w.nodes[id].value.value, fuel - 1, RegisterThenFlat(w, id, Chain(g), fuel).0);
  }

  /** The flat child `c` of `id`, once its block deferred and it was handed the root trigger, is wired to the nested promise `c + 1`. */
  lemma FlatChildWired(w: World, id: NodeId, g: int -> Behaviour, v: int, fuel: nat, r: World)
    requires Valid(w) && id < |w.nodes| && fuel >= 2 && g(v).Defer?
    requires r == PassAlong(RegisterNextPromise(StartedChild(w, FlatOf(id, Chain(g))), |w.nodes|, Chain(g), v, fuel), id, |w.nodes|)
    ensures Wired(r, |w.nodes| + 1, |w.nodes| + 2, |w.nodes|)
    ensures r.nodes[|w.nodes|].onSuccess.NoSuccess? && r.nodes[|w.nodes|].onFail.NoFailure?
  {
    var c := |w.nodes|;
    var w2 := StartedChild(w, FlatOf(id, Chain(g)));
    assert w2.nodes[c].onSuccess.NoSuccess? && w2.nodes[c].onFail.NoFailure?;
    NextPromiseDefers(w2, c, g, v, fuel);
  }

  /**
   * flatMap over a Fulfilled parent with value `v`, when `g(v)` defers: a later `resolve(x)`
   * of the nested promise (node `c + 1`) fulfils the child with `x` (FlatFailsWithNested gives
   * the failure half).
   */
  lemma FlatWaitsForNested(w: World, id: NodeId, g: int -> Behaviour, x: int, fuel: nat)
    requires Valid(w) && id < |w.nodes| && fuel >= 3 && w.nodes[id].state == Fulfilled
    requires g(w.nodes[id].value.value).Defer?
    ensures var r := RegisterThenFlat(w, id, Chain(g), fuel);
            var c := r.1;
            c + 1 < |r.0.nodes| &&
            Resolve(r.0, c + 1, x, fuel).nodes[c].state == Fulfilled && Resolve(r.0, c + 1, x, fuel).nodes[c].value == Some(x)
  {
    FlatDeferWiring(w, id, g, fuel);
    var r := RegisterThenFlat(w, id, Chain(g), fuel);
    NestedResolvesLater(r.0, r.1 + 1, r.1 + 2, r.1, x, fuel);
  }

  /** The failure half of FlatWaitsForNested: a later `reject(e)` of the nested promise rejects the child with `e`. */
  lemma FlatFailsWithNested(w: World, id: NodeId, g: int -> Behaviour, e: Error, fuel: nat)
    requires Valid(w) && id < |w.nodes| && fuel >= 3 && w.nodes[id].state == Fulfilled
    requires g(w.nodes[id].value.value).Defer?
    ensures var r := RegisterThenFlat(w, id, Chain(g), fuel);
            var c := r.1;
            c + 1 < |r.0.nodes| &&
            Reject(r.0, c + 1, e, fuel).nodes[c].state == Rejected && Reject(r.0, c + 1, e, fuel).nodes[c].error == Some(e)
  {
    FlatDeferWiring(w, id, g, fuel);
    var r := RegisterThenFlat(w, id, Chain(g), fuel);
    NestedRejectsLater(r.0, r.1 + 1, r.1 + 2, r.1, e, fuel);
  }

  /** A flat child `c` wired to the nested promise `c + 1` takes whichever outcome that promise later gets. */
  lemma WiredChildFollows(w: World, c: NodeId, x: int, e: Error, fuel: nat)
    requires Valid(w) && Wired(w, c + 1, c + 2, c) && fuel >= 3
    requires w.nodes[c].onSuccess.NoSuccess? && w.nodes[c].onFail.NoFailure?
    ensures Resolve(w, c + 1, x, fuel).nodes[c].state == Fulfilled && Resolve(w, c + 1, x, fuel).nodes[c].value == Some(x)
    ensures Reject(w, c + 1, e, fuel).nodes[c].state == Rejected && Reject(w, c + 1, e, fuel).nodes[c].error == Some(e)
  {
    NestedResolvesLater(w, c + 1, c + 2, c, x, fuel);
    NestedRejectsLater(w, c + 1, c + 2, c, e, fuel);
  }

  /**
   * flatMap over a Pending parent: a later `resolve(v)` runs the block first; the child then
   * takes the outcome of the nested promise `g(v)` when it settles at once, and otherwise
   * stays Pending, wired to the nested promise (node `c + 1`; FlattenedChildFollows).
   */
  lemma FlatOnPendingParent(w: World, id: NodeId, g: int -> Behaviour, v: int, fuel: nat)
    requires Valid(w) && id < |w.nodes| && fuel >= 3 && w.nodes[id].state == Pending
    ensures var r := RegisterThenFlat(w, id, Chain(g), fuel);
            var c := r.1;
            var ok := Resolve(r.0, id, v, fuel);
            |ok.log| > |r.0.log| && ok.log[|r.0.log|] == BlockRan(c) &&
            (g(v).ResolveNow? ==> ok.nodes[c].state == Fulfilled && ok.nodes[c].value == Some(g(v).v)) &&
            (g(v).RejectNow? ==> ok.nodes[c].state == Rejected && ok.nodes[c].error == Some(g(v).e)) &&
            (g(v).Defer? ==> ok.nodes[c].state == Pending && Wired(ok, c + 1, c + 2, c) &&
                             ok.nodes[c].onSuccess.NoSuccess? && ok.nodes[c].onFail.NoFailure?)
  {
    FlatPendingShape(w, id, Chain(g), fuel);
    var r := RegisterThenFlat(w, id, Chain(g), fuel);
    ResolveThroughFlattening(r.0, id, r.1, g, v, fuel);
  }

  /** flatMap over a Pending parent: a later `reject(e)` rejects the child with `e` without running the block. */
  lemma FlatOnPendingParentRejected(w: World, id: NodeId, g: int -> Behaviour, e: Error, fuel: nat)
    requires Valid(w) && id < |w.nodes| && fuel >= 3 && w.nodes[id].state == Pending
    ensures var r := RegisterThenFlat(w, id, Chain(g), fuel);
            var c := r.1;
            var bad := Reject(r.0, id, e, fuel);
            bad.nodes[c].state == Rejected && bad.nodes[c].error == Some(e) &&
            bad.log == r.0.log + FinallyEvents(w.nodes[id].onFinally)
  {
    FlatPendingShape(w, id, Chain(g), fuel);
    var r := RegisterThenFlat(w, id, Chain(g), fuel);
    RejectThroughForward(r.0, id, r.1, e, fuel);
  }

  /** The reactions `registerThen(block: T -> Promise<X>)` leaves on a Pending parent and its child. */
  lemma FlatPendingShape(w: World, id: NodeId, blk: FlatBlock, fuel: nat)
    requires Valid(w) && id < |w.nodes| && FlatBlockOk(blk, |w.nodes|) && fuel >= 2 && w.nodes[id].state == Pending
    ensures var r := RegisterThenFlat(w, id, blk, fuel);
            var c := |w.nodes|;
            r.1 == c && |r.0.nodes| == c + 1 && r.0.log == w.log + [Started(c)] &&
            r.0.nodes[id].onSuccess == FlattenInto(c, blk) && r.0.nodes[id].onFail == RejectChild(c) &&
            r.0.nodes[c].state == Pending &&
            r.0.nodes[c].onSuccess.NoSuccess? && r.0.nodes[c].onFail.NoFailure? && r.0.nodes[c].onFinally.NoFinally? &&
            r.0.nodes[id].onFinally == w.nodes[id].onFinally
  {
    RegisterThenFlatOutcome(w, id, blk, fuel);
  }

  /**
   * Resolving a parent whose success slot flattens into its newest node `c`: the block runs
   * first, then `c` takes the nested outcome or is wired to the nested promise `c + 1`.
   */
  lemma ResolveThroughFlattening(w: World, id: NodeId, c: NodeId, g: int -> Behaviour, v: int, fuel: nat)
    requires Valid(w) && id < |w.nodes| && c + 1 == |w.nodes| && c != id && fuel >= 3
    requires w.nodes[id].onSuccess == FlattenInto(c, Chain(g))
    requires w.nodes[c].onSuccess.NoSuccess? && w.nodes[c].onFail.NoFailure?
    ensures var ok := Resolve(w, id, v, fuel);
            |ok.log| > |w.log| && ok.log[|w.log|] == BlockRan(c) &&
            (g(v).ResolveNow? ==> ok.nodes[c].state == Fulfilled && ok.nodes[c].value == Some(g(v).v)) &&
            (g(v).RejectNow? ==> ok.nodes[c].state == Rejected && ok.nodes[c].error == Some(g(v).e)) &&
            (g(v).Defer? ==> ok.nodes[c] == w.nodes[c] && Wired(ok, c + 1, c + 2, c))
  {
    ResolveFlatteningUnfold(w, id, c, g, v, fuel);
    var s1 := SetNode(w, id, w.nodes[id].(state := Fulfilled, value := Some(v)));
    if g(v).Defer? {
      NextPromiseDefers(s1, c, g, v, fuel - 1);
    } else {
      NextPromiseSettles(s1, c, g, v, fuel - 1);
    }
  }

  /** `resolve(v)` through a flattening slot: set the state and value, run `registerNextPromise`, then the finally block. */
  lemma ResolveFlatteningUnfold(w: World, id: NodeId, c: NodeId, g: int -> Behaviour, v: int, fuel: nat)
    requires Valid(w) && id < |w.nodes| && c < |w.nodes| && fuel >= 1
    requires w.nodes[id].onSuccess == FlattenInto(c, Chain(g))
    ensures var s1 := SetNode(w, id, w.nodes[id].(state := Fulfilled, value := Some(v)));
            var d := RegisterNextPromise(s1, c, Chain(g), v, fuel - 1);
            s1.log == w.log && |s1.nodes| == |w.nodes| && (c != id ==> s1.nodes[c] == w.nodes[c]) &&
            Resolve(w, id, v, fuel) == FireFinally(d, id)
  {
  }

  /**
   * A parent whose success slot flattens into `c` (what `registerThen(block: T -> Promise<X>)`
   * installs on a Pending parent, FlatPendingShape): when the block defers on `resolve(v)`,
   * `c` later takes the nested promise's value or error.
   */
  lemma FlattenedChildFollows(w: World, id: NodeId, c: NodeId, g: int -> Behaviour, v: int, x: int, e: Error, fuel: nat)
    requires Valid(w) && id < |w.nodes| && c + 1 == |w.nodes| && c != id && fuel >= 3 && g(v).Defer?
    requires w.nodes[id].onSuccess == FlattenInto(c, Chain(g))
    requires w.nodes[c].onSuccess.NoSuccess? && w.nodes[c].onFail.NoFailure?
    ensures var ok := Resolve(w, id, v, fuel);
            c + 1 < |ok.nodes| &&
            Resolve(ok, c + 1, x, fuel).nodes[c].state == Fulfilled && Resolve(ok, c + 1, x, fuel).nodes[c].value == Some(x) &&
            Reject(ok, c + 1, e, fuel).nodes[c].state == Rejected && Reject(ok, c + 1, e, fuel).nodes[c].error == Some(e)
  {
    ResolveThroughFlattening(w, id, c, g, v, fuel);
    WiredChildFollows(Resolve(w, id, v, fuel), c, x, e, fuel);
  }

  // ---------------------------------------------------------------------------
  // Lazy start protocol (Source/Promise.swift:49-56, 176-196, 60-63)
  // ---------------------------------------------------------------------------

  /** `start()` has no guard: every call runs the node's callback again. */
  lemma StartIsUnguarded(w: World, id: NodeId, fuel: nat)
    requires Valid(w) && id < |w.nodes| && fuel >= 1
    ensures var r := Start(w, id, fuel);
            |r.log| > |w.log| && r.log[|w.log|] == Started(id)
  {
  }

  /** `startPromiseIfNeeded` runs the callback exactly when `promiseStarted` is false. */
  lemma StartIfNeededGuard(w: World, id: NodeId, fuel: nat)
    requires Valid(w) && id < |w.nodes| && fuel >= 1
    ensures var r := StartIfNeeded(w, id, fuel);
            (w.nodes[id].promiseStarted ==> r == w) &&
            (!w.nodes[id].promiseStarted ==> |r.log| > |w.log| && r.log[|w.log|] == Started(id))
  {
  }

  /**
   * `tryStartInitialPromise` runs the inherited root start only while `initialPromiseStarted`
   * is false, and sets the flag; with no inherited start it only sets the flag.
   */
  lemma TryStartInitialGuard(w: World, id: NodeId, fuel: nat)
    requires Valid(w) && id < |w.nodes| && fuel >= 1
    ensures var r := TryStartInitial(w, id, fuel);
            var x := w.nodes[id];
            (x.initialStarted ==> r == w) &&
            (!x.initialStarted && x.initialStart.Some? ==> |r.log| > |w.log| && r.log[|w.log|] == Started(x.initialStart.value)) &&
            (!x.initialStarted && x.initialStart.None? ==> r == SetNode(w, id, x.(initialStarted := true)))
  {
  }

  /** Chain steps built with `then` (map-style or flatMap-style) and `onError`. */
  datatype Step = MapStep(f: int -> int) | FlatStep(g: int -> Behaviour) | RecoverStep(h: Error -> int)

  function ApplyStep(w: World, tip: NodeId, s: Step, fuel: nat): (r: (World, NodeId))
    requires Valid(w) && tip < |w.nodes|
    ensures Valid(r.0) && Grows(w, r.0) && r.1 < |r.0.nodes|
  {
    match s
    case MapStep(f) => Then(w, tip, Transform(f), fuel)
    case FlatStep(g) => ThenFlat(w, tip, Chain(g), fuel)
    case RecoverStep(h) => OnError(w, tip, Handle(h), fuel)
  }

  /** `tip.then(...).onError(...)...`: each step is applied to the node the previous one returned. */
  function BuildChain(w: World, tip: NodeId, steps: seq<Step>, fuel: nat): (r: (World, NodeId))
    requires Valid(w) && tip < |w.nodes|
    ensures Valid(r.0) && Grows(w, r.0) && r.1 < |r.0.nodes|
    decreases |steps|
  {
    if steps == [] then (w, tip)
    else
      var next := ApplyStep(w, tip, steps[0], fuel);
      BuildChain(next.0, next.1, steps[1..], fuel)
  }

  /** How many times the producer of `id` has been started. */
  function StartCount(log: seq<Event>, id: NodeId): (r: nat) {
    multiset(log)[Started(id)]
  }

  /** `tip` has run both start steps and hands `root.start` to its children. */
  predicate InChainOf(w: World, root: NodeId, tip: NodeId) {
    tip < |w.nodes| && Booted(w.nodes[tip]) && Trigger(w, tip) == Some(root)
  }

  /** What a map-style `registerThen` does to the start bookkeeping: the child is started, inherits the root trigger, and only its own start is logged, followed by its block's run exactly when the parent is already Fulfilled. */
  lemma MapStepFacts(w: World, id: NodeId, f: int -> int, fuel: nat)
    requires Valid(w) && id < |w.nodes| && fuel >= 2
    ensures var r := RegisterThen(w, id, Transform(f), fuel);
            var c := |w.nodes|;
            r.1 == c && r.0.nodes[c].promiseStarted &&
            r.0.nodes[c].initialStart == Trigger(w, id) && r.0.nodes[c].initialStarted == w.nodes[id].initialStarted &&
            (w.nodes[id].state == Fulfilled ==> r.0.log == w.log + [Started(c), BlockRan(c)]) &&
            (w.nodes[id].state != Fulfilled ==> r.0.log == w.log + [Started(c)])
  {
    match w.nodes[id].state
    case Fulfilled => RegisterThenFulfilled(w, id, f, fuel);
    case Rejected => RegisterThenRejected(w, id, f, fuel);
    case Pending => RegisterThenPending(w, id, f, fuel);
  }

  /** The same bookkeeping for `registerOnError`; here the block runs at once exactly when the parent is already Rejected. */
  lemma RecoverStepFacts(w: World, id: NodeId, h: Error -> int, fuel: nat)
    requires Valid(w) && id < |w.nodes| && fuel >= 2
    ensures var r := RegisterOnError(w, id, Handle(h), fuel);
            var c := |w.nodes|;
            r.1 == c && r.0.nodes[c].promiseStarted &&
            r.0.nodes[c].initialStart == Trigger(w, id) && r.0.nodes[c].initialStarted == w.nodes[id].initialStarted &&
            (w.nodes[id].state == Rejected ==> r.0.log == w.log + [Started(c), BlockRan(c)]) &&
            (w.nodes[id].state != Rejected ==> r.0.log == w.log + [Started(c)])
  {
    match w.nodes[id].state
    case Fulfilled => RegisterOnErrorFulfilled(w, id, h, fuel);
    case Rejected => RegisterOnErrorRejected(w, id, h, fuel);
    case Pending => RegisterOnErrorPending(w, id, h, fuel);
  }

  /** Every start recorded in `events` is of a node numbered `k` or above. */
  predicate StartsFrom(events: seq<Event>, k: nat) {
    forall e | e in events && e.Started? :: e.id >= k
  }

  /** Starts of nodes numbered `k` or above leave the start count of an older node unchanged. */
  lemma LaterStartsKeepCount(a: seq<Event>, b: seq<Event>, k: nat, root: NodeId)
    requires a <= b && StartsFrom(b[|a|..], k) && root < k
    ensures StartCount(b, root) == StartCount(a, root)
  {
    assert b == a + b[|a|..];
    assert Started(root) !in b[|a|..];
  }

  /**
   * `registerNextPromise` with a user block starts only nodes it creates itself, and leaves
   * the start flags of `c` and of every other old node as they were.
   */
  lemma NextPromiseStartsOnlyNew(w: World, c: NodeId, g: int -> Behaviour, t: int, fuel: nat)
    requires Valid(w) && c < |w.nodes| && fuel >= 2
    requires w.nodes[c].onSuccess.NoSuccess? && w.nodes[c].onFail.NoFailure?
    ensures var r := RegisterNextPromise(w, c, Chain(g), t, fuel);
            StartsFrom(r.log[|w.log|..], |w.nodes|)
  {
    var n := |w.nodes|;
    var r := RegisterNextPromise(w, c, Chain(g), t, fuel);
    var d: seq<Event>;
    if g(t).Defer? {
      NextPromiseDefersLog(w, c, g, t, fuel);
      d := [BlockRan(c), Started(n), Started(n + 1), Started(n + 2)];
    } else {
      NextPromiseSettlesLog(w, c, g, t, fuel);
      var fin := FinallyEvents(w.nodes[c].onFinally);
      if g(t).ResolveNow? {
        d := [BlockRan(c), Started(n), Started(n + 1), BlockRan(n + 1)] + fin + [Started(n + 2)];
      } else {
        d := [BlockRan(c), Started(n), Started(n + 1), Started(n + 2), BlockRan(n + 2)] + fin;
      }
    }
    assert r.log == w.log + d;
    assert StartsFrom(d, n);
    assert r.log[|w.log|..] == d;
  }

  /** `registerNextPromise` with a user block keeps the start flag of `c` and every other old node. */
  lemma NextPromiseKeepsFlags(w: World, c: NodeId, g: int -> Behaviour, t: int, fuel: nat)
    requires Valid(w) && c < |w.nodes| && fuel >= 2
    requires w.nodes[c].onSuccess.NoSuccess? && w.nodes[c].onFail.NoFailure?
    ensures var r := RegisterNextPromise(w, c, Chain(g), t, fuel);
            r.nodes[c].promiseStarted == w.nodes[c].promiseStarted &&
            (forall j | 0 <= j < |w.nodes| && j != c :: r.nodes[j] == w.nodes[j])
  {
    NextPromiseFromBlock(w, c, g, t, fuel);
  }

  /** On a promise whose two start flags are set, flatMap `then` is just `registerThen`. */
  lemma ThenFlatOnBooted(w: World, id: NodeId, blk: FlatBlock, fuel: nat)
    requires Valid(w) && id < |w.nodes| && FlatBlockOk(blk, |w.nodes|) && Booted(w.nodes[id])
    ensures ThenFlat(w, id, blk, fuel) == RegisterThenFlat(w, id, blk, fuel)
  {
  }

  /**
   * What a flatMap-style `registerThen` does to the start bookkeeping: the child is started
   * and inherits the root trigger; its own start is logged first, and every later start is
   * of a node the call created (the nested promise and the two forwarding nodes).
   */
  lemma FlatStepFacts(w: World, id: NodeId, g: int -> Behaviour, fuel: nat)
    requires Valid(w) && id < |w.nodes| && fuel >= 3
    ensures var r := RegisterThenFlat(w, id, Chain(g), fuel);
            var c := |w.nodes|;
            r.1 == c && r.0.nodes[c].promiseStarted &&
            r.0.nodes[c].initialStart == Trigger(w, id) && r.0.nodes[c].initialStarted == w.nodes[id].initialStarted &&
            w.log + [Started(c)] <= r.0.log && StartsFrom(r.0.log[|w.log|..], c)
  {
    var c := |w.nodes|;
    if w.nodes[id].state == Fulfilled {
      RegisterThenFlatOnFulfilled(w, id, Chain(g), fuel);
      var w2 := StartedChild(w, FlatOf(id, Chain(g)));
      FlatFulfilledBookkeeping(w, id, g, fuel, w2, RegisterNextPromise(w2, c, Chain(g), w.nodes[id].value.value, fuel - 1));
    } else {
      RegisterThenFlatOutcome(w, id, Chain(g), fuel);
      assert RegisterThenFlat(w, id, Chain(g), fuel).0.log[|w.log|..] == [Started(c)];
    }
  }

  /** FlatStepFacts over a Fulfilled parent, stated on the world after the child is started and `registerNextPromise` has run. */
  lemma FlatFulfilledBookkeeping(w: World, id: NodeId, g: int -> Behaviour, fuel: nat, w2: World, d: World)
    requires Valid(w) && id < |w.nodes| && fuel >= 3 && w.nodes[id].state == Fulfilled
    requires w2 == StartedChild(w, FlatOf(id, Chain(g)))
    requires d == RegisterNextPromise(w2, |w.nodes|, Chain(g), w.nodes[id].value.value, fuel - 1)
    ensures var c := |w.nodes|;
            var r := PassAlong(d, id, c);
            r.nodes[c].promiseStarted &&
            r.nodes[c].initialStart == Trigger(w, id) && r.nodes[c].initialStarted == w.nodes[id].initialStarted &&
            w.log + [Started(c)] <= r.log && StartsFrom(r.log[|w.log|..], c)
  {
    var c := |w.nodes|;
    var v := w.nodes[id].value.value;
    assert w2.log == w.log + [Started(c)] && |w2.nodes| == c + 1 && w2.nodes[id] == w.nodes[id];
    assert w2.nodes[c].promiseStarted && w2.nodes[c].onSuccess.NoSuccess? && w2.nodes[c].onFail.NoFailure?;
    NextPromiseStartsOnlyNew(w2, c, g, v, fuel - 1);
    NextPromiseKeepsFlags(w2, c, g, v, fuel - 1);
    assert d.nodes[id] == w.nodes[id] && d.nodes[c].promiseStarted;
    var r := PassAlong(d, id, c);
    assert r.nodes[c].promiseStarted && r.nodes[c].initialStart == Trigger(w, id);
    assert d.log[|w.log|..] == [Started(c)] + d.log[|w2.log|..];
  }

  /** One step on a node whose chain is already started starts nothing but nodes the step creates, and passes the root trigger on. */
  lemma StepKeepsRootCount(w: World, root: NodeId, tip: NodeId, s: Step, fuel: nat)
    requires Valid(w) && root < |w.nodes| && InChainOf(w, root, tip) && fuel >= 3
    ensures var r := ApplyStep(w, tip, s, fuel);
            InChainOf(r.0, root, r.1) && StartCount(r.0.log, root) == StartCount(w.log, root)
  {
    match s
    case MapStep(f) =>
      ThenOnBooted(w, tip, Transform(f), fuel);
      MapStepFacts(w, tip, f, fuel);
    case FlatStep(g) =>
      ThenFlatOnBooted(w, tip, Chain(g), fuel);
      FlatStepFacts(w, tip, g, fuel);
      LaterStartsKeepCount(w.log, ApplyStep(w, tip, s, fuel).0.log, |w.nodes|, root);
    case RecoverStep(h) =>
      OnErrorOnBooted(w, tip, Handle(h), fuel);
      RecoverStepFacts(w, tip, h, fuel);
  }

  lemma FirstMapStartsRoot(w: World, root: NodeId, f: int -> int, fuel: nat)
    requires Valid(w) && root < |w.nodes| && FreshRoot(w.nodes[root]) && fuel >= 2
    ensures var r := Then(w, root, Transform(f), fuel);
            InChainOf(r.0, root, r.1) && StartCount(r.0.log, root) == StartCount(w.log, root) + 1
  {
    var p := StartIfNeeded(TryStartInitial(w, root, fuel), root, fuel);
    PreambleOnFreshRoot(w, root, fuel);
    assert Then(w, root, Transform(f), fuel) == RegisterThen(p, root, Transform(f), fuel);
    MapStepFacts(p, root, f, fuel);
  }

  lemma FirstRecoverStartsRoot(w: World, root: NodeId, h: Error -> int, fuel: nat)
    requires Valid(w) && root < |w.nodes| && FreshRoot(w.nodes[root]) && fuel >= 2
    ensures var r := OnError(w, root, Handle(h), fuel);
            InChainOf(r.0, root, r.1) && StartCount(r.0.log, root) == StartCount(w.log, root) + 1
  {
    var p := StartIfNeeded(TryStartInitial(w, root, fuel), root, fuel);
    PreambleOnFreshRoot(w, root, fuel);
    assert OnError(w, root, Handle(h), fuel) == RegisterOnError(p, root, Handle(h), fuel);
    RecoverStepFacts(p, root, h, fuel);
  }

  lemma FirstFlatStartsRoot(w: World, root: NodeId, g: int -> Behaviour, fuel: nat)
    requires Valid(w) && root < |w.nodes| && FreshRoot(w.nodes[root]) && fuel >= 3
    ensures var r := ThenFlat(w, root, Chain(g), fuel);
            InChainOf(r.0, root, r.1) && StartCount(r.0.log, root) == StartCount(w.log, root) + 1
  {
    var p := StartIfNeeded(TryStartInitial(w, root, fuel), root, fuel);
    PreambleOnFreshRoot(w, root, fuel);
    assert ThenFlat(w, root, Chain(g), fuel) == RegisterThenFlat(p, root, Chain(g), fuel);
    FlatStepFacts(p, root, g, fuel);
    LaterStartsKeepCount(p.log, RegisterThenFlat(p, root, Chain(g), fuel).0.log, |p.nodes|, root);
  }

  /** The first step on a fresh root runs the root producer once and starts the chain. */
  lemma FirstStepStartsRoot(w: World, root: NodeId, s: Step, fuel: nat)
    requires Valid(w) && root < |w.nodes| && FreshRoot(w.nodes[root]) && fuel >= 3
    ensures var r := ApplyStep(w, root, s, fuel);
            InChainOf(r.0, root, r.1) && StartCount(r.0.log, root) == StartCount(w.log, root) + 1
  {
    match s
    case MapStep(f) => FirstMapStartsRoot(w, root, f, fuel);
    case FlatStep(g) => FirstFlatStartsRoot(w, root, g, fuel);
    case RecoverStep(h) => FirstRecoverStartsRoot(w, root, h, fuel);
  }

  lemma {:induction false} ChainKeepsRootCount(w: World, root: NodeId, tip: NodeId, steps: seq<Step>, fuel: nat)
    requires Valid(w) && root < |w.nodes| && InChainOf(w, root, tip) && fuel >= 3
    ensures var r := BuildChain(w, tip, steps, fuel);
            InChainOf(r.0, root, r.1) && StartCount(r.0.log, root) == StartCount(w.log, root)
    decreases |steps|
  {
    if steps != [] {
      StepKeepsRootCount(w, root, tip, steps[0], fuel);
      var next := ApplyStep(w, tip, steps[0], fuel);
      ChainKeepsRootCount(next.0, root, next.1, steps[1..], fuel);
    }
  }

  /**
   * Root-start-once: creating a root runs nothing, and any non-empty chain of `then` (map or
   * flatMap) and `onError` built from it runs the root producer exactly once, however long the chain.
   */
  lemma {:induction false} RootStartsOnce(w: World, b: Behaviour, steps: seq<Step>, fuel: nat)
    requires Valid(w) && |steps| >= 1 && fuel >= 3
    ensures var root := Create(w, b);
            StartCount(root.0.log, root.1) == StartCount(w.log, root.1) &&
            StartCount(BuildChain(root.0, root.1, steps, fuel).0.log, root.1) == StartCount(w.log, root.1) + 1
  {
    var root := Create(w, b);
    FirstStepStartsRoot(root.0, root.1, steps[0], fuel);
    var next := ApplyStep(root.0, root.1, steps[0], fuel);
    ChainKeepsRootCount(next.0, root.1, next.1, steps[1..], fuel);
  }

  // ---------------------------------------------------------------------------
  // Settling the root of a built chain (Source/Promise.swift:66-83, 131-154, 211-223)
  // ---------------------------------------------------------------------------

  /** What a promise is settled with: a value or an error. */
  datatype Outcome = Value(v: int) | Failure(e: Error)

  /** Steps whose reactions settle their child synchronously: map `then` and `onError`. */
  predicate Plain(steps: seq<Step>) {
    forall i | 0 <= i < |steps| :: !steps[i].FlatStep?
  }

  /**
   * What one step hands its child when its parent settles with `o`: a map step applies `f`
   * to a value and passes a failure on; an onError step recovers a failure with `h` and turns
   * a value into the synthetic error.
   */
  function StepOutcome(s: Step, o: Outcome): (r: Outcome)
    requires !s.FlatStep?
  {
    match s
    case MapStep(f) => (match o case Value(v) => Value(f(v)) case Failure(e) => Failure(e))
    case RecoverStep(h) => (match o case Value(_) => Failure(Synthetic) case Failure(e) => Value(h(e)))
  }

  /** What the last promise of a chain of `steps` is settled with when its root settles with `o`. */
  function ChainOutcome(steps: seq<Step>, o: Outcome): (r: Outcome)
    requires Plain(steps)
    decreases |steps|
  {
    if steps == [] then o else ChainOutcome(steps[1..], StepOutcome(steps[0], o))
  }

  /** `resolve` for a value, `reject` for a failure. */
  function Settle(w: World, id: NodeId, o: Outcome, fuel: nat): (r: World)
    requires Valid(w) && id < |w.nodes|
    ensures Valid(r) && Grows(w, r)
  {
    match o
    case Value(v) => Resolve(w, id, v, fuel)
    case Failure(e) => Reject(w, id, e, fuel)
  }

  /** `x` is settled with `o`. */
  predicate Holds(x: Node, o: Outcome) {
    match o
    case Value(v) => x.state == Fulfilled && x.value == Some(v)
    case Failure(e) => x.state == Rejected && x.error == Some(e)
  }

  /** `x` after the settlement methods set its state and outcome field. */
  function Mark(x: Node, o: Outcome): (r: Node)
    ensures Holds(r, o) && r.onSuccess == x.onSuccess && r.onFail == x.onFail && r.onFinally == x.onFinally
  {
    match o
    case Value(v) => x.(state := Fulfilled, value := Some(v))
    case Failure(e) => x.(state := Rejected, error := Some(e))
  }

  /** `x` carries the reactions step `s` installs on a Pending parent for its child `c`. */
  ghost predicate Reacts(x: Node, s: Step, c: NodeId) {
    match s
    case MapStep(f) => x.onSuccess == ResolveChild(c, Transform(f)) && x.onFail == RejectChild(c)
    case RecoverStep(h) => x.onSuccess == RejectSynthetic(c) && x.onFail == RecoverChild(c, Handle(h))
    case FlatStep(_) => false
  }

  /** The distinct promises `ids` form a chain: `ids[i]` settles `ids[i + 1]` as `steps[i]` says, and the last one has no reactions. */
  ghost predicate Linked(w: World, ids: seq<NodeId>, steps: seq<Step>) {
    |ids| == |steps| + 1 &&
    (forall i | 0 <= i < |ids| :: ids[i] < |w.nodes|) &&
    (forall i, j | 0 <= i < j < |ids| :: ids[i] != ids[j]) &&
    (forall i | 0 <= i < |steps| :: Reacts(w.nodes[ids[i]], steps[i], ids[i + 1])) &&
    w.nodes[ids[|steps|]].onSuccess.NoSuccess? && w.nodes[ids[|steps|]].onFail.NoFailure?
  }

  /** Settling a promise whose reactions are those of step `s`: mark it, run the block if `s` has one for `o`, settle `c`, then run the finally block. */
  lemma SettleStep(w: World, a: NodeId, c: NodeId, s: Step, o: Outcome, fuel: nat)
    requires Valid(w) && a < |w.nodes| && c < |w.nodes| && fuel >= 1 && Reacts(w.nodes[a], s, c)
    ensures var ran := (s.MapStep? && o.Value?) || (s.RecoverStep? && o.Failure?);
            var w2 := World(w.nodes[a := Mark(w.nodes[a], o)], w.log + (if ran then [BlockRan(c)] else []));
            Valid(w2) && Settle(w, a, o, fuel) == FireFinally(Settle(w2, c, StepOutcome(s, o), fuel - 1), a) &&
            Settle(w, a, o, fuel).nodes == Settle(w2, c, StepOutcome(s, o), fuel - 1).nodes
  {
    var w1 := SetNode(w, a, Mark(w.nodes[a], o));
    assert w1.log + [] == w1.log;
    match o
    case Value(v) =>
      assert Settle(w, a, o, fuel) == FireFinally(FireSuccess(w1, a, v, fuel - 1), a);
      match s {
        case MapStep(f) =>
          assert FireSuccess(w1, a, v, fuel - 1) == Resolve(Emit(w1, BlockRan(c)), c, f(v), fuel - 1);
        case RecoverStep(h) =>
      }
    case Failure(e) =>
      assert Settle(w, a, o, fuel) == FireFinally(FireFailure(w1, a, e, fuel - 1), a);
      match s {
        case MapStep(f) =>
        case RecoverStep(h) =>
          assert FireFailure(w1, a, e, fuel - 1) == Resolve(Emit(w1, BlockRan(c)), c, h(e), fuel - 1);
      }
  }

  /**
   * `rn` is `nodes` after the chain `ids` was settled from `o`: every promise of the chain
   * holds what the steps before it make of `o`, and no promise outside the chain changed.
   */
  ghost predicate Cascaded(nodes: seq<Node>, ids: seq<NodeId>, steps: seq<Step>, o: Outcome, rn: seq<Node>) {
    Plain(steps) && |ids| == |steps| + 1 && |rn| == |nodes| &&
    (forall i | 0 <= i < |ids| :: ids[i] < |nodes|) &&
    (forall j | 0 <= j < |nodes| && j !in ids :: rn[j] == nodes[j]) &&
    (forall i | 0 <= i < |ids| :: Holds(rn[ids[i]], ChainOutcome(steps[..i], o)))
  }

  /** Settling the head of a chain with `o` settles the whole chain as the steps say and changes nothing else. */
  lemma SettleCascades(w: World, ids: seq<NodeId>, steps: seq<Step>, o: Outcome, fuel: nat)
    requires Valid(w) && Linked(w, ids, steps) && fuel > |steps|
    ensures Cascaded(w.nodes, ids, steps, o, Settle(w, ids[0], o, fuel).nodes)
  {
    var rn := CascadeNodes(w, ids, steps, o, fuel);
  }

  /** The induction behind `SettleCascades`, with the settled promises `rn` named. */
  lemma {:induction false} CascadeNodes(w: World, ids: seq<NodeId>, steps: seq<Step>, o: Outcome, fuel: nat) returns (rn: seq<Node>)
    requires Valid(w) && Linked(w, ids, steps) && fuel > |steps|
    ensures rn == Settle(w, ids[0], o, fuel).nodes && Cascaded(w.nodes, ids, steps, o, rn)
    decreases |steps|
  {
    rn := Settle(w, ids[0], o, fuel).nodes;
    if steps == [] {
      CascadeLeaf(w, ids, o, fuel);
    } else {
      var w2 := SettleHead(w, ids, steps, o, fuel);
      var rest := CascadeNodes(w2, ids[1..], steps[1..], StepOutcome(steps[0], o), fuel - 1);
      CascadeHead(w, w2.nodes, ids, ids[1..], steps, o, StepOutcome(steps[0], o), rest);
    }
  }

  /** Settling a chain of one promise marks it settled with `o` and changes nothing else. */
  lemma CascadeLeaf(w: World, ids: seq<NodeId>, o: Outcome, fuel: nat)
    requires Valid(w) && Linked(w, ids, []) && fuel >= 1
    ensures Cascaded(w.nodes, ids, [], o, Settle(w, ids[0], o, fuel).nodes)
  {
    var a := ids[0];
    match o {
      case Value(v) => ResolveLeaf(w, a, v, fuel);
      case Failure(e) => RejectLeaf(w, a, e, fuel);
    }
    var rn := Settle(w, a, o, fuel).nodes;
    assert rn == w.nodes[a := Mark(w.nodes[a], o)];
    var none: seq<Step> := [];
    assert none[..0] == [];
    assert Holds(rn[ids[0]], ChainOutcome(none[..0], o));
  }

  /** Settling the head of a chain settles the rest of it from the world `w2` where only the head is marked settled. */
  lemma SettleHead(w: World, ids: seq<NodeId>, steps: seq<Step>, o: Outcome, fuel: nat) returns (w2: World)
    requires Valid(w) && Linked(w, ids, steps) && |steps| >= 1 && fuel > |steps|
    ensures Valid(w2) && Linked(w2, ids[1..], steps[1..]) && !steps[0].FlatStep?
    ensures w2.nodes == w.nodes[ids[0] := Mark(w.nodes[ids[0]], o)]
    ensures Settle(w, ids[0], o, fuel).nodes == Settle(w2, ids[1..][0], StepOutcome(steps[0], o), fuel - 1).nodes
  {
    var a, c := ids[0], ids[1];
    assert Reacts(w.nodes[a], steps[0], c);
    var ran := (steps[0].MapStep? && o.Value?) || (steps[0].RecoverStep? && o.Failure?);
    w2 := World(w.nodes[a := Mark(w.nodes[a], o)], w.log + (if ran then [BlockRan(c)] else []));
    SettleStep(w, a, c, steps[0], o, fuel);
    LinkedTail(w, w2, ids, steps, o);
  }

  /** The head of a chain marked settled with `o` and the rest settled as the later steps say: the whole chain is settled as the steps say. */
  lemma CascadeHead(w: World, head: seq<Node>, ids: seq<NodeId>, tail: seq<NodeId>, steps: seq<Step>, o: Outcome, o2: Outcome, rn: seq<Node>)
    requires Linked(w, ids, steps) && |steps| >= 1 && !steps[0].FlatStep? && tail == ids[1..]
    requires head == w.nodes[ids[0] := Mark(w.nodes[ids[0]], o)] && o2 == StepOutcome(steps[0], o)
    requires Cascaded(head, tail, steps[1..], o2, rn)
    ensures Cascaded(w.nodes, ids, steps, o, rn)
  {
    var nodes := w.nodes;
    assert Reacts(nodes[ids[0]], steps[0], ids[1]);
    var a := ids[0];
    assert a !in ids[1..] by {
      forall k | 0 <= k < |ids[1..]| ensures ids[1..][k] != a { assert ids[0] != ids[k + 1]; }
    }
    assert rn[a] == Mark(nodes[a], o);
    assert Plain(steps) by {
      forall k | 0 <= k < |steps| ensures !steps[k].FlatStep? { if k > 0 { assert steps[k] == steps[1..][k - 1]; } }
    }
    forall j | 0 <= j < |nodes| && j !in ids ensures rn[j] == nodes[j] {
      assert j !in ids[1..];
    }
    forall i | 0 <= i < |ids| ensures Holds(rn[ids[i]], ChainOutcome(steps[..i], o)) {
      if i == 0 {
        assert steps[..0] == [];
      } else {
        assert ids[i] == ids[1..][i - 1];
        assert steps[..i][1..] == steps[1..][..i - 1];
      }
    }
  }

  /** The tail of a chain whose head was only marked settled (and a block logged) is still a chain. */
  lemma LinkedTail(w: World, w2: World, ids: seq<NodeId>, steps: seq<Step>, o: Outcome)
    requires Linked(w, ids, steps) && |steps| >= 1
    requires w2.nodes == w.nodes[ids[0] := Mark(w.nodes[ids[0]], o)]
    ensures Linked(w2, ids[1..], steps[1..])
  {
    forall i | 1 <= i < |ids| ensures w2.nodes[ids[i]] == w.nodes[ids[i]] {
      assert ids[0] != ids[i];
    }
    forall i | 0 <= i < |steps| - 1 ensures Reacts(w2.nodes[ids[1..][i]], steps[1..][i], ids[1..][i + 1]) {
      assert Reacts(w.nodes[ids[i + 1]], steps[i + 1], ids[i + 2]);
    }
  }

  /** `k` consecutive ids from `n`. */
  function Span(n: nat, k: nat): (r: seq<NodeId>)
    ensures |r| == k && forall i | 0 <= i < k :: r[i] == n + i
  {
    seq(k, i => n + i)
  }

  /**
   * A map `then` or `onError` on a started, Pending promise at the end of a chain: the
   * promise now settles the new child as the step says, and the child ends the longer chain.
   */
  lemma StepExtendsLinked(w: World, ids: seq<NodeId>, steps: seq<Step>, s: Step, fuel: nat)
    requires Valid(w) && Linked(w, ids, steps) && fuel >= 2 && !s.FlatStep?
    requires Booted(w.nodes[ids[|steps|]]) && w.nodes[ids[|steps|]].state == Pending
    ensures var r := ApplyStep(w, ids[|steps|], s, fuel);
            r.1 == |w.nodes| && |r.0.nodes| == |w.nodes| + 1 &&
            Linked(r.0, ids + [r.1], steps + [s]) &&
            Booted(r.0.nodes[r.1]) && r.0.nodes[r.1].state == Pending
  {
    var tip := ids[|steps|];
    var c := |w.nodes|;
    var r := ApplyStep(w, tip, s, fuel);
    match s {
      case MapStep(f) =>
        ThenOnBooted(w, tip, Transform(f), fuel);
        RegisterThenPending(w, tip, f, fuel);
      case RecoverStep(h) =>
        OnErrorOnBooted(w, tip, Handle(h), fuel);
        RegisterOnErrorPending(w, tip, h, fuel);
    }
    assert Reacts(r.0.nodes[tip], s, c);
    forall i | 0 <= i < |steps| ensures r.0.nodes[ids[i]] == w.nodes[ids[i]] {
      assert ids[i] != tip;
    }
    var ids2 := ids + [c];
    var steps2 := steps + [s];
    forall i | 0 <= i < |steps2| ensures Reacts(r.0.nodes[ids2[i]], steps2[i], ids2[i + 1]) {
      if i < |steps| {
        assert Reacts(w.nodes[ids[i]], steps[i], ids[i + 1]);
      }
    }
  }

  /** Building a chain of map `then` and `onError` steps on a started, Pending chain end extends the chain by consecutive new promises. */
  lemma {:induction false} ChainLinks(w: World, ids: seq<NodeId>, done: seq<Step>, steps: seq<Step>, fuel: nat)
    requires Valid(w) && Linked(w, ids, done) && fuel >= 2 && Plain(steps)
    requires Booted(w.nodes[ids[|done|]]) && w.nodes[ids[|done|]].state == Pending
    ensures var r := BuildChain(w, ids[|done|], steps, fuel);
            |r.0.nodes| == |w.nodes| + |steps| &&
            Linked(r.0, ids + Span(|w.nodes|, |steps|), done + steps) && r.1 == (ids + Span(|w.nodes|, |steps|))[|done| + |steps|]
    decreases |steps|
  {
    var all := ids + Span(|w.nodes|, |steps|);
    if steps == [] {
      assert all == ids && done + steps == done;
      assert BuildChain(w, ids[|done|], steps, fuel) == (w, ids[|done|]);
    } else {
      var n := |w.nodes|;
      var next := ChainStep(w, ids, done, steps, fuel);
      ChainLinks(next, ids + [n], done + [steps[0]], steps[1..], fuel);
      SpanStep(ids, done, steps, n);
    }
  }

  /** The first step of `steps` on the end of a chain extends it by the new promise `|w.nodes|`, from which the rest is built. */
  lemma ChainStep(w: World, ids: seq<NodeId>, done: seq<Step>, steps: seq<Step>, fuel: nat) returns (next: World)
    requires Valid(w) && Linked(w, ids, done) && fuel >= 2 && Plain(steps) && steps != []
    requires Booted(w.nodes[ids[|done|]]) && w.nodes[ids[|done|]].state == Pending
    ensures Valid(next) && |next.nodes| == |w.nodes| + 1 && Plain(steps[1..])
    ensures Linked(next, ids + [|w.nodes|], done + [steps[0]]) && |done + [steps[0]]| == |done| + 1
    ensures (ids + [|w.nodes|])[|done| + 1] == |w.nodes|
    ensures Booted(next.nodes[|w.nodes|]) && next.nodes[|w.nodes|].state == Pending
    ensures BuildChain(w, ids[|done|], steps, fuel) == BuildChain(next, |w.nodes|, steps[1..], fuel)
  {
    StepExtendsLinked(w, ids, done, steps[0], fuel);
    next := ApplyStep(w, ids[|done|], steps[0], fuel).0;
  }

  /** Moving the first step of `steps` onto the chain built so far moves its new id onto the ids. */
  lemma SpanStep(ids: seq<NodeId>, done: seq<Step>, steps: seq<Step>, n: nat)
    requires |steps| >= 1
    ensures ids + [n] + Span(n + 1, |steps| - 1) == ids + Span(n, |steps|)
    ensures done + [steps[0]] + steps[1..] == done + steps
  {
    assert [n] + Span(n + 1, |steps| - 1) == Span(n, |steps|);
    assert [steps[0]] + steps[1..] == steps;
  }

  /** The first step on a fresh deferred root runs its producer, which does nothing; the chain is then built on the started root. */
  lemma DeferredRootStarts(w: World, n: NodeId, steps: seq<Step>, fuel: nat)
    requires Valid(w) && n < |w.nodes| && FreshRoot(w.nodes[n]) && w.nodes[n].origin.behaviour == Defer
    requires steps != [] && !steps[0].FlatStep? && fuel >= 2
    ensures var p := World(w.nodes[n := Launched(Defer)], w.log + [Started(n)]);
            Valid(p) && BuildChain(w, n, steps, fuel) == BuildChain(p, n, steps, fuel)
  {
    PreambleOnFreshRoot(w, n, fuel);
    var p := World(w.nodes[n := Launched(Defer)], w.log + [Started(n)]);
    match steps[0] {
      case MapStep(f) =>
        assert Then(w, n, Transform(f), fuel) == RegisterThen(p, n, Transform(f), fuel);
        ThenOnBooted(p, n, Transform(f), fuel);
      case RecoverStep(h) =>
        assert OnError(w, n, Handle(h), fuel) == RegisterOnError(p, n, Handle(h), fuel);
        OnErrorOnBooted(p, n, Handle(h), fuel);
    }
  }

  /**
   * A chain of map `then` and `onError` steps built on a new deferred root: the root and the
   * promises the steps create, numbered consecutively, form a chain in that order.
   */
  lemma DeferredChainLinked(w: World, steps: seq<Step>, fuel: nat)
    requires Valid(w) && Plain(steps) && fuel >= 2
    ensures var root := Create(w, Defer);
            var chain := BuildChain(root.0, root.1, steps, fuel);
            chain.1 == root.1 + |steps| && |chain.0.nodes| == root.1 + |steps| + 1 &&
            Linked(chain.0, Span(root.1, |steps| + 1), steps)
  {
    var root := Create(w, Defer);
    var n := root.1;
    if steps == [] {
      assert Span(n, 1) == [n];
    } else {
      DeferredRootStarts(root.0, n, steps, fuel);
      var p := World(root.0.nodes[n := Launched(Defer)], root.0.log + [Started(n)]);
      assert Linked(p, [n], []) && |p.nodes| == n + 1;
      ChainLinks(p, [n], [], steps, fuel);
      assert [n] + Span(n + 1, |steps|) == Span(n, |steps| + 1);
      assert [] + steps == steps;
    }
  }

  /**
   * A chain of map `then` and `onError` steps on a deferred root, settled later: resolving or
   * rejecting the root with `o` settles the root and every promise the chain created (numbered
   * consecutively from the root) with what the steps before it make of `o`.
   */
  lemma ChainFollowsRoot(w: World, steps: seq<Step>, o: Outcome, fuel: nat)
    requires Valid(w) && Plain(steps) && fuel >= 2 && fuel > |steps|
    ensures var root := Create(w, Defer);
            var chain := BuildChain(root.0, root.1, steps, fuel);
            var r := Settle(chain.0, root.1, o, fuel);
            chain.1 == root.1 + |steps| && |r.nodes| == root.1 + |steps| + 1 &&
            forall i | 0 <= i <= |steps| :: Holds(r.nodes[root.1 + i], ChainOutcome(steps[..i], o))
  {
    var root := Create(w, Defer);
    var n := root.1;
    var chain := BuildChain(root.0, n, steps, fuel);
    DeferredChainLinked(w, steps, fuel);
    SettleSpan(chain.0, n, steps, o, fuel);
  }

  /** Settling the head `n` of a chain of consecutive ids settles promise `n + i` with what the first `i` steps make of `o`. */
  lemma SettleSpan(w: World, n: NodeId, steps: seq<Step>, o: Outcome, fuel: nat)
    requires Valid(w) && Plain(steps) && Linked(w, Span(n, |steps| + 1), steps) && n + |steps| < |w.nodes| && fuel > |steps|
    ensures var rn := Settle(w, n, o, fuel).nodes;
            |rn| == |w.nodes| && forall i | 0 <= i <= |steps| :: Holds(rn[n + i], ChainOutcome(steps[..i], o))
  {
    SettleCascades(w, Span(n, |steps| + 1), steps, o, fuel);
    CascadedSpan(w.nodes, n, steps, o, Settle(w, n, o, fuel).nodes);
  }

  /** A chain of consecutive ids from `n`, settled: promise `n + i` holds what the first `i` steps make of `o`. */
  lemma CascadedSpan(nodes: seq<Node>, n: nat, steps: seq<Step>, o: Outcome, rn: seq<Node>)
    requires n + |steps| < |nodes| && Cascaded(nodes, Span(n, |steps| + 1), steps, o, rn)
    ensures |rn| == |nodes| && forall i | 0 <= i <= |steps| :: Holds(rn[n + i], ChainOutcome(steps[..i], o))
  {
    var ids := Span(n, |steps| + 1);
    forall i | 0 <= i <= |steps| ensures Holds(rn[n + i], ChainOutcome(steps[..i], o)) {
      assert ids[i] == n + i;
    }
  }

  /**
   * Failure short-circuits map steps: a failure passes every map step unchanged, and the
   * first onError step after them recovers it with its handler.
   */
  lemma {:induction false} FailureSkipsMaps(steps: seq<Step>, e: Error)
    requires forall i | 0 <= i < |steps| :: steps[i].MapStep?
    ensures Plain(steps) && ChainOutcome(steps, Failure(e)) == Failure(e)
    decreases |steps|
  {
    if steps != [] {
      FailureSkipsMaps(steps[1..], e);
    }
  }

  /**
   * A later `reject(e)` of a deferred root under `then`s followed by an `onError(h)`: the root
   * and every map promise are Rejected with `e`, and the onError promise is Fulfilled with `h(e)`.
   */
  lemma RejectReachesFirstRecovery(w: World, steps: seq<Step>, k: nat, e: Error, fuel: nat)
    requires Valid(w) && Plain(steps) && fuel >= 2 && fuel > |steps|
    requires k < |steps| && steps[k].RecoverStep? && forall i | 0 <= i < k :: steps[i].MapStep?
    ensures var root := Create(w, Defer);
            var chain := BuildChain(root.0, root.1, steps, fuel);
            var r := Settle(chain.0, root.1, Failure(e), fuel);
            |r.nodes| > root.1 + k + 1 &&
            (forall j | root.1 <= j <= root.1 + k :: r.nodes[j].state == Rejected && r.nodes[j].error == Some(e)) &&
            r.nodes[root.1 + k + 1].state == Fulfilled && r.nodes[root.1 + k + 1].value == Some(steps[k].h(e))
  {
    ChainFollowsRoot(w, steps, Failure(e), fuel);
    var root := Create(w, Defer);
    var n := root.1;
    var r := Settle(BuildChain(root.0, n, steps, fuel).0, n, Failure(e), fuel);
    forall j | n <= j <= n + k ensures r.nodes[j].state == Rejected && r.nodes[j].error == Some(e) {
      FailureSkipsMaps(steps[..j - n], e);
      assert Holds(r.nodes[n + (j - n)], ChainOutcome(steps[..j - n], Failure(e)));
    }
    FailureSkipsMaps(steps[..k], e);
    ChainOutcomeSnoc(steps[..k], steps[k], Failure(e));
    assert steps[..k] + [steps[k]] == steps[..k + 1];
  }

  /** One more step at the end of a chain applies after the others. */
  lemma {:induction false} ChainOutcomeSnoc(steps: seq<Step>, s: Step, o: Outcome)
    requires Plain(steps) && !s.FlatStep?
    ensures Plain(steps + [s]) && ChainOutcome(steps + [s], o) == StepOutcome(s, ChainOutcome(steps, o))
    decreases |steps|
  {
    if steps != [] {
      ChainOutcomeSnoc(steps[1..], s, StepOutcome(steps[0], o));
      assert (steps + [s])[1..] == steps[1..] + [s];
    }
  }

  // ---------------------------------------------------------------------------
  // Repeated settlement (Source/Promise.swift:211-223: no Pending check)
  // ---------------------------------------------------------------------------

  /** A second `resolve` overwrites the value, and the finally block runs again. */
  lemma ResolveTwiceOverwrites(w: World, id: NodeId, v1: int, v2: int, fuel: nat)
    requires Valid(w) && id < |w.nodes| && fuel >= 1 && w.nodes[id].onSuccess.NoSuccess?
    ensures var r := Resolve(Resolve(w, id, v1, fuel), id, v2, fuel);
            r.nodes[id] == w.nodes[id].(state := Fulfilled, value := Some(v2)) &&
            r.log == w.log + FinallyEvents(w.nodes[id].onFinally) + FinallyEvents(w.nodes[id].onFinally)
  {
    ResolveLeaf(w, id, v1, fuel);
    ResolveLeaf(Resolve(w, id, v1, fuel), id, v2, fuel);
  }

  /** `reject` after `resolve` leaves a Rejected node that still holds the earlier value: outcome fields are not exclusive. */
  lemma RejectAfterResolveKeepsValue(w: World, id: NodeId, v: int, e: Error, fuel: nat)
    requires Valid(w) && id < |w.nodes| && fuel >= 1
    requires w.nodes[id].onSuccess.NoSuccess? && w.nodes[id].onFail.NoFailure?
    ensures var r := Reject(Resolve(w, id, v, fuel), id, e, fuel);
            r.nodes[id].state == Rejected && r.nodes[id].value == Some(v) && r.nodes[id].error == Some(e)
  {
    ResolveLeaf(w, id, v, fuel);
    RejectLeaf(Resolve(w, id, v, fuel), id, e, fuel);
  }

  // ---------------------------------------------------------------------------
  // finally (Source/Promise.swift:158-165, 215, 222)
  // ---------------------------------------------------------------------------

  /** `finally` on a started, settled node runs the block once, at once, and stores nothing. */
  lemma FinallyOnSettled(w: World, id: NodeId, tag: int, fuel: nat)
    requires Valid(w) && id < |w.nodes| && w.nodes[id].promiseStarted && w.nodes[id].state != Pending
    ensures Finally(w, id, tag, fuel) == World(w.nodes, w.log + [FinallyRan(tag)])
  {
  }

  /**
   * `finally` on a started, pending node stores the block without running it; the block then
   * runs exactly once when the node is resolved or rejected.
   */
  lemma FinallyOnPending(w: World, id: NodeId, tag: int, v: int, e: Error, fuel: nat)
    requires Valid(w) && id < |w.nodes| && fuel >= 1 && w.nodes[id].promiseStarted && w.nodes[id].state == Pending
    requires w.nodes[id].onSuccess.NoSuccess? && w.nodes[id].onFail.NoFailure?
    ensures var r := Finally(w, id, tag, fuel);
            r.log == w.log && r.nodes[id].onFinally == FinallyBlock(tag) &&
            Resolve(r, id, v, fuel).log == w.log + [FinallyRan(tag)] &&
            Reject(r, id, e, fuel).log == w.log + [FinallyRan(tag)]
  {
    var r := Finally(w, id, tag, fuel);
    ResolveLeaf(r, id, v, fuel);
    RejectLeaf(r, id, e, fuel);
  }

  /** `finally` starts a fresh root first: a producer that settles at once is followed by the block, once. */
  lemma FinallyStartsNode(w: World, id: NodeId, tag: int, fuel: nat)
    requires Valid(w) && id < |w.nodes| && fuel >= 2 && FreshRoot(w.nodes[id])
    requires !w.nodes[id].origin.behaviour.Defer?
    ensures Finally(w, id, tag, fuel).log == w.log + [Started(id), FinallyRan(tag)]
  {
    var w1 := Emit(SetNode(w, id, w.nodes[id].(promiseStarted := true)), Started(id));
    assert Start(w, id, fuel) == Launch(w1, id, fuel - 1);
    match w.nodes[id].origin.behaviour
    case ResolveNow(v) =>
      ResolveLeaf(w1, id, v, fuel - 1);
      assert StartIfNeeded(w, id, fuel) == Resolve(w1, id, v, fuel - 1);
    case RejectNow(e) =>
      RejectLeaf(w1, id, e, fuel - 1);
      assert StartIfNeeded(w, id, fuel) == Reject(w1, id, e, fuel - 1);
  }

  /** The finally block runs after the success reaction: the child's transform and finally come first. */
  lemma FinallyAfterSuccessReaction(w: World, id: NodeId, c: NodeId, f: int -> int, tag: int, v: int, fuel: nat)
    requires Valid(w) && id < |w.nodes| && c < |w.nodes| && c != id && fuel >= 2
    requires w.nodes[id].onSuccess == ResolveChild(c, Transform(f)) && w.nodes[c].onSuccess.NoSuccess?
    requires w.nodes[id].onFinally == FinallyBlock(tag) && w.nodes[c].onFinally.NoFinally?
    ensures Resolve(w, id, v, fuel).log == w.log + [BlockRan(c), FinallyRan(tag)]
  {
    ResolveThroughMap(w, id, c, f, v, fuel);
  }

  // ---------------------------------------------------------------------------
  // progress (Source/Promise.swift:78, 149, 169-172, 225-228)
  // ---------------------------------------------------------------------------

  /** Only the last registered progress handler receives a tick; no state changes. */
  lemma ProgressLastWriterWins(w: World, id: NodeId, t1: int, t2: int, p: int, fuel: nat)
    requires Valid(w) && id < |w.nodes| && fuel >= 1
    ensures var r := ProgressPromise(Progress(Progress(w, id, t1), id, t2), id, p, fuel);
            r.log == w.log + [ProgressSeen(t2, p)] &&
            r.nodes[id] == w.nodes[id].(progress := Some(p), onProgress := ProgressHandler(t2))
  {
  }

  /** A map-style child receives its parent's progress ticks: `then` rewires the parent's progress slot to it. */
  lemma ProgressReachesMapChild(w: World, id: NodeId, f: int -> int, tag: int, p: int, fuel: nat)
    requires Valid(w) && id < |w.nodes| && fuel >= 2
    ensures var r := RegisterThen(w, id, Transform(f), fuel);
            var q := ProgressPromise(Progress(r.0, r.1, tag), id, p, fuel);
            q.log == r.0.log + [ProgressSeen(tag, p)] &&
            q.nodes[id].progress == Some(p) && q.nodes[r.1].progress == Some(p)
  {
    RegisterThenOutcome(w, id, f, fuel);
    var r := RegisterThen(w, id, Transform(f), fuel);
    var w1 := Progress(r.0, r.1, tag);
    assert w1.nodes[id].onProgress == ForwardProgress(r.1);
    var w2 := SetNode(w1, id, w1.nodes[id].(progress := Some(p)));
    assert ProgressPromise(w1, id, p, fuel) == ProgressPromise(w2, r.1, p, fuel - 1);
  }

  /**
   * A flatMap child does not: the parent's progress slot keeps its earlier handler, whatever
   * the parent's state when the block is a user block, and for any block while the parent is
   * not yet Fulfilled (ThenSelfRewiresProgress shows the exception).
   */
  lemma ProgressSkipsFlatChild(w: World, id: NodeId, blk: FlatBlock, tag: int, p: int, fuel: nat)
    requires Valid(w) && id < |w.nodes| && FlatBlockOk(blk, |w.nodes|) && fuel >= 3
    requires w.nodes[id].state != Fulfilled || blk.Chain?
    requires w.nodes[id].onProgress == ProgressHandler(tag)
    ensures var r := RegisterThenFlat(w, id, blk, fuel);
            r.0.nodes[id].onProgress == ProgressHandler(tag) &&
            ProgressPromise(r.0, id, p, fuel).log == r.0.log + [ProgressSeen(tag, p)]
  {
    if w.nodes[id].state == Fulfilled {
      var c := |w.nodes|;
      RegisterThenFlatOnFulfilled(w, id, blk, fuel);
      var w2 := StartedChild(w, FlatOf(id, blk));
      assert w2.nodes[id] == w.nodes[id] && w2.nodes[c].onSuccess.NoSuccess? && w2.nodes[c].onFail.NoFailure?;
      NextPromiseKeepsFlags(w2, c, blk.g, w.nodes[id].value.value, fuel - 1);
    } else {
      RegisterThenFlatOutcome(w, id, blk, fuel);
    }
  }

  /**
   * `then(p: self)` on a started, Fulfilled promise: forwarding the promise into its own child
   * registers a map step on it, and that step takes over its progress slot, so an earlier
   * progress handler no longer receives ticks.
   */
  lemma ThenSelfRewiresProgress(w: World, id: NodeId, fuel: nat)
    requires Valid(w) && id < |w.nodes| && fuel >= 3
    requires Booted(w.nodes[id]) && w.nodes[id].state == Fulfilled
    ensures var r := RegisterThenPromise(w, id, id, fuel);
            r.0.nodes[id].onProgress == ForwardProgress(|w.nodes| + 1)
  {
    var c := |w.nodes|;
    RegisterThenFlatOnFulfilled(w, id, Always(id), fuel);
    var w2 := StartedChild(w, FlatOf(id, Always(id)));
    var w3 := Emit(w2, BlockRan(c));
    assert w3.nodes[id] == w.nodes[id] && |w3.nodes| == c + 1 && w3.nodes[c].onSuccess.NoSuccess?;
    assert RegisterNextPromise(w2, c, Always(id), w.nodes[id].value.value, fuel - 1) == ForwardNested(w3, id, c, fuel - 1);
    ForwardFulfilledNested(w3, id, c, fuel - 1);
  }
}
