/**
 * The promise engine as the Swift class runs it: one store object whose fields
 * (`nodes`, the fields of every `Promise`, and `log`, the calls of user code)
 * are updated in place, step by step, in the order of Source/Promise.swift.
 *
 * Each method is proved to leave the store exactly as the function of the
 * same role in PromiseSpec says, so every property proved in
 * PromiseProperties holds of what these methods do.
 */
module PromiseEngine {
  import opened PromiseSpec

  class Promises {
    var nodes: seq<Node>
    var log: seq<Event>

    function Snapshot(): World
      reads this
    {
      World(nodes, log)
    }

    ghost predicate Valid()
      reads this
    {
      PromiseSpec.Valid(Snapshot())
    }

    constructor ()
      ensures Valid() && nodes == [] && log == []
    {
      nodes := [];
      log := [];
    }

    /** `init(callback:)`: a new root promise; nothing runs yet. */
    method Create(b: Behaviour) returns (id: NodeId)
      requires Valid()
      modifies this
      ensures Valid() && (Snapshot(), id) == PromiseSpec.Create(old(Snapshot()), b)
    {
      id := |nodes|;
      nodes := nodes + [Fresh(Root(b))];
    }

    /** `start()`: no guard; marks the node started, then runs its callback. */
    method Start(id: NodeId, fuel: nat)
      requires Valid() && id < |nodes|
      modifies this
      ensures Valid() && Snapshot() == PromiseSpec.Start(old(Snapshot()), id, fuel)
      decreases fuel, 0
    {
      if fuel == 0 {
        return;
      }
      nodes := nodes[id := nodes[id].(promiseStarted := true)];
      log := log + [Started(id)];
      Launch(id, fuel - 1);
    }

    /** Runs the callback stored by `init`: the root's producer, or a child's dispatcher. */
    method Launch(id: NodeId, fuel: nat)
      requires Valid() && id < |nodes|
      modifies this
      ensures Valid() && Snapshot() == PromiseSpec.Launch(old(Snapshot()), id, fuel)
      decreases fuel, 5
    {
      match nodes[id].origin
      case Root(b) =>
        match b {
          case ResolveNow(v) => ResolvePromise(id, v, fuel);
          case RejectNow(e) => RejectPromise(id, e, fuel);
          case Defer =>
        }
      case MapOf(p, blk) => DispatchMap(p, id, blk, fuel);
      case FlatOf(p, blk) => DispatchFlat(p, id, blk, fuel);
      case RecoverOf(p, blk) => DispatchRecover(p, id, blk, fuel);
    }

    /** `resolvePromise`. */
    method ResolvePromise(id: NodeId, v: int, fuel: nat)
      requires Valid() && id < |nodes|
      modifies this
      ensures Valid() && Snapshot() == PromiseSpec.Resolve(old(Snapshot()), id, v, fuel)
      decreases fuel, 0
    {
      if fuel == 0 {
        return;
      }
      nodes := nodes[id := nodes[id].(state := Fulfilled, value := Some(v))];
      FireSuccess(id, v, fuel - 1);
      FireFinally(id);
    }

    /** `rejectPromise`. */
    method RejectPromise(id: NodeId, e: Error, fuel: nat)
      requires Valid() && id < |nodes|
      modifies this
      ensures Valid() && Snapshot() == PromiseSpec.Reject(old(Snapshot()), id, e, fuel)
      decreases fuel, 0
    {
      if fuel == 0 {
        return;
      }
      nodes := nodes[id := nodes[id].(state := Rejected, error := Some(e))];
      FireFailure(id, e, fuel - 1);
      FireFinally(id);
    }

    /** `progressPromise`. */
    method ProgressPromise(id: NodeId, p: int, fuel: nat)
      requires Valid() && id < |nodes|
      modifies this
      ensures Valid() && Snapshot() == PromiseSpec.ProgressPromise(old(Snapshot()), id, p, fuel)
      decreases fuel
    {
      if fuel == 0 {
        return;
      }
      nodes := nodes[id := nodes[id].(progress := Some(p))];
      match nodes[id].onProgress
      case NoProgress =>
      case ForwardProgress(c) => ProgressPromise(c, p, fuel - 1);
      case ProgressHandler(tag) => log := log + [ProgressSeen(tag, p)];
    }

    /** `finallyBlock()`. */
    method FireFinally(id: NodeId)
      requires Valid() && id < |nodes|
      modifies this
      ensures Valid() && Snapshot() == PromiseSpec.FireFinally(old(Snapshot()), id)
    {
      match nodes[id].onFinally
      case NoFinally =>
      case FinallyBlock(tag) => log := log + [FinallyRan(tag)];
    }

    /** `successBlock(result)`. */
    method FireSuccess(id: NodeId, v: int, fuel: nat)
      requires Valid() && id < |nodes|
      modifies this
      ensures Valid() && Snapshot() == PromiseSpec.FireSuccess(old(Snapshot()), id, v, fuel)
      decreases fuel, 4
    {
      match nodes[id].onSuccess
      case NoSuccess =>
      case ResolveChild(c, blk) =>
        var x := ApplyMap(c, blk, v, fuel);
        ResolvePromise(c, x, fuel);
      case FlattenInto(c, blk) => RegisterNextPromise(c, blk, v, fuel);
      case RejectSynthetic(c) => RejectPromise(c, Synthetic, fuel);
    }

    /** `failBlock(error!)`. */
    method FireFailure(id: NodeId, e: Error, fuel: nat)
      requires Valid() && id < |nodes|
      modifies this
      ensures Valid() && Snapshot() == PromiseSpec.FireFailure(old(Snapshot()), id, e, fuel)
      decreases fuel, 2
    {
      match nodes[id].onFail
      case NoFailure =>
      case RejectChild(c) => RejectPromise(c, e, fuel);
      case RecoverChild(c, blk) =>
        var x := ApplyRecover(c, blk, e, fuel);
        ResolvePromise(c, x, fuel);
    }

    /** Calls the block of a map-style `then`. */
    method ApplyMap(child: NodeId, blk: MapBlock, t: int, fuel: nat) returns (x: int)
      requires Valid() && MapBlockOk(blk, |nodes|)
      modifies this
      ensures Valid() && (Snapshot(), x) == PromiseSpec.ApplyMap(old(Snapshot()), child, blk, t, fuel)
      decreases fuel, 1
    {
      log := log + [BlockRan(child)];
      match blk
      case Transform(f) =>
        x := f(t);
      case ResolveInto(target) =>
        ResolvePromise(target, t, fuel);
        x := 0;
    }

    /** Calls the block of `onError`. */
    method ApplyRecover(child: NodeId, blk: RecoverBlock, e: Error, fuel: nat) returns (x: int)
      requires Valid() && RecoverBlockOk(blk, |nodes|)
      modifies this
      ensures Valid() && (Snapshot(), x) == PromiseSpec.ApplyRecover(old(Snapshot()), child, blk, e, fuel)
      decreases fuel, 1
    {
      log := log + [BlockRan(child)];
      match blk
      case Handle(h) =>
        x := h(e);
      case RejectInto(target) =>
        RejectPromise(target, e, fuel);
        x := 0;
    }

    /** `registerSuccess`: the parent's success slot resolves the child with the block's result. */
    method RegisterSuccess(parent: NodeId, child: NodeId, blk: MapBlock)
      requires Valid() && parent < |nodes| && child < |nodes| && MapBlockOk(blk, |nodes|)
      modifies this
      ensures Valid() && log == old(log)
      ensures nodes == old(nodes)[parent := old(nodes)[parent].(onSuccess := ResolveChild(child, blk))]
    {
      nodes := nodes[parent := nodes[parent].(onSuccess := ResolveChild(child, blk))];
    }

    /** The callback of a map-style child. */
    method DispatchMap(parent: NodeId, child: NodeId, blk: MapBlock, fuel: nat)
      requires Valid() && parent < |nodes| && child < |nodes| && MapBlockOk(blk, |nodes|)
      modifies this
      ensures Valid() && Snapshot() == PromiseSpec.DispatchMap(old(Snapshot()), parent, child, blk, fuel)
      decreases fuel, 2
    {
      ghost var w0 := Snapshot();
      var pn := nodes[parent];
      match pn.state {
        case Fulfilled =>
          var x := ApplyMap(child, blk, pn.value.value, fuel);
          ghost var a := PromiseSpec.ApplyMap(w0, child, blk, pn.value.value, fuel);
          ResolvePromise(child, x, fuel);
          assert Snapshot() == Resolve(a.0, child, a.1, fuel);
        case Rejected =>
          RejectPromise(child, pn.error.value, fuel);
        case Pending =>
          RegisterSuccess(parent, child, blk);
          nodes := nodes[parent := nodes[parent].(onFail := RejectChild(child))];
          assert Snapshot() == SetNode(w0, parent, pn.(onSuccess := ResolveChild(child, blk), onFail := RejectChild(child)));
      }
      ghost var w1 := Snapshot();
      nodes := nodes[parent := nodes[parent].(onProgress := ForwardProgress(child))];
      assert Snapshot() == SetNode(w1, parent, w1.nodes[parent].(onProgress := ForwardProgress(child)));
    }

    /** The callback of a flatMap-style child. */
    method DispatchFlat(parent: NodeId, child: NodeId, blk: FlatBlock, fuel: nat)
      requires Valid() && parent < |nodes| && child < |nodes| && FlatBlockOk(blk, |nodes|)
      modifies this
      ensures Valid() && Snapshot() == PromiseSpec.DispatchFlat(old(Snapshot()), parent, child, blk, fuel)
      decreases fuel, 4
    {
      var pn := nodes[parent];
      match pn.state
      case Fulfilled =>
        RegisterNextPromise(child, blk, pn.value.value, fuel);
      case Rejected =>
        RejectPromise(child, pn.error.value, fuel);
      case Pending =>
        nodes := nodes[parent := pn.(onSuccess := FlattenInto(child, blk), onFail := RejectChild(child))];
    }

    /** The callback of an onError child. */
    method DispatchRecover(parent: NodeId, child: NodeId, blk: RecoverBlock, fuel: nat)
      requires Valid() && parent < |nodes| && child < |nodes| && RecoverBlockOk(blk, |nodes|)
      modifies this
      ensures Valid() && Snapshot() == PromiseSpec.DispatchRecover(old(Snapshot()), parent, child, blk, fuel)
      decreases fuel, 2
    {
      ghost var w0 := Snapshot();
      var pn := nodes[parent];
      match pn.state {
        case Fulfilled =>
          RejectPromise(child, Synthetic, fuel);
        case Rejected =>
          var x := ApplyRecover(child, blk, pn.error.value, fuel);
          ghost var a := PromiseSpec.ApplyRecover(w0, child, blk, pn.error.value, fuel);
          ResolvePromise(child, x, fuel);
          assert Snapshot() == Resolve(a.0, child, a.1, fuel);
        case Pending =>
          nodes := nodes[parent := pn.(onFail := RecoverChild(child, blk), onSuccess := RejectSynthetic(child))];
          assert Snapshot() == SetNode(w0, parent, pn.(onFail := RecoverChild(child, blk), onSuccess := RejectSynthetic(child)));
      }
      ghost var w1 := Snapshot();
      nodes := nodes[parent := nodes[parent].(onProgress := ForwardProgress(child))];
      assert Snapshot() == SetNode(w1, parent, w1.nodes[parent].(onProgress := ForwardProgress(child)));
    }

    /** `registerNextPromise`. */
    method RegisterNextPromise(child: NodeId, blk: FlatBlock, t: int, fuel: nat)
      requires Valid() && child < |nodes| && FlatBlockOk(blk, |nodes|)
      modifies this
      ensures Valid() && Snapshot() == PromiseSpec.RegisterNextPromise(old(Snapshot()), child, blk, t, fuel)
      decreases fuel, 3
    {
      log := log + [BlockRan(child)];
      var nested: NodeId;
      match blk {
        case Chain(g) =>
          nested := Create(g(t));
        case Always(p) =>
          nested := p;
      }
      var mapped := Then(nested, ResolveInto(child), fuel);
      var _ := OnError(mapped, RejectInto(child), fuel);
    }

    /** `tryStartInitialPromise`. */
    method TryStartInitialPromise(id: NodeId, fuel: nat)
      requires Valid() && id < |nodes|
      modifies this
      ensures Valid() && Snapshot() == PromiseSpec.TryStartInitial(old(Snapshot()), id, fuel)
      decreases fuel, 1
    {
      if !nodes[id].initialStarted {
        if nodes[id].initialStart.Some? {
          Start(nodes[id].initialStart.value, fuel);
        }
        nodes := nodes[id := nodes[id].(initialStarted := true)];
      }
    }

    /** `startPromiseIfNeeded`. */
    method StartPromiseIfNeeded(id: NodeId, fuel: nat)
      requires Valid() && id < |nodes|
      modifies this
      ensures Valid() && Snapshot() == PromiseSpec.StartIfNeeded(old(Snapshot()), id, fuel)
      decreases fuel, 1
    {
      if !nodes[id].promiseStarted {
        Start(id, fuel);
      }
    }

    /** `passAlongFirstPromiseStartFunctionAndStateTo`. */
    method PassAlong(from: NodeId, to: NodeId)
      requires Valid() && from < |nodes| && to < |nodes|
      modifies this
      ensures Valid() && Snapshot() == PromiseSpec.PassAlong(old(Snapshot()), from, to)
    {
      if nodes[from].initialStart.Some? {
        nodes := nodes[to := nodes[to].(initialStart := nodes[from].initialStart)];
      } else {
        nodes := nodes[to := nodes[to].(initialStart := Some(from))];
      }
      nodes := nodes[to := nodes[to].(initialStarted := nodes[from].initialStarted)];
    }

    /** `then(block: T -> X)`. */
    method Then(id: NodeId, blk: MapBlock, fuel: nat) returns (c: NodeId)
      requires Valid() && id < |nodes| && MapBlockOk(blk, |nodes|)
      modifies this
      ensures Valid() && (Snapshot(), c) == PromiseSpec.Then(old(Snapshot()), id, blk, fuel)
      decreases fuel, 2
    {
      TryStartInitialPromise(id, fuel);
      StartPromiseIfNeeded(id, fuel);
      c := RegisterThen(id, blk, fuel);
    }

    /** `registerThen(block: T -> X)`. */
    method RegisterThen(id: NodeId, blk: MapBlock, fuel: nat) returns (c: NodeId)
      requires Valid() && id < |nodes| && MapBlockOk(blk, |nodes|)
      modifies this
      ensures Valid() && (Snapshot(), c) == PromiseSpec.RegisterThen(old(Snapshot()), id, blk, fuel)
      decreases fuel, 1
    {
      c := |nodes|;
      nodes := nodes + [Fresh(MapOf(id, blk))];
      Start(c, fuel);
      PassAlong(id, c);
    }

    /** `then(block: T -> Promise<X>)`. */
    method ThenFlat(id: NodeId, blk: FlatBlock, fuel: nat) returns (c: NodeId)
      requires Valid() && id < |nodes| && FlatBlockOk(blk, |nodes|)
      modifies this
      ensures Valid() && (Snapshot(), c) == PromiseSpec.ThenFlat(old(Snapshot()), id, blk, fuel)
      decreases fuel, 2
    {
      TryStartInitialPromise(id, fuel);
      StartPromiseIfNeeded(id, fuel);
      c := RegisterThenFlat(id, blk, fuel);
    }

    /** `registerThen(block: T -> Promise<X>)`. */
    method RegisterThenFlat(id: NodeId, blk: FlatBlock, fuel: nat) returns (c: NodeId)
      requires Valid() && id < |nodes| && FlatBlockOk(blk, |nodes|)
      modifies this
      ensures Valid() && (Snapshot(), c) == PromiseSpec.RegisterThenFlat(old(Snapshot()), id, blk, fuel)
      decreases fuel, 1
    {
      c := |nodes|;
      nodes := nodes + [Fresh(FlatOf(id, blk))];
      Start(c, fuel);
      PassAlong(id, c);
    }

    /** `then(p:)`. */
    method ThenPromise(id: NodeId, p: NodeId, fuel: nat) returns (c: NodeId)
      requires Valid() && id < |nodes| && p < |nodes|
      modifies this
      ensures Valid() && (Snapshot(), c) == PromiseSpec.ThenPromise(old(Snapshot()), id, p, fuel)
    {
      c := ThenFlat(id, Always(p), fuel);
    }

    /** `registerThen(p:)`. */
    method RegisterThenPromise(id: NodeId, p: NodeId, fuel: nat) returns (c: NodeId)
      requires Valid() && id < |nodes| && p < |nodes|
      modifies this
      ensures Valid() && (Snapshot(), c) == PromiseSpec.RegisterThenPromise(old(Snapshot()), id, p, fuel)
    {
      c := RegisterThenFlat(id, Always(p), fuel);
    }

    /** `onError`. */
    method OnError(id: NodeId, blk: RecoverBlock, fuel: nat) returns (c: NodeId)
      requires Valid() && id < |nodes| && RecoverBlockOk(blk, |nodes|)
      modifies this
      ensures Valid() && (Snapshot(), c) == PromiseSpec.OnError(old(Snapshot()), id, blk, fuel)
      decreases fuel, 2
    {
      TryStartInitialPromise(id, fuel);
      StartPromiseIfNeeded(id, fuel);
      c := RegisterOnError(id, blk, fuel);
    }

    /** `registerOnError`. */
    method RegisterOnError(id: NodeId, blk: RecoverBlock, fuel: nat) returns (c: NodeId)
      requires Valid() && id < |nodes| && RecoverBlockOk(blk, |nodes|)
      modifies this
      ensures Valid() && (Snapshot(), c) == PromiseSpec.RegisterOnError(old(Snapshot()), id, blk, fuel)
      decreases fuel, 1
    {
      c := |nodes|;
      nodes := nodes + [Fresh(RecoverOf(id, blk))];
      Start(c, fuel);
      PassAlong(id, c);
    }

    /** `finally`: returns the same node. */
    method Finally(id: NodeId, tag: int, fuel: nat) returns (same: NodeId)
      requires Valid() && id < |nodes|
      modifies this
      ensures same == id
      ensures Valid() && Snapshot() == PromiseSpec.Finally(old(Snapshot()), id, tag, fuel)
    {
      StartPromiseIfNeeded(id, fuel);
      if nodes[id].state != Pending {
        log := log + [FinallyRan(tag)];
      } else {
        nodes := nodes[id := nodes[id].(onFinally := FinallyBlock(tag))];
      }
      same := id;
    }

    /** `progress`: returns the same node. */
    method Progress(id: NodeId, tag: int) returns (same: NodeId)
      requires Valid() && id < |nodes|
      modifies this
      ensures same == id
      ensures Valid() && Snapshot() == PromiseSpec.Progress(old(Snapshot()), id, tag)
    {
      nodes := nodes[id := nodes[id].(onProgress := ProgressHandler(tag))];
      same := id;
    }
  }
}
