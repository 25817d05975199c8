/**
 * Reference semantics of the promise engine of `then` (Source/Promise.swift).
 *
 * Every promise is a node of a store (`World.nodes`, indexed by `NodeId`).
 * Callback slots hold reaction descriptors instead of closures, and every
 * call of user code that the engine makes (a producer start, a transform, a
 * finally block, a progress handler) is appended to `World.log`, so that
 * "runs once", "is never invoked" and "runs after" can be stated about it.
 *
 * Settlement cascades through the reaction slots and may create new nodes
 * (flatMap), so termination is not structural: the mutually recursive
 * functions below carry a `fuel` that only the four entry points `Start`,
 * `Resolve`, `Reject` and `ProgressPromise` consume; they do nothing when it is 0.
 */
module PromiseSpec {

  type NodeId = nat

  datatype Option<T> = None | Some(value: T)

  /** `PromiseState` (Source/Promise.swift:11-15). */
  datatype PromiseState = Pending | Fulfilled | Rejected

  /** An opaque error; `Synthetic` is the `NSError(domain: "", code: 123)` built by `onError`. */
  datatype Error = Synthetic | Raised(tag: int)

  /** What a root producer does when it is started: settle at once, or leave it to a later call. */
  datatype Behaviour = ResolveNow(v: int) | RejectNow(e: Error) | Defer

  /** The block of a map-style `then`: a user transform, or the `{ x in resolve(x) }` of `registerNextPromise`. */
  datatype MapBlock = Transform(f: int -> int) | ResolveInto(target: NodeId)

  /** The block of `onError`: a user recovery, or the `reject` callback passed by `registerNextPromise`. */
  datatype RecoverBlock = Handle(h: Error -> int) | RejectInto(target: NodeId)

  /** The block of a flatMap-style `then`: a user function producing a new promise, or `then(p:)`'s constant `{ _ in p }`. */
  datatype FlatBlock = Chain(g: int -> Behaviour) | Always(p: NodeId)

  /** The callback a node runs when started: a root producer, or the dispatcher of a chain operation on `parent`. */
  datatype Origin =
    | Root(behaviour: Behaviour)
    | MapOf(parent: NodeId, mapBlock: MapBlock)
    | FlatOf(parent: NodeId, flatBlock: FlatBlock)
    | RecoverOf(parent: NodeId, recoverBlock: RecoverBlock)

  /** `successBlock`: the default `{ t in }` or one of the closures installed by a child's dispatcher. */
  datatype SuccessSlot =
    | NoSuccess
    | ResolveChild(child: NodeId, mapBlock: MapBlock)
    | FlattenInto(child: NodeId, flatBlock: FlatBlock)
    | RejectSynthetic(child: NodeId)

  /** `failBlock`. */
  datatype FailSlot = NoFailure | RejectChild(child: NodeId) | RecoverChild(child: NodeId, recoverBlock: RecoverBlock)

  /** `progressBlock`: nothing, a child's `progressPromise`, or a user handler (identified by a tag). */
  datatype ProgressSlot = NoProgress | ForwardProgress(child: NodeId) | ProgressHandler(tag: int)

  /** `finallyBlock`: nothing, or a user block (identified by a tag). */
  datatype FinallySlot = NoFinally | FinallyBlock(tag: int)

  /** The fields of `Promise<T>` (Source/Promise.swift:27-39); `initialStart == Some(r)` stands for `r.start`. */
  datatype Node = Node(
    origin: Origin,
    state: PromiseState,
    value: Option<int>,
    error: Option<Error>,
    progress: Option<int>,
    promiseStarted: bool,
    initialStart: Option<NodeId>,
    initialStarted: bool,
    onSuccess: SuccessSlot,
    onFail: FailSlot,
    onProgress: ProgressSlot,
    onFinally: FinallySlot)

  /** Calls of user-visible code, in the order the engine makes them. */
  datatype Event =
    | Started(id: NodeId)           // `start()` of node `id` invoked its callback
    | BlockRan(child: NodeId)       // the block of the chain operation that built `child` was invoked
    | FinallyRan(tag: int)          // a finally block ran
    | ProgressSeen(tag: int, p: int) // a progress handler received `p`

  datatype World = World(nodes: seq<Node>, log: seq<Event>)

  /** A freshly initialised promise: pending, unstarted, every slot the default no-op. */
  function Fresh(origin: Origin): (r: Node) {
    Node(origin, Pending, None, None, None, false, None, false, NoSuccess, NoFailure, NoProgress, NoFinally)
  }

  predicate MapBlockOk(b: MapBlock, n: nat) { b.ResolveInto? ==> b.target < n }
  predicate RecoverBlockOk(b: RecoverBlock, n: nat) { b.RejectInto? ==> b.target < n }
  predicate FlatBlockOk(b: FlatBlock, n: nat) { b.Always? ==> b.p < n }

  predicate OriginOk(o: Origin, n: nat) {
    match o
    case Root(_) => true
    case MapOf(p, b) => p < n && MapBlockOk(b, n)
    case FlatOf(p, b) => p < n && FlatBlockOk(b, n)
    case RecoverOf(p, b) => p < n && RecoverBlockOk(b, n)
  }

  predicate SlotsOk(x: Node, n: nat) {
    (match x.onSuccess
     case NoSuccess => true
     case ResolveChild(c, b) => c < n && MapBlockOk(b, n)
     case FlattenInto(c, b) => c < n && FlatBlockOk(b, n)
     case RejectSynthetic(c) => c < n) &&
    (match x.onFail
     case NoFailure => true
     case RejectChild(c) => c < n
     case RecoverChild(c, b) => c < n && RecoverBlockOk(b, n)) &&
    (x.onProgress.ForwardProgress? ==> x.onProgress.child < n)
  }

  /** Every id a node mentions exists, and a settled state carries its outcome (the `value!`/`error!` unwraps never fail). */
  predicate NodeOk(x: Node, n: nat) {
    OriginOk(x.origin, n) && SlotsOk(x, n) &&
    (x.initialStart.Some? ==> x.initialStart.value < n) &&
    (x.state == Fulfilled ==> x.value.Some?) &&
    (x.state == Rejected ==> x.error.Some?)
  }

  predicate Valid(w: World) {
    forall i | 0 <= i < |w.nodes| :: NodeOk(w.nodes[i], |w.nodes|)
  }

  /** Nodes are never removed and the log is only appended to. */
  predicate Grows(w: World, r: World) {
    |w.nodes| <= |r.nodes| && w.log <= r.log
  }

  lemma NodeOkWidens(x: Node, n: nat, m: nat)
    requires NodeOk(x, n) && n <= m
    ensures NodeOk(x, m)
  {
  }

  function SetNode(w: World, id: NodeId, x: Node): (r: World)
    requires Valid(w) && id < |w.nodes| && NodeOk(x, |w.nodes|)
    ensures Valid(r) && |r.nodes| == |w.nodes| && r.log == w.log
    ensures r.nodes[id] == x && forall j | 0 <= j < |w.nodes| && j != id :: r.nodes[j] == w.nodes[j]
  {
    World(w.nodes[id := x], w.log)
  }

  function Append(w: World, x: Node): (r: World)
    requires Valid(w) && NodeOk(x, |w.nodes| + 1)
    ensures Valid(r) && |r.nodes| == |w.nodes| + 1 && r.log == w.log
    ensures r.nodes[|w.nodes|] == x && forall j | 0 <= j < |w.nodes| :: r.nodes[j] == w.nodes[j]
  {
    assert forall i | 0 <= i < |w.nodes| :: NodeOk(w.nodes[i], |w.nodes| + 1) by {
      forall i | 0 <= i < |w.nodes| ensures NodeOk(w.nodes[i], |w.nodes| + 1) {
        NodeOkWidens(w.nodes[i], |w.nodes|, |w.nodes| + 1);
      }
    }
    World(w.nodes + [x], w.log)
  }

  function Emit(w: World, e: Event): (r: World)
    ensures r.nodes == w.nodes && r.log == w.log + [e]
  {
    World(w.nodes, w.log + [e])
  }

  /** `init(callback:)` (Source/Promise.swift:41-47): a new root promise, pending and unstarted. */
  function Create(w: World, b: Behaviour): (r: (World, NodeId))
    requires Valid(w)
    ensures Valid(r.0) && r.1 == |w.nodes| && |r.0.nodes| == |w.nodes| + 1 && r.0.log == w.log
    ensures r.0.nodes[r.1] == Fresh(Root(b)) && forall j | 0 <= j < |w.nodes| :: r.0.nodes[j] == w.nodes[j]
  {
    (Append(w, Fresh(Root(b))), |w.nodes|)
  }

  /** `start()` (Source/Promise.swift:49-56): unguarded; marks the node started and runs its callback. */
  function Start(w: World, id: NodeId, fuel: nat): (r: World)
    requires Valid(w) && id < |w.nodes|
    ensures Valid(r) && Grows(w, r)
    decreases fuel, 0
  {
    if fuel == 0 then w
    else Launch(Emit(SetNode(w, id, w.nodes[id].(promiseStarted := true)), Started(id)), id, fuel - 1)
  }

  /**
   * Running the callback `init` stored (Source/Promise.swift:51-55): a root's producer, or the
   * dispatcher a chain operation gave its child.
   */
  function Launch(w: World, id: NodeId, fuel: nat): (r: World)
    requires Valid(w) && id < |w.nodes|
    ensures Valid(r) && Grows(w, r)
    decreases fuel, 5
  {
    match w.nodes[id].origin
    case Root(b) =>
      (match b
       case ResolveNow(v) => Resolve(w, id, v, fuel)
       case RejectNow(e) => Reject(w, id, e, fuel)
       case Defer => w)
    case MapOf(p, blk) => DispatchMap(w, p, id, blk, fuel)
    case FlatOf(p, blk) => DispatchFlat(w, p, id, blk, fuel)
    case RecoverOf(p, blk) => DispatchRecover(w, p, id, blk, fuel)
  }

  /** `resolvePromise` (Source/Promise.swift:211-216): no pending check; state, value, success reaction, finally. */
  function Resolve(w: World, id: NodeId, v: int, fuel: nat): (r: World)
    requires Valid(w) && id < |w.nodes|
    ensures Valid(r) && Grows(w, r)
    decreases fuel, 0
  {
    if fuel == 0 then w
    else
      var w1 := SetNode(w, id, w.nodes[id].(state := Fulfilled, value := Some(v)));
      var w2 := FireSuccess(w1, id, v, fuel - 1);
      FireFinally(w2, id)
  }

  /** `rejectPromise` (Source/Promise.swift:218-223). */
  function Reject(w: World, id: NodeId, e: Error, fuel: nat): (r: World)
    requires Valid(w) && id < |w.nodes|
    ensures Valid(r) && Grows(w, r)
    decreases fuel, 0
  {
    if fuel == 0 then w
    else
      var w1 := SetNode(w, id, w.nodes[id].(state := Rejected, error := Some(e)));
      var w2 := FireFailure(w1, id, e, fuel - 1);
      FireFinally(w2, id)
  }

  /** Invoking `finallyBlock()`: the slot is read at call time and kept. */
  function FireFinally(w: World, id: NodeId): (r: World)
    requires Valid(w) && id < |w.nodes|
    ensures Valid(r) && r.nodes == w.nodes
    ensures r.log == w.log + (if w.nodes[id].onFinally.FinallyBlock? then [FinallyRan(w.nodes[id].onFinally.tag)] else [])
  {
    match w.nodes[id].onFinally
    case NoFinally => w
    case FinallyBlock(tag) => Emit(w, FinallyRan(tag))
  }

  /** Invoking `successBlock(result)`. */
  function FireSuccess(w: World, id: NodeId, v: int, fuel: nat): (r: World)
    requires Valid(w) && id < |w.nodes|
    ensures Valid(r) && Grows(w, r)
    decreases fuel, 4
  {
    match w.nodes[id].onSuccess
    case NoSuccess => w
    case ResolveChild(c, blk) =>
      var res := ApplyMap(w, c, blk, v, fuel);
      Resolve(res.0, c, res.1, fuel)
    case FlattenInto(c, blk) => RegisterNextPromise(w, c, blk, v, fuel)
    case RejectSynthetic(c) => Reject(w, c, Synthetic, fuel)
  }

  /** Invoking `failBlock(error!)`. */
  function FireFailure(w: World, id: NodeId, e: Error, fuel: nat): (r: World)
    requires Valid(w) && id < |w.nodes|
    ensures Valid(r) && Grows(w, r)
    decreases fuel, 2
  {
    match w.nodes[id].onFail
    case NoFailure => w
    case RejectChild(c) => Reject(w, c, e, fuel)
    case RecoverChild(c, blk) =>
      var res := ApplyRecover(w, c, blk, e, fuel);
      Resolve(res.0, c, res.1, fuel)
  }

  /** Calling the block of a map-style `then` on `t`; `ResolveInto` resolves its target and yields `()` (as 0). */
  function ApplyMap(w: World, child: NodeId, blk: MapBlock, t: int, fuel: nat): (r: (World, int))
    requires Valid(w) && MapBlockOk(blk, |w.nodes|)
    ensures Valid(r.0) && Grows(w, r.0)
    decreases fuel, 1
  {
    var w1 := Emit(w, BlockRan(child));
    match blk
    case Transform(f) => (w1, f(t))
    case ResolveInto(target) => (Resolve(w1, target, t, fuel), 0)
  }

  /** Calling the block of `onError` on `e`; `RejectInto` rejects its target and yields `()` (as 0). */
  function ApplyRecover(w: World, child: NodeId, blk: RecoverBlock, e: Error, fuel: nat): (r: (World, int))
    requires Valid(w) && RecoverBlockOk(blk, |w.nodes|)
    ensures Valid(r.0) && Grows(w, r.0)
    decreases fuel, 1
  {
    var w1 := Emit(w, BlockRan(child));
    match blk
    case Handle(h) => (w1, h(e))
    case RejectInto(target) => (Reject(w1, target, e, fuel), 0)
  }

  /** The callback of the child built by `registerThen(block: T -> X)` (Source/Promise.swift:67-79). */
  function DispatchMap(w: World, parent: NodeId, child: NodeId, blk: MapBlock, fuel: nat): (r: World)
    requires Valid(w) && parent < |w.nodes| && child < |w.nodes| && MapBlockOk(blk, |w.nodes|)
    ensures Valid(r) && Grows(w, r)
    decreases fuel, 2
  {
    var pn := w.nodes[parent];
    var w1 :=
      match pn.state
      case Fulfilled =>
        var res := ApplyMap(w, child, blk, pn.value.value, fuel);
        Resolve(res.0, child, res.1, fuel)
      case Rejected => Reject(w, child, pn.error.value, fuel)
      case Pending => SetNode(w, parent, pn.(onSuccess := ResolveChild(child, blk), onFail := RejectChild(child)));
    SetNode(w1, parent, w1.nodes[parent].(onProgress := ForwardProgress(child)))
  }

  /** The callback of the child built by `registerThen(block: T -> Promise<X>)` (Source/Promise.swift:94-106); no progress rewiring. */
  function DispatchFlat(w: World, parent: NodeId, child: NodeId, blk: FlatBlock, fuel: nat): (r: World)
    requires Valid(w) && parent < |w.nodes| && child < |w.nodes| && FlatBlockOk(blk, |w.nodes|)
    ensures Valid(r) && Grows(w, r)
    decreases fuel, 4
  {
    var pn := w.nodes[parent];
    match pn.state
    case Fulfilled => RegisterNextPromise(w, child, blk, pn.value.value, fuel)
    case Rejected => Reject(w, child, pn.error.value, fuel)
    case Pending => SetNode(w, parent, pn.(onSuccess := FlattenInto(child, blk), onFail := RejectChild(child)))
  }

  /** The callback of the child built by `registerOnError` (Source/Promise.swift:132-150). */
  function DispatchRecover(w: World, parent: NodeId, child: NodeId, blk: RecoverBlock, fuel: nat): (r: World)
    requires Valid(w) && parent < |w.nodes| && child < |w.nodes| && RecoverBlockOk(blk, |w.nodes|)
    ensures Valid(r) && Grows(w, r)
    decreases fuel, 2
  {
    var pn := w.nodes[parent];
    var w1 :=
      match pn.state
      case Fulfilled => Reject(w, child, Synthetic, fuel)
      case Rejected =>
        var res := ApplyRecover(w, child, blk, pn.error.value, fuel);
        Resolve(res.0, child, res.1, fuel)
      case Pending => SetNode(w, parent, pn.(onFail := RecoverChild(child, blk), onSuccess := RejectSynthetic(child)));
    SetNode(w1, parent, w1.nodes[parent].(onProgress := ForwardProgress(child)))
  }

  /** `registerNextPromise` (Source/Promise.swift:204-209): `block(result).then { x in resolve(x) }.onError(reject)`. */
  function RegisterNextPromise(w: World, child: NodeId, blk: FlatBlock, t: int, fuel: nat): (r: World)
    requires Valid(w) && child < |w.nodes| && FlatBlockOk(blk, |w.nodes|)
    ensures Valid(r) && Grows(w, r)
    decreases fuel, 3
  {
    var w1 := Emit(w, BlockRan(child));
    var nested :=
      match blk
      case Chain(g) => Create(w1, g(t))
      case Always(p) => (w1, p);
    var mapped := Then(nested.0, nested.1, ResolveInto(child), fuel);
    OnError(mapped.0, mapped.1, RejectInto(child), fuel).0
  }

  /** `tryStartInitialPromise` (Source/Promise.swift:187-192). */
  function TryStartInitial(w: World, id: NodeId, fuel: nat): (r: World)
    requires Valid(w) && id < |w.nodes|
    ensures Valid(r) && Grows(w, r)
    ensures r.nodes[id].initialStarted
    decreases fuel, 1
  {
    var x := w.nodes[id];
    if x.initialStarted then w
    else
      var w1 := if x.initialStart.Some? then Start(w, x.initialStart.value, fuel) else w;
      SetNode(w1, id, w1.nodes[id].(initialStarted := true))
  }

  /** `startPromiseIfNeeded` (Source/Promise.swift:194-196). */
  function StartIfNeeded(w: World, id: NodeId, fuel: nat): (r: World)
    requires Valid(w) && id < |w.nodes|
    ensures Valid(r) && Grows(w, r)
    decreases fuel, 1
  {
    if w.nodes[id].promiseStarted then w else Start(w, id, fuel)
  }

  /** `passAlongFirstPromiseStartFunctionAndStateTo` (Source/Promise.swift:176-185). */
  function PassAlong(w: World, from: NodeId, to: NodeId): (r: World)
    requires Valid(w) && from < |w.nodes| && to < |w.nodes|
    ensures Valid(r) && |r.nodes| == |w.nodes| && r.log == w.log
    ensures r.nodes[to] == w.nodes[to].(initialStart := r.nodes[to].initialStart, initialStarted := w.nodes[from].initialStarted)
    ensures r.nodes[to].initialStart == if w.nodes[from].initialStart.Some? then w.nodes[from].initialStart else Some(from)
    ensures forall j | 0 <= j < |w.nodes| && j != to :: r.nodes[j] == w.nodes[j]
  {
    var f := w.nodes[from];
    var trigger := if f.initialStart.Some? then f.initialStart else Some(from);
    SetNode(w, to, w.nodes[to].(initialStart := trigger, initialStarted := f.initialStarted))
  }

  /** `then(block: T -> X)` (Source/Promise.swift:60-64). */
  function Then(w: World, id: NodeId, blk: MapBlock, fuel: nat): (r: (World, NodeId))
    requires Valid(w) && id < |w.nodes| && MapBlockOk(blk, |w.nodes|)
    ensures Valid(r.0) && Grows(w, r.0) && r.1 < |r.0.nodes|
    decreases fuel, 2
  {
    var w1 := TryStartInitial(w, id, fuel);
    var w2 := StartIfNeeded(w1, id, fuel);
    RegisterThen(w2, id, blk, fuel)
  }

  /** `registerThen(block: T -> X)` (Source/Promise.swift:66-83): a new node, started at once, inheriting the root trigger. */
  function RegisterThen(w: World, id: NodeId, blk: MapBlock, fuel: nat): (r: (World, NodeId))
    requires Valid(w) && id < |w.nodes| && MapBlockOk(blk, |w.nodes|)
    ensures Valid(r.0) && Grows(w, r.0) && r.1 == |w.nodes| < |r.0.nodes|
    decreases fuel, 1
  {
    var c := |w.nodes|;
    var w1 := Append(w, Fresh(MapOf(id, blk)));
    var w2 := Start(w1, c, fuel);
    (PassAlong(w2, id, c), c)
  }

  /** `then(block: T -> Promise<X>)` (Source/Promise.swift:87-91). */
  function ThenFlat(w: World, id: NodeId, blk: FlatBlock, fuel: nat): (r: (World, NodeId))
    requires Valid(w) && id < |w.nodes| && FlatBlockOk(blk, |w.nodes|)
    ensures Valid(r.0) && Grows(w, r.0) && r.1 < |r.0.nodes|
    decreases fuel, 2
  {
    var w1 := TryStartInitial(w, id, fuel);
    var w2 := StartIfNeeded(w1, id, fuel);
    RegisterThenFlat(w2, id, blk, fuel)
  }

  /** `registerThen(block: T -> Promise<X>)` (Source/Promise.swift:93-110). */
  function RegisterThenFlat(w: World, id: NodeId, blk: FlatBlock, fuel: nat): (r: (World, NodeId))
    requires Valid(w) && id < |w.nodes| && FlatBlockOk(blk, |w.nodes|)
    ensures Valid(r.0) && Grows(w, r.0) && r.1 == |w.nodes| < |r.0.nodes|
    decreases fuel, 1
  {
    var c := |w.nodes|;
    var w1 := Append(w, Fresh(FlatOf(id, blk)));
    var w2 := Start(w1, c, fuel);
    (PassAlong(w2, id, c), c)
  }

  /** `onError` (Source/Promise.swift:125-129). */
  function OnError(w: World, id: NodeId, blk: RecoverBlock, fuel: nat): (r: (World, NodeId))
    requires Valid(w) && id < |w.nodes| && RecoverBlockOk(blk, |w.nodes|)
    ensures Valid(r.0) && Grows(w, r.0) && r.1 < |r.0.nodes|
    decreases fuel, 2
  {
    var w1 := TryStartInitial(w, id, fuel);
    var w2 := StartIfNeeded(w1, id, fuel);
    RegisterOnError(w2, id, blk, fuel)
  }

  /** `registerOnError` (Source/Promise.swift:131-154). */
  function RegisterOnError(w: World, id: NodeId, blk: RecoverBlock, fuel: nat): (r: (World, NodeId))
    requires Valid(w) && id < |w.nodes| && RecoverBlockOk(blk, |w.nodes|)
    ensures Valid(r.0) && Grows(w, r.0) && r.1 == |w.nodes| < |r.0.nodes|
    decreases fuel, 1
  {
    var c := |w.nodes|;
    var w1 := Append(w, Fresh(RecoverOf(id, blk)));
    var w2 := Start(w1, c, fuel);
    (PassAlong(w2, id, c), c)
  }

  /** `then(p:)` (Source/Promise.swift:114-116): flatMap with the constant function `{ _ in p }`. */
  function ThenPromise(w: World, id: NodeId, p: NodeId, fuel: nat): (r: (World, NodeId))
    requires Valid(w) && id < |w.nodes| && p < |w.nodes|
    ensures Valid(r.0) && Grows(w, r.0) && r.1 < |r.0.nodes|
  {
    ThenFlat(w, id, Always(p), fuel)
  }

  /** `registerThen(p:)` (Source/Promise.swift:118-120). */
  function RegisterThenPromise(w: World, id: NodeId, p: NodeId, fuel: nat): (r: (World, NodeId))
    requires Valid(w) && id < |w.nodes| && p < |w.nodes|
    ensures Valid(r.0) && Grows(w, r.0) && r.1 == |w.nodes| < |r.0.nodes|
  {
    RegisterThenFlat(w, id, Always(p), fuel)
  }

  /** `finally` (Source/Promise.swift:158-165): returns the same node. */
  function Finally(w: World, id: NodeId, tag: int, fuel: nat): (r: World)
    requires Valid(w) && id < |w.nodes|
    ensures Valid(r) && Grows(w, r)
  {
    var w1 := StartIfNeeded(w, id, fuel);
    if w1.nodes[id].state != Pending then Emit(w1, FinallyRan(tag))
    else SetNode(w1, id, w1.nodes[id].(onFinally := FinallyBlock(tag)))
  }

  /** `progress` (Source/Promise.swift:169-172): overwrites the progress slot and nothing else. */
  function Progress(w: World, id: NodeId, tag: int): (r: World)
    requires Valid(w) && id < |w.nodes|
    ensures Valid(r) && |r.nodes| == |w.nodes| && r.log == w.log
    ensures r.nodes[id] == w.nodes[id].(onProgress := ProgressHandler(tag))
    ensures forall j | 0 <= j < |w.nodes| && j != id :: r.nodes[j] == w.nodes[j]
  {
    SetNode(w, id, w.nodes[id].(onProgress := ProgressHandler(tag)))
  }

  /**
   * `progressPromise` (Source/Promise.swift:225-228): records `p` and calls the progress slot.
   * Along the forwarding chain only the `progress` fields change; no state, outcome or slot does.
   */
  function ProgressPromise(w: World, id: NodeId, p: int, fuel: nat): (r: World)
    requires Valid(w) && id < |w.nodes|
    ensures Valid(r) && Grows(w, r) && |r.nodes| == |w.nodes|
    ensures forall j | 0 <= j < |w.nodes| :: r.nodes[j] == w.nodes[j].(progress := r.nodes[j].progress)
    ensures forall k | |w.log| <= k < |r.log| :: r.log[k].ProgressSeen? && r.log[k].p == p
    decreases fuel
  {
    if fuel == 0 then w
    else
      var w1 := SetNode(w, id, w.nodes[id].(progress := Some(p)));
      match w1.nodes[id].onProgress
      case NoProgress => w1
      case ForwardProgress(c) => ProgressPromise(w1, c, p, fuel - 1)
      case ProgressHandler(tag) => Emit(w1, ProgressSeen(tag, p))
  }
}
