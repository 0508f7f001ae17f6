/**
 A model of the Promise/Future continuation engine.

 Every `Rc<MoveCell<State<T>>>` of the Rust program becomes a slot of an arena
 (`World.cells`), addressed by its index; a `Promise`, a `Future` and a
 `SyncFuture` hold such an index. Continuations, which the Rust program stores
 as boxed closures, are data (`Chainer`), and the test fulfiller
 `ConstantFulfiller` is part of the world (`World.clients`) so that a
 continuation which starts a new asynchronous step can be described.

 The fatal paths of the Rust program (`unreachable!()`, `panic!` and `unwrap()`
 on `None`) end the computation with `Panic`, naming which contract was broken.
 */
module Future {
  import opened MoveCell

  /** Index of a shared completion state in the arena. */
  type Id = nat

  /** The values carried by futures. `Unit` is the `()` produced by the
      closures that only fulfil another promise. */
  datatype Value = Unit | Num(n: int) | Text(s: string)

  /** The function handed to `map`: a pure transformation, or the closure
      `proc(to) { promise.fulfill(to) }` that fulfils the promise whose
      state is `target` and yields `()`. */
  datatype Through = Pure(f: Value -> Value) | FulfillInto(target: Id)

  /** The function handed to `then`, which yields the inner future:
      `client.start(arg(x)).async()` on a `ConstantFulfiller`, or
      `SyncFuture::new_ready(f(x)).async()`. */
  datatype Next =
    | StartAsync(client: nat, arg: Value -> Value)
    | ReadyOf(f: Value -> Value)

  /** A waiting continuation (`Chainer`): the one `map` installs fulfils `dst`
      with `through(x)`; the one `then` installs runs `next(x)` and maps the
      inner future into `dst`. */
  datatype Chainer =
    | MapTo(through: Through, dst: Id)
    | ThenTo(next: Next, dst: Id)

  /** `State<T>`; the empty state is the empty `MoveCell`. */
  datatype State = Ready(value: Value) | Chained(k: Chainer)

  /** The test fulfiller: it delivers `constant`, either at once (`eager`) or
      when polled, keeping the promise meanwhile. */
  datatype ConstantFulfiller =
    ConstantFulfiller(constant: Value, promise: Option<Promise>, eager: bool)

  /** The fulfiller a `SyncFuture` is bound to. */
  datatype FulfillerRef = Noop | Client(index: nat)

  datatype Promise = Promise(state: Id)

  datatype Future = Future(state: Id)

  /** A driven future: an optional fulfiller and the state it will fill. */
  datatype SyncFuture = SyncFuture(fulfiller: Option<FulfillerRef>, state: Id)

  datatype World = World(cells: seq<Cell<State>>, clients: seq<ConstantFulfiller>)

  /** The program-contract violations that abort the Rust program. */
  datatype Fatal =
    | DoubleFulfillment   // fulfilling a state that is already `Ready`
    | DoubleRegistration  // a second continuation on one state
    | PrematureSync       // `sync` found no value after the fulfiller returned
    | MissingPromise      // `poll` on a deferred fulfiller that holds no promise

  /** The result of an operation that may abort; usable with `:-`. */
  datatype Outcome<T> = Done(value: T) | Panic(fatal: Fatal) {
    predicate IsFailure() {
      Panic?
    }

    function PropagateFailure<U>(): Outcome<U>
      requires Panic?
    {
      Panic(fatal)
    }

    function Extract(): T
      requires Done?
    {
      value
    }
  }

  // ---------------------------------------------------------------------------
  // Well-formedness: every index stored anywhere names an existing slot/client.
  // ---------------------------------------------------------------------------

  predicate ThroughOk(t: Through, n: nat)
  {
    t.FulfillInto? ==> t.target < n
  }

  predicate NextOk(x: Next, m: nat)
  {
    x.StartAsync? ==> x.client < m
  }

  predicate ChainerOk(k: Chainer, n: nat, m: nat)
  {
    && k.dst < n
    && match k
       case MapTo(t, _) => ThroughOk(t, n)
       case ThenTo(x, _) => NextOk(x, m)
  }

  predicate IsChained(c: Cell<State>)
  {
    c.slot.Some? && c.slot.value.Chained?
  }

  predicate CellOk(c: Cell<State>, n: nat, m: nat)
  {
    IsChained(c) ==> ChainerOk(c.slot.value.k, n, m)
  }

  predicate ClientOk(f: ConstantFulfiller, n: nat)
  {
    f.promise.Some? ==> f.promise.value.state < n
  }

  predicate Valid(w: World)
  {
    && (forall i :: 0 <= i < |w.cells| ==> CellOk(w.cells[i], |w.cells|, |w.clients|))
    && (forall j :: 0 <= j < |w.clients| ==> ClientOk(w.clients[j], |w.cells|))
  }

  /** `w'` is a well-formed successor of `w`: slots are only ever added. */
  predicate Grows(w: World, w': World)
  {
    Valid(w') && |w.cells| <= |w'.cells| && |w'.clients| == |w.clients|
  }

  predicate SyncFutureOk(sf: SyncFuture, w: World)
  {
    && sf.state < |w.cells|
    && (sf.fulfiller.Some? && sf.fulfiller.value.Client? ==> sf.fulfiller.value.index < |w.clients|)
  }

  // ---------------------------------------------------------------------------
  // The number of waiting continuations, which every `fulfill` decreases.
  // ---------------------------------------------------------------------------

  function Weight(c: Cell<State>): nat
  {
    if IsChained(c) then 1 else 0
  }

  function ChainedCount(cells: seq<Cell<State>>): nat
  {
    if cells == [] then 0
    else ChainedCount(cells[..|cells| - 1]) + Weight(cells[|cells| - 1])
  }

  lemma {:induction false} CountUpdate(cells: seq<Cell<State>>, i: nat, c: Cell<State>)
    requires i < |cells|
    ensures ChainedCount(cells[i := c]) == ChainedCount(cells) - Weight(cells[i]) + Weight(c)
    decreases |cells|
  {
    var last := |cells| - 1;
    if i == last {
      assert cells[i := c][..last] == cells[..last];
    } else {
      assert cells[i := c][..last] == cells[..last][i := c];
      CountUpdate(cells[..last], i, c);
    }
  }

  lemma CountAppend(cells: seq<Cell<State>>, c: Cell<State>)
    ensures ChainedCount(cells + [c]) == ChainedCount(cells) + Weight(c)
  {
    assert (cells + [c])[..|cells|] == cells;
  }

  // ---------------------------------------------------------------------------
  // Observation and construction.
  // ---------------------------------------------------------------------------

  /** `Future::ready` / `SyncFuture::ready`: the state holds a value. It only
      peeks (`get_ref`), so the world is not changed. */
  predicate IsReady(w: World, id: Id)
    requires id < |w.cells|
    ensures IsReady(w, id) <==> !Empty(w.cells[id]) && !IsChained(w.cells[id])
  {
    var held: Option<State> := GetRef(w.cells[id]);
    match held
    case Some(Ready(_)) => true
    case _ => false
  }

  /** `Promise::new`: a promise over a fresh, empty state. */
  function NewPromise(w: World): (r: (World, Promise))
    requires Valid(w)
    ensures r.0.cells == w.cells + [New()] && r.0.clients == w.clients
    ensures r.1.state == |w.cells|
    ensures Grows(w, r.0) && ChainedCount(r.0.cells) == ChainedCount(w.cells)
  {
    CountAppend(w.cells, New());
    (w.(cells := w.cells + [New()]), Promise(|w.cells|))
  }

  /** `Promise::from_state`. */
  function FromState(id: Id): (p: Promise)
    ensures IntoCont(p) == Future(id)
  {
    Promise(id)
  }

  /** `Promise::into_cont`: the future reading the promise's state. */
  function IntoCont(p: Promise): (f: Future)
    ensures f.state == p.state
  {
    Future(p.state)
  }

  /** `SyncFuture::make_promise`. */
  function MakePromise(sf: SyncFuture): (p: Promise)
    ensures p.state == sf.state
  {
    FromState(sf.state)
  }

  /** `SyncFuture::new`: bound to `f`, over a fresh, empty state. */
  function NewSyncFuture(w: World, f: FulfillerRef): (r: (World, SyncFuture))
    requires Valid(w)
    requires f.Client? ==> f.index < |w.clients|
    ensures r.0.cells == w.cells + [New()] && r.0.clients == w.clients
    ensures r.1 == SyncFuture(Some(f), |w.cells|)
    ensures Grows(w, r.0) && SyncFutureOk(r.1, r.0)
    ensures ChainedCount(r.0.cells) == ChainedCount(w.cells)
  {
    var (w1, p) := NewPromise(w);
    (w1, SyncFuture(Some(f), p.state))
  }

  /** `SyncFuture::new_ready`: no fulfiller, a state already `Ready(v)`. */
  function NewReady(w: World, v: Value): (r: (World, SyncFuture))
    requires Valid(w)
    ensures r.0.cells == w.cells + [FromValue(Ready(v))] && r.0.clients == w.clients
    ensures r.1 == SyncFuture(None, |w.cells|)
    ensures Grows(w, r.0) && SyncFutureOk(r.1, r.0) && IsReady(r.0, r.1.state)
    ensures ChainedCount(r.0.cells) == ChainedCount(w.cells)
  {
    CountAppend(w.cells, FromValue(Ready(v)));
    (w.(cells := w.cells + [FromValue(Ready(v))]), SyncFuture(None, |w.cells|))
  }

  /** `SyncFuture::new_with_promise`: no fulfiller, and the promise for its
      (empty) state handed to the caller. */
  function NewWithPromise(w: World): (r: (World, SyncFuture, Promise))
    requires Valid(w)
    ensures r.0.cells == w.cells + [New()] && r.0.clients == w.clients
    ensures r.1 == SyncFuture(None, |w.cells|) && r.2.state == r.1.state
    ensures Grows(w, r.0) && SyncFutureOk(r.1, r.0) && !IsReady(r.0, r.1.state)
  {
    var (w1, p) := NewPromise(w);
    var op := SyncFuture(None, p.state);
    (w1, op, MakePromise(op))
  }

  /** `ConstantFulfiller::new` / `new_eager`: a client holding no promise whose
      constant is the type's default value `default`. */
  function NewClient(w: World, default: Value, eager: bool): (r: (World, nat))
    requires Valid(w)
    ensures r.0.cells == w.cells
    ensures r.0.clients == w.clients + [ConstantFulfiller(default, None, eager)]
    ensures r.1 == |w.clients| && Valid(r.0)
  {
    (w.(clients := w.clients + [ConstantFulfiller(default, None, eager)]), |w.clients|)
  }

  /** `ConstantFulfiller::start`: remember the constant, then build a
      `SyncFuture` bound to this client. */
  function Start(w: World, c: nat, v: Value): (r: (World, SyncFuture))
    requires Valid(w) && c < |w.clients|
    ensures r.0.clients == w.clients[c := w.clients[c].(constant := v)]
    ensures r.0.cells == w.cells + [New()]
    ensures r.1 == SyncFuture(Some(Client(c)), |w.cells|)
    ensures Grows(w, r.0) && SyncFutureOk(r.1, r.0)
    ensures ChainedCount(r.0.cells) == ChainedCount(w.cells)
  {
    var w1 := w.(clients := w.clients[c := w.clients[c].(constant := v)]);
    NewSyncFuture(w1, Client(c))
  }

  // ---------------------------------------------------------------------------
  // The engine: `fulfill`, the continuations it invokes, `map`, `then` and
  // `async`. They call each other; each call either consumes a waiting
  // continuation (the count drops) or moves to a lower rank.
  // ---------------------------------------------------------------------------

  /** `Promise::fulfill`: take the state; an empty state receives the value,
      a waiting continuation is invoked with it (and the state is left empty),
      and a state that is already `Ready` is a fatal double fulfilment. */
  function Fulfill(w: World, p: Id, v: Value): (r: Outcome<World>)
    requires Valid(w) && p < |w.cells|
    ensures r.Done? ==> Grows(w, r.value)
    ensures r.Done? ==> ChainedCount(r.value.cells) <= ChainedCount(w.cells)
    ensures GetRef(w.cells[p]).None? ==> r.Done? && IsReady(r.value, p)
    decreases ChainedCount(w.cells), 0
  {
    var emptied: Cell<State> := Take(w.cells[p]).0;
    var taken: Option<State> := Take(w.cells[p]).1;
    match taken
    case None =>
      var (filled, _) := Put(emptied, Ready(v));
      CountUpdate(w.cells, p, filled);
      Done(w.(cells := w.cells[p := filled]))
    case Some(Chained(k)) =>
      CountUpdate(w.cells, p, emptied);
      Invoke(w.(cells := w.cells[p := emptied]), k, v)
    case Some(Ready(_)) =>
      Panic(DoubleFulfillment)
  }

  /** Running a stored continuation on the value `v`: for `map`,
      `promise.fulfill(through(v))`; for `then`,
      `next(v).map(proc(to) { promise.fulfill(to) })`. */
  function Invoke(w: World, k: Chainer, v: Value): (r: Outcome<World>)
    requires Valid(w) && ChainerOk(k, |w.cells|, |w.clients|)
    ensures r.Done? ==> Grows(w, r.value)
    ensures r.Done? ==> ChainedCount(r.value.cells) <= ChainedCount(w.cells) + (if k.ThenTo? then 1 else 0)
    decreases ChainedCount(w.cells), if k.ThenTo? then 4 else 2
  {
    match k
    case MapTo(t, dst) =>
      (match Apply(w, t, v)
       case Panic(e) => Panic(e)
       case Done((w1, u)) => Fulfill(w1, dst, u))
    case ThenTo(next, dst) =>
      (match RunNext(w, next, v)
       case Panic(e) => Panic(e)
       case Done((w1, inner)) =>
         (match MapOn(w1, inner, FulfillInto(dst))
          case Panic(e) => Panic(e)
          case Done((w2, _)) => Done(w2)))
  }

  /** Calling the function handed to `map`. */
  function Apply(w: World, t: Through, x: Value): (r: Outcome<(World, Value)>)
    requires Valid(w) && ThroughOk(t, |w.cells|)
    ensures r.Done? ==> Grows(w, r.value.0)
    ensures r.Done? ==> ChainedCount(r.value.0.cells) <= ChainedCount(w.cells)
    ensures t.Pure? ==> r == Done((w, t.f(x)))
    decreases ChainedCount(w.cells), 1
  {
    match t
    case Pure(f) => Done((w, f(x)))
    case FulfillInto(p) =>
      match Fulfill(w, p, x)
      case Panic(e) => Panic(e)
      case Done(w1) => Done((w1, Unit))
  }

  /** `Future::map`: a fresh promise/future pair; a `Ready` source is consumed
      and the transformation runs at once, an empty source gets a waiting
      continuation, and a source that already has one is a fatal double
      registration. */
  function MapOn(w: World, src: Future, t: Through): (r: Outcome<(World, Future)>)
    requires Valid(w) && src.state < |w.cells| && ThroughOk(t, |w.cells|)
    ensures r.Done? ==> Grows(w, r.value.0) && r.value.1 == Future(|w.cells|)
    ensures r.Done? ==> ChainedCount(r.value.0.cells) <= ChainedCount(w.cells) + 1
    ensures IsChained(w.cells[src.state]) ==> r == Panic(DoubleRegistration)
    decreases ChainedCount(w.cells), 3
  {
    var (w1, promise) := NewPromise(w);
    var cont := IntoCont(promise);
    var emptied: Cell<State> := Take(w1.cells[src.state]).0;
    var taken: Option<State> := Take(w1.cells[src.state]).1;
    var w2 := w1.(cells := w1.cells[src.state := emptied]);
    CountUpdate(w1.cells, src.state, emptied);
    match taken
    case Some(Ready(x)) =>
      (match Invoke(w2, MapTo(t, promise.state), x)
       case Panic(e) => Panic(e)
       case Done(w3) => Done((w3, cont)))
    case None =>
      var (chained, _) := Put(emptied, Chained(MapTo(t, promise.state)));
      CountUpdate(w2.cells, src.state, chained);
      Done((w2.(cells := w2.cells[src.state := chained]), cont))
    case Some(Chained(_)) =>
      Panic(DoubleRegistration)
  }

  /** Calling the function handed to `then`, which yields the inner future. */
  function RunNext(w: World, next: Next, v: Value): (r: Outcome<(World, Future)>)
    requires Valid(w) && NextOk(next, |w.clients|)
    ensures r.Done? ==> Grows(w, r.value.0) && r.value.1 == Future(|w.cells|)
    ensures r.Done? ==> ChainedCount(r.value.0.cells) <= ChainedCount(w.cells)
    decreases ChainedCount(w.cells), 3
  {
    match next
    case StartAsync(c, arg) =>
      var (w1, sf) := Start(w, c, arg(v));
      Async(w1, sf)
    case ReadyOf(f) =>
      var (w1, sf) := NewReady(w, f(v));
      Async(w1, sf)
  }

  /** `SyncFuture::async`: hand a promise over the state to the fulfiller's
      `async` and return the plain future over the same state at once. */
  function Async(w: World, sf: SyncFuture): (r: Outcome<(World, Future)>)
    requires Valid(w) && SyncFutureOk(sf, w)
    ensures r.Done? ==> Grows(w, r.value.0) && r.value.1 == Future(sf.state)
    ensures r.Done? ==> ChainedCount(r.value.0.cells) <= ChainedCount(w.cells)
    decreases ChainedCount(w.cells), 2
  {
    var promise := MakePromise(sf);
    match sf.fulfiller
    case Some(Client(c)) =>
      (match ClientAsync(w, c, promise)
       case Panic(e) => Panic(e)
       case Done(w1) => Done((w1, Future(sf.state))))
    case Some(Noop) =>
      // `NoopFulfiller::async` drops the promise.
      Done((w, Future(sf.state)))
    case None =>
      Done((w, Future(sf.state)))
  }

  /** `ConstantFulfiller::async`: fulfil at once when eager, otherwise keep the
      promise for a later `poll`. */
  function ClientAsync(w: World, c: nat, p: Promise): (r: Outcome<World>)
    requires Valid(w) && c < |w.clients| && p.state < |w.cells|
    ensures r.Done? ==> Grows(w, r.value)
    ensures r.Done? ==> ChainedCount(r.value.cells) <= ChainedCount(w.cells)
    ensures !w.clients[c].eager ==>
              r == Done(w.(clients := w.clients[c := w.clients[c].(promise := Some(p))]))
    decreases ChainedCount(w.cells), 1
  {
    var f := w.clients[c];
    if f.eager then Fulfill(w, p.state, f.constant)
    else Done(w.(clients := w.clients[c := f.(promise := Some(p))]))
  }

  /** `Future::then`: like `map`, but the continuation yields an inner future
      whose eventual value is forwarded to the new promise. */
  function Then(w: World, src: Future, next: Next): (r: Outcome<(World, Future)>)
    requires Valid(w) && src.state < |w.cells| && NextOk(next, |w.clients|)
    ensures r.Done? ==> Grows(w, r.value.0) && r.value.1 == Future(|w.cells|)
    ensures IsChained(w.cells[src.state]) ==> r == Panic(DoubleRegistration)
  {
    var (w1, promise) := NewPromise(w);
    var cont := IntoCont(promise);
    var emptied: Cell<State> := Take(w1.cells[src.state]).0;
    var taken: Option<State> := Take(w1.cells[src.state]).1;
    var w2 := w1.(cells := w1.cells[src.state := emptied]);
    match taken
    case Some(Ready(from)) =>
      (match Invoke(w2, ThenTo(next, promise.state), from)
       case Panic(e) => Panic(e)
       case Done(w3) => Done((w3, cont)))
    case None =>
      var (chained, _) := Put(emptied, Chained(ThenTo(next, promise.state)));
      Done((w2.(cells := w2.cells[src.state := chained]), cont))
    case Some(Chained(_)) =>
      Panic(DoubleRegistration)
  }

  /** `ConstantFulfiller::sync`: fulfil the promise with the constant. */
  function ClientSync(w: World, c: nat, p: Promise): (r: Outcome<World>)
    requires Valid(w) && c < |w.clients| && p.state < |w.cells|
    ensures r.Done? ==> Grows(w, r.value)
    ensures Empty(w.cells[p.state]) ==>
              r == Done(w.(cells := w.cells[p.state := FromValue(Ready(w.clients[c].constant))]))
    ensures IsReady(w, p.state) ==> r == Panic(DoubleFulfillment)
  {
    Fulfill(w, p.state, w.clients[c].constant)
  }

  /** A sync future whose fulfiller delivers a value when asked to `sync`;
      `NoopFulfiller` and a missing fulfiller do nothing. */
  predicate Delivers(sf: SyncFuture)
  {
    sf.fulfiller.Some? && sf.fulfiller.value.Client?
  }

  /** `SyncFuture::sync`: let the fulfiller's `sync` run, then take the state;
      anything but a value there is fatal. Without a delivering fulfiller it
      succeeds exactly on a ready state and hands out the value held there; a
      client delivers its constant into an empty state and finds a ready one
      already fulfilled. */
  function Sync(w: World, sf: SyncFuture): (r: Outcome<(World, Value)>)
    requires Valid(w) && SyncFutureOk(sf, w)
    ensures r.Done? ==> Grows(w, r.value.0) && Empty(r.value.0.cells[sf.state])
    ensures !Delivers(sf) ==> (r.Done? <==> IsReady(w, sf.state))
    ensures !Delivers(sf) && IsReady(w, sf.state) ==>
              r == Done((w.(cells := w.cells[sf.state := New()]), GetRef(w.cells[sf.state]).value.value))
    ensures !Delivers(sf) && !IsReady(w, sf.state) ==> r == Panic(PrematureSync)
    ensures Delivers(sf) && Empty(w.cells[sf.state]) ==>
              r == Done((w, w.clients[sf.fulfiller.value.index].constant))
    ensures Delivers(sf) && IsReady(w, sf.state) ==> r == Panic(DoubleFulfillment)
  {
    var promise := MakePromise(sf);
    var delivered :=
      match sf.fulfiller
      case Some(Client(c)) => ClientSync(w, c, promise)
      case _ => Done(w);  // `NoopFulfiller::sync` and a missing fulfiller do nothing
    match delivered
    case Panic(e) => Panic(e)
    case Done(w1) =>
      var emptied: Cell<State> := Take(w1.cells[sf.state]).0;
      var taken: Option<State> := Take(w1.cells[sf.state]).1;
      match taken
      case Some(Ready(v)) =>
        // A client's constant went into an empty state: taking it restores `w`.
        assert Delivers(sf) && Empty(w.cells[sf.state]) ==> w1.cells[sf.state := emptied] == w.cells;
        Done((w1.(cells := w1.cells[sf.state := emptied]), v))
      case _ => Panic(PrematureSync)
  }

  /** `ConstantFulfiller::poll`: nothing when eager; otherwise take the stored
      promise (fatal if there is none) and fulfil it with the constant. */
  function Poll(w: World, c: nat): (r: Outcome<World>)
    requires Valid(w) && c < |w.clients|
    ensures r.Done? ==> Grows(w, r.value)
    ensures w.clients[c].eager ==> r == Done(w)
    ensures !w.clients[c].eager && w.clients[c].promise.None? ==> r == Panic(MissingPromise)
  {
    var f := w.clients[c];
    if f.eager then Done(w)
    else
      match f.promise
      case None => Panic(MissingPromise)
      case Some(p) =>
        Fulfill(w.(clients := w.clients[c := f.(promise := None)]), p.state, f.constant)
  }
}
