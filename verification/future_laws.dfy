/**
 Properties of the Promise/Future engine: single assignment, the eager and the
 deferred path of `map` and `then`, and what `sync`, `async` and `poll` deliver.
 */
module FutureLaws {
  import opened MoveCell
  import opened Future

  /** The value a state holds, if it holds one. */
  function Held(w: World, id: Id): Option<State>
    requires id < |w.cells|
  {
    GetRef(w.cells[id])
  }

  // ---------------------------------------------------------------------------
  // fulfill
  // ---------------------------------------------------------------------------

  /** Fulfilling an empty state stores the value there and changes nothing
      else: no other state and no fulfiller. */
  lemma FulfillEmpty(w: World, p: Id, v: Value)
    requires Valid(w) && p < |w.cells| && Empty(w.cells[p])
    ensures Fulfill(w, p, v).Done?
    ensures var w' := Fulfill(w, p, v).value;
            && |w'.cells| == |w.cells| && w'.clients == w.clients
            && Held(w', p) == Some(Ready(v))
            && (forall q :: 0 <= q < |w.cells| && q != p ==> w'.cells[q] == w.cells[q])
    ensures Fulfill(w, p, v) == Done(w.(cells := w.cells[p := FromValue(Ready(v))]))
  {
  }

  /** Fulfilling a state that already holds a value is fatal. */
  lemma FulfillReady(w: World, p: Id, v: Value)
    requires Valid(w) && p < |w.cells| && Held(w, p).Some? && Held(w, p).value.Ready?
    ensures Fulfill(w, p, v) == Panic(DoubleFulfillment)
  {
  }

  /** At most one successful fulfilment per state: once an empty state has
      been fulfilled, fulfilling it again is fatal, whatever the value. */
  lemma FulfillAtMostOnce(w: World, p: Id, v: Value, v': Value)
    requires Valid(w) && p < |w.cells| && Empty(w.cells[p])
    ensures Fulfill(w, p, v).Done?
    ensures Fulfill(Fulfill(w, p, v).value, p, v') == Panic(DoubleFulfillment)
  {
    FulfillEmpty(w, p, v);
    FulfillReady(Fulfill(w, p, v).value, p, v');
  }

  /** Fulfilling a state with a waiting continuation takes the continuation
      out, leaving the state empty, and runs it on the value. */
  lemma FulfillChained(w: World, p: Id, v: Value)
    requires Valid(w) && p < |w.cells| && IsChained(w.cells[p])
    ensures CellOk(w.cells[p], |w.cells|, |w.clients|)
    ensures Fulfill(w, p, v) == Invoke(w.(cells := w.cells[p := New()]), w.cells[p].slot.value.k, v)
  {
  }

  /** Every fulfilment that invokes a continuation strictly lowers the number
      of waiting continuations below what it was before the state was taken:
      the taken continuation is never put back. */
  lemma FulfillConsumesContinuation(w: World, p: Id, v: Value)
    requires Valid(w) && p < |w.cells| && IsChained(w.cells[p])
    ensures ChainedCount(w.cells[p := New()]) == ChainedCount(w.cells) - 1
    ensures Fulfill(w, p, v).Done? ==>
              ChainedCount(Fulfill(w, p, v).value.cells) <= ChainedCount(w.cells)
  {
    CountUpdate(w.cells, p, New());
  }

  // ---------------------------------------------------------------------------
  // map and then
  // ---------------------------------------------------------------------------

  /** `map` on a ready source runs the function at once: the source is
      consumed and the new future is already `Ready(f(x))`. */
  lemma MapReady(w: World, src: Future, f: Value -> Value, x: Value)
    requires Valid(w) && src.state < |w.cells| && Held(w, src.state) == Some(Ready(x))
    ensures MapOn(w, src, Pure(f))
         == Done((w.(cells := w.cells[src.state := New()] + [FromValue(Ready(f(x)))]), Future(|w.cells|)))
  {
    var (w1, promise) := NewPromise(w);
    var w2 := w1.(cells := w1.cells[src.state := New()]);
    CountUpdate(w1.cells, src.state, New());
    assert Valid(w2);
    FulfillEmpty(w2, promise.state, f(x));
    assert w2.cells[promise.state := FromValue(Ready(f(x)))]
        == w.cells[src.state := New()] + [FromValue(Ready(f(x)))];
  }

  /** `map` on a ready source takes the value out of the source and runs the
      continuation on it at once, into a fresh state. */
  lemma MapOnReady(w: World, src: Future, t: Through, x: Value)
    requires Valid(w) && src.state < |w.cells| && Held(w, src.state) == Some(Ready(x)) && ThroughOk(t, |w.cells|)
    ensures var r := Invoke(Emptied(NewPromise(w).0, src.state), MapTo(t, |w.cells|), x);
            MapOn(w, src, t) == (if r.Done? then Done((r.value, Future(|w.cells|))) else Panic(r.fatal))
  {
  }

  /** `map` with the closure that fulfils the promise `dst`, on a ready
      source: the source is consumed, `dst` receives its value at once and
      the new future holds the closure's `()`. */
  lemma MapForwardReady(w: World, src: Future, dst: Id, x: Value)
    requires Valid(w) && src.state < |w.cells| && Held(w, src.state) == Some(Ready(x))
    requires dst < |w.cells| && dst != src.state && Empty(w.cells[dst])
    ensures MapOn(w, src, FulfillInto(dst))
         == Done((w.(cells := w.cells[src.state := New()][dst := FromValue(Ready(x))] + [FromValue(Ready(Unit))]),
                  Future(|w.cells|)))
  {
    var n := |w.cells|;
    var w2 := Emptied(NewPromise(w).0, src.state);
    assert w2.cells == w.cells[src.state := New()] + [New()];
    var w1 := w2.(cells := w2.cells[dst := FromValue(Ready(x))]);
    MapOnReady(w, src, FulfillInto(dst), x);
    FulfillEmpty(w2, dst, x);
    InvokeForwardVia(w2, dst, n, x, w1);
    MapForwardCells(w.cells, src.state, dst, FromValue(Ready(x)), FromValue(Ready(Unit)));
  }

  /** The slots `MapForwardReady` ends with, as a plain sequence identity. */
  lemma MapForwardCells(cs: seq<Cell<State>>, s: nat, d: nat, a: Cell<State>, b: Cell<State>)
    requires s < |cs| && d < |cs|
    ensures (cs[s := New()] + [New()])[d := a][|cs| := b] == cs[s := New()][d := a] + [b]
  {
  }

  /** `map` on an empty source returns a future that is not ready and leaves
      the transformation waiting on the source; nothing else changes. */
  lemma MapPending(w: World, src: Future, t: Through)
    requires Valid(w) && src.state < |w.cells| && Empty(w.cells[src.state]) && ThroughOk(t, |w.cells|)
    ensures MapOn(w, src, t)
         == Done((w.(cells := (w.cells + [New()])[src.state := FromValue(Chained(MapTo(t, |w.cells|)))]),
                  Future(|w.cells|)))
    ensures var (w', fut) := MapOn(w, src, t).value;
            && !IsReady(w', fut.state)
            && Held(w', src.state) == Some(Chained(MapTo(t, fut.state)))
  {
    var grown := w.cells + [New()];
    var k := FromValue(Chained(MapTo(t, |w.cells|)));
    assert grown[src.state := New()][src.state := k] == grown[src.state := k];
  }

  /** `then` on an empty source likewise leaves its step waiting on the source
      and returns a future that is not ready. */
  lemma ThenPending(w: World, src: Future, next: Next)
    requires Valid(w) && src.state < |w.cells| && Empty(w.cells[src.state]) && NextOk(next, |w.clients|)
    ensures Then(w, src, next)
         == Done((w.(cells := (w.cells + [New()])[src.state := FromValue(Chained(ThenTo(next, |w.cells|)))]),
                  Future(|w.cells|)))
    ensures var (w', fut) := Then(w, src, next).value;
            && !IsReady(w', fut.state)
            && Held(w', src.state) == Some(Chained(ThenTo(next, fut.state)))
  {
    var grown := w.cells + [New()];
    var k := FromValue(Chained(ThenTo(next, |w.cells|)));
    assert grown[src.state := New()][src.state := k] == grown[src.state := k];
  }

  /** `then` on a ready source takes the value out of the source and runs its
      step on it at once, into a fresh state. */
  lemma ThenOnReady(w: World, src: Future, next: Next, x: Value)
    requires Valid(w) && src.state < |w.cells| && Held(w, src.state) == Some(Ready(x)) && NextOk(next, |w.clients|)
    ensures var r := Invoke(Emptied(NewPromise(w).0, src.state), ThenTo(next, |w.cells|), x);
            Then(w, src, next) == (if r.Done? then Done((r.value, Future(|w.cells|))) else Panic(r.fatal))
  {
  }

  /** `then` on a ready source with the step the crate uses, starting a
      deferred client: the source is consumed, the client is started with
      `arg(x)` and keeps the promise of a fresh state, and a forwarding
      continuation into the returned future waits on that state. */
  lemma ThenReadyDeferred(w: World, src: Future, c: nat, arg: Value -> Value, x: Value)
    requires Valid(w) && src.state < |w.cells| && Held(w, src.state) == Some(Ready(x))
    requires c < |w.clients| && !w.clients[c].eager
    ensures var n := |w.cells|;
            Then(w, src, StartAsync(c, arg))
            == Done((World(w.cells[src.state := New()] + [New(), FromValue(Chained(MapTo(FulfillInto(n), n + 2))), New()],
                           w.clients[c := ConstantFulfiller(arg(x), Some(Promise(n + 1)), false)]),
                     Future(n)))
  {
    var n := |w.cells|;
    var w0 := Emptied(NewPromise(w).0, src.state);
    var k := FromValue(Chained(MapTo(FulfillInto(n), n + 2)));
    var target := World(w.cells[src.state := New()] + [New(), k, New()],
                        w.clients[c := ConstantFulfiller(arg(x), Some(Promise(n + 1)), false)]);
    ThenReadyCells(w.cells, src.state, k);
    InvokeThenDeferredTo(w0, c, arg, n, x, target);
    ThenOnReadyVia(w, src, StartAsync(c, arg), x, w0, target);
  }

  /** `ThenOnReady` with the worlds named: once the step, run in the emptied
      world `w0`, yields `w1`, the whole `then` yields `w1`. */
  lemma ThenOnReadyVia(w: World, src: Future, next: Next, x: Value, w0: World, w1: World)
    requires Valid(w) && src.state < |w.cells| && Held(w, src.state) == Some(Ready(x)) && NextOk(next, |w.clients|)
    requires Emptied(NewPromise(w).0, src.state) == w0
    requires Invoke(w0, ThenTo(next, |w.cells|), x) == Done(w1)
    ensures Then(w, src, next) == Done((w1, Future(|w.cells|)))
  {
    ThenOnReady(w, src, next, x);
  }

  /** The slots `ThenReadyDeferred` ends with, as a plain sequence identity. */
  lemma ThenReadyCells(cs: seq<Cell<State>>, s: nat, k: Cell<State>)
    requires s < |cs|
    ensures (cs + [New()])[s := New()] + [k, New()] == cs[s := New()] + [New(), k, New()]
  {
  }

  /** The waiting step of `then`, run on `v` with a deferred client: the client
      is started with `arg(v)` and keeps the promise of a fresh state, on which
      a forwarding continuation into `dst` now waits. */
  lemma InvokeThenDeferred(w: World, c: nat, arg: Value -> Value, dst: Id, v: Value)
    requires Valid(w) && c < |w.clients| && !w.clients[c].eager && dst < |w.cells|
    ensures Invoke(w, ThenTo(StartAsync(c, arg), dst), v)
         == Done(World(w.cells + [FromValue(Chained(MapTo(FulfillInto(dst), |w.cells| + 1))), New()],
                       w.clients[c := ConstantFulfiller(arg(v), Some(Promise(|w.cells|)), false)]))
  {
    var n := |w.cells|;
    var (w1, sf) := Start(w, c, arg(v));
    assert sf == SyncFuture(Some(Client(c)), n);
    var w2 := w1.(clients := w1.clients[c := w1.clients[c].(promise := Some(Promise(n)))]);
    assert w2.clients == w.clients[c := ConstantFulfiller(arg(v), Some(Promise(n)), false)];
    assert ClientAsync(w1, c, MakePromise(sf)) == Done(w2);
    assert Async(w1, sf) == Done((w2, Future(n)));
    assert RunNext(w, StartAsync(c, arg), v) == Done((w2, Future(n)));
    assert Valid(w2);
    MapPending(w2, Future(n), FulfillInto(dst));
    var k := FromValue(Chained(MapTo(FulfillInto(dst), n + 1)));
    assert (w2.cells + [New()])[n := k] == w.cells + [k, New()];
    assert MapOn(w2, Future(n), FulfillInto(dst)) == Done((World(w.cells + [k, New()], w2.clients), Future(n + 1)));
  }

  /** `InvokeThenDeferred` with the resulting world named. */
  lemma InvokeThenDeferredTo(w: World, c: nat, arg: Value -> Value, dst: Id, v: Value, w': World)
    requires Valid(w) && c < |w.clients| && !w.clients[c].eager && dst < |w.cells|
    requires w' == World(w.cells + [FromValue(Chained(MapTo(FulfillInto(dst), |w.cells| + 1))), New()],
                         w.clients[c := ConstantFulfiller(arg(v), Some(Promise(|w.cells|)), false)])
    ensures Invoke(w, ThenTo(StartAsync(c, arg), dst), v) == Done(w')
  {
    InvokeThenDeferred(w, c, arg, dst, v);
  }

  /** The deferred path of `map` delivers later: fulfilling the source after
      `map` makes the mapped future `Ready(f(v))` and leaves the source empty. */
  lemma MapThenFulfill(w: World, src: Future, f: Value -> Value, v: Value)
    requires Valid(w) && src.state < |w.cells| && Empty(w.cells[src.state])
    ensures MapOn(w, src, Pure(f)).Done?
    ensures var (w1, fut) := MapOn(w, src, Pure(f)).value;
            && src.state < |w1.cells|
            && Fulfill(w1, src.state, v).Done?
            && Held(Fulfill(w1, src.state, v).value, fut.state) == Some(Ready(f(v)))
            && Empty(Fulfill(w1, src.state, v).value.cells[src.state])
  {
    MapPending(w, src, Pure(f));
    var (w1, fut) := MapOn(w, src, Pure(f)).value;
    var w2 := w1.(cells := w1.cells[src.state := New()]);
    FulfillChained(w1, src.state, v);
    assert Empty(w2.cells[fut.state]);
    FulfillEmpty(w2, fut.state, f(v));
  }

  /** Two `map`s on a ready source compose: the second future is already
      `Ready(g(f(x)))`. */
  lemma MapCompose(w: World, src: Future, f: Value -> Value, g: Value -> Value, x: Value)
    requires Valid(w) && src.state < |w.cells| && Held(w, src.state) == Some(Ready(x))
    ensures MapOn(w, src, Pure(f)).Done?
    ensures var (w1, fut1) := MapOn(w, src, Pure(f)).value;
            && fut1.state < |w1.cells|
            && MapOn(w1, fut1, Pure(g)).Done?
            && var (w2, fut2) := MapOn(w1, fut1, Pure(g)).value;
               Held(w2, fut2.state) == Some(Ready(g(f(x))))
  {
    MapReady(w, src, f, x);
    var (w1, fut1) := MapOn(w, src, Pure(f)).value;
    MapReady(w1, fut1, g, f(x));
  }

  /** `then` on a ready source, with a step that yields an already-resolved
      future, agrees with `map`: its future is already `Ready(f(x))`. */
  lemma ThenReadyAgreesWithMap(w: World, src: Future, f: Value -> Value, x: Value)
    requires Valid(w) && src.state < |w.cells| && Held(w, src.state) == Some(Ready(x))
    ensures Then(w, src, ReadyOf(f)).Done?
    ensures var (w', fut) := Then(w, src, ReadyOf(f)).value;
            Held(w', fut.state) == Some(Ready(f(x)))
    ensures MapOn(w, src, Pure(f)).Done?
    ensures Then(w, src, ReadyOf(f)).value.1 == MapOn(w, src, Pure(f)).value.1
  {
    MapReady(w, src, f, x);
    var (w1, promise) := NewPromise(w);
    var d := promise.state;
    var w2 := w1.(cells := w1.cells[src.state := New()]);
    CountUpdate(w1.cells, src.state, New());
    assert Valid(w2);
    // next(x): SyncFuture::new_ready(f(x)).async()
    var (w3, sf) := NewReady(w2, f(x));
    assert Async(w3, sf) == Done((w3, Future(sf.state)));
    assert RunNext(w2, ReadyOf(f), x) == Done((w3, Future(sf.state)));
    // .map(proc(to) { promise.fulfill(to) }) on the ready inner future
    var (w4, e) := NewPromise(w3);
    var w5 := w4.(cells := w4.cells[sf.state := New()]);
    CountUpdate(w4.cells, sf.state, New());
    assert Valid(w5);
    FulfillEmpty(w5, d, f(x));
    var w6 := Fulfill(w5, d, f(x)).value;
    assert Apply(w5, FulfillInto(d), f(x)) == Done((w6, Unit));
    FulfillEmpty(w6, e.state, Unit);
    var w7 := Fulfill(w6, e.state, Unit).value;
    assert Invoke(w5, MapTo(FulfillInto(d), e.state), f(x)) == Done(w7);
    assert MapOn(w3, Future(sf.state), FulfillInto(d)) == Done((w7, Future(e.state)));
    assert Invoke(w2, ThenTo(ReadyOf(f), d), x) == Done(w7);
    assert Then(w, src, ReadyOf(f)) == Done((w7, Future(d)));
  }

  /** The continuation `then` installs on an inner future, run on `v`:
      the outer promise `dst` is fulfilled with `v`, then the unit result goes
      to the discarded future `e` of that inner `map`. */
  lemma InvokeForward(w: World, dst: Id, e: Id, v: Value)
    requires Valid(w) && dst < |w.cells| && e < |w.cells| && dst != e
    requires Empty(w.cells[e]) && Fulfill(w, dst, v).Done?
    requires Fulfill(w, dst, v).value.cells[e] == w.cells[e]
    ensures var w1 := Fulfill(w, dst, v).value;
            (Invoke(w, MapTo(FulfillInto(dst), e), v)
               == Done(w1.(cells := w1.cells[e := FromValue(Ready(Unit))])))
  {
    var w1 := Fulfill(w, dst, v).value;
    assert Apply(w, FulfillInto(dst), v) == Done((w1, Unit));
    FulfillEmpty(w1, e, Unit);
  }

  /** `InvokeForward` with the world after the delivery named. */
  lemma InvokeForwardVia(w: World, dst: Id, e: Id, v: Value, w1: World)
    requires Valid(w) && dst < |w.cells| && e < |w.cells| && dst != e && Empty(w.cells[e])
    requires Fulfill(w, dst, v) == Done(w1) && Empty(w1.cells[e])
    ensures Invoke(w, MapTo(FulfillInto(dst), e), v) == Done(w1.(cells := w1.cells[e := FromValue(Ready(Unit))]))
  {
    InvokeForward(w, dst, e, v);
  }

  /** `w` with the state `p` taken out, as `fulfill` leaves it before running
      the continuation it found there. */
  function Emptied(w: World, p: Id): (r: World)
    requires Valid(w) && p < |w.cells|
    ensures Valid(r) && |r.cells| == |w.cells| && r.clients == w.clients
    ensures Empty(r.cells[p]) && forall q :: 0 <= q < |w.cells| && q != p ==> r.cells[q] == w.cells[q]
  {
    w.(cells := w.cells[p := New()])
  }

  /** Fulfilling a state on which a forwarding continuation waits (the one
      `then` installs on its inner future) fulfils the outer promise `dst`
      with the same value, then marks the discarded future `e` with `()`. */
  lemma FulfillForward(w: World, p: Id, dst: Id, e: Id, v: Value)
    requires Valid(w) && p < |w.cells| && Held(w, p) == Some(Chained(MapTo(FulfillInto(dst), e)))
    requires p != e && dst != e && Empty(w.cells[e])
    requires Fulfill(Emptied(w, p), dst, v).Done?
    requires Fulfill(Emptied(w, p), dst, v).value.cells[e] == w.cells[e]
    ensures var w1 := Fulfill(Emptied(w, p), dst, v).value;
            Fulfill(w, p, v) == Done(w1.(cells := w1.cells[e := FromValue(Ready(Unit))]))
  {
    FulfillChained(w, p, v);
    InvokeForward(Emptied(w, p), dst, e, v);
  }

  /** `FulfillForward` with the intermediate worlds named: once the emptied
      world is `w0` and delivering into `dst` there yields `w1`, the whole
      `fulfill` yields `w2`, which is `w1` with `()` in the forwarded state. */
  lemma FulfillForwardVia(w: World, p: Id, dst: Id, e: Id, v: Value, w0: World, w1: World, w2: World)
    requires Valid(w) && p < |w.cells| && Held(w, p) == Some(Chained(MapTo(FulfillInto(dst), e)))
    requires p != e && dst != e && Empty(w.cells[e])
    requires Emptied(w, p) == w0 && Fulfill(w0, dst, v) == Done(w1)
    requires e < |w1.cells| && Empty(w1.cells[e])
    requires w2 == w1.(cells := w1.cells[e := FromValue(Ready(Unit))])
    ensures Fulfill(w, p, v) == Done(w2)
  {
    FulfillForward(w, p, dst, e, v);
  }

  // ---------------------------------------------------------------------------
  // sync, async and poll
  // ---------------------------------------------------------------------------

  /** `sync` on a freshly started `ConstantFulfiller` returns exactly its
      constant, and leaves the world as `start` left it but for the consumed
      state. */
  lemma SyncReturnsConstant(w: World, c: nat, v: Value)
    requires Valid(w) && c < |w.clients|
    ensures var (w1, sf) := Start(w, c, v);
            Sync(w1, sf) == Done((w1, v))
  {
    var (w1, sf) := Start(w, c, v);
    FulfillEmpty(w1, sf.state, v);
    assert w1.cells[sf.state := FromValue(Ready(v))][sf.state := New()] == w1.cells;
  }

  /** A fulfiller that never delivers makes `sync` fatal: a `SyncFuture` bound
      to `NoopFulfiller`, and one from `new_with_promise` whose promise was
      never fulfilled. */
  lemma SyncWithoutDeliveryPanics(w: World)
    requires Valid(w)
    ensures var (w1, sf) := NewSyncFuture(w, Noop);
            Sync(w1, sf) == Panic(PrematureSync)
    ensures var (w1, sf, _) := NewWithPromise(w);
            Sync(w1, sf) == Panic(PrematureSync)
  {
  }

  /** `new_ready(v)` is ready at once and `sync` returns `v` without calling
      any fulfiller. */
  lemma NewReadySync(w: World, v: Value)
    requires Valid(w)
    ensures var (w1, sf) := NewReady(w, v);
            && IsReady(w1, sf.state)
            && Sync(w1, sf) == Done((w.(cells := w.cells + [New()]), v))
  {
    var (w1, sf) := NewReady(w, v);
    assert w1.cells[sf.state := New()] == w.cells + [New()];
  }

  /** The identity round trip: fulfilling the promise of `new_with_promise`
      with `v` and then calling `sync` returns `v`. */
  lemma FulfillThenSync(w: World, v: Value)
    requires Valid(w)
    ensures var (w1, sf, p) := NewWithPromise(w);
            && Fulfill(w1, p.state, v).Done?
            && Sync(Fulfill(w1, p.state, v).value, sf) == Done((w1, v))
  {
    var (w1, sf, p) := NewWithPromise(w);
    FulfillEmpty(w1, p.state, v);
    assert w1.cells[p.state := FromValue(Ready(v))][p.state := New()] == w1.cells;
  }

  /** `async` returns at once; its future is ready exactly when the fulfiller
      is eager. A deferred fulfiller keeps the promise, and a later `poll`
      makes the future ready with the constant; polling an eager fulfiller
      does nothing. */
  lemma AsyncThenPoll(w: World, c: nat, v: Value)
    requires Valid(w) && c < |w.clients|
    ensures var (w1, sf) := Start(w, c, v);
            && Async(w1, sf).Done?
            && var (w2, fut) := Async(w1, sf).value;
               && fut.state == |w.cells| && fut.state < |w2.cells| && c < |w2.clients|
               && (IsReady(w2, fut.state) <==> w.clients[c].eager)
               && Poll(w2, c).Done?
               && Held(Poll(w2, c).value, fut.state) == Some(Ready(v))
  {
    var (w1, sf) := Start(w, c, v);
    var p := MakePromise(sf);
    if w.clients[c].eager {
      FulfillEmpty(w1, sf.state, v);
    } else {
      var w2 := w1.(clients := w1.clients[c := w1.clients[c].(promise := Some(p))]);
      assert Async(w1, sf) == Done((w2, Future(sf.state)));
      var w3 := w2.(clients := w2.clients[c := w2.clients[c].(promise := None)]);
      FulfillEmpty(w3, sf.state, v);
    }
  }

  /** `async` on a started deferred client: the client keeps the promise of
      the fresh state and the returned future is not ready. */
  lemma StartAsyncDeferred(w: World, c: nat, v: Value)
    requires Valid(w) && c < |w.clients| && !w.clients[c].eager
    ensures var (w1, sf) := Start(w, c, v);
            (Async(w1, sf)
               == Done((World(w.cells + [New()], w.clients[c := ConstantFulfiller(v, Some(Promise(|w.cells|)), false)]),
                        Future(|w.cells|))))
  {
    var (w1, sf) := Start(w, c, v);
    assert w1.clients[c := w1.clients[c].(promise := Some(Promise(|w.cells|)))]
        == w.clients[c := ConstantFulfiller(v, Some(Promise(|w.cells|)), false)];
    assert ClientAsync(w1, c, MakePromise(sf))
        == Done(World(w.cells + [New()], w.clients[c := ConstantFulfiller(v, Some(Promise(|w.cells|)), false)]));
  }

  /** `StartAsyncDeferred` with the resulting world named. */
  lemma StartAsyncDeferredTo(w: World, c: nat, v: Value, w': World)
    requires Valid(w) && c < |w.clients| && !w.clients[c].eager
    requires w' == World(w.cells + [New()], w.clients[c := ConstantFulfiller(v, Some(Promise(|w.cells|)), false)])
    ensures var (w1, sf) := Start(w, c, v);
            Async(w1, sf) == Done((w', Future(|w.cells|)))
  {
    StartAsyncDeferred(w, c, v);
  }

  /** Fulfilling a state on which a `map` with a pure function waits fulfils
      the mapped state with the transformed value. */
  lemma FulfillMapped(w: World, p: Id, f: Value -> Value, dst: Id, v: Value)
    requires Valid(w) && p < |w.cells| && Held(w, p) == Some(Chained(MapTo(Pure(f), dst)))
    ensures dst < |w.cells|
    ensures Fulfill(w, p, v) == Fulfill(Emptied(w, p), dst, f(v))
  {
    FulfillChained(w, p, v);
  }

  /** Fulfilling a state on which a `then` step waits starts the deferred
      client `c2` with `arg(v)`; the chain now waits, through a forwarding
      continuation into `dst`, on the fresh state that `c2` holds. */
  lemma FulfillStartsNext(w: World, p: Id, c2: nat, arg: Value -> Value, dst: Id, v: Value)
    requires Valid(w) && p < |w.cells| && c2 < |w.clients| && !w.clients[c2].eager
    requires Held(w, p) == Some(Chained(ThenTo(StartAsync(c2, arg), dst)))
    ensures Fulfill(w, p, v)
         == Done(World(w.cells[p := New()] + [FromValue(Chained(MapTo(FulfillInto(dst), |w.cells| + 1))), New()],
                       w.clients[c2 := ConstantFulfiller(arg(v), Some(Promise(|w.cells|)), false)]))
  {
    FulfillChained(w, p, v);
    InvokeThenDeferred(Emptied(w, p), c2, arg, dst, v);
  }

  /** `w` with client `c` no longer holding a promise, as `poll` leaves it
      before fulfilling the promise it took. */
  function Released(w: World, c: nat): (r: World)
    requires Valid(w) && c < |w.clients|
    ensures Valid(r) && r.cells == w.cells && |r.clients| == |w.clients|
    ensures r.clients[c] == w.clients[c].(promise := None)
    ensures forall j :: 0 <= j < |w.clients| && j != c ==> r.clients[j] == w.clients[j]
  {
    w.(clients := w.clients[c := w.clients[c].(promise := None)])
  }

  /** Polling a deferred client that holds a promise gives the promise up and
      fulfils it with the client's constant. */
  lemma PollDelivers(w: World, c: nat, p: Id)
    requires Valid(w) && c < |w.clients| && !w.clients[c].eager && w.clients[c].promise == Some(Promise(p))
    ensures p < |w.cells|
    ensures Poll(w, c) == Fulfill(Released(w, c), p, w.clients[c].constant)
  {
  }

  /** Polling a deferred client whose stored promise has a `then` step waiting
      on it: the client gives up the promise and the step starts the next
      deferred client `c2` with `arg` of the constant; the chain now waits on
      the fresh state that `c2` holds. */
  lemma PollStartsNext(w: World, c: nat, p: Id, c2: nat, arg: Value -> Value, dst: Id)
    requires Valid(w) && c < |w.clients| && c2 < |w.clients| && p < |w.cells| && dst < |w.cells|
    requires !w.clients[c].eager && w.clients[c].promise == Some(Promise(p))
    requires !w.clients[c2].eager
    requires Held(w, p) == Some(Chained(ThenTo(StartAsync(c2, arg), dst)))
    ensures Poll(w, c)
         == Done(World(w.cells[p := New()] + [FromValue(Chained(MapTo(FulfillInto(dst), |w.cells| + 1))), New()],
                       w.clients[c := w.clients[c].(promise := None)]
                                [c2 := ConstantFulfiller(arg(w.clients[c].constant), Some(Promise(|w.cells|)), false)]))
  {
    var w1 := w.(clients := w.clients[c := w.clients[c].(promise := None)]);
    assert Poll(w, c) == Fulfill(w1, p, w.clients[c].constant);
    FulfillStartsNext(w1, p, c2, arg, dst, w.clients[c].constant);
  }
}
