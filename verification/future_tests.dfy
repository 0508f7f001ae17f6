/**
 The scenarios of the Rust test module of the Promise/Future engine. Each test
 is a function that makes the test's calls and returns what the test checks,
 and a lemma states that the check passes.

 Every test starts from an arbitrary well-formed world `w`, so the lemmas also
 say that states and clients already present do not interfere: the test's
 clients are numbered from `|w.clients|` and its states from `|w.cells|`, in
 creation order.
 */
module FutureTests {
  import opened MoveCell
  import opened Future
  import opened FutureLaws
  import opened Scenario

  // ---------------------------------------------------------------------------
  // test_copy_sync, test_nocopy_sync and test_ready
  // ---------------------------------------------------------------------------

  /** `test_copy_sync` (5 then 6) and `test_nocopy_sync` ("yah" then "gah"),
      for any `a` and `b`: one client started with `a` and then with `b`; each
      `sync` returns its own constant. */
  function CopySyncTest(w: World, a: Value, b: Value): Outcome<(Value, Value)>
    requires Valid(w)
  {
    var (w0, ful) := NewClient(w, Num(0), false);
    var (w1, sf1) := Start(w0, ful, a);
    var r1 :- Sync(w1, sf1);
    var (w2, sf2) := Start(r1.0, ful, b);
    var r2 :- Sync(w2, sf2);
    Done((r1.1, r2.1))
  }

  lemma CopySyncTestPasses(w: World, a: Value, b: Value)
    requires Valid(w)
    ensures CopySyncTest(w, a, b) == Done((a, b))
  {
    var (w0, ful) := NewClient(w, Num(0), false);
    SyncReturnsConstant(w0, ful, a);
    var (w1, sf1) := Start(w0, ful, a);
    SyncReturnsConstant(w1, ful, b);
  }

  /** `test_ready` (with 5, here any `v`): `new_ready(v)` is ready and `sync`
      returns `v`. */
  function ReadyTest(w: World, v: Value): Outcome<(bool, Value)>
    requires Valid(w)
  {
    var (w1, fut) := NewReady(w, v);
    var r :- Sync(w1, fut);
    Done((IsReady(w1, fut.state), r.1))
  }

  lemma ReadyTestPasses(w: World, v: Value)
    requires Valid(w)
    ensures ReadyTest(w, v) == Done((true, v))
  {
    NewReadySync(w, v);
  }

  // ---------------------------------------------------------------------------
  // test_async
  // ---------------------------------------------------------------------------

  /** `test_async` for one value of `eager`: `start("foo").async()`, whose
      readiness is recorded, then a `map` whose closure records the value it
      receives, then `poll`. The closure's record (the `called_setter` flag and
      the value it checks) is the state of a promise the closure fulfils. */
  function AsyncTest(w: World, eager: bool): Outcome<(bool, Option<State>)>
    requires Valid(w)
  {
    var (w0, ful) := NewClient(w, Text(""), eager);
    var (w1, _, record) := NewWithPromise(w0);
    var (w2, sf) := Start(w1, ful, Text("foo"));
    var a :- Async(w2, sf);
    var readyAtOnce := IsReady(a.0, a.1.state);
    var m :- MapOn(a.0, a.1, FulfillInto(record.state));
    var w3 :- Poll(m.0, ful);
    Done((readyAtOnce, Held(w3, record.state)))
  }

  /** The world of `test_async` once "foo" has been started: the record's
      state, the started future's state, and the client. */
  function AsyncStarted(w: World, eager: bool): World
  {
    Ext(w, [EmptyCell(), EmptyCell()], [ConstantFulfiller(Text("foo"), None, eager)])
  }

  lemma AsyncStartedResult(w: World, eager: bool)
    requires Valid(w)
    ensures var (w0, ful) := NewClient(w, Text(""), eager);
            var (w1, _, record) := NewWithPromise(w0);
            && ful == |w.clients| && record.state == |w.cells|
            && Start(w1, ful, Text("foo"))
               == (AsyncStarted(w, eager), SyncFuture(Some(Client(|w.clients|)), |w.cells| + 1))
  {
    var (w0, ful) := NewClient(w, Text(""), eager);
    var (w1, _, record) := NewWithPromise(w0);
    assert w1.cells + [New()] == AsyncStarted(w, eager).cells;
    assert w1.clients[ful := w1.clients[ful].(constant := Text("foo"))] == AsyncStarted(w, eager).clients;
  }

  /** Eager: `async` fulfils at once, so the future is ready and the `map`
      runs its closure straight away; `poll` does nothing. */
  lemma AsyncEagerResult(w: World)
    requires Valid(w) && Valid(AsyncStarted(w, true))
    ensures var n := |w.cells|;
            var ready := Ext(w, [EmptyCell(), Holding(Text("foo"))], [ConstantFulfiller(Text("foo"), None, true)]);
            && Async(AsyncStarted(w, true), SyncFuture(Some(Client(|w.clients|)), n + 1)) == Done((ready, Future(n + 1)))
            && MapOn(ready, Future(n + 1), FulfillInto(n))
               == Done((Ext(w, [Holding(Text("foo")), EmptyCell(), Holding(Unit)], ready.clients[|w.clients|..]), Future(n + 2)))
  {
    var n := |w.cells|;
    var w2 := AsyncStarted(w, true);
    var foo := Holding(Text("foo"));
    var ready := Ext(w, [EmptyCell(), foo], [ConstantFulfiller(Text("foo"), None, true)]);
    assert Async(w2, SyncFuture(Some(Client(|w.clients|)), n + 1)) == Done((ready, Future(n + 1))) by {
      FulfillEmpty(w2, n + 1, Text("foo"));
      assert w2.cells[n + 1 := foo] == ready.cells;
    }
    assert ready.clients[|w.clients|..] == [ConstantFulfiller(Text("foo"), None, true)];
    MapForwardReady(ready, Future(n + 1), n, Text("foo"));
    assert ready.cells[n + 1 := New()][n := foo] + [Holding(Unit)] == w.cells + [foo, EmptyCell(), Holding(Unit)];
  }

  /** The world of deferred `test_async` after `map`: the client holds the
      started future's promise and the closure waits on that future. */
  function AsyncWaiting(w: World): World
  {
    var n := |w.cells|;
    Ext(w, [EmptyCell(), Forward(n, n + 2), EmptyCell()], [Holds(Text("foo"), n + 1)])
  }

  /** Deferred: `async` leaves the future pending with the client holding its
      promise, and `map` waits on it. */
  lemma AsyncDeferredResult(w: World)
    requires Valid(w) && Valid(AsyncStarted(w, false))
    ensures var n := |w.cells|;
            var kept := Ext(w, [EmptyCell(), EmptyCell()], [Holds(Text("foo"), n + 1)]);
            && Async(AsyncStarted(w, false), SyncFuture(Some(Client(|w.clients|)), n + 1)) == Done((kept, Future(n + 1)))
            && MapOn(kept, Future(n + 1), FulfillInto(n)) == Done((AsyncWaiting(w), Future(n + 2)))
  {
    var n := |w.cells|;
    var m := |w.clients|;
    var w2 := AsyncStarted(w, false);
    var kept := Ext(w, [EmptyCell(), EmptyCell()], [Holds(Text("foo"), n + 1)]);
    assert Async(w2, SyncFuture(Some(Client(m)), n + 1)) == Done((kept, Future(n + 1))) by {
      assert w2.clients[m := w2.clients[m].(promise := Some(Promise(n + 1)))] == kept.clients;
      assert ClientAsync(w2, m, Promise(n + 1)) == Done(kept);
    }
    MapOnLast(w, [EmptyCell(), EmptyCell()], [Holds(Text("foo"), n + 1)], FulfillInto(n));
    assert [EmptyCell(), EmptyCell()][..1] + [Forward(n, n + 2), EmptyCell()] == [EmptyCell(), Forward(n, n + 2), EmptyCell()];
  }

  /** Deferred: `poll` delivers "foo", and the waiting closure records it. */
  lemma AsyncDeferredPoll(w: World)
    requires Valid(w) && Valid(AsyncWaiting(w))
    ensures Poll(AsyncWaiting(w), |w.clients|)
         == Done(Ext(w, [Holding(Text("foo")), EmptyCell(), Holding(Unit)], [Polled(Text("foo"))]))
  {
    var n := |w.cells|;
    var cs := [EmptyCell(), Forward(n, n + 2), EmptyCell()];
    var cl := [Polled(Text("foo"))];
    PollExt(w, cs, [Holds(Text("foo"), n + 1)], 0, n + 1);
    assert [Holds(Text("foo"), n + 1)][0 := Polled(Text("foo"))] == cl;
    ForwardEmptyExt(w, cs, cl, 1, 0, 2, Text("foo"));
    assert cs[1 := EmptyCell()][0 := Holding(Text("foo"))][2 := Holding(Unit)]
        == [Holding(Text("foo")), EmptyCell(), Holding(Unit)];
  }

  /** The future is ready at once exactly when the fulfiller is eager, and
      either way the mapped closure has run on "foo" after `poll`. */
  lemma AsyncTestPasses(w: World, eager: bool)
    requires Valid(w)
    ensures AsyncTest(w, eager) == Done((eager, Some(Ready(Text("foo")))))
  {
    AsyncStartedResult(w, eager);
    var (w0, ful) := NewClient(w, Text(""), eager);
    var (w1, _, record) := NewWithPromise(w0);
    assert Valid(AsyncStarted(w, eager)) by {
      assert AsyncStarted(w, eager) == Start(w1, ful, Text("foo")).0;
    }
    if eager {
      AsyncEagerResult(w);
    } else {
      AsyncDeferredResult(w);
      AsyncDeferredPoll(w);
    }
  }

  // ---------------------------------------------------------------------------
  // test_then_map
  // ---------------------------------------------------------------------------

  /** The calls of `test_then_map` before any poll:
      `client.start(5).async().then(x -> client2.start(x + 2).async())
      .map(x -> prom.fulfill(x))`, with `(fut, prom)` from `new_with_promise`. */
  function ThenMapBuild(w: World): (r: Outcome<(World, SyncFuture)>)
    requires Valid(w)
    ensures r.Done? ==> Valid(r.value.0) && SyncFutureOk(r.value.1, r.value.0)
    ensures r.Done? ==> |r.value.0.clients| == |w.clients| + 2
  {
    var (w0, client) := NewClient(w, Num(0), false);
    var (w1, client2) := NewClient(w0, Num(0), false);
    var (w2, fut, prom) := NewWithPromise(w1);
    var (w3, sf) := Start(w2, client, Num(5));
    var a :- Async(w3, sf);
    var b :- Then(a.0, a.1, StartAsync(client2, PlusBy(2)));
    var c :- MapOn(b.0, b.1, FulfillInto(prom.state));
    Done((c.0, fut))
  }

  /** The whole test: build the chain, poll both clients, `sync` the future. */
  function ThenMapTest(w: World): Outcome<Value>
    requires Valid(w)
  {
    var built :- ThenMapBuild(w);
    var w1 :- Poll(built.0, |w.clients|);
    var w2 :- Poll(w1, |w.clients| + 1);
    var r :- Sync(w2, built.1);
    Done(r.1)
  }

  function ThenMapBuilt(w: World): World
  {
    var n := |w.cells|;
    var m := |w.clients|;
    Ext(w, [EmptyCell(), Waiting(ThenTo(StartAsync(m + 1, PlusBy(2)), n + 2)), Forward(n, n + 3), EmptyCell()],
        [Holds(Num(5), n + 1), Idle()])
  }

  /** Nothing runs before the first poll: the `then` step waits on the first
      client's future and the final `map` on the `then` future. */
  lemma ThenMapBuildResult(w: World)
    requires Valid(w)
    ensures ThenMapBuild(w) == Done((ThenMapBuilt(w), SyncFuture(None, |w.cells|)))
  {
    var n := |w.cells|;
    var m := |w.clients|;
    var idle := seq(2, _ => Idle());
    var cl := idle[0 := Holds(Num(5), n + 1)];
    var t1 := Waiting(ThenTo(StartAsync(m + 1, PlusBy(2)), n + 2));
    ThenMapBuildLists(n, m);
    assert NewClient(NewClient(w, Num(0), false).0, Num(0), false).0 == Ext(w, [], idle);
    StartFirstDeferred(w, 2, Num(5));
    ThenOnLast(w, [EmptyCell(), EmptyCell()], cl, StartAsync(m + 1, PlusBy(2)));
    MapOnLast(w, [EmptyCell(), t1, EmptyCell()], cl, FulfillInto(n));
  }

  lemma ThenMapBuildLists(n: nat, m: nat)
    ensures var t1 := Waiting(ThenTo(StartAsync(m + 1, PlusBy(2)), n + 2));
            && [EmptyCell(), EmptyCell()][..1] + [t1, EmptyCell()] == [EmptyCell(), t1, EmptyCell()]
            && [EmptyCell(), t1, EmptyCell()][..2] + [Forward(n, n + 3), EmptyCell()] == [EmptyCell(), t1, Forward(n, n + 3), EmptyCell()]
            && seq(2, _ => Idle())[0 := Holds(Num(5), n + 1)] == [Holds(Num(5), n + 1), Idle()]
  {
  }

  function ThenMapPolled(w: World): World
  {
    var n := |w.cells|;
    Ext(w, [EmptyCell(), EmptyCell(), Forward(n, n + 3), EmptyCell(), Forward(n + 2, n + 5), EmptyCell()],
        [Polled(Num(5)), Holds(Num(7), n + 4)])
  }

  /** `client.poll()`: 5 reaches the `then` step, which starts `client2` with 7. */
  lemma ThenMapFirstPoll(w: World)
    requires Valid(w) && Valid(ThenMapBuilt(w))
    ensures Poll(ThenMapBuilt(w), |w.clients|) == Done(ThenMapPolled(w))
  {
    var n := |w.cells|;
    var m := |w.clients|;
    var cs := [EmptyCell(), Waiting(ThenTo(StartAsync(m + 1, PlusBy(2)), n + 2)), Forward(n, n + 3), EmptyCell()];
    var cl := [Polled(Num(5)), Idle()];
    ThenMapPollLists(n, m);
    PollExt(w, cs, [Holds(Num(5), n + 1), Idle()], 0, n + 1);
    StartsNextExt(w, cs, cl, 1, 1, PlusBy(2), 2, Num(5));
  }

  lemma ThenMapPollLists(n: nat, m: nat)
    ensures var cs := [EmptyCell(), Waiting(ThenTo(StartAsync(m + 1, PlusBy(2)), n + 2)), Forward(n, n + 3), EmptyCell()];
            && [Holds(Num(5), n + 1), Idle()][0 := Polled(Num(5))] == [Polled(Num(5)), Idle()]
            && cs[1 := EmptyCell()] + [Forward(n + 2, n + 5), EmptyCell()]
               == [EmptyCell(), EmptyCell(), Forward(n, n + 3), EmptyCell(), Forward(n + 2, n + 5), EmptyCell()]
            && [Polled(Num(5)), Idle()][1 := Holds(PlusBy(2)(Num(5)), n + 4)] == [Polled(Num(5)), Holds(Num(7), n + 4)]
    ensures var cs := [EmptyCell(), EmptyCell(), Forward(n, n + 3), EmptyCell(), Forward(n + 2, n + 5), EmptyCell()];
            && [Polled(Num(5)), Holds(Num(7), n + 4)][1 := Polled(Num(7))] == [Polled(Num(5)), Polled(Num(7))]
            && cs[4 := EmptyCell()][2 := EmptyCell()][0 := Holding(Num(7))][3 := Holding(Unit)][5 := Holding(Unit)]
               == [Holding(Num(7)), EmptyCell(), EmptyCell(), Holding(Unit), EmptyCell(), Holding(Unit)]
  {
  }

  function ThenMapDone(w: World): World
  {
    Ext(w, [Holding(Num(7)), EmptyCell(), EmptyCell(), Holding(Unit), EmptyCell(), Holding(Unit)], [Polled(Num(5)), Polled(Num(7))])
  }

  /** `client2.poll()`: 7 is forwarded into the `then` future and from there,
      by the last `map`, into `prom`. */
  lemma ThenMapSecondPoll(w: World)
    requires Valid(w) && Valid(ThenMapPolled(w))
    ensures Poll(ThenMapPolled(w), |w.clients| + 1) == Done(ThenMapDone(w))
  {
    var n := |w.cells|;
    var cs := [EmptyCell(), EmptyCell(), Forward(n, n + 3), EmptyCell(), Forward(n + 2, n + 5), EmptyCell()];
    var cl := [Polled(Num(5)), Polled(Num(7))];
    ThenMapPollLists(n, |w.clients|);
    PollExt(w, cs, [Polled(Num(5)), Holds(Num(7), n + 4)], 1, n + 4);
    EmptiedExt(w, cs, cl, 4);
    ForwardEmptyExt(w, cs[4 := EmptyCell()], cl, 2, 0, 3, Num(7));
    ForwardExt(w, cs, cl, 4, 2, 5, Num(7), cs[4 := EmptyCell()][2 := EmptyCell()][0 := Holding(Num(7))][3 := Holding(Unit)], cl);
  }

  lemma ThenMapTestPasses(w: World)
    requires Valid(w)
    ensures ThenMapTest(w) == Done(Num(7))
  {
    ThenMapBuildResult(w);
    ThenMapFirstPoll(w);
    ThenMapSecondPoll(w);
    var d := ThenMapDone(w);
    assert Sync(d, SyncFuture(None, |w.cells|)) == Done((d.(cells := d.cells[|w.cells| := New()]), Num(7)));
  }

  // ---------------------------------------------------------------------------
  // test_then_many
  // ---------------------------------------------------------------------------

  /** The set-up of `test_then_many`: five clients, `(fut, prom)` from
      `new_with_promise`, and `client.start(2).async()`. */
  function ThenManySetup(w: World): (r: Outcome<(World, Future, SyncFuture, Promise)>)
    requires Valid(w)
    ensures r.Done? ==> var (x, src, fut, prom) := r.value;
                        && Valid(x) && |x.clients| == |w.clients| + 5 && src.state < |x.cells|
                        && SyncFutureOk(fut, x) && prom.state < |x.cells|
  {
    var (w0, client) := NewClient(w, Num(0), false);
    var (w1, _) := NewClient(w0, Num(0), false);
    var (w2, _) := NewClient(w1, Num(0), false);
    var (w3, _) := NewClient(w2, Num(0), false);
    var (w4, _) := NewClient(w3, Num(0), false);
    var (w5, fut, prom) := NewWithPromise(w4);
    var (w6, sf) := Start(w5, client, Num(2));
    var a :- Async(w6, sf);
    Done((a.0, a.1, fut, prom))
  }

  /** The first half of the chain of `test_then_many`, with `client2` and
      `client3` the clients `m + 1` and `m + 2`:
      `.then(x -> client2.start(x * 3).async())
      .then(x -> client3.start(x * 5).async()).map(x -> x * 7)`. */
  function ThenManyHead(x: World, src: Future, m: nat): (r: Outcome<(World, Future)>)
    requires Valid(x) && src.state < |x.cells| && m + 5 <= |x.clients|
    ensures r.Done? ==> Grows(x, r.value.0) && r.value.1.state < |r.value.0.cells|
  {
    var b :- Then(x, src, StartAsync(m + 1, TimesBy(3)));
    var c :- Then(b.0, b.1, StartAsync(m + 2, TimesBy(5)));
    MapOn(c.0, c.1, Pure(TimesBy(7)))
  }

  /** The second half, with `client4` and `client5` the clients `m + 3` and
      `m + 4`: `.then(x -> client4.start(x * 11).async())
      .then(x -> client5.start(x * 13).async()).map(x -> prom.fulfill(x))`. */
  function ThenManyTail(x: World, src: Future, m: nat, prom: Promise): (r: Outcome<World>)
    requires Valid(x) && src.state < |x.cells| && m + 5 <= |x.clients| && prom.state < |x.cells|
    ensures r.Done? ==> Grows(x, r.value)
  {
    var e :- Then(x, src, StartAsync(m + 3, TimesBy(11)));
    var f :- Then(e.0, e.1, StartAsync(m + 4, TimesBy(13)));
    var g :- MapOn(f.0, f.1, FulfillInto(prom.state));
    Done(g.0)
  }

  /** Everything `test_then_many` does before the first poll. */
  function ThenManyBuild(w: World): (r: Outcome<(World, SyncFuture)>)
    requires Valid(w)
    ensures r.Done? ==> Valid(r.value.0) && SyncFutureOk(r.value.1, r.value.0)
    ensures r.Done? ==> |r.value.0.clients| == |w.clients| + 5
  {
    var (x, src, fut, prom) :- ThenManySetup(w);
    var (y, mid) :- ThenManyHead(x, src, |w.clients|);
    var built :- ThenManyTail(y, mid, |w.clients|, prom);
    Done((built, fut))
  }

  /** `client.poll()` through `client5.poll()`: the five new clients in order. */
  function ManyOrder(m: nat): (r: seq<nat>)
    ensures |r| == 5 && forall i :: 0 <= i < |r| ==> r[i] == m + i
  {
    [m, m + 1, m + 2, m + 3, m + 4]
  }

  /** The whole test: build the chain, then run it. */
  function ThenManyTest(w: World): Outcome<Value>
    requires Valid(w)
  {
    var built :- ThenManyBuild(w);
    ThenManyRun(built, |w.clients|)
  }

  /** Poll the five clients in order, then `fut.sync()`. */
  function ThenManyRun(built: (World, SyncFuture), m: nat): Outcome<Value>
    requires Valid(built.0) && SyncFutureOk(built.1, built.0) && m + 5 <= |built.0.clients|
  {
    var polled :- PollEach(built.0, ManyOrder(m));
    var r :- Sync(polled, built.1);
    Done(r.1)
  }

  /** A `then` step that starts client `c` with `x * k`, forwarding into `dst`. */
  function TimesStep(c: nat, k: int, dst: Id): Cell<State>
  {
    Waiting(ThenTo(StartAsync(c, TimesBy(k)), dst))
  }

  /** The test's states after `k` polls (0 to 5), its states numbered from
      `n` and its clients from `m`. Each poll empties the state its `then`
      step waited on and appends the state the started client holds and the
      inner future of the forwarding `map`. */
  function ManyCells(k: nat, n: nat, m: nat): seq<Cell<State>>
  {
    var seven := Waiting(MapTo(Pure(TimesBy(7)), n + 4));
    var last := Forward(n, n + 7);
    var u := Holding(Unit);
    if k == 0 then
      [EmptyCell(), TimesStep(m + 1, 3, n + 2), TimesStep(m + 2, 5, n + 3), seven,
       TimesStep(m + 3, 11, n + 5), TimesStep(m + 4, 13, n + 6), last, EmptyCell()]
    else if k == 1 then
      [EmptyCell(), EmptyCell(), TimesStep(m + 2, 5, n + 3), seven,
       TimesStep(m + 3, 11, n + 5), TimesStep(m + 4, 13, n + 6), last, EmptyCell(),
       Forward(n + 2, n + 9), EmptyCell()]
    else if k == 2 then
      [EmptyCell(), EmptyCell(), EmptyCell(), seven,
       TimesStep(m + 3, 11, n + 5), TimesStep(m + 4, 13, n + 6), last, EmptyCell(),
       EmptyCell(), u, Forward(n + 3, n + 11), EmptyCell()]
    else if k == 3 then
      [EmptyCell(), EmptyCell(), EmptyCell(), EmptyCell(), EmptyCell(), TimesStep(m + 4, 13, n + 6), last, EmptyCell(),
       EmptyCell(), u, EmptyCell(), u, Forward(n + 5, n + 13), EmptyCell()]
    else if k == 4 then
      [EmptyCell(), EmptyCell(), EmptyCell(), EmptyCell(), EmptyCell(), EmptyCell(), last, EmptyCell(),
       EmptyCell(), u, EmptyCell(), u, EmptyCell(), u, Forward(n + 6, n + 15), EmptyCell()]
    else
      [Holding(Num(30030)), EmptyCell(), EmptyCell(), EmptyCell(), EmptyCell(), EmptyCell(), EmptyCell(), u,
       EmptyCell(), u, EmptyCell(), u, EmptyCell(), u, EmptyCell(), u]
  }

  /** The five clients after `k` polls: each polled client has given its
      promise up, and the next one holds the promise of the newest state. */
  function ManyClients(k: nat, n: nat): seq<ConstantFulfiller>
  {
    if k == 0 then [Holds(Num(2), n + 1), Idle(), Idle(), Idle(), Idle()]
    else if k == 1 then [Polled(Num(2)), Holds(Num(6), n + 8), Idle(), Idle(), Idle()]
    else if k == 2 then [Polled(Num(2)), Polled(Num(6)), Holds(Num(30), n + 10), Idle(), Idle()]
    else if k == 3 then [Polled(Num(2)), Polled(Num(6)), Polled(Num(30)), Holds(Num(2310), n + 12), Idle()]
    else if k == 4 then
      [Polled(Num(2)), Polled(Num(6)), Polled(Num(30)), Polled(Num(2310)), Holds(Num(30030), n + 14)]
    else [Polled(Num(2)), Polled(Num(6)), Polled(Num(30)), Polled(Num(2310)), Polled(Num(30030))]
  }

  function ThenManyAt(w: World, k: nat): World
  {
    Ext(w, ManyCells(k, |w.cells|, |w.clients|), ManyClients(k, |w.cells|))
  }

  lemma ManyBuildLists(n: nat, m: nat)
    ensures var t1 := TimesStep(m + 1, 3, n + 2);
            var t2 := TimesStep(m + 2, 5, n + 3);
            var m3 := Waiting(MapTo(Pure(TimesBy(7)), n + 4));
            var t4 := TimesStep(m + 3, 11, n + 5);
            var t5 := TimesStep(m + 4, 13, n + 6);
            && seq(5, _ => Idle())[0 := Holds(Num(2), n + 1)] == ManyClients(0, n)
            && [EmptyCell(), EmptyCell()][..1] + [t1, EmptyCell()] == [EmptyCell(), t1, EmptyCell()]
            && [EmptyCell(), t1, EmptyCell()][..2] + [t2, EmptyCell()] == [EmptyCell(), t1, t2, EmptyCell()]
            && [EmptyCell(), t1, t2, EmptyCell()][..3] + [m3, EmptyCell()] == [EmptyCell(), t1, t2, m3, EmptyCell()]
            && [EmptyCell(), t1, t2, m3, EmptyCell()][..4] + [t4, EmptyCell()] == [EmptyCell(), t1, t2, m3, t4, EmptyCell()]
            && [EmptyCell(), t1, t2, m3, t4, EmptyCell()][..5] + [t5, EmptyCell()] == [EmptyCell(), t1, t2, m3, t4, t5, EmptyCell()]
            && [EmptyCell(), t1, t2, m3, t4, t5, EmptyCell()][..6] + [Forward(n, n + 7), EmptyCell()] == ManyCells(0, n, m)
  {
  }

  lemma ManyNewClients(w: World)
    requires Valid(w)
    ensures var w1 := NewClient(NewClient(NewClient(NewClient(NewClient(
                        w, Num(0), false).0, Num(0), false).0, Num(0), false).0, Num(0), false).0, Num(0), false).0;
            w1 == Ext(w, [], seq(5, _ => Idle()))
  {
    var w1 := NewClient(NewClient(NewClient(NewClient(NewClient(
                w, Num(0), false).0, Num(0), false).0, Num(0), false).0, Num(0), false).0, Num(0), false).0;
    assert w1.clients == w.clients + [Idle(), Idle(), Idle(), Idle(), Idle()];
  }

  lemma ThenManySetupResult(w: World)
    requires Valid(w)
    ensures var n := |w.cells|;
            (ThenManySetup(w)
               == Done((Ext(w, [EmptyCell(), EmptyCell()], ManyClients(0, n)), Future(n + 1), SyncFuture(None, n), Promise(n))))
  {
    ManyBuildLists(|w.cells|, |w.clients|);
    ManyNewClients(w);
    StartFirstDeferred(w, 5, Num(2));
  }

  lemma ThenManyHeadResult(w: World)
    requires Valid(w) && Valid(Ext(w, [EmptyCell(), EmptyCell()], ManyClients(0, |w.cells|)))
    ensures var n := |w.cells|;
            var m := |w.clients|;
            (ThenManyHead(Ext(w, [EmptyCell(), EmptyCell()], ManyClients(0, n)), Future(n + 1), m)
               == Done((Ext(w, [EmptyCell(), TimesStep(m + 1, 3, n + 2), TimesStep(m + 2, 5, n + 3),
                                Waiting(MapTo(Pure(TimesBy(7)), n + 4)), EmptyCell()], ManyClients(0, n)),
                        Future(n + 4))))
  {
    var n := |w.cells|;
    var m := |w.clients|;
    var cl := ManyClients(0, n);
    var t1 := TimesStep(m + 1, 3, n + 2);
    var t2 := TimesStep(m + 2, 5, n + 3);
    ManyBuildLists(n, m);
    ThenOnLast(w, [EmptyCell(), EmptyCell()], cl, StartAsync(m + 1, TimesBy(3)));
    ThenOnLast(w, [EmptyCell(), t1, EmptyCell()], cl, StartAsync(m + 2, TimesBy(5)));
    MapOnLast(w, [EmptyCell(), t1, t2, EmptyCell()], cl, Pure(TimesBy(7)));
  }

  lemma ThenManyTailResult(w: World)
    requires Valid(w)
    requires var n := |w.cells|;
             var m := |w.clients|;
             Valid(Ext(w, [EmptyCell(), TimesStep(m + 1, 3, n + 2), TimesStep(m + 2, 5, n + 3),
                           Waiting(MapTo(Pure(TimesBy(7)), n + 4)), EmptyCell()], ManyClients(0, n)))
    ensures var n := |w.cells|;
            var m := |w.clients|;
            (ThenManyTail(Ext(w, [EmptyCell(), TimesStep(m + 1, 3, n + 2), TimesStep(m + 2, 5, n + 3),
                                  Waiting(MapTo(Pure(TimesBy(7)), n + 4)), EmptyCell()], ManyClients(0, n)),
                          Future(n + 4), m, Promise(n))
               == Done(ThenManyAt(w, 0)))
  {
    var n := |w.cells|;
    var m := |w.clients|;
    var cl := ManyClients(0, n);
    var t1 := TimesStep(m + 1, 3, n + 2);
    var t2 := TimesStep(m + 2, 5, n + 3);
    var m3 := Waiting(MapTo(Pure(TimesBy(7)), n + 4));
    var t4 := TimesStep(m + 3, 11, n + 5);
    ManyBuildLists(n, m);
    ThenOnLast(w, [EmptyCell(), t1, t2, m3, EmptyCell()], cl, StartAsync(m + 3, TimesBy(11)));
    ThenOnLast(w, [EmptyCell(), t1, t2, m3, t4, EmptyCell()], cl, StartAsync(m + 4, TimesBy(13)));
    MapOnLast(w, [EmptyCell(), t1, t2, m3, t4, TimesStep(m + 4, 13, n + 6), EmptyCell()], cl, FulfillInto(n));
  }

  /** Nothing runs before the first poll: every step waits on its predecessor. */
  lemma ThenManyBuildResult(w: World)
    requires Valid(w)
    ensures ThenManyBuild(w) == Done((ThenManyAt(w, 0), SyncFuture(None, |w.cells|)))
    ensures Valid(ThenManyAt(w, 0))
  {
    ThenManySetupResult(w);
    ThenManyHeadResult(w);
    ThenManyTailResult(w);
  }

  // Each poll, with the list identities it needs stated on their own.

  lemma ManyPoll1Lists(n: nat, m: nat)
    ensures var c0 := ManyCells(0, n, m);
            var l0 := ManyClients(0, n);
            var lp := l0[0 := l0[0].(promise := None)];
            && |c0| == 8 && l0[0].promise == Some(Promise(n + 1)) && !l0[0].eager && l0[0].constant == Num(2)
            && !lp[1].eager && c0[1] == Waiting(ThenTo(StartAsync(m + 1, TimesBy(3)), n + 2))
            && c0[1 := EmptyCell()] + [Forward(n + 2, n + 9), EmptyCell()] == ManyCells(1, n, m)
            && lp[1 := Holds(TimesBy(3)(Num(2)), n + 8)] == ManyClients(1, n)
  {
  }

  /** `client.poll()`: 2 reaches the first `then` step, which starts `client2`
      with 6. */
  lemma ThenManyPoll1(w: World)
    requires Valid(w) && Valid(ThenManyAt(w, 0))
    ensures Poll(ThenManyAt(w, 0), |w.clients|) == Done(ThenManyAt(w, 1))
  {
    var n := |w.cells|;
    var m := |w.clients|;
    var c0 := ManyCells(0, n, m);
    var l0 := ManyClients(0, n);
    var lp := l0[0 := l0[0].(promise := None)];
    ManyPoll1Lists(n, m);
    PollExt(w, c0, l0, 0, n + 1);
    StartsNextExt(w, c0, lp, 1, 1, TimesBy(3), 2, Num(2));
  }

  lemma ManyPoll2Lists(n: nat, m: nat)
    ensures var c1 := ManyCells(1, n, m);
            var l1 := ManyClients(1, n);
            var lp := l1[1 := l1[1].(promise := None)];
            var x := c1[8 := EmptyCell()];
            var y := x[2 := EmptyCell()] + [Forward(n + 3, n + 11), EmptyCell()];
            && |c1| == 10 && l1[1].promise == Some(Promise(n + 8)) && !l1[1].eager && l1[1].constant == Num(6)
            && !lp[2].eager && x[2] == Waiting(ThenTo(StartAsync(m + 2, TimesBy(5)), n + 3))
            && c1[8] == Forward(n + 2, n + 9) && c1[9] == EmptyCell() && |y| == 12 && y[9] == EmptyCell()
            && y[9 := Holding(Unit)] == ManyCells(2, n, m)
            && lp[2 := Holds(TimesBy(5)(Num(6)), n + 10)] == ManyClients(2, n)
  {
  }

  /** `client2.poll()`: 6 is forwarded to the second `then` step, which starts
      `client3` with 30. */
  lemma ThenManyPoll2(w: World)
    requires Valid(w) && Valid(ThenManyAt(w, 1))
    ensures Poll(ThenManyAt(w, 1), |w.clients| + 1) == Done(ThenManyAt(w, 2))
  {
    var n := |w.cells|;
    var m := |w.clients|;
    var c1 := ManyCells(1, n, m);
    var l1 := ManyClients(1, n);
    var lp := l1[1 := l1[1].(promise := None)];
    var x := c1[8 := EmptyCell()];
    var y := x[2 := EmptyCell()] + [Forward(n + 3, n + 11), EmptyCell()];
    ManyPoll2Lists(n, m);
    PollExt(w, c1, l1, 1, n + 8);
    EmptiedExt(w, c1, lp, 8);
    StartsNextExt(w, x, lp, 2, 2, TimesBy(5), 3, Num(6));
    ForwardExt(w, c1, lp, 8, 2, 9, Num(6), y, lp[2 := Holds(TimesBy(5)(Num(6)), n + 10)]);
  }

  lemma ManyPoll3Lists(n: nat, m: nat)
    ensures var c2 := ManyCells(2, n, m);
            var l2 := ManyClients(2, n);
            var lp := l2[2 := l2[2].(promise := None)];
            var x := c2[10 := EmptyCell()];
            var y := x[3 := EmptyCell()][4 := EmptyCell()] + [Forward(n + 5, n + 13), EmptyCell()];
            && |c2| == 12 && l2[2].promise == Some(Promise(n + 10)) && !l2[2].eager && l2[2].constant == Num(30)
            && x[3] == Waiting(MapTo(Pure(TimesBy(7)), n + 4))
            && !lp[3].eager && x[3 := EmptyCell()][4] == Waiting(ThenTo(StartAsync(m + 3, TimesBy(11)), n + 5))
            && c2[10] == Forward(n + 3, n + 11) && c2[11] == EmptyCell() && |y| == 14 && y[11] == EmptyCell()
            && y[11 := Holding(Unit)] == ManyCells(3, n, m)
            && lp[3 := Holds(TimesBy(11)(TimesBy(7)(Num(30))), n + 12)] == ManyClients(3, n)
  {
  }

  /** `client3.poll()`: 30 is forwarded to the `map`, whose 210 reaches the
      third `then` step, which starts `client4` with 2310. */
  lemma ThenManyPoll3(w: World)
    requires Valid(w) && Valid(ThenManyAt(w, 2))
    ensures Poll(ThenManyAt(w, 2), |w.clients| + 2) == Done(ThenManyAt(w, 3))
  {
    var n := |w.cells|;
    var m := |w.clients|;
    var c2 := ManyCells(2, n, m);
    var l2 := ManyClients(2, n);
    var lp := l2[2 := l2[2].(promise := None)];
    var x := c2[10 := EmptyCell()];
    var y := x[3 := EmptyCell()][4 := EmptyCell()] + [Forward(n + 5, n + 13), EmptyCell()];
    ManyPoll3Lists(n, m);
    PollExt(w, c2, l2, 2, n + 10);
    EmptiedExt(w, c2, lp, 10);
    MappedExt(w, x, lp, 3, TimesBy(7), 4, Num(30));
    StartsNextExt(w, x[3 := EmptyCell()], lp, 4, 3, TimesBy(11), 5, TimesBy(7)(Num(30)));
    ForwardExt(w, c2, lp, 10, 3, 11, Num(30), y, lp[3 := Holds(TimesBy(11)(TimesBy(7)(Num(30))), n + 12)]);
  }

  lemma ManyPoll4Lists(n: nat, m: nat)
    ensures var c3 := ManyCells(3, n, m);
            var l3 := ManyClients(3, n);
            var lp := l3[3 := l3[3].(promise := None)];
            var x := c3[12 := EmptyCell()];
            var y := x[5 := EmptyCell()] + [Forward(n + 6, n + 15), EmptyCell()];
            && |c3| == 14 && l3[3].promise == Some(Promise(n + 12)) && !l3[3].eager && l3[3].constant == Num(2310)
            && !lp[4].eager && x[5] == Waiting(ThenTo(StartAsync(m + 4, TimesBy(13)), n + 6))
            && c3[12] == Forward(n + 5, n + 13) && c3[13] == EmptyCell() && |y| == 16 && y[13] == EmptyCell()
            && y[13 := Holding(Unit)] == ManyCells(4, n, m)
            && lp[4 := Holds(TimesBy(13)(Num(2310)), n + 14)] == ManyClients(4, n)
  {
  }

  /** `client4.poll()`: 2310 is forwarded to the last `then` step, which starts
      `client5` with 30030. */
  lemma ThenManyPoll4(w: World)
    requires Valid(w) && Valid(ThenManyAt(w, 3))
    ensures Poll(ThenManyAt(w, 3), |w.clients| + 3) == Done(ThenManyAt(w, 4))
  {
    var n := |w.cells|;
    var m := |w.clients|;
    var c3 := ManyCells(3, n, m);
    var l3 := ManyClients(3, n);
    var lp := l3[3 := l3[3].(promise := None)];
    var x := c3[12 := EmptyCell()];
    var y := x[5 := EmptyCell()] + [Forward(n + 6, n + 15), EmptyCell()];
    ManyPoll4Lists(n, m);
    PollExt(w, c3, l3, 3, n + 12);
    EmptiedExt(w, c3, lp, 12);
    StartsNextExt(w, x, lp, 5, 4, TimesBy(13), 6, Num(2310));
    ForwardExt(w, c3, lp, 12, 5, 13, Num(2310), y, lp[4 := Holds(TimesBy(13)(Num(2310)), n + 14)]);
  }

  lemma ManyPoll5Lists(n: nat, m: nat)
    ensures var c4 := ManyCells(4, n, m);
            var l4 := ManyClients(4, n);
            var lp := l4[4 := l4[4].(promise := None)];
            var x := c4[14 := EmptyCell()];
            var y := x[6 := EmptyCell()][0 := Holding(Num(30030))][7 := Holding(Unit)];
            && |c4| == 16 && l4[4].promise == Some(Promise(n + 14)) && !l4[4].eager && l4[4].constant == Num(30030)
            && x[6] == Forward(n, n + 7) && x[7] == EmptyCell() && Empty(x[0])
            && c4[14] == Forward(n + 6, n + 15) && c4[15] == EmptyCell() && y[15] == EmptyCell()
            && y[15 := Holding(Unit)] == ManyCells(5, n, m)
            && lp == ManyClients(5, n)
  {
  }

  /** `client5.poll()`: 30030 is forwarded through the last `then` future to
      the final `map`, which fulfils `prom` with it. */
  lemma ThenManyPoll5(w: World)
    requires Valid(w) && Valid(ThenManyAt(w, 4))
    ensures Poll(ThenManyAt(w, 4), |w.clients| + 4) == Done(ThenManyAt(w, 5))
  {
    var n := |w.cells|;
    var m := |w.clients|;
    var c4 := ManyCells(4, n, m);
    var l4 := ManyClients(4, n);
    var lp := l4[4 := l4[4].(promise := None)];
    var x := c4[14 := EmptyCell()];
    ManyPoll5Lists(n, m);
    PollExt(w, c4, l4, 4, n + 14);
    EmptiedExt(w, c4, lp, 14);
    ForwardEmptyExt(w, x, lp, 6, 0, 7, Num(30030));
    ForwardExt(w, c4, lp, 14, 6, 15, Num(30030), x[6 := EmptyCell()][0 := Holding(Num(30030))][7 := Holding(Unit)], lp);
  }

  /** The five polls in order take the chain from its built state to its end. */
  lemma ThenManyPolls(w: World, k: nat)
    requires Valid(w) && k < 5 && Valid(ThenManyAt(w, k))
    ensures Poll(ThenManyAt(w, k), |w.clients| + k) == Done(ThenManyAt(w, k + 1))
  {
    if k == 0 {
      ThenManyPoll1(w);
    } else if k == 1 {
      ThenManyPoll2(w);
    } else if k == 2 {
      ThenManyPoll3(w);
    } else if k == 3 {
      ThenManyPoll4(w);
    } else {
      ThenManyPoll5(w);
    }
  }

  /** Polling the remaining clients from any point of the run reaches its end. */
  lemma {:induction false} ThenManyRunsToEnd(w: World, k: nat)
    requires Valid(w) && k <= 5 && Valid(ThenManyAt(w, k))
    ensures PollEach(ThenManyAt(w, k), ManyOrder(|w.clients|)[k..]) == Done(ThenManyAt(w, 5))
    ensures Valid(ThenManyAt(w, 5))
    decreases 5 - k
  {
    if k < 5 {
      var order := ManyOrder(|w.clients|);
      assert order[k..][1..] == order[k + 1..];
      ThenManyPolls(w, k);
      ThenManyRunsToEnd(w, k + 1);
      PollEachStep(ThenManyAt(w, k), order[k..], ThenManyAt(w, k + 1), ThenManyAt(w, 5));
    }
  }

  lemma ThenManyTestPasses(w: World)
    requires Valid(w)
    ensures ThenManyTest(w) == Done(Num(2 * 3 * 5 * 7 * 11 * 13))
  {
    ThenManyBuildResult(w);
    ThenManyRunPasses(w);
  }

  /** From the built chain, the five polls and the `sync` yield the product. */
  lemma ThenManyRunPasses(w: World)
    requires Valid(w) && Valid(ThenManyAt(w, 0))
    ensures SyncFutureOk(SyncFuture(None, |w.cells|), ThenManyAt(w, 0))
    ensures ThenManyRun((ThenManyAt(w, 0), SyncFuture(None, |w.cells|)), |w.clients|) == Done(Num(30030))
  {
    var n := |w.cells|;
    var order := ManyOrder(|w.clients|);
    ThenManyRunsToEnd(w, 0);
    ThenManySync(w);
    assert order[0..] == order;
  }

  /** `fut.sync()` at the end finds the product in the promise's state. */
  lemma ThenManySync(w: World)
    requires Valid(w) && Valid(ThenManyAt(w, 5))
    ensures var d := ThenManyAt(w, 5);
            Sync(d, SyncFuture(None, |w.cells|)) == Done((d.(cells := d.cells[|w.cells| := New()]), Num(30030)))
  {
    assert ThenManyAt(w, 5).cells[|w.cells|] == Holding(Num(30030));
  }
}
