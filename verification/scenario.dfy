/**
 Vocabulary for stating concrete runs of the Promise/Future engine: names for
 the cells and clients that appear in them, worlds extended with a test's own
 states and clients, and one step lemma per kind of continuation that a
 fulfilment can meet, stated on such extended worlds.

 In `Ext(w, cs, cl)` the test's states are `|w.cells| + i` for `i < |cs|` and
 its clients `|w.clients| + j` for `j < |cl|`.
 */
module Scenario {
  import opened MoveCell
  import opened Future
  import opened FutureLaws

  /** The tests' unsigned arithmetic on numbers; other values pass through. */
  function PlusBy(k: int): Value -> Value
  {
    (x: Value) => match x case Num(n) => Num(n + k) case _ => x
  }

  function TimesBy(k: int): Value -> Value
  {
    (x: Value) => match x case Num(n) => Num(n * k) case _ => x
  }

  /** `ConstantFulfiller::new()` for unsigned values: default 0, deferred. */
  function Idle(): ConstantFulfiller
  {
    ConstantFulfiller(Num(0), None, false)
  }

  /** A deferred client with constant `v` holding the promise of state `p`. */
  function Holds(v: Value, p: Id): ConstantFulfiller
  {
    ConstantFulfiller(v, Some(Promise(p)), false)
  }

  /** A deferred client with constant `v` that has given its promise up. */
  function Polled(v: Value): ConstantFulfiller
  {
    ConstantFulfiller(v, None, false)
  }

  /** A state nobody has fulfilled or waited on yet. */
  function EmptyCell(): Cell<State>
  {
    New()
  }

  function Waiting(k: Chainer): Cell<State>
  {
    FromValue(Chained(k))
  }

  /** The continuation `then` leaves on an inner future: forward into `dst`,
      the unit result going to the discarded future `e`. */
  function Forward(dst: Id, e: Id): Cell<State>
  {
    Waiting(MapTo(FulfillInto(dst), e))
  }

  function Holding(v: Value): Cell<State>
  {
    FromValue(Ready(v))
  }

  /** `w` with states and clients appended. */
  function Ext(w: World, cells: seq<Cell<State>>, clients: seq<ConstantFulfiller>): World
  {
    World(w.cells + cells, w.clients + clients)
  }

  lemma ExtCellUpdate(w: World, cs: seq<Cell<State>>, cl: seq<ConstantFulfiller>, i: nat, x: Cell<State>)
    requires i < |cs|
    ensures Ext(w, cs, cl).(cells := Ext(w, cs, cl).cells[|w.cells| + i := x]) == Ext(w, cs[i := x], cl)
  {
    assert (w.cells + cs)[|w.cells| + i := x] == w.cells + cs[i := x];
  }

  lemma ExtClientUpdate(w: World, cs: seq<Cell<State>>, cl: seq<ConstantFulfiller>, j: nat, f: ConstantFulfiller)
    requires j < |cl|
    ensures Ext(w, cs, cl).(clients := Ext(w, cs, cl).clients[|w.clients| + j := f]) == Ext(w, cs, cl[j := f])
  {
    assert (w.clients + cl)[|w.clients| + j := f] == w.clients + cl[j := f];
  }

  // ---------------------------------------------------------------------------
  // Building: `async`, `then` and `map` on the newest future.
  // ---------------------------------------------------------------------------

  /** A fresh promise for the test's result, then `client.start(v).async()` on
      the first of `k` new deferred clients: the client keeps the promise. */
  lemma StartFirstDeferred(w: World, k: nat, v: Value)
    requires Valid(w) && k > 0
    ensures var w1 := Ext(w, [], seq(k, _ => Idle()));
            var (w2, _, _) := NewWithPromise(w1);
            var (w3, sf) := Start(w2, |w.clients|, v);
            (Async(w3, sf)
               == Done((Ext(w, [EmptyCell(), EmptyCell()], seq(k, _ => Idle())[0 := Holds(v, |w.cells| + 1)]), Future(|w.cells| + 1))))
  {
    var n := |w.cells|;
    var w1 := Ext(w, [], seq(k, _ => Idle()));
    assert w1.cells == w.cells;
    var w2 := Ext(w, [EmptyCell()], seq(k, _ => Idle()));
    assert NewWithPromise(w1).0 == w2;
    StartFirstWorld(w, k, v);
    StartAsyncDeferredTo(w2, |w.clients|, v, Ext(w, [EmptyCell(), EmptyCell()], seq(k, _ => Idle())[0 := Holds(v, n + 1)]));
  }

  /** The world `StartFirstDeferred` ends with, apart from any `async`. */
  lemma StartFirstWorld(w: World, k: nat, v: Value)
    requires k > 0
    ensures var w2 := Ext(w, [EmptyCell()], seq(k, _ => Idle()));
            (World(w2.cells + [New()], w2.clients[|w.clients| := Holds(v, |w.cells| + 1)])
               == Ext(w, [EmptyCell(), EmptyCell()], seq(k, _ => Idle())[0 := Holds(v, |w.cells| + 1)]))
  {
    var w2 := Ext(w, [EmptyCell()], seq(k, _ => Idle()));
    assert w2.cells + [New()] == w.cells + [EmptyCell(), EmptyCell()];
    ExtClientUpdate(w, [EmptyCell(), EmptyCell()], seq(k, _ => Idle()), 0, Holds(v, |w.cells| + 1));
  }

  /** `then` on the newest (still empty) future. */
  lemma ThenOnLast(w: World, cs: seq<Cell<State>>, cl: seq<ConstantFulfiller>, next: Next)
    requires Valid(Ext(w, cs, cl)) && |cs| > 0 && Empty(cs[|cs| - 1]) && NextOk(next, |w.clients| + |cl|)
    ensures var n := |w.cells| + |cs|;
            (Then(Ext(w, cs, cl), Future(n - 1), next)
               == Done((Ext(w, cs[..|cs| - 1] + [Waiting(ThenTo(next, n)), EmptyCell()], cl), Future(n))))
  {
    var n := |w.cells| + |cs|;
    var x := Ext(w, cs, cl);
    ThenPending(x, Future(n - 1), next);
    assert (x.cells + [New()])[n - 1 := Waiting(ThenTo(next, n))]
        == w.cells + (cs[..|cs| - 1] + [Waiting(ThenTo(next, n)), EmptyCell()]);
  }

  /** `map` on the newest (still empty) future. */
  lemma MapOnLast(w: World, cs: seq<Cell<State>>, cl: seq<ConstantFulfiller>, t: Through)
    requires Valid(Ext(w, cs, cl)) && |cs| > 0 && Empty(cs[|cs| - 1]) && ThroughOk(t, |w.cells| + |cs|)
    ensures var n := |w.cells| + |cs|;
            (MapOn(Ext(w, cs, cl), Future(n - 1), t)
               == Done((Ext(w, cs[..|cs| - 1] + [Waiting(MapTo(t, n)), EmptyCell()], cl), Future(n))))
  {
    var n := |w.cells| + |cs|;
    var x := Ext(w, cs, cl);
    MapPending(x, Future(n - 1), t);
    assert (x.cells + [New()])[n - 1 := Waiting(MapTo(t, n))]
        == w.cells + (cs[..|cs| - 1] + [Waiting(MapTo(t, n)), EmptyCell()]);
  }

  // ---------------------------------------------------------------------------
  // Running: `poll`, and `fulfill` meeting each kind of state.
  // ---------------------------------------------------------------------------

  /** Polling the `j`-th test client, deferred and holding the promise of `p`. */
  lemma PollExt(w: World, cs: seq<Cell<State>>, cl: seq<ConstantFulfiller>, j: nat, p: Id)
    requires Valid(Ext(w, cs, cl)) && j < |cl| && !cl[j].eager && cl[j].promise == Some(Promise(p))
    ensures p < |w.cells| + |cs|
    ensures Released(Ext(w, cs, cl), |w.clients| + j) == Ext(w, cs, cl[j := cl[j].(promise := None)])
    ensures Poll(Ext(w, cs, cl), |w.clients| + j)
         == Fulfill(Ext(w, cs, cl[j := cl[j].(promise := None)]), p, cl[j].constant)
  {
    PollDelivers(Ext(w, cs, cl), |w.clients| + j, p);
    ExtClientUpdate(w, cs, cl, j, cl[j].(promise := None));
  }

  /** Taking a test state out keeps the world well formed. */
  lemma EmptiedExt(w: World, cs: seq<Cell<State>>, cl: seq<ConstantFulfiller>, i: nat)
    requires Valid(Ext(w, cs, cl)) && i < |cs|
    ensures Emptied(Ext(w, cs, cl), |w.cells| + i) == Ext(w, cs[i := EmptyCell()], cl)
    ensures Valid(Ext(w, cs[i := EmptyCell()], cl))
  {
    ExtCellUpdate(w, cs, cl, i, EmptyCell());
  }

  /** `poll` on each client of `order` in turn; the first fatal outcome ends
      the run. */
  function PollEach(w: World, order: seq<nat>): (r: Outcome<World>)
    requires Valid(w) && forall i :: 0 <= i < |order| ==> order[i] < |w.clients|
    ensures r.Done? ==> Grows(w, r.value)
    decreases |order|
  {
    if order == [] then Done(w)
    else
      var w1 :- Poll(w, order[0]);
      PollEach(w1, order[1..])
  }

  /** One step of `PollEach`: the first poll, then the rest of the order. */
  lemma PollEachStep(w: World, order: seq<nat>, w1: World, w2: World)
    requires Valid(w) && order != [] && forall i :: 0 <= i < |order| ==> order[i] < |w.clients|
    requires Poll(w, order[0]) == Done(w1) && Valid(w1) && |w1.clients| == |w.clients|
    requires PollEach(w1, order[1..]) == Done(w2)
    ensures PollEach(w, order) == Done(w2)
  {
  }

  /** An empty test state receives the value. */
  lemma FulfillEmptyExt(w: World, cs: seq<Cell<State>>, cl: seq<ConstantFulfiller>, i: nat, v: Value)
    requires Valid(Ext(w, cs, cl)) && i < |cs| && Empty(cs[i])
    ensures Fulfill(Ext(w, cs, cl), |w.cells| + i, v) == Done(Ext(w, cs[i := Holding(v)], cl))
  {
    FulfillEmpty(Ext(w, cs, cl), |w.cells| + i, v);
    ExtCellUpdate(w, cs, cl, i, Holding(v));
  }

  /** A test state on which a `map` with a pure function waits. */
  lemma MappedExt(w: World, cs: seq<Cell<State>>, cl: seq<ConstantFulfiller>, i: nat, f: Value -> Value, d: nat, v: Value)
    requires Valid(Ext(w, cs, cl)) && i < |cs| && cs[i] == Waiting(MapTo(Pure(f), |w.cells| + d))
    ensures Valid(Ext(w, cs[i := EmptyCell()], cl)) && |w.cells| + d < |w.cells| + |cs|
    ensures Fulfill(Ext(w, cs, cl), |w.cells| + i, v) == Fulfill(Ext(w, cs[i := EmptyCell()], cl), |w.cells| + d, f(v))
  {
    ExtCellUpdate(w, cs, cl, i, EmptyCell());
    FulfillMapped(Ext(w, cs, cl), |w.cells| + i, f, |w.cells| + d, v);
  }

  /** A test state on which a `then` step waits that starts the `j`-th test
      client: the client takes the promise of a fresh state, on which a
      forwarding continuation into the step's future now waits. */
  lemma StartsNextExt(w: World, cs: seq<Cell<State>>, cl: seq<ConstantFulfiller>, i: nat, j: nat,
                      arg: Value -> Value, d: nat, v: Value)
    requires Valid(Ext(w, cs, cl)) && i < |cs| && d < |cs| && j < |cl| && !cl[j].eager
    requires cs[i] == Waiting(ThenTo(StartAsync(|w.clients| + j, arg), |w.cells| + d))
    ensures var n := |w.cells|;
            (Fulfill(Ext(w, cs, cl), n + i, v)
               == Done(Ext(w, cs[i := EmptyCell()] + [Forward(n + d, n + |cs| + 1), EmptyCell()],
                           cl[j := Holds(arg(v), n + |cs|)])))
  {
    var n := |w.cells|;
    var x := Ext(w, cs, cl);
    FulfillStartsNext(x, n + i, |w.clients| + j, arg, n + d, v);
    assert x.cells[n + i := New()] + [Forward(n + d, n + |cs| + 1), New()]
        == w.cells + (cs[i := EmptyCell()] + [Forward(n + d, n + |cs| + 1), EmptyCell()]);
    ExtClientUpdate(w, cs, cl, j, Holds(arg(v), n + |cs|));
  }

  /** A test state on which a forwarding continuation waits: the target `d`
      is fulfilled, with whatever that does (given as the world `Ext(w, cs',
      cl')`), and then the discarded future `e` receives `()`. */
  lemma ForwardExt(w: World, cs: seq<Cell<State>>, cl: seq<ConstantFulfiller>, i: nat, d: nat, e: nat, v: Value,
                   cs': seq<Cell<State>>, cl': seq<ConstantFulfiller>)
    requires Valid(Ext(w, cs, cl)) && i < |cs| && d < |cs| && e < |cs| && i != e && d != e
    requires cs[i] == Forward(|w.cells| + d, |w.cells| + e) && cs[e] == EmptyCell()
    requires Valid(Ext(w, cs[i := EmptyCell()], cl))
    requires Fulfill(Ext(w, cs[i := EmptyCell()], cl), |w.cells| + d, v) == Done(Ext(w, cs', cl'))
    requires e < |cs'| && cs'[e] == EmptyCell()
    ensures Fulfill(Ext(w, cs, cl), |w.cells| + i, v) == Done(Ext(w, cs'[e := Holding(Unit)], cl'))
  {
    var n := |w.cells|;
    EmptiedExt(w, cs, cl, i);
    ForwardExtShape(w, cs, cl, i, d, e, cs', cl');
    FulfillForwardVia(Ext(w, cs, cl), n + i, n + d, n + e, v,
                      Ext(w, cs[i := EmptyCell()], cl), Ext(w, cs', cl'), Ext(w, cs'[e := Holding(Unit)], cl'));
  }

  /** The slot facts `ForwardExt` needs, apart from any `fulfill`. */
  lemma ForwardExtShape(w: World, cs: seq<Cell<State>>, cl: seq<ConstantFulfiller>, i: nat, d: nat, e: nat,
                        cs': seq<Cell<State>>, cl': seq<ConstantFulfiller>)
    requires i < |cs| && e < |cs| && cs[i] == Forward(|w.cells| + d, |w.cells| + e) && cs[e] == EmptyCell()
    requires e < |cs'| && cs'[e] == EmptyCell()
    ensures var n := |w.cells|;
            && Held(Ext(w, cs, cl), n + i) == Some(Chained(MapTo(FulfillInto(n + d), n + e)))
            && Empty(Ext(w, cs, cl).cells[n + e])
            && n + e < |Ext(w, cs', cl').cells| && Empty(Ext(w, cs', cl').cells[n + e])
            && (Ext(w, cs', cl').(cells := Ext(w, cs', cl').cells[n + e := FromValue(Ready(Unit))])
                == Ext(w, cs'[e := Holding(Unit)], cl'))
  {
    ExtCellUpdate(w, cs', cl', e, Holding(Unit));
  }

  /** A forwarding continuation whose target is still empty. */
  lemma ForwardEmptyExt(w: World, cs: seq<Cell<State>>, cl: seq<ConstantFulfiller>, i: nat, d: nat, e: nat, v: Value)
    requires Valid(Ext(w, cs, cl)) && i < |cs| && d < |cs| && e < |cs| && i != e && d != e && i != d
    requires cs[i] == Forward(|w.cells| + d, |w.cells| + e) && cs[e] == EmptyCell() && Empty(cs[d])
    ensures Fulfill(Ext(w, cs, cl), |w.cells| + i, v)
         == Done(Ext(w, cs[i := EmptyCell()][d := Holding(v)][e := Holding(Unit)], cl))
  {
    EmptiedExt(w, cs, cl, i);
    FulfillEmptyExt(w, cs[i := EmptyCell()], cl, d, v);
    ForwardExt(w, cs, cl, i, d, e, v, cs[i := EmptyCell()][d := Holding(v)], cl);
  }
}
