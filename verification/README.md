# zuffy core in Dafny

This project models the sequential core of the zuffy crate and proves properties of it:

- **`MoveCell`** (`movecell.dfy`): the single-slot cell that every shared state of the crate lives in.
- **The Promise/Future continuation engine** (`future.dfy`, `future_laws.dfy`):
  - a `Promise` is the write end of a single-assignment state;
  - a `Future` is its read end, on which one continuation can wait (`map`, `then`);
  - a `SyncFuture` is a state driven by a `Fulfiller`, either synchronously (`sync`) or asynchronously (`async`).
  - The test fulfiller `ConstantFulfiller` (eager or deferred, with `poll`) and `NoopFulfiller` are part of the model.
- **The engine's test module** (`scenario.dfy`, `future_tests.dfy`): each test is restated as a function and proved to pass. This includes the five-step `then`/`map` chain that must resolve to 2·3·5·7·11·13.
- **`Lazy`** (`lazy.dfy`): the memoising cell with its `Deferred`, `Evaluating` and `Cached` states.
- **`Error`** (`error.dfy`): an error code plus a lazily produced description.

The shared states are held in an arena rather than behind `Rc` pointers. A `World` holds two sequences:

- `cells`: one `MoveCell` of `State` per shared state;
- `clients`: the `ConstantFulfiller`s.

Promises, futures and driven futures hold an index into `cells`. A continuation is data (`Chainer`) rather than a closure:

- `MapTo(through, dst)` is what `map` installs;
- `ThenTo(next, dst)` is what `then` installs.

Every operation that mutates through `&self` in Rust returns the new world (or cell) here.

The Rust program has fatal paths (`unreachable!()`, `panic!`, `unwrap()` on `None`). Here they end the computation with `Panic(...)`, naming the contract that was broken:

- `DoubleFulfillment`
- `DoubleRegistration`
- `PrematureSync`
- `MissingPromise`

`Lazy` uses `Aborted(RecursiveGet)` and `Aborted(Unreachable)` in the same way. The lemmas state exactly when each of these happens.

`fulfill`, `map`, `then` and `async` call each other: a continuation may start a fulfiller that fulfils at once. They terminate by the number of waiting continuations in the world, which every `fulfill` lowers when it takes a continuation out, together with a rank per function.

The test lemmas do not start from an empty world. They start from an arbitrary well-formed world `w`, so they also show that states and clients already present are left alone.

## Model

| member | source | states |
|---|---|---|
| MoveCell.GetRef | src/movecell.rs:29-31 | `get_ref` yields nothing exactly when the cell is empty; the cell is not changed |
| MoveCell.EmptyObserved | src/movecell.rs:37-39 | `empty` holds exactly when `take` would find nothing; `take` always leaves the cell empty and `put` never does; the only empty cell is the one `new` builds |
| MoveCell.New | src/movecell.rs:11-16 | a new cell is empty and `get_ref` finds nothing |
| MoveCell.FromValue | src/movecell.rs:18-23 | a pre-loaded cell is not empty and `get_ref` finds the value |
| MoveCell.Put | src/movecell.rs:25-27 | `put` returns what the cell held before, and afterwards the cell holds the new value |
| MoveCell.Take | src/movecell.rs:33-35 | `take` returns what the cell held and leaves it empty |
| MoveCell.TakeFromValue | src/movecell.rs:48-50 | `from_value(v).take()` yields `v` and an empty cell |
| MoveCell.TakeTwice | src/movecell.rs:50-52 | a second `take` finds nothing and the cell stays empty |
| MoveCell.PutThenTake | src/movecell.rs:54-55 | `put(v)` then `take()` returns `v` and empties the cell, whatever it held before |
| MoveCell.TakeThenPutBack | src/movecell.rs:25-35 | taking the value and putting it back restores the cell, and the `put` displaces nothing |
| MoveCell.PreloadedScenario | src/movecell.rs:46-72 | the `test_copy` and `test_nocopy` call sequences, for any two values |
| MoveCell.EmptyNewScenario | src/movecell.rs:74-82 | the `test_empty_new` call sequence, for any value |
| Future.NewPromise | src/future.rs:28-30 | `Promise::new` adds one empty state at the end of the arena; nothing else changes |
| Future.FromState | src/future.rs:32-36 | a promise made from a state turns back into the future over that same state |
| Future.IntoCont | src/future.rs:38-40 | `into_cont` reads the promise's own state |
| Future.MakePromise | src/future.rs:91-93 | the promise a driven future hands out writes that future's state |
| Future.NewSyncFuture | src/future.rs:59-64 | `SyncFuture::new` is bound to its fulfiller over one fresh empty state |
| Future.NewReady | src/future.rs:96-102 | `new_ready(v)` has no fulfiller and its fresh state is already ready |
| Future.NewWithPromise | src/future.rs:104-109 | `new_with_promise` has no fulfiller, is not ready, and its promise writes its state |
| Future.NewClient | src/future.rs:190-205 | a new `ConstantFulfiller` holds no promise and has the given eagerness and default constant |
| Future.Start | src/future.rs:207-211 | `start(v)` changes only that client's constant, and binds a fresh empty state to that client |
| Future.Fulfill | src/future.rs:42-49 | `fulfill` keeps the world well formed and never adds a waiting continuation; on an empty state it always succeeds and leaves the state ready |
| Future.Invoke | src/future.rs:132-155 | running a stored continuation keeps the world well formed; only a `then` step can add a waiting continuation, and at most one |
| Future.Apply | src/future.rs:128-134 | a pure function handed to `map` is applied with nothing else changed |
| Future.MapOn | src/future.rs:123-140 | `map` returns the future over the one fresh state; a source that already has a continuation is a fatal double registration |
| Future.RunNext | src/future.rs:146-155 | the step handed to `then` yields a future over a fresh state and keeps the world well formed |
| Future.Async | src/future.rs:83-89 | `async` returns the future over the driven state itself |
| Future.ClientAsync | src/future.rs:224-230 | a deferred `ConstantFulfiller` only stores the promise and changes nothing else |
| Future.Then | src/future.rs:142-160 | `then` returns the future over the one fresh state; a source that already has a continuation is a fatal double registration |
| Future.IsReady | src/future.rs:66-70 | `ready` holds exactly when the state is neither empty nor waiting with a continuation |
| Future.ClientSync | src/future.rs:220-222 | the synchronous delivery of a `ConstantFulfiller` puts its constant into an empty target state and is fatal on a ready one |
| Future.Sync | src/future.rs:72-81 | without a delivering fulfiller (`NoopFulfiller` or none), `sync` succeeds exactly on a ready state, returns the value held there and empties the state, and is otherwise `PrematureSync`; a `ConstantFulfiller` over an empty state makes `sync` return its constant and leave the world as it was, and over a ready state it is a double fulfilment |
| Future.Poll | src/future.rs:213-216 | `poll` does nothing on an eager client; polling a deferred client that holds no promise is fatal |
| FutureLaws.FulfillEmpty | src/future.rs:42-45 | fulfilling an empty state stores exactly `Ready(v)` there and changes no other state and no client |
| FutureLaws.FulfillReady | src/future.rs:47 | fulfilling a state that already holds a value is a fatal double fulfilment |
| FutureLaws.FulfillAtMostOnce | src/future.rs:42-48 | a second fulfilment of the same state is fatal, whatever the two values are |
| FutureLaws.FulfillChained | src/future.rs:44-46 | fulfilling a state with a waiting continuation empties the state and runs that continuation on the value |
| FutureLaws.FulfillConsumesContinuation | src/future.rs:46 | the taken continuation is never put back, so the number of waiting continuations drops |
| FutureLaws.MapReady | src/future.rs:123-130 | `map(f)` on a ready source empties the source and returns a future that already holds `f(x)` |
| FutureLaws.MapOnReady | src/future.rs:124-130 | `map` on a ready source is the continuation run at once on its value |
| FutureLaws.MapForwardReady | src/future.rs:127-133 | `map` with the promise-fulfilling closure on a ready source fills the target state with the value at once |
| FutureLaws.MapPending | src/future.rs:131-135 | `map` on an empty source leaves its continuation waiting there and returns a future that is not ready |
| FutureLaws.ThenOnReady | src/future.rs:142-149 | `then` on a ready source empties the source and runs its step on the value at once, into a fresh state; a fatal step is fatal for `then` |
| FutureLaws.ThenReadyDeferred | src/future.rs:142-149 | `then` on a ready source with a step that starts a deferred client: the client is started with `arg(x)` and keeps the promise of a fresh state, on which a forwarding continuation into the returned future waits |
| FutureLaws.ThenPending | src/future.rs:150-156 | `then` on an empty source leaves its step waiting there and returns a future that is not ready |
| FutureLaws.MapThenFulfill | src/future.rs:131-135 | after `map(f)` on an empty source, fulfilling the source with `v` makes the mapped future hold `f(v)` and leaves the source empty |
| FutureLaws.MapCompose | src/future.rs:123-130 | two `map`s on a ready source yield a future holding `g(f(x))` |
| FutureLaws.ThenReadyAgreesWithMap | src/future.rs:142-149 | `then` with a step that yields a ready future agrees with `map` of the same function |
| FutureLaws.InvokeThenDeferred | src/future.rs:151-155 | a `then` step that starts a deferred client leaves that client holding the inner promise, with a forwarding continuation waiting on the inner state |
| FutureLaws.InvokeForward | src/future.rs:152-154 | the forwarding continuation `then` installs fulfils the outer promise with the inner value |
| FutureLaws.Emptied | src/future.rs:43-46 | taking a state out leaves only that state empty and keeps the world well formed |
| FutureLaws.FulfillForward | src/future.rs:151-155 | fulfilling an inner future of `then` fulfils the outer promise with the same value |
| FutureLaws.SyncReturnsConstant | src/future.rs:72-81 | `sync` on a freshly started client returns exactly its constant |
| FutureLaws.SyncWithoutDeliveryPanics | src/future.rs:77-80 | `sync` is fatal when nothing delivers: a `NoopFulfiller`, or an unfulfilled `new_with_promise` |
| FutureLaws.NewReadySync | src/future.rs:96-102 | `new_ready(v)` is ready and `sync` returns `v` |
| FutureLaws.FulfillThenSync | src/future.rs:104-109 | fulfilling the promise of `new_with_promise` with `v`, then `sync`, returns `v` and restores the world |
| FutureLaws.AsyncThenPoll | src/future.rs:213-230 | the future of `async` is ready exactly when the client is eager, and after `poll` it holds the constant in both cases |
| FutureLaws.StartAsyncDeferred | src/future.rs:224-230 | `start(v).async()` on a deferred client leaves it holding the promise of the fresh state |
| FutureLaws.FulfillMapped | src/future.rs:132-134 | fulfilling a state on which a pure `map` waits is fulfilling the mapped state with `f(v)` |
| FutureLaws.FulfillStartsNext | src/future.rs:151-155 | fulfilling a state on which a `then` step waits starts the next deferred client |
| FutureLaws.Released | src/future.rs:215 | `poll` clears only the polled client's promise and keeps the world well formed |
| FutureLaws.PollDelivers | src/future.rs:213-216 | polling a deferred client with a promise fulfils that promise with its constant |
| FutureLaws.PollStartsNext | src/future.rs:213-216 | polling a client whose promise has a `then` step waiting starts the next deferred client |
| Scenario.PollEach | src/future.rs:319-323 | polling clients one after another keeps the world well formed and the client count fixed |
| Scenario.StartFirstDeferred | src/future.rs:303-306 | `new_with_promise`, then `start(v).async()` on the first of several deferred clients |
| Scenario.ThenOnLast | src/future.rs:150-156 | `then` on the newest, still empty future |
| Scenario.MapOnLast | src/future.rs:131-135 | `map` on the newest, still empty future |
| Scenario.ForwardEmptyExt | src/future.rs:152-154 | a forwarding continuation fills its empty target and marks the discarded future with `()` |
| FutureTests.CopySyncTestPasses | src/future.rs:233-245 | `test_copy_sync` and `test_nocopy_sync`: two starts on one client, and each `sync` returns its own constant |
| FutureTests.ReadyTestPasses | src/future.rs:266-271 | `test_ready`: `new_ready(v)` is ready and `sync` returns `v` |
| FutureTests.AsyncTestPasses | src/future.rs:247-264 | `test_async`: readiness right after `async` equals eagerness, and after `poll` the mapped closure has received "foo" |
| FutureTests.ThenMapBuild | src/future.rs:274-286 | building the `test_then_map` chain keeps the world well formed and adds two clients |
| FutureTests.ThenMapTestPasses | src/future.rs:273-290 | `test_then_map`: after polling both clients, `sync` returns 7 |
| FutureTests.ThenManyBuild | src/future.rs:293-318 | building the `test_then_many` chain keeps the world well formed and adds five clients |
| FutureTests.ThenManyRunsToEnd | src/future.rs:319-323 | from any point of the five polls, polling the remaining clients in order reaches the final world |
| FutureTests.ThenManyTestPasses | src/future.rs:292-325 | `test_then_many`: after the five polls, `sync` returns 2·3·5·7·11·13 |
| Lazy.FromValue | src/lazy.rs:16-21 | `from_value(v)` stands for `v`, and `get` returns `v` with no generator run and nothing changed |
| Lazy.FromFn | src/lazy.rs:23-28 | `from_fn(gen)` stands for `gen()`; the first `get` runs the generator once and caches its result |
| Lazy.Unwrap | src/lazy.rs:30-36 | `unwrap` returns the cached value or the generator's value; only an evaluating lazy aborts, as unreachable |
| Lazy.Get | src/lazy.rs:38-44 | `get` returns the denoted value and leaves it cached, running the generator exactly when it was deferred; only an evaluating lazy aborts |
| Lazy.Evaluate | src/lazy.rs:46-55 | `evaluate` succeeds exactly on a deferred lazy: one generator run, its result cached and returned |
| Lazy.GetTwice | src/lazy.rs:69-77 | a second `get` returns the same value with no generator run and changes nothing |
| Lazy.GetManyOnce | src/lazy.rs:38-55 | over any number of `get`s, every value is the denoted one and the generator runs at most once, on the first |
| Lazy.GetManyRefused | src/lazy.rs:38-44 | a run of `get`s is refused exactly when the generator is running, and then as a recursive `get` |
| Lazy.GetAgreesWithUnwrap | src/lazy.rs:30-44 | `get` and `unwrap` fail on the same lazies and return the same value |
| Lazy.ValueTests | src/lazy.rs:62-95 | the four `test_*_value_*` tests: unwrap returns the value, and two `get`s return it twice without a run |
| Lazy.FnTests | src/lazy.rs:97-111 | `test_fn_unwrap` and `test_fn_get`: "A B" is returned, and two `get`s run the generator once |
| Error.WithDesc | src/error.rs:22-28 | `with_desc(c, d)` has code `c`, and `desc` returns `d` and changes nothing |
| Error.New | src/error.rs:18-20 | `new(c)` has code `c` and the empty description |
| Error.WithLazyDesc | src/error.rs:30-36 | `with_lazy_desc(c, gen)` has code `c`; the first `desc` returns `gen()` and leaves the error equal to `with_desc(c, gen())` |
| Error.Code | src/error.rs:38 | `code` returns the code the error was built with, and `desc` keeps it |
| Error.Desc | src/error.rs:39-44 | `desc` returns the description the lazy stands for and caches it; the code is not touched |
| Error.DescMany | src/error.rs:39-44 | repeated `desc` calls succeed exactly when the description can be produced, keep the code, and every call returns the text the first call returns |
| Error.DescStable | src/error.rs:38-44 | over any number of `desc` calls the code stays as constructed and every call returns the same description |
| Error.EagerDescTests | src/error.rs:51-70 | `test_no_desc`, `test_slice_desc` and `test_string_desc` |
| Error.LazyDescTests | src/error.rs:72-85 | `test_lazy_slice_desc` and `test_lazy_string_desc`, for any generator producing "failboat" |

## Left out

- `src/reactor.rs` and `main` in `src/zuffy.rs`: the zmq poll loop and the socket and thread setup are I/O plumbing around the core.
- `Rc`, `RefCell`, `UnsafeCell`, `NoSync` and dropping:
  - shared states live in an arena and are never freed;
  - the `Rc<RefCell<ConstantFulfiller>>` clients of the tests are indices into `World.clients`;
  - the `&mut` fulfiller reference held by a `SyncFuture` is such an index too.
- Closures:
  - `map` and `then` take only a fixed set of closures. `map` takes a pure function, or "fulfil this promise"; both occur in the crate and its tests. `then` takes "start this client with `arg(x)` and go async", which the tests use, or "`new_ready(f(x))` and go async", which nothing in the crate uses and which is there only to state `FutureLaws.ThenReadyAgreesWithMap`.
  - Side effects inside closures are not modelled. In `test_async`, the `called_setter` flag and the assertion in the closure are replaced by a promise that the closure fulfils, whose state is then inspected.
- Generic value types: every future carries one `Value` type (`Unit`, `Num`, `Text`). The `()` results of the promise-fulfilling closures are `Unit`.
- `uint` arithmetic in the tests is unbounded `int`. The products in the tests never come near a machine word.
- `Default::default()` for the constant of `ConstantFulfiller::new` is a parameter of `NewClient`.
- Other `Fulfiller` implementations: the `Fulfiller` trait is modelled only through its two implementations in the crate, `NoopFulfiller` and `ConstantFulfiller`.
- `Evaluating` state of `Lazy`:
  - the model's own operations never leave a lazy in the `Evaluating` state, because a generator here is a pure function that cannot call back into its own lazy;
  - that state is kept so that the recursive-`get` abort can be stated;
  - `evaluate` passes from `Deferred` straight to `Cached`.
- Pointer identity in the `Lazy` tests (`a as *const _ == b as *const _`) is stated as value equality. The second `get` also leaves the lazy unchanged.
- Future.Sync: for a sync future bound to a `ConstantFulfiller` whose state already has a continuation waiting, the contract says only that a successful `sync` empties the state. The outcome then depends on what that continuation does, and no code in the crate reaches this case: a sync future's state is shared only through the promises it makes.
- `MaybeOwned`: the borrowed-or-owned description of `Error` is a plain `string`.
- Test generality: the tests are stated for more inputs than they use. `test_copy_sync` and `test_ready` hold for any values, and the `Lazy` and `Error` generator tests for any generator that produces the expected string.
