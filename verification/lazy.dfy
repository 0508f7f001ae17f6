/**
 A model of `Lazy<T>`: a value that is either known from the start or computed
 by a generator on first use and cached from then on. The Rust type mutates its
 state through `&self`; here `Get` hands back the new `Lazy` next to the value,
 together with the number of generator runs that call made.
 */
module Lazy {

  /** `LazyState<T>`. `Evaluating` is the placeholder left in the slot while
      the generator runs. */
  datatype LazyState<T> = Deferred(gen: () -> T) | Evaluating | Cached(value: T)

  datatype Lazy<T> = Lazy(state: LazyState<T>)

  /** The two ways an access can abort. */
  datatype Fault =
    | RecursiveGet   // `get` while the generator is running
    | Unreachable    // `unwrap` of an `Evaluating` lazy, `evaluate` of a non-deferred one

  /** What `get` hands out: the value, the lazy as it stands afterwards, and
      how many times the generator ran during the call. */
  datatype Got<T> = Got(value: T, after: Lazy<T>, runs: nat)

  /** The result of an access that may abort. */
  datatype Attempt<T> = Ok(value: T) | Aborted(fault: Fault)

  /** A lazy that a `get` can serve: the only state it refuses is the one a
      generator leaves behind while it is still running. */
  predicate Usable<T>(l: Lazy<T>)
  {
    !l.state.Evaluating?
  }

  /** The value a usable lazy stands for: its cached value, or what its
      generator produces. */
  function Denotes<T>(l: Lazy<T>): T
    requires Usable(l)
  {
    match l.state
    case Cached(v) => v
    case Deferred(gen) => gen()
  }

  /** `from_value(v)`: already cached. */
  function FromValue<T>(v: T): (r: Lazy<T>)
    ensures Usable(r) && Denotes(r) == v
    ensures Get(r) == Ok(Got(v, r, 0))
  {
    Lazy(Cached(v))
  }

  /** `from_fn(gen)`: nothing is computed yet. */
  function FromFn<T>(gen: () -> T): (r: Lazy<T>)
    ensures Usable(r) && Denotes(r) == gen()
    ensures Get(r) == Ok(Got(gen(), FromValue(gen()), 1))
  {
    Lazy(Deferred(gen))
  }

  /** `unwrap(self)`: consume the lazy for its value, running the generator
      if it has not run yet. */
  function Unwrap<T>(l: Lazy<T>): (r: Attempt<T>)
    ensures r.Ok? <==> Usable(l)
    ensures r.Ok? ==> r.value == Denotes(l)
    ensures r.Aborted? ==> r.fault == Unreachable
  {
    match l.state
    case Cached(v) => Ok(v)
    case Deferred(gen) => Ok(gen())
    case Evaluating => Aborted(Unreachable)
  }

  /** Termination measure of the `get`/`evaluate` pair: only a deferred lazy
      still has work to do. */
  function Pending<T>(s: LazyState<T>): nat
  {
    if s.Deferred? then 1 else 0
  }

  /** `get(&self)`: the cached value; a deferred lazy is evaluated first, and a
      lazy whose generator is running refuses. */
  function Get<T>(l: Lazy<T>): (r: Attempt<Got<T>>)
    ensures r.Ok? <==> Usable(l)
    ensures r.Aborted? ==> r.fault == RecursiveGet
    ensures r.Ok? ==> r.value.value == Denotes(l) && r.value.after == Lazy(Cached(r.value.value))
    ensures r.Ok? ==> (r.value.runs == 1 <==> l.state.Deferred?) && r.value.runs <= 1
    decreases Pending(l.state), 1
  {
    match l.state
    case Cached(v) => Ok(Got(v, l, 0))
    case Evaluating => Aborted(RecursiveGet)
    case Deferred(_) => Evaluate(l)
  }

  /** `evaluate(&self)`: park `Evaluating` in the slot, run the generator,
      cache its result and serve the `get` again from the cache. */
  function Evaluate<T>(l: Lazy<T>): (r: Attempt<Got<T>>)
    ensures r.Ok? <==> l.state.Deferred?
    ensures r.Ok? ==> r.value == Got(l.state.gen(), Lazy(Cached(l.state.gen())), 1)
    decreases Pending(l.state), 0
  {
    match l.state
    case Deferred(gen) =>
      var cached := Lazy(Cached(gen()));
      (match Get(cached)
       case Ok(got) => Ok(got.(runs := got.runs + 1))
       case Aborted(f) => Aborted(f))
    case _ => Aborted(Unreachable)
  }

  /** `count` successive `get`s: every value handed out, the lazy afterwards,
      and the generator runs they made in total. The first refusal ends the
      run. */
  function GetMany<T>(l: Lazy<T>, count: nat): (r: Attempt<(seq<T>, Lazy<T>, nat)>)
    ensures r.Ok? ==> |r.value.0| == count
    decreases count
  {
    if count == 0 then Ok(([], l, 0))
    else
      match Get(l)
      case Aborted(f) => Aborted(f)
      case Ok(got) =>
        match GetMany(got.after, count - 1)
        case Aborted(f) => Aborted(f)
        case Ok(rest) => Ok(([got.value] + rest.0, rest.1, got.runs + rest.2))
  }

  /** A second `get` is served from the cache: the same value, no further
      generator run, and nothing changes. */
  lemma GetTwice<T>(l: Lazy<T>)
    requires Usable(l)
    ensures var first := Get(l).value;
            Get(first.after) == Ok(Got(first.value, first.after, 0))
  {
  }

  /** However many `get`s are made, a usable lazy hands out its one value every
      time and runs its generator at most once, on the first `get`. */
  lemma {:induction false} GetManyOnce<T>(l: Lazy<T>, count: nat)
    requires Usable(l)
    ensures GetMany(l, count).Ok?
    ensures var (values, after, runs) := GetMany(l, count).value;
            && (forall i :: 0 <= i < count ==> values[i] == Denotes(l))
            && runs == (if count > 0 && l.state.Deferred? then 1 else 0)
            && after == (if count > 0 then FromValue(Denotes(l)) else l)
    decreases count
  {
    if count > 0 {
      var got := Get(l).value;
      GetManyOnce(got.after, count - 1);
    }
  }

  /** A run of `get`s is refused exactly when the generator is running, and
      then with `RecursiveGet`. */
  lemma GetManyRefused<T>(l: Lazy<T>, count: nat)
    requires count > 0
    ensures GetMany(l, count).Aborted? <==> l.state.Evaluating?
    ensures GetMany(l, count).Aborted? ==> GetMany(l, count) == Aborted(RecursiveGet)
  {
    if Usable(l) {
      GetManyOnce(l, count);
    }
  }

  /** `get` and `unwrap` agree on the value, and fail on the same lazies. */
  lemma GetAgreesWithUnwrap<T>(l: Lazy<T>)
    ensures Get(l).Ok? <==> Unwrap(l).Ok?
    ensures Get(l).Ok? ==> Get(l).value.value == Unwrap(l).value
    ensures Get(l).Ok? ==> Unwrap(Get(l).value.after) == Unwrap(l)
  {
  }

  /** The `test_copy_value_*` and `test_nocopy_value_*` tests: a pre-loaded
      lazy unwraps to its value, and two `get`s both return it. */
  lemma ValueTests()
    ensures Unwrap(FromValue(10)) == Ok(10)
    ensures GetMany(FromValue(10), 2) == Ok(([10, 10], FromValue(10), 0))
    ensures Unwrap(FromValue("foobar")) == Ok("foobar")
    ensures GetMany(FromValue("foobar"), 2) == Ok((["foobar", "foobar"], FromValue("foobar"), 0))
  {
    GetManyOnce(FromValue(10), 2);
    assert GetMany(FromValue(10), 2).value.0 == [10, 10];
    GetManyOnce(FromValue("foobar"), 2);
    assert GetMany(FromValue("foobar"), 2).value.0 == ["foobar", "foobar"];
  }

  /** The `test_fn_*` tests, for any generator that formats `"A"` and `"B"`
      with a space between them. */
  lemma FnTests(gen: () -> string)
    requires gen() == "A" + " " + "B"
    ensures Unwrap(FromFn(gen)) == Ok("A B")
    ensures GetMany(FromFn(gen), 2) == Ok((["A B", "A B"], FromValue("A B"), 1))
  {
    assert gen() == "A B";
    GetManyOnce(FromFn(gen), 2);
    assert GetMany(FromFn(gen), 2).value.0 == ["A B", "A B"];
  }
}
