/**
 A model of the library's `Error`: a code plus a description that is either
 given up front or produced on demand by a generator, through `Lazy`. Rust's
 `MaybeOwned` string (borrowed slice or owned buffer) is a plain `string` here.
 */
module Error {
  import Lazy

  /** `ErrorCode`. */
  datatype ErrorCode = DeadlineExceeded | NetworkError | InternalServerError

  /** `Error`: the code and the memoised description. */
  datatype Error = Error(code: ErrorCode, desc: Lazy.Lazy<string>)

  /** `with_desc(code, desc)`: the description is known from the start. */
  function WithDesc(code: ErrorCode, desc: string): (r: Error)
    ensures Code(r) == code
    ensures Desc(r) == Lazy.Ok((desc, r))
  {
    Error(code, Lazy.FromValue(desc))
  }

  /** `new(code)`: `with_desc` with the empty description. */
  function New(code: ErrorCode): (r: Error)
    ensures Code(r) == code
    ensures Desc(r) == Lazy.Ok(("", r))
  {
    WithDesc(code, "")
  }

  /** `with_lazy_desc(code, gen)`: the description is produced on the first
      `desc()`; from then on the error is the one `with_desc` would have built
      from the produced text. */
  function WithLazyDesc(code: ErrorCode, gen: () -> string): (r: Error)
    ensures Code(r) == code
    ensures Desc(r) == Lazy.Ok((gen(), WithDesc(code, gen())))
  {
    Error(code, Lazy.FromFn(gen))
  }

  /** `code()`: the code given at construction, which `desc()` keeps. */
  function Code(e: Error): (r: ErrorCode)
    ensures Desc(e).Ok? ==> Desc(e).value.1.code == r
  {
    e.code
  }

  /** `desc()`: the description, through `Lazy::get`; it hands back the error
      with its description now cached. */
  function Desc(e: Error): (r: Lazy.Attempt<(string, Error)>)
    ensures r.Ok? <==> Lazy.Usable(e.desc)
    ensures r.Aborted? ==> r.fault == Lazy.RecursiveGet
    ensures r.Ok? ==> r.value.0 == Lazy.Denotes(e.desc)
    ensures r.Ok? ==> r.value.1 == Error(e.code, Lazy.FromValue(r.value.0))
  {
    match Lazy.Get(e.desc)
    case Ok(got) => Lazy.Ok((got.value, e.(desc := got.after)))
    case Aborted(f) => Lazy.Aborted(f)
  }

  /** `count` successive `desc()` calls: the texts handed out and the error
      afterwards; the first refusal ends the run. */
  function DescMany(e: Error, count: nat): (r: Lazy.Attempt<(seq<string>, Error)>)
    ensures r.Ok? <==> count == 0 || Lazy.Usable(e.desc)
    ensures r.Ok? ==> |r.value.0| == count && r.value.1.code == e.code
    ensures r.Ok? && count > 0 ==>
              Desc(e).Ok? && forall i :: 0 <= i < count ==> r.value.0[i] == Desc(e).value.0
    decreases count
  {
    if count == 0 then Lazy.Ok(([], e))
    else
      match Desc(e)
      case Aborted(f) => Lazy.Aborted(f)
      case Ok(d) =>
        match DescMany(d.1, count - 1)
        case Aborted(f) => Lazy.Aborted(f)
        case Ok(rest) => Lazy.Ok(([d.0] + rest.0, rest.1))
  }

  /** Whatever `desc()` calls are made, the code stays the one given at
      construction and every call returns the same description. */
  lemma {:induction false} DescStable(e: Error, count: nat)
    requires Lazy.Usable(e.desc)
    ensures DescMany(e, count).Ok?
    ensures var (texts, after) := DescMany(e, count).value;
            && Code(after) == Code(e)
            && Lazy.Usable(after.desc)
            && forall i :: 0 <= i < count ==> texts[i] == Lazy.Denotes(e.desc)
    decreases count
  {
    if count > 0 {
      DescStable(Desc(e).value.1, count - 1);
    }
  }

  /** The tests `test_no_desc`, `test_slice_desc` and `test_string_desc`. */
  lemma EagerDescTests()
    ensures Code(New(InternalServerError)) == InternalServerError
    ensures Desc(New(InternalServerError)).value.0 == ""
    ensures Code(WithDesc(DeadlineExceeded, "failwhale")) == DeadlineExceeded
    ensures Desc(WithDesc(DeadlineExceeded, "failwhale")).value.0 == "failwhale"
    ensures Code(WithDesc(InternalServerError, "failboat")) == InternalServerError
    ensures Desc(WithDesc(InternalServerError, "failboat")).value.0 == "failboat"
  {
  }

  /** The tests `test_lazy_slice_desc` and `test_lazy_string_desc`, for any
      generator that produces `"failboat"`. */
  lemma LazyDescTests(gen: () -> string)
    requires gen() == "failboat"
    ensures Code(WithLazyDesc(InternalServerError, gen)) == InternalServerError
    ensures Desc(WithLazyDesc(InternalServerError, gen)).value.0 == "failboat"
  {
  }
}
