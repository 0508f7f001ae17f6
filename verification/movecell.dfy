/**
 A model of `MoveCell<T>`: a single slot that holds zero or one value and is
 changed only by `put` and `take`. The Rust cell mutates through `&self`; here
 every mutating operation returns the new cell next to its result.
 */
module MoveCell {

  /** Rust's `Option<T>`, the contents of the slot. */
  datatype Option<T> = None | Some(value: T)

  /** The cell is nothing but its slot. */
  datatype Cell<T> = Cell(slot: Option<T>)

  /** `empty()`: the slot holds nothing. */
  predicate Empty<T>(c: Cell<T>)
  {
    c.slot.None?
  }

  /** `get_ref()`: the held value, if any; the cell itself is not touched. */
  function GetRef<T>(c: Cell<T>): (r: Option<T>)
    ensures r.None? <==> Empty(c)
  {
    c.slot
  }

  /** `new()`: a cell holding nothing. */
  function New<T>(): (c: Cell<T>)
    ensures Empty(c)
    ensures GetRef(c) == None
  {
    Cell(None)
  }

  /** `from_value(v)`: a cell pre-loaded with `v`. */
  function FromValue<T>(v: T): (c: Cell<T>)
    ensures !Empty(c)
    ensures GetRef(c) == Some(v)
  {
    Cell(Some(v))
  }

  /** `put(v)`: store `v`, handing back whatever it displaced. */
  function Put<T>(c: Cell<T>, v: T): (r: (Cell<T>, Option<T>))
    ensures r.1 == GetRef(c)
    ensures GetRef(r.0) == Some(v)
  {
    (Cell(Some(v)), c.slot)
  }

  /** `take()`: remove and return the held value, leaving the cell empty. */
  function Take<T>(c: Cell<T>): (r: (Cell<T>, Option<T>))
    ensures r.1 == GetRef(c)
    ensures Empty(r.0)
  {
    (Cell(None), c.slot)
  }

  /** `empty()` observes what `put` and `take` do: a cell is empty exactly
      when `take` would find nothing, `take` always leaves it empty and `put`
      never does; the only empty cell is the one `new()` builds. */
  lemma EmptyObserved<T>(c: Cell<T>, v: T)
    ensures Empty(c) <==> Take(c).1.None?
    ensures Empty(Take(c).0) && !Empty(Put(c, v).0)
    ensures Empty(c) <==> c == New()
  {
  }

  /** `from_value(v)` followed by `take()` yields `v` and an empty cell. */
  lemma TakeFromValue<T>(v: T)
    ensures Take(FromValue(v)) == (New(), Some(v))
  {
  }

  /** A second `take()` finds nothing. */
  lemma TakeTwice<T>(c: Cell<T>)
    ensures Take(Take(c).0).1 == None
    ensures Take(Take(c).0).0 == New()
  {
  }

  /** `put(v)` and then `take()` is a round trip: `v` comes back out and the
      cell is empty again, whatever it held before. */
  lemma PutThenTake<T>(c: Cell<T>, v: T)
    ensures Take(Put(c, v).0) == (New(), Some(v))
  {
  }

  /** `take()` and then putting the taken value back restores the cell. */
  lemma TakeThenPutBack<T>(c: Cell<T>)
    requires !Empty(c)
    ensures Put(Take(c).0, c.slot.value) == (c, None)
  {
  }

  /** The sequence of operations in the `test_copy` and `test_nocopy` tests,
      for any two values `a` and `b`. */
  lemma PreloadedScenario<T>(a: T, b: T)
    ensures var (c1, t1) := Take(FromValue(a));
            var (c2, t2) := Take(c1);
            var (c3, d3) := Put(c2, b);
            var (c4, t4) := Take(c3);
            var (c5, t5) := Take(c4);
            t1 == Some(a) && t2 == None && Empty(c2) && d3 == None
            && t4 == Some(b) && t5 == None && Empty(c5)
  {
  }

  /** The sequence of operations in the `test_empty_new` test. */
  lemma EmptyNewScenario<T>(a: T)
    ensures var c0: Cell<T> := New();
            var (c1, d1) := Put(c0, a);
            var (c2, t2) := Take(c1);
            var (c3, t3) := Take(c2);
            Empty(c0) && d1 == None && t2 == Some(a) && t3 == None && Empty(c3)
  {
  }
}
