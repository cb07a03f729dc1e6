/** Small value types shared by the models. */
module Basics {

  datatype Option<+T> = None | Some(value: T)

  /** A Go result: a value, or a non-nil error. */
  datatype Result<+T> = Ok(value: T) | Err {
    predicate IsFailure() { Err? }
    function PropagateFailure<U>(): Result<U> requires Err? { Err }
    function Extract(): T requires Ok? { value }
  }

  /** What a loop has done so far, followed by what is still to come. */
  function Onto<T>(done: seq<T>, r: Result<seq<T>>): Result<seq<T>> {
    if r.Err? then Err else Ok(done + r.value)
  }

  lemma {:induction false} OntoOne<T>(done: seq<T>, x: T, r: Result<seq<T>>)
    ensures Onto(done + [x], r) == Onto(done, if r.Err? then Err else Ok([x] + r.value))
  {
    if r.Ok? {
      assert done + [x] + r.value == done + ([x] + r.value);
    }
  }

  lemma {:induction false} OntoEnds<T>(done: seq<T>, r: Result<seq<T>>)
    ensures Onto([], r) == r && Onto(done, Ok([])) == Ok(done)
  {
    assert done + [] == done;
    if r.Ok? {
      assert [] + r.value == r.value;
    }
  }
}
