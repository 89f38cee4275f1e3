/** Option and Result values used where the source returns `undefined` or throws. */
module Wrappers {

  datatype Option<+T> = None | Some(value: T)

  /** The outcome of a computation that can throw: its value, or the error it throws. */
  datatype Result<+R, +E> = Success(value: R) | Failure(error: E) {
    predicate IsFailure() { Failure? }

    function PropagateFailure<U>(): Result<U, E>
      requires Failure?
    {
      Failure(error)
    }

    function Extract(): R
      requires Success?
    {
      value
    }
  }

  /** The outcome of a statement that can throw but returns nothing. */
  datatype Outcome<+E> = Pass | Fail(error: E)

  /** The error of the first failure among the first `n` results, if any: what
      a loop that stops at the first throw reports. */
  function FirstFailure<R, E>(rs: seq<Result<R, E>>, n: nat): Option<E>
    requires n <= |rs|
  {
    if n == 0 then None
    else if FirstFailure(rs, n - 1).Some? then FirstFailure(rs, n - 1)
    else if rs[n - 1].Failure? then Some(rs[n - 1].error)
    else None
  }

  /** No failure means every one of the first `n` results succeeded. */
  lemma {:induction false} NoFirstFailure<R, E>(rs: seq<Result<R, E>>, n: nat, i: nat)
    requires i < n <= |rs|
    requires FirstFailure(rs, n).None?
    ensures rs[i].Success?
  {
    if i < n - 1 {
      NoFirstFailure(rs, n - 1, i);
    }
  }

  /** A failure is the error of some result all of whose predecessors succeeded. */
  lemma {:induction false} FirstFailureIsFirst<R, E>(rs: seq<Result<R, E>>, n: nat) returns (i: nat)
    requires n <= |rs|
    requires FirstFailure(rs, n).Some?
    ensures i < n && rs[i] == Failure(FirstFailure(rs, n).value)
    ensures forall j :: 0 <= j < i ==> rs[j].Success?
  {
    if FirstFailure(rs, n - 1).Some? {
      i := FirstFailureIsFirst(rs, n - 1);
    } else {
      i := n - 1;
      forall j | 0 <= j < i ensures rs[j].Success? {
        NoFirstFailure(rs, n - 1, j);
      }
    }
  }

  /** Once a failure is found, later results do not matter. */
  lemma {:induction false} FirstFailureSticks<R, E>(rs: seq<Result<R, E>>, n: nat, m: nat)
    requires n <= m <= |rs|
    requires FirstFailure(rs, n).Some?
    ensures FirstFailure(rs, m) == FirstFailure(rs, n)
  {
    if m > n {
      FirstFailureSticks(rs, n, m - 1);
    }
  }

  /** A loop over the first `n` items that threads a state through `step` and
      stops at the first step that throws. */
  function Fold<T, S, E>(t: T, items: seq<S>, step: (T, S) -> Result<T, E>, n: nat): Result<T, E>
    requires n <= |items|
  {
    if n == 0 then Success(t)
    else
      var prev :- Fold(t, items, step, n - 1);
      step(prev, items[n - 1])
  }

  /** If every step from a state satisfying `inv` succeeds exactly on the items
      `ok` accepts, keeps `inv` (advanced a position) and fails only with errors
      `bad` accepts, then the whole loop succeeds exactly when all items are
      accepted, ends in `inv`, and fails only with such an error. */
  lemma {:induction false} FoldSound<T, S, E>(t: T, items: seq<S>, step: (T, S) -> Result<T, E>, n: nat,
                                               inv: (T, nat) -> bool, ok: S -> bool, bad: E -> bool)
    requires n <= |items| && inv(t, 0)
    requires forall u, i :: 0 <= i < |items| && inv(u, i) ==>
               && (step(u, items[i]).Success? <==> ok(items[i]))
               && (step(u, items[i]).Success? ==> inv(step(u, items[i]).value, i + 1))
               && (step(u, items[i]).Failure? ==> bad(step(u, items[i]).error))
    ensures var r := Fold(t, items, step, n);
            && (r.Success? <==> forall i :: 0 <= i < n ==> ok(items[i]))
            && (r.Success? ==> inv(r.value, n))
            && (r.Failure? ==> bad(r.error))
  {
    if n > 0 {
      FoldSound(t, items, step, n - 1, inv, ok, bad);
    }
  }

  /** Once the loop has thrown, later items change nothing. */
  lemma {:induction false} FoldFailureSticks<T, S, E>(t: T, items: seq<S>, step: (T, S) -> Result<T, E>, n: nat, m: nat)
    requires n <= m <= |items| && Fold(t, items, step, n).Failure?
    ensures Fold(t, items, step, m) == Fold(t, items, step, n)
    decreases m - n
  {
    if m > n {
      FoldFailureSticks(t, items, step, n, m - 1);
    }
  }

  /** One more item: the loop's next state is the step from the current one. */
  lemma FoldNext<T, S, E>(t: T, items: seq<S>, step: (T, S) -> Result<T, E>, n: nat)
    requires n < |items| && Fold(t, items, step, n).Success?
    ensures Fold(t, items, step, n + 1) == step(Fold(t, items, step, n).value, items[n])
  {
  }
}
