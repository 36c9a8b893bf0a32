/** Option and Result, and the kinds of Python exception that the modelled
    code raises. A `Result` is failure-compatible, so `:-` propagates errors
    the way a raised exception leaves the enclosing call; `Fold` is a loop
    over a sequence whose body may raise. */
module Wrappers {

  datatype Option<+T> = None | Some(value: T)

  /** The exception classes raised by the modelled code. `OutOfFuel` is not
      Python's: it marks a computation that the source would run forever
      (or recurse without bound) and that the model cut off. */
  datatype Error =
    | TypeError
    | ValueError
    | KeyError
    | IndexError
    | AttributeError
    | OutOfFuel

  datatype Result<+T> = Ok(value: T) | Err(error: Error) {
    predicate IsFailure() {
      Err?
    }

    function PropagateFailure<U>(): Result<U>
      requires Err?
    {
      Err(error)
    }

    function Extract(): T
      requires Ok?
    {
      value
    }
  }

  /** A loop over `xs` whose body may raise: the first error ends it. */
  function Fold<A, X>(step: (A, X) -> Result<A>, a: A, xs: seq<X>): Result<A> {
    if xs == [] then Ok(a)
    else
      var init :- Fold(step, a, xs[..|xs| - 1]);
      step(init, xs[|xs| - 1])
  }

  /** One more round of the loop. */
  lemma FoldStep<A, X>(step: (A, X) -> Result<A>, a: A, xs: seq<X>, i: nat)
    requires i < |xs| && Fold(step, a, xs[..i]).Ok?
    ensures Fold(step, a, xs[..i + 1]) == step(Fold(step, a, xs[..i]).value, xs[i])
  {
    assert xs[..i + 1][..i] == xs[..i];
  }

  /** An error in a round ends the whole loop with that error. */
  lemma {:induction false} FoldFails<A, X>(step: (A, X) -> Result<A>, a: A, xs: seq<X>, i: nat)
    requires i <= |xs| && Fold(step, a, xs[..i]).Err?
    ensures Fold(step, a, xs) == Fold(step, a, xs[..i])
    decreases |xs| - i
  {
    if i < |xs| {
      assert xs[..i + 1][..i] == xs[..i];
      FoldFails(step, a, xs, i + 1);
    } else {
      assert xs[..i] == xs;
    }
  }

  /** A round that raises ends the whole loop with its error. */
  lemma FoldStops<A, X>(step: (A, X) -> Result<A>, a: A, xs: seq<X>, i: nat, acc: A)
    requires i < |xs| && Fold(step, a, xs[..i]) == Ok(acc) && step(acc, xs[i]).Err?
    ensures Fold(step, a, xs) == Err(step(acc, xs[i]).error)
  {
    FoldStep(step, a, xs, i);
    FoldFails(step, a, xs, i + 1);
  }

  /** A loop over a prefix whose end is the whole sequence. */
  lemma FoldAll<A, X>(step: (A, X) -> Result<A>, a: A, xs: seq<X>)
    ensures Fold(step, a, xs[..|xs|]) == Fold(step, a, xs)
  {
    assert xs[..|xs|] == xs;
  }

  /** A loop whose every round succeeds and keeps `inv` ends without an
      error, in a state that satisfies `inv`. */
  lemma {:induction false} FoldPreserves<A, X>(step: (A, X) -> Result<A>, inv: A -> bool, a: A, xs: seq<X>)
    requires inv(a)
    requires forall b, x :: inv(b) && x in xs ==> step(b, x).Ok? && inv(step(b, x).value)
    ensures Fold(step, a, xs).Ok? && inv(Fold(step, a, xs).value)
    decreases |xs|
  {
    if xs != [] {
      var init := xs[..|xs| - 1];
      assert forall x :: x in init ==> x in xs;
      FoldPreserves(step, inv, a, init);
      assert xs[|xs| - 1] in xs;
    }
  }

  /** A loop whose successful rounds keep `inv` keeps it to the end, if it
      ends without an error. */
  lemma {:induction false} FoldInvariant<A, X>(step: (A, X) -> Result<A>, inv: A -> bool, a: A, xs: seq<X>)
    requires inv(a)
    requires forall b, x :: inv(b) && x in xs && step(b, x).Ok? ==> inv(step(b, x).value)
    ensures Fold(step, a, xs).Ok? ==> inv(Fold(step, a, xs).value)
    decreases |xs|
  {
    if xs != [] {
      var init := xs[..|xs| - 1];
      assert forall x :: x in init ==> x in xs;
      FoldInvariant(step, inv, a, init);
      assert xs[|xs| - 1] in xs;
    }
  }

  /** Appending is associative; stated once so that long chains of
      appended items can be regrouped step by step. */
  lemma AppendAssoc<T>(a: seq<T>, b: seq<T>, c: seq<T>)
    ensures a + b + c == a + (b + c)
  {
  }
}
