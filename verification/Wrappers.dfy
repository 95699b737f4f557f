/** Option and Result, and the unsigned 64-bit bound shared by every component. */
module Wrappers {
  datatype Option<+T> = None | Some(value: T)

  datatype Result<+T, +E> = Ok(value: T) | Err(error: E)
  {
    predicate IsFailure() { Err? }

    function PropagateFailure<U>(): Result<U, E>
      requires Err?
    {
      Err(error)
    }

    function Extract(): T
      requires Ok?
    {
      value
    }
  }

  /** u64::MAX. The model's integers are unbounded; every checked or saturating
      operation of the program names this bound explicitly. */
  const U64_MAX: nat := 0xFFFF_FFFF_FFFF_FFFF

  function Min(a: int, b: int): int { if a <= b then a else b }

  function Max(a: int, b: int): int { if a <= b then b else a }

  /** `saturating_add` on u64. */
  function SatAdd(a: nat, b: nat): nat { Min(a + b, U64_MAX) }

  /** `saturating_sub` on unsigned integers. */
  function SatSub(a: nat, b: nat): nat { if b <= a then a - b else 0 }

  ghost function LeastOf(numbers: set<nat>): (k: nat)
    requires numbers != {}
    ensures k in numbers && forall j :: j in numbers ==> k <= j
  {
    var x :| x in numbers;
    var rest := numbers - {x};
    assert forall j :: j in numbers ==> j == x || j in rest;
    if rest == {} then x else
      var y := LeastOf(rest);
      if x <= y then x else y
  }

  /** The first key in the order of an ordered map. */
  method SmallestOf(ids: set<nat>) returns (k: nat)
    requires ids != {}
    ensures k in ids && k == LeastOf(ids) && forall j :: j in ids ==> k <= j
  {
    k :| k in ids;
    var rest := ids - {k};
    while rest != {}
      invariant k in ids && rest <= ids && forall j :: j in ids && j !in rest ==> k <= j
      decreases |rest|
    {
      var j :| j in rest;
      if j < k { k := j; }
      rest := rest - {j};
    }
  }
}
