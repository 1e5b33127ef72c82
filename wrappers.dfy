/**
 * The standard-library vocabulary that the settings model is written in:
 * Rust's `Option`, `Result` and `Ordering`, with the two combinators that
 * `GenerateResult::serialize` relies on (`Option::map` and
 * `Option::transpose`) and the ordering that `#[derive(PartialOrd, Ord)]`
 * gives an `Option`.
 */
module Wrappers {

  datatype Option<+T> = None | Some(value: T)

  /** `Result<T, E>`; the three members make `:-` behave like Rust's `?`. */
  datatype Result<+T, +E> = Ok(value: T) | Err(error: E) {
    predicate IsFailure() {
      Err?
    }

    function PropagateFailure<U>(): Result<U, E>
      requires Err?
    {
      Err(error)
    }

    function Extract(): T
      requires Ok?
    {
      value
    }
  }

  /** `Option::map`: applies `f` to the payload, if there is one. */
  function OptionMap<T, U>(o: Option<T>, f: T -> U): (r: Option<U>)
  {
    match o
    case None => None
    case Some(x) => Some(f(x))
  }

  /**
   * `Option::transpose`: an optional result becomes a result of an option.
   * An absent value is a success; a present failure is that failure.
   */
  function Transpose<T, E>(o: Option<Result<T, E>>): (r: Result<Option<T>, E>)
    ensures r == Ok(None) <==> o == None
    ensures (r.Ok? && r.value.Some?) <==> (o.Some? && o.value.Ok?)
    ensures r.Ok? && r.value.Some? ==> r.value.value == o.value.value
    ensures r.Err? <==> (o.Some? && o.value.Err?)
    ensures r.Err? ==> r.error == o.value.error
  {
    match o
    case None => Ok(None)
    case Some(Ok(x)) => Ok(Some(x))
    case Some(Err(e)) => Err(e)
  }

  /** `Result::transpose`, the inverse of `Transpose`. */
  function TransposeResult<T, E>(r: Result<Option<T>, E>): (o: Option<Result<T, E>>)
    ensures o == None <==> r == Ok(None)
    ensures (o.Some? && o.value.Ok?) <==> (r.Ok? && r.value.Some?)
    ensures o.Some? && o.value.Ok? ==> o.value.value == r.value.value
    ensures (o.Some? && o.value.Err?) <==> r.Err?
    ensures r.Err? ==> o == Some(Err(r.error))
  {
    match r
    case Ok(None) => None
    case Ok(Some(x)) => Some(Ok(x))
    case Err(e) => Some(Err(e))
  }

  /**
   * `map` followed by `transpose`, as `serialize` uses them on an optional
   * partial: absence succeeds as absence, and a present value succeeds or
   * fails exactly as `f` does on it.
   */
  lemma MapThenTranspose<T, U, E>(o: Option<T>, f: T -> Result<U, E>, u: U, e: E)
    ensures Transpose(OptionMap(o, f)) == Ok(None) <==> o == None
    ensures Transpose(OptionMap(o, f)) == Ok(Some(u)) <==> o.Some? && f(o.value) == Ok(u)
    ensures Transpose(OptionMap(o, f)) == Err(e) <==> o.Some? && f(o.value) == Err(e)
  {
  }

  /** `Option::transpose` loses nothing: it is a bijection. */
  lemma TransposeIsBijective<T, E>(o: Option<Result<T, E>>, r: Result<Option<T>, E>)
    ensures TransposeResult(Transpose(o)) == o
    ensures Transpose(TransposeResult(r)) == r
  {
  }

  /** `std::cmp::Ordering`. */
  datatype Ordering = Less | Equal | Greater

  /**
   * A comparison function is a total order in the sense of Rust's `Ord`:
   * `Equal` exactly on equal values, `Less` one way exactly when `Greater`
   * the other way, and `Less` is transitive.
   */
  ghost predicate IsTotalOrder<T(!new)>(cmp: (T, T) -> Ordering) {
    && (forall a, b :: cmp(a, b) == Equal <==> a == b)
    && (forall a, b :: cmp(a, b) == Less <==> cmp(b, a) == Greater)
    && (forall a, b, c :: cmp(a, b) == Less && cmp(b, c) == Less ==> cmp(a, c) == Less)
  }

  /** The derived `Ord` on `Option<T>`: `None` first, then by payload. */
  function CompareOption<T>(a: Option<T>, b: Option<T>, cmp: (T, T) -> Ordering): (r: Ordering)
    ensures a.None? && b.None? ==> r == Equal
    ensures a.None? && b.Some? ==> r == Less
    ensures a.Some? && b.None? ==> r == Greater
    ensures a.Some? && b.Some? ==> r == cmp(a.value, b.value)
  {
    match (a, b)
    case (None, None) => Equal
    case (None, Some(_)) => Less
    case (Some(_), None) => Greater
    case (Some(x), Some(y)) => cmp(x, y)
  }

  /** The derived order on `Option<T>` is total when the order on `T` is. */
  lemma CompareOptionIsTotal<T(!new)>(cmp: (T, T) -> Ordering)
    requires IsTotalOrder(cmp)
    ensures IsTotalOrder((a, b) => CompareOption(a, b, cmp))
  {
  }
}
