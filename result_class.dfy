/**
 * The `Result` class of src/result.class.ts: a wrapper whose methods call the
 * free functions of src/result.core.ts on the wrapped variant, plus the
 * static constructors. The wrapper adds nothing to the value, so the model
 * works on the variant directly.
 */
module ResultClass {
  import opened Variants
  import Results
  import ResultCore

  /** `is_ok()`: delegates to the core; true exactly for Ok. */
  function IsOk<T, E>(r: Result<T, E>): (b: bool)
    ensures b <==> r.Ok?
    ensures b == Results.IsOk(r)
  {
    ResultCore.IsOk(r)
  }

  /** `is_err()`: delegates to the core; the complement of `is_ok()`. */
  function IsErr<T, E>(r: Result<T, E>): (b: bool)
    ensures b == !IsOk(r)
    ensures b == Results.IsErr(r)
  {
    ResultCore.IsErr(r)
  }

  /** `ok()`: the core conversion; agrees with `ok()` of src/result.ts. */
  function OkPart<T, E>(r: Result<T, E>): (o: Option<T>)
    ensures o.Some? <==> r.Ok?
    ensures o == Results.OkPart(r)
  {
    ResultCore.OkPart(r)
  }

  /** `err()`: the core conversion; agrees with `err()` of src/result.ts. */
  function ErrPart<T, E>(r: Result<T, E>): (o: Option<E>)
    ensures o.Some? <==> r.Err?
    ensures o == Results.ErrPart(r)
  {
    ResultCore.ErrPart(r)
  }

  /** `map(op)`: the core `map`; agrees with `map` of src/result.ts. */
  function Map<T, E, U>(r: Result<T, E>, op: T -> U): (m: Result<U, E>)
    ensures m.Ok? <==> r.Ok?
    ensures m == Results.Map(r, op)
  {
    ResultCore.Map(r, op)
  }

  /** `Result.from(op)`: try/catch around `op`; agrees with `Result.from` of src/result.ts. */
  function From<T, E>(op: Outcome<T, E>): (r: Result<T, E>)
    ensures op.Returned? ==> r == Ok(op.value)
    ensures op.Threw? ==> r == Err(op.thrown)
    ensures r == Results.From(op)
  {
    match op
    case Returned(v) => Ok(v)
    case Threw(error) => Err(error)
  }

  /** `Result.of` is `Result.from`. */
  function Of<T, E>(op: Outcome<T, E>): (r: Result<T, E>)
    ensures r == From(op)
  {
    From(op)
  }

  /** The static `Ok(v)` and `Err(e)` build an Ok carrying v and an Err carrying e. */
  lemma ConstructorsCarryPayload<T, E>(v: T, e: E)
    ensures var ok: Result<T, E> := Ok(v); IsOk(ok) && OkPart(ok) == Some(v)
    ensures var err: Result<T, E> := Err(e); IsErr(err) && ErrPart(err) == Some(e)
  {
  }
}
