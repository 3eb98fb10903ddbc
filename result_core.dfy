/**
 * The free functions of src/result.core.ts, another revision of the
 * Result combinators. Each one tests the variant with `is_ok` / `is_err` and
 * rebuilds a Result; each contract also states that it agrees with the
 * method of the same name in src/result.ts (module Results).
 */
module ResultCore {
  import opened Variants
  import Results

  /** `is_ok`: the variant is Ok. */
  function IsOk<T, E>(res: Result<T, E>): (b: bool)
    ensures b <==> res.Ok?
    ensures b == Results.IsOk(res)
  {
    res.Ok?
  }

  /** `is_err`: the variant is Err; the complement of `is_ok`. */
  function IsErr<T, E>(res: Result<T, E>): (b: bool)
    ensures b == !IsOk(res)
    ensures b == Results.IsErr(res)
  {
    res.Err?
  }

  /** `ok`: Some of the Ok value, None for an Err. */
  function OkPart<T, E>(res: Result<T, E>): (o: Option<T>)
    ensures o.Some? <==> res.Ok?
    ensures o == Results.OkPart(res)
  {
    if IsErr(res) then None else Some(res.value)
  }

  /** `err`: Some of the Err value, None for an Ok. */
  function ErrPart<T, E>(res: Result<T, E>): (o: Option<E>)
    ensures o.Some? <==> res.Err?
    ensures o == Results.ErrPart(res)
  {
    if IsOk(res) then None else Some(res.error)
  }

  /** `map`: Err passes through, Ok(v) becomes Ok(op(v)). */
  function Map<T, E, U>(res: Result<T, E>, op: T -> U): (m: Result<U, E>)
    ensures res.Err? ==> m == Err(res.error)
    ensures res.Ok? ==> m == Ok(op(res.value))
    ensures m == Results.Map(res, op)
  {
    if IsErr(res) then Err(res.error) else Ok(op(res.value))
  }

  /** `map_err`: Ok passes through, Err(e) becomes Err(op(e)). */
  function MapErr<T, E, F>(res: Result<T, E>, op: E -> F): (m: Result<T, F>)
    ensures res.Ok? ==> m == Ok(res.value)
    ensures res.Err? ==> m == Err(op(res.error))
    ensures m == Results.MapErr(res, op)
  {
    if IsOk(res) then Ok(res.value) else Err(op(res.error))
  }

  /**
   * `and`: res1's Err if res1 is an Err; otherwise res2, rebuilt variant by
   * variant, which is res2 itself.
   */
  function And<T, U, E>(res1: Result<T, E>, res2: Result<U, E>): (a: Result<U, E>)
    ensures res1.Err? ==> a == Err(res1.error)
    ensures res1.Ok? ==> a == res2
    ensures a == Results.And(res1, res2)
  {
    if IsErr(res1) then Err(res1.error)
    else if IsErr(res2) then Err(res2.error)
    else Ok(res2.value)
  }

  /** `and_then`: short-circuits on Err with the same error, otherwise `op` of the value. */
  function AndThen<T, U, E>(res: Result<T, E>, op: T -> Result<U, E>): (a: Result<U, E>)
    ensures res.Err? ==> a == Err(res.error)
    ensures res.Ok? ==> a == op(res.value)
    ensures a == Results.AndThen(res, op)
  {
    if IsErr(res) then Err(res.error) else op(res.value)
  }
}
