/**
 * The free functions of src/option.core.ts, another revision of the
 * Option combinators: each tests the variant with `is_none` and returns the
 * value, a default or a new variant. Each contract also states how it
 * relates to the method of the same name in src/option.ts (module Options).
 */
module OptionCore {
  import opened Variants
  import Options

  /** `is_none`: the variant is None. */
  function IsNone<T>(option: Option<T>): (b: bool)
    ensures b <==> option.None?
    ensures b == Options.IsNone(option)
  {
    option.None?
  }

  /** `is_some`: the variant is Some; the complement of `is_none`. */
  function IsSome<T>(option: Option<T>): (b: bool)
    ensures b == !IsNone(option)
    ensures b == Options.IsSome(option)
  {
    option.Some?
  }

  /** `expect`: the value for Some; for None, throws `Error(err_msg)`. */
  function Expect<T>(option: Option<T>, errMsg: string): (r: Outcome<T, Thrown>)
    ensures option.Some? ==> r == Returned(option.value)
    ensures option.None? ==> r == Threw(Error(errMsg))
    ensures r == Options.Expect(option, errMsg)
  {
    if IsNone(option) then Threw(Error(errMsg)) else Returned(option.value)
  }

  /**
   * `unwrap`: the value for Some; for None, throws a TypeError. It returns
   * what `unwrap` of src/option.ts returns and throws exactly when that one
   * throws, but with a different exception (see `UnwrapRevisionsDiffer`).
   */
  function Unwrap<T>(option: Option<T>): (r: Outcome<T, Thrown>)
    ensures option.Some? ==> r == Returned(option.value)
    ensures option.None? ==> r == Threw(TypeError("Cannot unwrap option of None."))
    ensures r.Returned? <==> Options.Unwrap(option).Returned?
    ensures r.Returned? ==> r.value == Options.Unwrap(option).value
  {
    if IsNone(option) then Threw(TypeError("Cannot unwrap option of None.")) else Returned(option.value)
  }

  /** `unwrap_or`: returns `def` exactly for None. */
  function UnwrapOr<T>(option: Option<T>, def: T): (v: T)
    ensures option.None? ==> v == def
    ensures option.Some? ==> v == option.value
    ensures v == Options.UnwrapOr(option, def)
  {
    if IsNone(option) then def else option.value
  }

  /** `unwrap_or_else`: `fn()` for None, otherwise the value. */
  function UnwrapOrElse<T>(option: Option<T>, fn: () -> T): (v: T)
    ensures option.None? ==> v == fn()
    ensures option.Some? ==> v == option.value
    ensures v == Options.UnwrapOrElse(option, fn)
  {
    if IsNone(option) then fn() else option.value
  }

  /** `map`: keeps the tag and applies `fn` to a Some value only. */
  function Map<T, U>(option: Option<T>, fn: T -> U): (m: Option<U>)
    ensures m.None? <==> option.None?
    ensures option.Some? ==> m == Some(fn(option.value))
    ensures m == Options.Map(option, fn)
  {
    if IsNone(option) then None else Some(fn(option.value))
  }

  /** `map_or`: fn(value) for Some, else `def`. */
  function MapOr<T, U>(option: Option<T>, def: U, fn: T -> U): (u: U)
    ensures option.None? ==> u == def
    ensures option.Some? ==> u == fn(option.value)
    ensures u == Options.MapOr(option, def, fn)
  {
    if IsNone(option) then def else fn(option.value)
  }

  /** `map_or_else`: fn(value) for Some, else `def()`. */
  function MapOrElse<T, U>(option: Option<T>, def: () -> U, fn: T -> U): (u: U)
    ensures option.None? ==> u == def()
    ensures option.Some? ==> u == fn(option.value)
    ensures u == Options.MapOrElse(option, def, fn)
  {
    if IsNone(option) then def() else fn(option.value)
  }

  /** `match`: the None handler for None, the Some handler with the value for Some. */
  function Match<T, U>(option: Option<T>, matcher: OptionMatcher<T, U>): (u: U)
    ensures option.None? ==> u == matcher.onNone()
    ensures option.Some? ==> u == matcher.onSome(option.value)
    ensures u == Options.Match(option, matcher)
  {
    match option
    case None => matcher.onNone()
    case Some(v) => matcher.onSome(v)
  }

  /** The two revisions of `unwrap` throw different exceptions on None. */
  lemma UnwrapRevisionsDiffer<T>()
    ensures var none: Option<T> := None; Unwrap(none) != Options.Unwrap(none)
  {
  }
}
