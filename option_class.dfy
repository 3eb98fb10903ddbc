/**
 * The `Option` class of src/option.class.ts: a wrapper whose methods call the
 * free functions of src/option.core.ts on the wrapped variant, plus the
 * static constructors. The wrapper adds nothing to the value, so the model
 * works on the variant directly; each contract states the method's meaning
 * and that it agrees with src/option.ts (module Options).
 */
module OptionClass {
  import opened Variants
  import Utils
  import Options
  import OptionCore

  /** `is_none()`: delegates to the core. */
  function IsNone<T>(o: Option<T>): (b: bool)
    ensures b <==> o.None?
    ensures b == Options.IsNone(o)
  {
    OptionCore.IsNone(o)
  }

  /** `is_some()`: delegates to the core. */
  function IsSome<T>(o: Option<T>): (b: bool)
    ensures b <==> o.Some?
    ensures b == Options.IsSome(o)
  {
    OptionCore.IsSome(o)
  }

  /** `expect(err_msg)`: delegates to the core. */
  function Expect<T>(o: Option<T>, errMsg: string): (r: Outcome<T, Thrown>)
    ensures r.Returned? <==> o.Some?
    ensures r == Options.Expect(o, errMsg)
  {
    OptionCore.Expect(o, errMsg)
  }

  /**
   * `unwrap()`: delegates to the core, so None throws the core's TypeError;
   * it returns exactly when, and what, `unwrap` of src/option.ts returns.
   */
  function Unwrap<T>(o: Option<T>): (r: Outcome<T, Thrown>)
    ensures o.Some? ==> r == Returned(o.value)
    ensures o.None? ==> r == Threw(TypeError("Cannot unwrap option of None."))
    ensures r == OptionCore.Unwrap(o)
    ensures r.Returned? <==> Options.Unwrap(o).Returned?
    ensures r.Returned? ==> r.value == Options.Unwrap(o).value
  {
    OptionCore.Unwrap(o)
  }

  /** `unwrap_or(def)`: delegates to the core. */
  function UnwrapOr<T>(o: Option<T>, def: T): (v: T)
    ensures o.None? ==> v == def
    ensures v == Options.UnwrapOr(o, def)
  {
    OptionCore.UnwrapOr(o, def)
  }

  /** `unwrap_or_else(fn)`: delegates to the core. */
  function UnwrapOrElse<T>(o: Option<T>, fn: () -> T): (v: T)
    ensures o.None? ==> v == fn()
    ensures v == Options.UnwrapOrElse(o, fn)
  {
    OptionCore.UnwrapOrElse(o, fn)
  }

  /** `map(fn)`: a new Option around the core `map`; the receiver is a value and is left as it was. */
  function Map<T, U>(o: Option<T>, fn: T -> U): (m: Option<U>)
    ensures m.Some? <==> o.Some?
    ensures m == Options.Map(o, fn)
  {
    OptionCore.Map(o, fn)
  }

  /** `map_or(def, fn)`: delegates to the core. */
  function MapOr<T, U>(o: Option<T>, def: U, fn: T -> U): (u: U)
    ensures o.None? ==> u == def
    ensures u == Options.MapOr(o, def, fn)
  {
    OptionCore.MapOr(o, def, fn)
  }

  /** `map_or_else(def, fn)`: delegates to the core. */
  function MapOrElse<T, U>(o: Option<T>, def: () -> U, fn: T -> U): (u: U)
    ensures o.None? ==> u == def()
    ensures u == Options.MapOrElse(o, def, fn)
  {
    OptionCore.MapOrElse(o, def, fn)
  }

  /** `match(matcher)`: delegates to the core. */
  function Match<T, U>(o: Option<T>, matcher: OptionMatcher<T, U>): (u: U)
    ensures o.Some? ==> u == matcher.onSome(o.value)
    ensures u == Options.Match(o, matcher)
  {
    OptionCore.Match(o, matcher)
  }

  /** `Option.from(val)`: None when `is_void(val)`, else Some(val). */
  function From(val: Utils.Value): (o: Option<Utils.Value>)
    ensures o.None? <==> Utils.IsVoid(val)
    ensures o.Some? ==> o.value == val
    ensures o == Options.From(val)
  {
    if Utils.IsVoid(val) then None else Some(val)
  }

  /** `Option.of` is `Option.from`. */
  function Of(val: Utils.Value): (o: Option<Utils.Value>)
    ensures o == From(val)
  {
    From(val)
  }

  /** The static `Some(v)` answers `is_some()`, the static `None()` answers `is_none()`. */
  lemma ConstructorsAnswerQueries<T>(v: T)
    ensures IsSome(Some(v)) && !IsNone(Some(v))
    ensures var none: Option<T> := None; IsNone(none) && !IsSome(none)
  {
  }
}
