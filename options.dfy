/**
 * The `Option` class of src/option.ts. As in the source, nearly every method
 * is a `match` on the wrapped variant and goes through `Match` with a
 * two-handler matcher; `is_none` negates `is_some`, and `from` tests
 * `is_void`.
 */
module Options {
  import opened Variants
  import Utils

  /** `match`: the None handler for None, the Some handler with the value for Some. */
  function Match<T, U>(o: Option<T>, m: OptionMatcher<T, U>): (u: U)
    ensures o.None? ==> u == m.onNone()
    ensures o.Some? ==> u == m.onSome(o.value)
  {
    match o
    case None => m.onNone()
    case Some(v) => m.onSome(v)
  }

  /** `is_some`: true exactly for Some. */
  function IsSome<T>(o: Option<T>): (b: bool)
    ensures b <==> o.Some?
  {
    Match(o, OptionMatcher(() => false, (_: T) => true))
  }

  /** `is_none`: the negation of `is_some`. */
  function IsNone<T>(o: Option<T>): (b: bool)
    ensures b <==> o.None?
  {
    !IsSome(o)
  }

  /** `expect(msg)`: the Some value, or throws an Error with `msg`. */
  function Expect<T>(o: Option<T>, msg: string): (r: Outcome<T, Thrown>)
    ensures r.Returned? <==> o.Some?
    ensures o.Some? ==> r.value == o.value
    ensures o.None? ==> r.thrown == Error(msg)
  {
    Match(o, OptionMatcher(() => Threw(Error(msg)), (x: T) => Returned(x)))
  }

  /** `unwrap()`: the Some value, or throws an Error with a fixed message. */
  function Unwrap<T>(o: Option<T>): (r: Outcome<T, Thrown>)
    ensures r.Returned? <==> o.Some?
    ensures o.Some? ==> r.value == o.value
    ensures o.None? ==> r.thrown == Error("called `Option.unwrap()` on a `None` value")
  {
    Match(o, OptionMatcher(() => Threw(Error("called `Option.unwrap()` on a `None` value")), (x: T) => Returned(x)))
  }

  /** `unwrap_or(def)`: the Some value, else `def`. */
  function UnwrapOr<T>(o: Option<T>, def: T): (v: T)
    ensures o.Some? ==> v == o.value
    ensures o.None? ==> v == def
  {
    Match(o, OptionMatcher(() => def, (x: T) => x))
  }

  /** `unwrap_or_else(fn)`: the Some value, else what `fn()` gives. */
  function UnwrapOrElse<T>(o: Option<T>, fn: () -> T): (v: T)
    ensures o.Some? ==> v == o.value
    ensures o.None? ==> v == fn()
  {
    Match(o, OptionMatcher(() => fn(), (x: T) => x))
  }

  /** `map(fn)`: None stays None, Some(x) becomes Some(fn(x)). */
  function Map<T, U>(o: Option<T>, fn: T -> U): (m: Option<U>)
    ensures m.Some? <==> o.Some?
    ensures o.Some? ==> m.value == fn(o.value)
  {
    Match(o, OptionMatcher(() => None, (x: T) => Some(fn(x))))
  }

  /** `map_or(def, fn)`: fn(x) for Some(x), else `def`. */
  function MapOr<T, U>(o: Option<T>, def: U, fn: T -> U): (u: U)
    ensures o.Some? ==> u == fn(o.value)
    ensures o.None? ==> u == def
  {
    Match(o, OptionMatcher(() => def, (x: T) => fn(x)))
  }

  /** `map_or_else(def, fn)`: fn(x) for Some(x), else what `def()` gives. */
  function MapOrElse<T, U>(o: Option<T>, def: () -> U, fn: T -> U): (u: U)
    ensures o.Some? ==> u == fn(o.value)
    ensures o.None? ==> u == def()
  {
    Match(o, OptionMatcher(() => def(), (x: T) => fn(x)))
  }

  /** `ok_or(err)`: Some(v) becomes Ok(v), None becomes Err(err). */
  function OkOr<T, E>(o: Option<T>, err: E): (r: Result<T, E>)
    ensures o.Some? ==> r == Ok(o.value)
    ensures o.None? ==> r == Err(err)
  {
    Match(o, OptionMatcher(() => Err(err), (t: T) => Ok(t)))
  }

  /** `ok_or_else(err)`: Some(v) becomes Ok(v), None becomes Err(err()). */
  function OkOrElse<T, E>(o: Option<T>, err: () -> E): (r: Result<T, E>)
    ensures o.Some? ==> r == Ok(o.value)
    ensures o.None? ==> r == Err(err())
  {
    Match(o, OptionMatcher(() => Err(err()), (t: T) => Ok(t)))
  }

  /** `and(optb)`: None for None, `optb` for Some. */
  function And<T, U>(o: Option<T>, optb: Option<U>): (a: Option<U>)
    ensures o.None? ==> a == None
    ensures o.Some? ==> a == optb
  {
    Match(o, OptionMatcher(() => None, (_: T) => optb))
  }

  /** `Option.from(val)`: None exactly for null and undefined, Some(val) otherwise. */
  function From(val: Utils.Value): (o: Option<Utils.Value>)
    ensures o.None? <==> val == Utils.Null || val == Utils.Undefined
    ensures o.Some? ==> o.value == val
  {
    if Utils.IsVoid(val) then None else Some(val)
  }

  /** `Option.of` is `Option.from`. */
  function Of(val: Utils.Value): (o: Option<Utils.Value>)
    ensures o == From(val)
  {
    From(val)
  }

  // ---------------------------------------------------------------------
  // Laws

  /** `map` with the identity changes nothing; two maps are one map of the composition. */
  lemma MapFunctorLaws<T, U, V>(o: Option<T>, f: T -> U, g: U -> V)
    ensures Map(o, (x: T) => x) == o
    ensures Map(Map(o, f), g) == Map(o, (x: T) => g(f(x)))
  {
  }

  /** `map_or` is `map` followed by `unwrap_or`; `map_or_else` of a constant thunk is `map_or`. */
  lemma MapOrIsMapThenUnwrapOr<T, U>(o: Option<T>, def: U, fn: T -> U)
    ensures MapOr(o, def, fn) == UnwrapOr(Map(o, fn), def)
    ensures MapOrElse(o, () => def, fn) == MapOr(o, def, fn)
  {
  }

  /** `ok_or` loses nothing: `ok()` of the Result gives back the Option. */
  lemma OkOrRoundTrip<T, E>(o: Option<T>, err: E)
    ensures (match OkOr(o, err) case Ok(v) => Some(v) case Err(_) => None) == o
    ensures OkOrElse(o, () => err) == OkOr(o, err)
  {
  }

  /** The four cases the documentation of `and` lists (src/option.ts:147-162). */
  lemma AndExamples()
    ensures var two: Option<int> := Some(2);
            var none: Option<int> := None;
            var foo: Option<string> := Some("foo");
            var nothing: Option<string> := None;
            && And(two, nothing) == None
            && And(none, foo) == None
            && And(two, foo) == Some("foo")
            && And(none, nothing) == None
  {
  }
}
