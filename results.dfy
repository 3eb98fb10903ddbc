/**
 * The `Result` class of src/result.ts. Nearly every method of the class is
 * a `match` on the wrapped variant, and those functions are written through
 * `Match` with a two-handler matcher, as the source writes them. `is_err`
 * negates `is_ok`, `from` is a try/catch, and the two array folds `every`
 * and `some` are loops in the source and are methods here.
 */
module Results {
  import opened Variants

  /** `match`: calls the handler of the variant that is present, with its payload. */
  function Match<T, E, U>(r: Result<T, E>, m: ResultMatcher<T, E, U>): (u: U)
    ensures r.Ok? ==> u == m.onOk(r.value)
    ensures r.Err? ==> u == m.onErr(r.error)
  {
    match r
    case Ok(v) => m.onOk(v)
    case Err(e) => m.onErr(e)
  }

  /** `is_ok`: matches with `always_true` / `always_false`. */
  function IsOk<T, E>(r: Result<T, E>): (b: bool)
    ensures b <==> r.Ok?
  {
    Match(r, ResultMatcher(_ => true, _ => false))
  }

  /** `is_err`: the negation of `is_ok`. */
  function IsErr<T, E>(r: Result<T, E>): (b: bool)
    ensures b <==> r.Err?
  {
    !IsOk(r)
  }

  /** `ok()`: the Ok value as an Option. */
  function OkPart<T, E>(r: Result<T, E>): (o: Option<T>)
    ensures o.Some? <==> r.Ok?
    ensures o.Some? ==> o.value == r.value
  {
    Match(r, ResultMatcher(v => Some(v), _ => None))
  }

  /** `err()`: the Err value as an Option. */
  function ErrPart<T, E>(r: Result<T, E>): (o: Option<E>)
    ensures o.Some? <==> r.Err?
    ensures o.Some? ==> o.value == r.error
  {
    Match(r, ResultMatcher(_ => None, e => Some(e)))
  }

  /**
   * What `tap(fn)` and `tap_err(fn)` do: return the receiver itself and call
   * `fn` with the arguments in `calls` (what `fn` returns is discarded).
   */
  datatype Tapped<R, A> = Tapped(self: R, calls: seq<A>)

  /** `tap`: `fn` is called once with the Ok value, never on Err; the receiver is returned. */
  function Tap<T, E>(r: Result<T, E>): (t: Tapped<Result<T, E>, T>)
    ensures t.self == r
    ensures r.Ok? ==> t.calls == [r.value]
    ensures r.Err? ==> t.calls == []
  {
    Tapped(r, Match(r, ResultMatcher(v => [v], _ => [])))
  }

  /** `tap_err`: `fn` is called once with the Err value, never on Ok; the receiver is returned. */
  function TapErr<T, E>(r: Result<T, E>): (t: Tapped<Result<T, E>, E>)
    ensures t.self == r
    ensures r.Err? ==> t.calls == [r.error]
    ensures r.Ok? ==> t.calls == []
  {
    Tapped(r, Match(r, ResultMatcher(_ => [], e => [e])))
  }

  /** `map`: transforms the Ok value, passes an Err through. */
  function Map<T, E, U>(r: Result<T, E>, op: T -> U): (m: Result<U, E>)
    ensures m.Ok? <==> r.Ok?
    ensures r.Ok? ==> m.value == op(r.value)
    ensures r.Err? ==> m.error == r.error
  {
    Match(r, ResultMatcher(t => Ok(op(t)), e => Err(e)))
  }

  /** `map_err`: transforms the Err value, passes an Ok through. */
  function MapErr<T, E, F>(r: Result<T, E>, op: E -> F): (m: Result<T, F>)
    ensures m.Ok? <==> r.Ok?
    ensures r.Ok? ==> m.value == r.value
    ensures r.Err? ==> m.error == op(r.error)
  {
    Match(r, ResultMatcher(t => Ok(t), e => Err(op(e))))
  }

  /** `map_both`: transforms whichever payload is present and keeps the tag. */
  function MapBoth<T, E, U, F>(r: Result<T, E>, okOp: T -> U, errOp: E -> F): (m: Result<U, F>)
    ensures m.Ok? <==> r.Ok?
    ensures r.Ok? ==> m.value == okOp(r.value)
    ensures r.Err? ==> m.error == errOp(r.error)
  {
    Match(r, ResultMatcher(t => Ok(okOp(t)), e => Err(errOp(e))))
  }

  /** `and`: the argument if the receiver is Ok, else the receiver's Err. */
  function And<T, E, U>(r: Result<T, E>, res: Result<U, E>): (a: Result<U, E>)
    ensures r.Ok? ==> a == res
    ensures r.Err? ==> a == Err(r.error)
  {
    Match(r, ResultMatcher(_ => res, e => Err(e)))
  }

  /** `and_then`: `op` of the Ok value, else the receiver's Err. */
  function AndThen<T, E, U>(r: Result<T, E>, op: T -> Result<U, E>): (a: Result<U, E>)
    ensures r.Ok? ==> a == op(r.value)
    ensures r.Err? ==> a == Err(r.error)
  {
    Match(r, ResultMatcher(t => op(t), e => Err(e)))
  }

  /** `or`: the receiver's Ok, else the argument. */
  function Or<T, E, F>(r: Result<T, E>, res: Result<T, F>): (o: Result<T, F>)
    ensures r.Ok? ==> o == Ok(r.value)
    ensures r.Err? ==> o == res
  {
    Match(r, ResultMatcher(t => Ok(t), _ => res))
  }

  /** `or_else`: the receiver's Ok, else `op` of the Err value. */
  function OrElse<T, E, F>(r: Result<T, E>, op: E -> Result<T, F>): (o: Result<T, F>)
    ensures r.Ok? ==> o == Ok(r.value)
    ensures r.Err? ==> o == op(r.error)
  {
    Match(r, ResultMatcher(t => Ok(t), op))
  }

  /** `unwrap_or`: the Ok value, else the given default. */
  function UnwrapOr<T, E>(r: Result<T, E>, optb: T): (v: T)
    ensures r.Ok? ==> v == r.value
    ensures r.Err? ==> v == optb
  {
    Match(r, ResultMatcher(t => t, _ => optb))
  }

  /** `unwrap_or_else`: the Ok value, else `op` of the Err value. */
  function UnwrapOrElse<T, E>(r: Result<T, E>, op: E -> T): (v: T)
    ensures r.Ok? ==> v == r.value
    ensures r.Err? ==> v == op(r.error)
  {
    Match(r, ResultMatcher(t => t, op))
  }

  /**
   * `unwrap`: returns the Ok value or throws an Error whose message names the
   * receiver; `shown` stands for the receiver's `toString()`.
   */
  function Unwrap<T, E>(r: Result<T, E>, shown: string): (o: Outcome<T, Thrown>)
    ensures o.Returned? <==> r.Ok?
    ensures r.Ok? ==> o.value == r.value
    ensures r.Err? ==> o.thrown == Error("Called 'Result.unwrap()' on " + shown)
  {
    Match(r, ResultMatcher(t => Returned(t), _ => Threw(Error("Called 'Result.unwrap()' on " + shown))))
  }

  /** `unwrap_err`: returns the Err value or throws an Error naming the receiver. */
  function UnwrapErr<T, E>(r: Result<T, E>, shown: string): (o: Outcome<E, Thrown>)
    ensures o.Returned? <==> r.Err?
    ensures r.Err? ==> o.value == r.error
    ensures r.Ok? ==> o.thrown == Error("Called 'Result.unwrap_err()' on " + shown)
  {
    Match(r, ResultMatcher(_ => Threw(Error("Called 'Result.unwrap_err()' on " + shown)), e => Returned(e)))
  }

  /** `expect`: returns the Ok value or throws an Error with the given message. */
  function Expect<T, E>(r: Result<T, E>, msg: string): (o: Outcome<T, Thrown>)
    ensures o.Returned? <==> r.Ok?
    ensures r.Ok? ==> o.value == r.value
    ensures r.Err? ==> o.thrown == Error(msg)
  {
    Match(r, ResultMatcher(t => Returned(t), _ => Threw(Error(msg))))
  }

  /** `expect_err`: returns the Err value or throws an Error with the given message. */
  function ExpectErr<T, E>(r: Result<T, E>, msg: string): (o: Outcome<E, Thrown>)
    ensures o.Returned? <==> r.Err?
    ensures r.Err? ==> o.value == r.error
    ensures r.Ok? ==> o.thrown == Error(msg)
  {
    Match(r, ResultMatcher(_ => Threw(Error(msg)), e => Returned(e)))
  }

  /** `invert`: Ok becomes Err and Err becomes Ok, payload untouched. */
  function Invert<T, E>(r: Result<T, E>): (i: Result<E, T>)
    ensures i.Ok? <==> r.Err?
    ensures r.Ok? ==> i.error == r.value
    ensures r.Err? ==> i.value == r.error
  {
    Match(r, ResultMatcher(t => Err(t), e => Ok(e)))
  }

  /** `Result.from(op)`: Ok of what `op` returns, or Err of what it throws. */
  function From<T, E>(op: Outcome<T, E>): (r: Result<T, E>)
    ensures r.Ok? <==> op.Returned?
    ensures op.Returned? ==> r.value == op.value
    ensures op.Threw? ==> r.error == op.thrown
  {
    match op
    case Returned(v) => Ok(v)
    case Threw(e) => Err(e)
  }

  /** `Result.of` is `Result.from`. */
  function Of<T, E>(op: Outcome<T, E>): (r: Result<T, E>)
    ensures r == From(op)
  {
    From(op)
  }

  // ---------------------------------------------------------------------
  // Array folds

  /** The Ok values of `rs`, in input order. */
  function OkValues<T, E>(rs: seq<Result<T, E>>): (vs: seq<T>)
    ensures |vs| <= |rs|
  {
    if rs == [] then []
    else OkValues(rs[..|rs| - 1]) + (if rs[|rs| - 1].Ok? then [rs[|rs| - 1].value] else [])
  }

  /** The Err values of `rs`, in input order. */
  function ErrValues<T, E>(rs: seq<Result<T, E>>): (es: seq<E>)
    ensures |es| <= |rs|
  {
    if rs == [] then []
    else ErrValues(rs[..|rs| - 1]) + (if rs[|rs| - 1].Err? then [rs[|rs| - 1].error] else [])
  }

  /** With no Err in the input, the Ok values are the payloads position by position. */
  lemma {:induction false} OkValuesOfAllOk<T, E>(rs: seq<Result<T, E>>)
    requires forall i :: 0 <= i < |rs| ==> rs[i].Ok?
    ensures |OkValues(rs)| == |rs|
    ensures forall i :: 0 <= i < |rs| ==> OkValues(rs)[i] == rs[i].value
  {
    if rs != [] {
      OkValuesOfAllOk(rs[..|rs| - 1]);
    }
  }

  /** With no Ok in the input, the Err values are the payloads position by position. */
  lemma {:induction false} ErrValuesOfAllErr<T, E>(rs: seq<Result<T, E>>)
    requires forall i :: 0 <= i < |rs| ==> rs[i].Err?
    ensures |ErrValues(rs)| == |rs|
    ensures forall i :: 0 <= i < |rs| ==> ErrValues(rs)[i] == rs[i].error
  {
    if rs != [] {
      ErrValuesOfAllErr(rs[..|rs| - 1]);
    }
  }

  /** The payload of every Ok input is among the collected Ok values. */
  lemma {:induction false} OkValuesContains<T, E>(rs: seq<Result<T, E>>)
    ensures forall i :: 0 <= i < |rs| && rs[i].Ok? ==> rs[i].value in OkValues(rs)
  {
    if rs != [] {
      var init := rs[..|rs| - 1];
      OkValuesContains(init);
      assert forall i :: 0 <= i < |init| ==> init[i] == rs[i];
    }
  }

  /** The payload of every Err input is among the collected errors. */
  lemma {:induction false} ErrValuesContains<T, E>(rs: seq<Result<T, E>>)
    ensures forall i :: 0 <= i < |rs| && rs[i].Err? ==> rs[i].error in ErrValues(rs)
  {
    if rs != [] {
      var init := rs[..|rs| - 1];
      ErrValuesContains(init);
      assert forall i :: 0 <= i < |init| ==> init[i] == rs[i];
    }
  }

  /** There are no Ok values exactly when every input is an Err. */
  lemma {:induction false} OkValuesEmpty<T, E>(rs: seq<Result<T, E>>)
    ensures OkValues(rs) == [] <==> forall i :: 0 <= i < |rs| ==> rs[i].Err?
  {
    if rs != [] {
      var init := rs[..|rs| - 1];
      OkValuesEmpty(init);
      assert forall i :: 0 <= i < |init| ==> init[i] == rs[i];
    }
  }

  /** Every input lands in exactly one of the two partitions. */
  lemma {:induction false} PartitionSizes<T, E>(rs: seq<Result<T, E>>)
    ensures |OkValues(rs)| + |ErrValues(rs)| == |rs|
  {
    if rs != [] {
      PartitionSizes(rs[..|rs| - 1]);
    }
  }

  /** Extending the input by one element extends the partitions by its payload. */
  lemma PrefixStep<T, E>(rs: seq<Result<T, E>>, i: nat)
    requires i < |rs|
    ensures OkValues(rs[..i + 1]) == OkValues(rs[..i]) + (if rs[i].Ok? then [rs[i].value] else [])
    ensures ErrValues(rs[..i + 1]) == ErrValues(rs[..i]) + (if rs[i].Err? then [rs[i].error] else [])
  {
    assert rs[..i + 1][..i] == rs[..i];
  }

  /**
   * `Result.every`: Ok of all values in input order when no element is an Err,
   * otherwise the first Err. The loop returns on the first Err; as in the
   * source, the Ok handler answers the new length of `ok` (never 0) and the
   * Err handler records the error and answers 0.
   */
  method Every<T, E>(results: seq<Result<T, E>>) returns (r: Result<seq<T>, E>)
    ensures r.Ok? <==> forall i :: 0 <= i < |results| ==> results[i].Ok?
    ensures r.Ok? ==> |r.value| == |results|
    ensures r.Ok? ==> forall i :: 0 <= i < |results| ==> r.value[i] == results[i].value
    ensures r.Err? ==> exists k :: 0 <= k < |results| && results[k] == Err(r.error)
                                   && forall j :: 0 <= j < k ==> results[j].Ok?
  {
    var ok: seq<T> := [];
    var error: Option<E> := None;
    var i := 0;
    while i < |results|
      invariant 0 <= i <= |results|
      invariant ok == OkValues(results[..i])
      invariant forall j :: 0 <= j < i ==> results[j].Ok?
    {
      PrefixStep(results, i);
      var code: nat;
      match results[i] {
        case Ok(t) =>
          ok := ok + [t];
          code := |ok|;
        case Err(e) =>
          error := Some(e);
          code := 0;
      }
      if code == 0 {
        assert results[i] == Err(error.value);
        return Err(error.value);
      }
      i := i + 1;
    }
    assert results[..i] == results;
    OkValuesOfAllOk(results);
    r := Ok(ok);
  }

  /**
   * `Result.some`: Ok([]) for an empty input; otherwise Ok of every Ok value
   * in input order when there is at least one, else Err of every error in
   * input order.
   */
  method Any<T, E>(results: seq<Result<T, E>>) returns (r: Result<seq<T>, seq<E>>)
    ensures r.Err? <==> |results| > 0 && forall i :: 0 <= i < |results| ==> results[i].Err?
    ensures r.Ok? ==> r.value == OkValues(results)
    ensures r.Err? ==> |r.error| == |results|
    ensures r.Err? ==> forall i :: 0 <= i < |results| ==> r.error[i] == results[i].error
  {
    if |results| == 0 {
      return Ok([]);
    }
    var ok: seq<T> := [];
    var err: seq<E> := [];
    var i := 0;
    while i < |results|
      invariant 0 <= i <= |results|
      invariant ok == OkValues(results[..i])
      invariant err == ErrValues(results[..i])
    {
      PrefixStep(results, i);
      match results[i] {
        case Ok(t) => ok := ok + [t];
        case Err(e) => err := err + [e];
      }
      i := i + 1;
    }
    assert results[..i] == results;
    OkValuesEmpty(results);
    if |ok| > 0 {
      return Ok(ok);
    }
    ErrValuesOfAllErr(results);
    r := Err(err);
  }

  // ---------------------------------------------------------------------
  // Laws of the combinators

  /** `invert` is an involution. */
  lemma InvertInvolution<T, E>(r: Result<T, E>)
    ensures Invert(Invert(r)) == r
  {
  }

  /** `map` with the identity changes nothing. */
  lemma MapIdentity<T, E>(r: Result<T, E>)
    ensures Map(r, (x: T) => x) == r
  {
  }

  /** Two maps in a row are one map of the composed function. */
  lemma MapCompose<T, E, U, V>(r: Result<T, E>, f: T -> U, g: U -> V)
    ensures Map(Map(r, f), g) == Map(r, (x: T) => g(f(x)))
  {
  }

  /** `map` and `map_err` are `map_both` with the identity on the other channel. */
  lemma MapsAreMapBoth<T, E, U, F>(r: Result<T, E>, f: T -> U, g: E -> F)
    ensures Map(r, f) == MapBoth(r, f, (e: E) => e)
    ensures MapErr(r, g) == MapBoth(r, (x: T) => x, g)
  {
  }

  /** `map_err` is `map` seen through `invert`. */
  lemma MapErrIsInvertedMap<T, E, F>(r: Result<T, E>, g: E -> F)
    ensures MapErr(r, g) == Invert(Map(Invert(r), g))
  {
  }

  /** `and(res)` is `and_then` of a function that ignores its argument. */
  lemma AndIsAndThen<T, E, U>(r: Result<T, E>, res: Result<U, E>)
    ensures And(r, res) == AndThen(r, (_: T) => res)
  {
  }

  /** `Ok` is a left and right unit of `and_then`, and `and_then` is associative. */
  lemma AndThenMonadLaws<T, E, U, V>(v: T, r: Result<T, E>, f: T -> Result<U, E>, g: U -> Result<V, E>)
    ensures AndThen(Ok(v), f) == f(v)
    ensures AndThen(r, (x: T) => Ok(x)) == r
    ensures AndThen(AndThen(r, f), g) == AndThen(r, (x: T) => AndThen(f(x), g))
  {
  }

  /** `or` is `and` on the inverted results: the two are duals. */
  lemma OrIsDualOfAnd<T, E, F>(r: Result<T, E>, res: Result<T, F>)
    ensures Or(r, res) == Invert(And(Invert(r), Invert(res)))
  {
  }

  /** `or_else` is `and_then` on the inverted results. */
  lemma OrElseIsDualOfAndThen<T, E, F>(r: Result<T, E>, op: E -> Result<T, F>)
    ensures OrElse(r, op) == Invert(AndThen(Invert(r), (e: E) => Invert(op(e))))
  {
  }

  /** `unwrap_or` agrees with reading `ok()` with a default. */
  lemma UnwrapOrIsOkPartOr<T, E>(r: Result<T, E>, optb: T)
    ensures UnwrapOr(r, optb) == (match OkPart(r) case Some(v) => v case None => optb)
  {
  }

  /** `expect_err` is `expect` on the inverted result. */
  lemma ExpectErrIsInvertedExpect<T, E>(r: Result<T, E>, msg: string)
    ensures ExpectErr(r, msg) == Expect(Invert(r), msg)
  {
  }

  /** The chains shown in the documentation of `or_else` (src/result.ts:321-329). */
  lemma OrElseChains()
    ensures var sq: int -> Result<int, int> := x => Ok(x * x);
            var err: int -> Result<int, int> := x => Err(x);
            var two: Result<int, int> := Ok(2);
            var three: Result<int, int> := Err(3);
            && OrElse(OrElse(two, sq), sq) == Ok(2)
            && OrElse(OrElse(two, err), sq) == Ok(2)
            && OrElse(OrElse(three, sq), err) == Ok(9)
            && OrElse(OrElse(three, err), err) == Err(3)
  {
  }
}
