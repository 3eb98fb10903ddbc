# safe-types in Dafny

A Dafny model of the core of **safe-types**, a TypeScript library of
Rust-flavoured `Result<T, E>` and `Option<T>` wrappers, the lazy `Task<T, E>`
built on them, and two nested-property helpers. Three revisions of the
combinators coexist in the repository:

- the method-per-variant classes of `src/result.ts` and `src/option.ts`, where nearly every method is a `match` with two handlers;
- the free functions of `src/result.core.ts` and `src/option.core.ts`, which test the tag with `is_ok` / `is_err` / `is_none`;
- the thin wrapper classes of `src/result.class.ts` and `src/option.class.ts`, which delegate to the free functions.

Each revision has its own module. Every operation of the core and wrapper
revisions proves that it agrees with the method of the same name in
`src/result.ts` or `src/option.ts` (the `of` aliases through the `from` they
delegate to), or says exactly where it does not.

Modules, one per source file:

| module | file | flavour |
|---|---|---|
| `Variants` | shared tag records (`Ok`, `Err`, `Some`, `None`), matchers, outcomes of throwing calls | data |
| `Results` | `src/result.ts` | pure; `every` and `some` are loops, so they are methods |
| `ResultCore` | `src/result.core.ts` | pure |
| `ResultClass` | `src/result.class.ts` | pure (the wrapper is immutable) |
| `Options` | `src/option.ts` | pure |
| `OptionCore` | `src/option.core.ts` | pure |
| `OptionClass` | `src/option.class.ts` | pure (the wrapper is immutable) |
| `Tasks` | `src/task.ts` | pure over an abstraction of executors |
| `Helpers` | `src/helpers.ts` | pure |
| `Utils` | `src/utils.ts` | pure |

How the model stands in for JavaScript:

- A call that may throw returns an `Outcome`: `Returned(value)` or `Threw(exception)`. The exceptions the library raises are `Error(message)` or `TypeError(message)`.
- A user callback that may throw (`Result.from(op)`) is given as its outcome.
- JavaScript values that `is_void`, `Option.from` and `get_at_path` inspect are the datatype `Utils.Value`.
- A Task's executor is abstracted to an `Execution`. It records the side effects the executor performs before it calls a resolver callback. It also records which callback it calls and with what, or `Pending` if it calls none.

## Model

| member | source | states |
|---|---|---|
| Results.Match | src/result.ts:42-53 | calls the Ok handler with the value for Ok and the Err handler with the error for Err |
| Results.IsOk | src/result.ts:64-69 | true exactly for Ok |
| Results.IsErr | src/result.ts:80-82 | true exactly for Err |
| Results.OkPart | src/result.ts:93-98 | `ok()` is Some exactly for Ok, carrying the Ok value |
| Results.ErrPart | src/result.ts:109-114 | `err()` is Some exactly for Err, carrying the error |
| Results.Tap | src/result.ts:120-124 | returns the receiver itself; calls `fn` once with the Ok value, never on Err |
| Results.TapErr | src/result.ts:130-134 | returns the receiver itself; calls `fn` once with the error, never on Ok |
| Results.Map | src/result.ts:145-152 | keeps the tag, applies `op` to an Ok value, passes an Err's error unchanged |
| Results.MapErr | src/result.ts:163-170 | keeps the tag, applies `op` to the error, passes an Ok value unchanged |
| Results.MapBoth | src/result.ts:182-190 | keeps the tag and applies the operation of whichever variant is present |
| Results.And | src/result.ts:201-208 | the argument when the receiver is Ok, else the receiver's Err |
| Results.AndThen | src/result.ts:238-245 | `op` of the Ok value, else the receiver's Err |
| Results.Or | src/result.ts:293-300 | the receiver's Ok, else the argument |
| Results.OrElse | src/result.ts:331-338 | the receiver's Ok, else `op` of the error |
| Results.UnwrapOr | src/result.ts:370-375 | the Ok value, else the default |
| Results.UnwrapOrElse | src/result.ts:388-393 | the Ok value, else `op` of the error |
| Results.Unwrap | src/result.ts:398-405 | returns exactly for Ok, with its value; on Err throws an Error "Called 'Result.unwrap()' on " followed by the receiver's text |
| Results.UnwrapErr | src/result.ts:410-417 | returns exactly for Err, with its error; on Ok throws an Error "Called 'Result.unwrap_err()' on " followed by the receiver's text |
| Results.Expect | src/result.ts:422-429 | returns exactly for Ok, with its value; on Err throws Error(msg) |
| Results.ExpectErr | src/result.ts:434-441 | returns exactly for Err, with its error; on Ok throws Error(msg) |
| Results.Invert | src/result.ts:447-452 | swaps the tags and keeps the payload |
| Results.From | src/result.ts:483-491 | Ok of what `op` returns, Err of what it throws |
| Results.Of | src/result.ts:497-499 | is `Result.from` |
| Results.OkValues | src/result.ts:545-548 | reference definition of the Ok values the push handler collects, in input order; never more than there are inputs, and every Ok payload is among them (`OkValuesContains`) |
| Results.ErrValues | src/result.ts:545-548 | reference definition of the errors the push handler collects, in input order; never more than there are inputs, and every Err payload is among them (`ErrValuesContains`) |
| Results.OkValuesContains | src/result.ts:545-552 | the payload of every Ok input is among the collected Ok values |
| Results.ErrValuesContains | src/result.ts:545-552 | the payload of every Err input is among the collected errors |
| Results.OkValuesOfAllOk | src/result.ts:506-528 | with no Err in the input, the collected Ok values are the payloads position by position |
| Results.ErrValuesOfAllErr | src/result.ts:534-560 | with no Ok in the input, the collected errors are the payloads position by position |
| Results.OkValuesEmpty | src/result.ts:550-557 | no Ok value is collected exactly when every input is an Err |
| Results.PartitionSizes | src/result.ts:545-552 | every input lands in exactly one of the two collections |
| Results.PrefixStep | src/result.ts:545-552 | visiting one more element appends its payload to the matching collection |
| Results.Every | src/result.ts:506-528 | Ok exactly when every input is Ok, with all values in input order; otherwise the error of the first Err, every element before it being Ok |
| Results.Any | src/result.ts:534-560 | Err exactly for a non-empty input of Errs only, carrying every error in order; otherwise Ok of the Ok values in input order (Ok([]) for an empty input) |
| Results.InvertInvolution | src/result.ts:447-452 | inverting twice gives back the result |
| Results.MapIdentity | src/result.ts:145-152 | mapping the identity changes nothing |
| Results.MapCompose | src/result.ts:145-152 | two maps are one map of the composition |
| Results.MapsAreMapBoth | src/result.ts:145-190 | `map` and `map_err` are `map_both` with the identity on the other side |
| Results.MapErrIsInvertedMap | src/result.ts:163-170 | `map_err` is `map` seen through `invert` |
| Results.AndIsAndThen | src/result.ts:201-245 | `and(res)` is `and_then` of a constant function |
| Results.AndThenMonadLaws | src/result.ts:238-245 | Ok is a left and right unit of `and_then`, and `and_then` is associative |
| Results.OrIsDualOfAnd | src/result.ts:293-300 | `or` is `and` on inverted results |
| Results.OrElseIsDualOfAndThen | src/result.ts:331-338 | `or_else` is `and_then` on inverted results |
| Results.UnwrapOrIsOkPartOr | src/result.ts:370-375 | `unwrap_or` equals reading `ok()` with the default |
| Results.ExpectErrIsInvertedExpect | src/result.ts:434-441 | `expect_err` is `expect` on the inverted result |
| Results.OrElseChains | src/result.ts:321-329 | the four documented `or_else` chains give Ok(2), Ok(2), Ok(9) and Err(3) |
| ResultCore.IsOk | src/result.core.ts:100-102 | true exactly for Ok; agrees with `is_ok` of src/result.ts |
| ResultCore.IsErr | src/result.core.ts:104-106 | the complement of `is_ok`; agrees with src/result.ts |
| ResultCore.OkPart | src/result.core.ts:108-114 | Some exactly for Ok; equal to `ok()` of src/result.ts |
| ResultCore.ErrPart | src/result.core.ts:116-122 | Some exactly for Err; equal to `err()` of src/result.ts |
| ResultCore.Map | src/result.core.ts:124-133 | Err passes through, Ok(v) becomes Ok(op(v)); equal to `map` of src/result.ts |
| ResultCore.MapErr | src/result.core.ts:135-144 | Ok passes through, Err(e) becomes Err(op(e)); equal to `map_err` of src/result.ts |
| ResultCore.And | src/result.core.ts:146-159 | res1's Err, else res2 itself, although res2 is rebuilt variant by variant; equal to `and` of src/result.ts |
| ResultCore.AndThen | src/result.core.ts:161-170 | res's Err, else `op` of its value; equal to `and_then` of src/result.ts |
| ResultClass.IsOk | src/result.class.ts:19-21 | true exactly for Ok; equal to `is_ok` of src/result.ts |
| ResultClass.IsErr | src/result.class.ts:23-25 | the complement of `is_ok()`; equal to `is_err` of src/result.ts |
| ResultClass.OkPart | src/result.class.ts:27-29 | Some exactly for Ok; equal to `ok()` of src/result.ts |
| ResultClass.ErrPart | src/result.class.ts:31-33 | Some exactly for Err; equal to `err()` of src/result.ts |
| ResultClass.Map | src/result.class.ts:35-37 | keeps the tag; equal to `map` of src/result.ts |
| ResultClass.From | src/result.class.ts:51-57 | Ok of the returned value, Err of the thrown one; equal to `Result.from` of src/result.ts |
| ResultClass.Of | src/result.class.ts:59-61 | is `Result.from` |
| ResultClass.ConstructorsCarryPayload | src/result.class.ts:43-49 | the static `Ok(v)` answers `is_ok()` with `ok()` = Some(v); `Err(e)` answers `is_err()` with `err()` = Some(e) |
| Options.Match | src/option.ts:12-26 | the None handler for None, the Some handler with the value for Some |
| Options.IsSome | src/option.ts:39-44 | true exactly for Some |
| Options.IsNone | src/option.ts:57-59 | true exactly for None |
| Options.Expect | src/option.ts:61-68 | returns exactly for Some, with its value; on None throws Error(msg) |
| Options.Unwrap | src/option.ts:70-77 | returns exactly for Some, with its value; on None throws Error("called `Option.unwrap()` on a `None` value") |
| Options.UnwrapOr | src/option.ts:79-84 | the Some value, else the default |
| Options.UnwrapOrElse | src/option.ts:86-91 | the Some value, else `fn()` |
| Options.Map | src/option.ts:93-98 | keeps the tag and applies `fn` to a Some value |
| Options.MapOr | src/option.ts:100-105 | `fn` of the Some value, else the default |
| Options.MapOrElse | src/option.ts:107-112 | `fn` of the Some value, else `def()` |
| Options.OkOr | src/option.ts:130-135 | Some(v) becomes Ok(v), None becomes Err(err) |
| Options.OkOrElse | src/option.ts:137-142 | Some(v) becomes Ok(v), None becomes Err(err()) |
| Options.And | src/option.ts:165-170 | None for None, the argument for Some |
| Options.From | src/option.ts:172-178 | None exactly for null and undefined, otherwise Some of the value itself |
| Options.Of | src/option.ts:180-182 | is `Option.from` |
| Options.MapFunctorLaws | src/option.ts:93-98 | mapping the identity changes nothing; two maps are one map of the composition |
| Options.MapOrIsMapThenUnwrapOr | src/option.ts:79-112 | `map_or` is `map` then `unwrap_or`; `map_or_else` with a constant thunk is `map_or` |
| Options.OkOrRoundTrip | src/option.ts:130-142 | reading the Ok side of `ok_or` gives back the Option; `ok_or_else` with a constant thunk is `ok_or` |
| Options.AndExamples | src/option.ts:147-162 | the four documented `and` cases |
| OptionCore.IsNone | src/option.core.ts:71-73 | true exactly for None; agrees with src/option.ts |
| OptionCore.IsSome | src/option.core.ts:75-77 | the complement of `is_none`; agrees with src/option.ts |
| OptionCore.Expect | src/option.core.ts:79-85 | the value for Some, Error(err_msg) thrown for None; equal to `expect` of src/option.ts |
| OptionCore.Unwrap | src/option.core.ts:87-93 | the value for Some, TypeError("Cannot unwrap option of None.") thrown for None; returns exactly when, and what, `unwrap` of src/option.ts returns |
| OptionCore.UnwrapOr | src/option.core.ts:95-101 | the default exactly for None; equal to src/option.ts |
| OptionCore.UnwrapOrElse | src/option.core.ts:103-109 | `fn()` for None; equal to src/option.ts |
| OptionCore.Map | src/option.core.ts:111-120 | keeps the tag, Some(fn(v)) for Some(v); equal to src/option.ts |
| OptionCore.MapOr | src/option.core.ts:122-132 | the default for None, `fn(v)` for Some(v); equal to src/option.ts |
| OptionCore.MapOrElse | src/option.core.ts:134-144 | `def()` for None, `fn(v)` for Some(v); equal to src/option.ts |
| OptionCore.Match | src/option.core.ts:146-160 | the handler of the present variant; equal to `match` of src/option.ts |
| OptionCore.UnwrapRevisionsDiffer | src/option.core.ts:87-93 | on None the two revisions of `unwrap` throw different exceptions |
| OptionClass.IsNone | src/option.class.ts:24-26 | true exactly for None; agrees with src/option.ts |
| OptionClass.IsSome | src/option.class.ts:28-30 | true exactly for Some; agrees with src/option.ts |
| OptionClass.Expect | src/option.class.ts:32-34 | returns exactly for Some; equal to `expect` of src/option.ts |
| OptionClass.Unwrap | src/option.class.ts:36-38 | the value for Some; TypeError("Cannot unwrap option of None.") thrown for None; equal to the core `unwrap` it delegates to; returns exactly when, and what, `unwrap` of src/option.ts returns |
| OptionClass.UnwrapOr | src/option.class.ts:40-42 | the default for None; equal to src/option.ts |
| OptionClass.UnwrapOrElse | src/option.class.ts:44-46 | `fn()` for None; equal to src/option.ts |
| OptionClass.Map | src/option.class.ts:48-50 | keeps the tag; equal to `map` of src/option.ts |
| OptionClass.MapOr | src/option.class.ts:52-54 | the default for None; equal to src/option.ts |
| OptionClass.MapOrElse | src/option.class.ts:56-58 | `def()` for None; equal to src/option.ts |
| OptionClass.Match | src/option.class.ts:60-62 | the Some handler with the value for Some; equal to src/option.ts |
| OptionClass.From | src/option.class.ts:64-70 | None exactly when `is_void(val)`, else Some(val); equal to `Option.from` of src/option.ts |
| OptionClass.Of | src/option.class.ts:72-74 | is `Option.from` |
| OptionClass.ConstructorsAnswerQueries | src/option.class.ts:76-82 | the static `Some(v)` is some and not none; `None()` is none and not some |
| Tasks.From | src/task.ts:110-112 | the same Task the constructor builds from the executor |
| Tasks.OfOk | src/task.ts:114-116 | no effects, and the executor calls `Ok(value)` |
| Tasks.OfErr | src/task.ts:118-120 | no effects, and the executor calls `Err(err)` |
| Tasks.Fork | src/task.ts:50-59 | runs the executor's effects; the promise settles exactly when the executor calls back, with `map_both` of the resolver's callbacks over that outcome |
| Tasks.Map | src/task.ts:65-72 | same effects; settles when the receiver does, with `Result.map(op)` of its outcome |
| Tasks.MapErr | src/task.ts:78-85 | same effects; settles when the receiver does, with `Result.map_err(op)` of its outcome |
| Tasks.And | src/task.ts:91-98 | a pending receiver never starts `task_b`; an Err is passed on and `task_b` never runs; after an Ok, `task_b`'s effects follow and its outcome is the result; the outcome is `Result.and` of the two |
| Tasks.ForkMap | src/task.ts:50-72 | forking a mapped Task is forking the original with `op` composed into the Ok callback |
| Tasks.ForkMapErr | src/task.ts:50-85 | forking a Task with mapped errors is forking the original with `op` composed into the Err callback |
| Tasks.MapFunctorLaws | src/task.ts:65-72 | mapping the identity changes nothing; two maps are one map of the composition |
| Tasks.AndAssociative | src/task.ts:91-98 | `and` is associative in both effects and outcome |
| Tasks.AndUnits | src/task.ts:91-120 | `of_ok(v).and(b)` is `b`; `of_err(e).and(b)` is `of_err(e)` |
| Tasks.AndShortCircuits | src/task.ts:91-98 | `of_err(e).and(t)` forks to Err(e) with none of t's effects |
| Utils.LooselyEqualsNull | src/utils.ts:2 | `val == null` by IsLooselyEqual: true for null and undefined, false for numbers, strings, arrays and objects (a boolean is compared as a number; `LooselyEqualsNullIsNullish` covers it) |
| Utils.LooselyEqualsNullIsNullish | src/utils.ts:2 | `x == null` holds exactly for null and undefined |
| Utils.IsVoid | src/utils.ts:1-3 | true exactly for null and undefined |
| Utils.IsVoidExamples | src/utils.ts:1-3 | null and undefined are void; 0, "", [], {} and false are not |
| Utils.IsNever | src/utils.ts:5-7 | never returns; always throws `new Error()` |
| Helpers.Property | src/helpers.ts:8 | `obj[key]` is the own property, or undefined when there is none |
| Helpers.AndThen | src/helpers.ts:8 | the `and_then` the reducer calls: None stays None, Some(x) becomes `fn(x)` |
| Helpers.AndThenExamples | flow-typed/index.js:154-162 | the four documented `and_then` chains give Some(16), None, None and None |
| Helpers.Step | src/helpers.ts:8 | one reducer step is Some exactly when the accumulator is Some and the key's property is not void, and then carries that property |
| Helpers.Fold | src/helpers.ts:7-10 | `path.reduce` with the `and_then` step: the empty path leaves the accumulator as it is; after at least one step a Some never carries null or undefined |
| Helpers.Descend | src/helpers.ts:3-11 | reference definition of a nested lookup; a Some never carries a void value |
| Helpers.FoldFromNone | src/helpers.ts:7-10 | once the fold reaches None it stays None |
| Helpers.StepFromNone | src/helpers.ts:8 | no reducer step leaves None |
| Helpers.FoldUnfold | src/helpers.ts:7-10 | a fold over a non-empty path takes the first key's step, then folds over the rest |
| Helpers.FoldAppend | src/helpers.ts:7-10 | folding over `p + q` is folding over `p` and then over `q` |
| Helpers.FoldIsDescend | src/helpers.ts:7-10 | the fold from `Option.of(v)` equals the reference descent |
| Helpers.GetAtPath | src/helpers.ts:3-11 | `Option.of(obj)` for the empty path; the reference descent in general; a Some never carries null or undefined |
| Helpers.HasAtPath | src/helpers.ts:13-18 | true exactly when `get_at_path` is Some, i.e. when the descent finds a non-void value |
| Helpers.GetAtPathAppend | src/helpers.ts:3-11 | a lookup along `p + q` continues the lookup along `p` with the keys of `q` |
| Helpers.NestedPathFound | src/helpers.ts:3-11 | the path along which nested objects are built leads to their non-void leaf |
| Helpers.DescendNest | src/helpers.ts:3-11 | the reference descent along the nesting path finds the leaf |
| Helpers.EmptyObjectHasNoPath | src/helpers.ts:3-11 | in the own-property model of lookup, `{}` has nothing at any non-empty path |
| Helpers.TenLevelExample | src/utils.test.ts:36-49 | along `"abcdefghij".split("")` the ten-level object gives Some("foo") and `has_at_path` true; `{}` gives None and `has_at_path` false |
| Helpers.GetAtPathAsWritten | src/helpers.ts:3-11 | as written, the empty path returns `Option.of(obj)` and every other path throws a TypeError |
| Helpers.HasAtPathAsWritten | src/helpers.ts:13-18 | as written, `has_at_path` returns `has_at_path`'s intended answer for the empty path and throws a TypeError for every other path |
| Helpers.AsWrittenThrowsOnOneKey | src/helpers.ts:3-11 | `get_at_path({a: 1}, ["a"])` throws as written, where Some(1) is intended |

## Left out

- The `*_await`, `*_async`, `await*` and `of_async` members of `src/result.ts` and `src/result.class.ts` are left out: they are Promise plumbing with the same shape as the synchronous combinators modelled here.
- `toString()` of Result (src/result.ts:454) and of Task (src/task.ts:100) is left out. Where a message embeds it, the text is a parameter.
- Results.Unwrap: the message's suffix is the parameter `shown`, standing for the receiver's `toString()`. That text wraps the `JSON.stringify` of the payload in `Ok<…>` or `Err<…>`, and the model does not define `JSON.stringify`.
- Results.UnwrapErr: the same parameter `shown` stands for `toString()`.
- OptionCore.Unwrap: its agreement with `unwrap` of src/option.ts covers only when it returns and with what, because the two revisions throw different exceptions on None (`UnwrapRevisionsDiffer`).
- The methods of `src/option.ts` pass handlers keyed `some` / `none`, while `match` reads `matcher[OptionVariant.None]` and `matcher[OptionVariant.Some]`, the values of the enum's members. The enum lives in `src/variant.ts`, which is not part of this model, and the flow type declarations spell the handler keys `Some` / `None`. The model therefore takes the keys to match and dispatches on the tag.
- The `expect_never` / `is_never` default branches of every `match` are left out: the closed datatypes have no third variant.
- Task laziness, Promise scheduling and the order of asynchronous callbacks are left out. An executor is its effects before it calls back plus the callback it calls. An executor that calls both callbacks, or calls one twice, is not modelled: a Promise settles once.
- User callbacks are taken to return normally: the `op` of `map`, `map_err`, `map_both`, `and_then`, `or_else` and `unwrap_or_else`, the `fn` of `tap`, `tap_err`, `map`, `map_or` and `map_or_else`, the matcher handlers and the resolver callbacks of `fork` are total functions. In the source an exception from any of them passes out of the combinator unchanged; only the `op` of `from` is modelled as one that may throw, because `from` catches it.
- An executor that throws before it calls back makes the Promise returned by `fork` reject. An `Execution` cannot represent a rejection, so that path is not modelled.
- `src/result.ts` imports `always_true`, `always_false`, `identity`, `noop`, `expect_never` and `Mapper` from `./utils`. `src/utils.ts` defines only `is_void` and `is_never`. The model takes `always_true` / `always_false` to be the constant functions true / false and `identity` to return its argument. It takes `noop` to do nothing, `expect_never` to be the unreachable default of a `match`, and `Mapper<T, U>` to be the function type `T -> U`.
- src/task.test.ts also exercises `and_then`, `or`, `or_else`, `invert`, `run`, `run_sync`, `exec`, `tap`, `tap_err`, `finally`, `map_to`, `map_err_to`, `map_both`, `all`, `collect` and `retry`. src/task.ts defines none of them, so they are left out.
- The Option methods `and_then`, `filter`, `or`, `or_else`, `into_result` and `into_result_err` are declared in `flow-typed/index.js` (lines 164, 180, 206, 220, 231 and 260) but absent from `src/option.ts`, so they are left out. `Helpers.AndThen` models only the `and_then` that `get_at_path` relies on.
- Property lookup on JavaScript objects reads only own properties. Not modelled: prototype members such as `constructor` and `toString`, getters, array indices, string indices, and the `length` of arrays and strings. For example, `get_at_path({a: [1]}, ["a", "length"])` is Some(1) in JavaScript and None in the model.
- Numbers are reals: NaN, infinities and `-0` are not modelled (they play no part in `== null`).
- Object identity is left out: `map` of the wrapper classes builds a new wrapper, and in the model values have no identity.
- `index.ts` and the flow type declarations only re-export and declare. The static `Option.Some` / `Option.None` / `Result.Ok` / `Result.Err` constructors are the datatype constructors.

## Findings

| source | as written | input that shows it | evidently intended | confidence | as-written member | corrected member |
|---|---|---|---|---|---|---|
| src/helpers.ts:7-10 | the reducer calls `opt.and_then`, which the Option class of src/option.ts does not define, so any non-empty path throws a TypeError | `get_at_path({a: 1}, ["a"])` | `and_then` as Rust defines it, giving Some(1) here and None for a missing or void step | not executed; these source files come from different revisions and do not build together as they stand (`src/result.ts` imports helpers that `src/utils.ts` does not define, and the tests import `Task`, `get_at_path` and `err_or_ok` from `./index`, which `src/index.ts` does not export), so the missing `and_then` may come from mixed revisions rather than a bug | Helpers.GetAtPathAsWritten | Helpers.GetAtPath |
