/**
 * The `Task` class of src/task.ts. A Task owns one executor, which is called
 * with a resolver and may call its `Ok` or `Err` callback. The model
 * abstracts an executor to what running it does: the side effects it
 * performs before it calls a callback, and which callback it calls with
 * which value, if it calls one at all. The combinators build new executors
 * around the old ones, so they become functions on these abstractions.
 */
module Tasks {
  import opened Variants
  import Results

  /** A label for one observable side effect of an executor: a call to a spy, a line it logs. */
  type Effect = string

  /** Whether an executor calls a resolver callback, and which one with what. */
  datatype Settlement<T, E> = Pending | Settled(result: Result<T, E>)

  /** What running an executor (or awaiting the Promise `fork` returns) does. */
  datatype Execution<T, E> = Execution(effects: seq<Effect>, settlement: Settlement<T, E>)

  /** A Task owns exactly one executor. */
  datatype Task<T, E> = Task(executor: Execution<T, E>)

  /** The object handed to `fork`: what to make of a success and of a failure. */
  datatype Resolver<!T, !E, U, F> = Resolver(ok: T -> U, err: E -> F)

  /** `Task.from(executor)`: the same Task the constructor builds from that executor. */
  function From<T, E>(executor: Execution<T, E>): (t: Task<T, E>)
    ensures t == Task(executor)
  {
    Task(executor)
  }

  /** `Task.of_ok(value)`: calls `Ok(value)` and nothing else. */
  function OfOk<T, E>(value: T): (t: Task<T, E>)
    ensures t.executor.effects == []
    ensures t.executor.settlement == Settled(Ok(value))
  {
    Task(Execution([], Settled(Ok(value))))
  }

  /** `Task.of_err(err)`: calls `Err(err)` and nothing else. */
  function OfErr<T, E>(err: E): (t: Task<T, E>)
    ensures t.executor.effects == []
    ensures t.executor.settlement == Settled(Err(err))
  {
    Task(Execution([], Settled(Err(err))))
  }

  /**
   * `fork(resolver)`: runs the executor; the returned Promise settles with
   * Ok of `resolver.Ok(value)` or Err of `resolver.Err(error)`, whichever
   * callback the executor calls, and stays pending if it calls none. This is
   * `map_both` of the executor's outcome.
   */
  function Fork<T, E, U, F>(t: Task<T, E>, resolver: Resolver<T, E, U, F>): (p: Execution<U, F>)
    ensures p.effects == t.executor.effects
    ensures p.settlement.Pending? <==> t.executor.settlement.Pending?
    ensures t.executor.settlement.Settled? ==>
              p.settlement == Settled(Results.MapBoth(t.executor.settlement.result, resolver.ok, resolver.err))
  {
    var settlement :=
      match t.executor.settlement
      case Pending => Pending
      case Settled(Ok(value)) => Settled(Ok(resolver.ok(value)))
      case Settled(Err(err)) => Settled(Err(resolver.err(err)));
    Execution(t.executor.effects, settlement)
  }

  /**
   * `map(op)`: a new Task whose executor runs the old one and hands
   * `op(value)` to its own `Ok`; `Err` is passed on as it is.
   */
  function Map<T, E, U>(t: Task<T, E>, op: T -> U): (m: Task<U, E>)
    ensures m.executor.effects == t.executor.effects
    ensures m.executor.settlement.Pending? <==> t.executor.settlement.Pending?
    ensures t.executor.settlement.Settled? ==>
              m.executor.settlement == Settled(Results.Map(t.executor.settlement.result, op))
  {
    var settlement :=
      match t.executor.settlement
      case Pending => Pending
      case Settled(Ok(value)) => Settled(Ok(op(value)))
      case Settled(Err(err)) => Settled(Err(err));
    Task(Execution(t.executor.effects, settlement))
  }

  /**
   * `map_err(op)`: a new Task whose executor runs the old one and hands
   * `op(err)` to its own `Err`; `Ok` is passed on as it is.
   */
  function MapErr<T, E, F>(t: Task<T, E>, op: E -> F): (m: Task<T, F>)
    ensures m.executor.effects == t.executor.effects
    ensures m.executor.settlement.Pending? <==> t.executor.settlement.Pending?
    ensures t.executor.settlement.Settled? ==>
              m.executor.settlement == Settled(Results.MapErr(t.executor.settlement.result, op))
  {
    var settlement :=
      match t.executor.settlement
      case Pending => Pending
      case Settled(Ok(value)) => Settled(Ok(value))
      case Settled(Err(err)) => Settled(Err(op(err)));
    Task(Execution(t.executor.effects, settlement))
  }

  /**
   * `and(task_b)`: a new Task whose executor runs the receiver's and, only
   * when that one calls `Ok`, forks `task_b` with its own callbacks. An Err
   * of the receiver is passed on and `task_b` is never run; a receiver that
   * never settles never starts `task_b`.
   */
  function And<T, E, U>(t: Task<T, E>, taskB: Task<U, E>): (a: Task<U, E>)
    ensures t.executor.settlement.Pending? ==>
              a.executor == Execution(t.executor.effects, Pending)
    ensures t.executor.settlement.Settled? && t.executor.settlement.result.Err? ==>
              a.executor == Execution(t.executor.effects, Settled(Err(t.executor.settlement.result.error)))
    ensures t.executor.settlement.Settled? && t.executor.settlement.result.Ok? ==>
              a.executor == Execution(t.executor.effects + taskB.executor.effects, taskB.executor.settlement)
    ensures t.executor.settlement.Settled? && taskB.executor.settlement.Settled? ==>
              a.executor.settlement == Settled(Results.And(t.executor.settlement.result, taskB.executor.settlement.result))
  {
    match t.executor.settlement
    case Pending => Task(Execution(t.executor.effects, Pending))
    case Settled(Err(err)) => Task(Execution(t.executor.effects, Settled(Err(err))))
    case Settled(Ok(_)) =>
      var forked := Fork(taskB, Resolver((value: U) => value, (err: E) => err));
      Task(Execution(t.executor.effects + forked.effects, taskB.executor.settlement))
  }

  // ---------------------------------------------------------------------
  // Laws

  /** Forking a mapped Task is forking the original with `op` composed into the Ok callback. */
  lemma ForkMap<T, E, U, V, F>(t: Task<T, E>, op: T -> U, resolver: Resolver<U, E, V, F>)
    ensures Fork(Map(t, op), resolver) == Fork(t, Resolver((x: T) => resolver.ok(op(x)), resolver.err))
  {
  }

  /** Forking a Task with mapped errors is forking the original with `op` composed into the Err callback. */
  lemma ForkMapErr<T, E, F, U, G>(t: Task<T, E>, op: E -> F, resolver: Resolver<T, F, U, G>)
    ensures Fork(MapErr(t, op), resolver) == Fork(t, Resolver(resolver.ok, (e: E) => resolver.err(op(e))))
  {
  }

  /** `map` with the identity changes nothing, and two maps are one map of the composition. */
  lemma MapFunctorLaws<T, E, U, V>(t: Task<T, E>, f: T -> U, g: U -> V)
    ensures Map(t, (x: T) => x) == t
    ensures Map(Map(t, f), g) == Map(t, (x: T) => g(f(x)))
  {
  }

  /** `and` is associative: effects and outcome do not depend on the grouping. */
  lemma AndAssociative<T, E, U, V>(a: Task<T, E>, b: Task<U, E>, c: Task<V, E>)
    ensures And(And(a, b), c) == And(a, And(b, c))
  {
  }

  /** `of_ok` is a left unit of `and`; `of_err` absorbs whatever follows it. */
  lemma AndUnits<T, E, U>(v: T, e: E, b: Task<U, E>)
    ensures And(OfOk(v), b) == b
    ensures var failed: Task<T, E> := OfErr(e); And(failed, b) == OfErr(e)
  {
  }

  /** `of_err(e).and(of_ok(1))` settles Err(e) without running the second Task. */
  lemma AndShortCircuits<E>(e: E, spied: seq<Effect>)
    ensures var first: Task<int, E> := OfErr(e);
            var second: Task<int, E> := Task(Execution(spied, Settled(Ok(1))));
            Fork(And(first, second), Resolver((x: int) => x, (x: E) => x)) == Execution([], Settled(Err(e)))
  {
  }
}
