/**
 * src/helpers.ts: `get_at_path` folds `Option.and_then` over a list of keys,
 * starting from `Option.of(obj)`; `has_at_path` asks whether the fold ends in
 * Some. A key missing from an object reads as undefined, which ends the
 * lookup in None.
 */
module Helpers {
  import opened Variants
  import opened Utils
  import Options

  /** `obj[key]`: an own property of an object, undefined for every other lookup. */
  function Property(obj: Value, key: string): (v: Value)
    ensures obj.Obj? && key in obj.props ==> v == obj.props[key]
    ensures !(obj.Obj? && key in obj.props) ==> v == Undefined
  {
    if obj.Obj? && key in obj.props then obj.props[key] else Undefined
  }

  /**
   * `and_then` on an Option, the operation `get_at_path` calls: None stays
   * None, Some(x) becomes `fn(x)`. The Option class of src/option.ts does not
   * define it (see `GetAtPathAsWritten`); this is the behaviour declared for
   * it in flow-typed/index.js.
   */
  function AndThen<T, U>(o: Option<T>, fn: T -> Option<U>): (r: Option<U>)
    ensures o.None? ==> r == None
    ensures o.Some? ==> r == fn(o.value)
  {
    Options.Match(o, OptionMatcher(() => None, fn))
  }

  /** The four chains the declaration of `and_then` documents (flow-typed/index.js:154-162). */
  lemma AndThenExamples()
    ensures var sq: int -> Option<int> := x => Some(x * x);
            var nope: int -> Option<int> := _ => None;
            var two: Option<int> := Some(2);
            var none: Option<int> := None;
            && AndThen(AndThen(two, sq), sq) == Some(16)
            && AndThen(AndThen(two, sq), nope) == None
            && AndThen(AndThen(two, nope), sq) == None
            && AndThen(AndThen(none, sq), sq) == None
  {
  }

  /** One step of the fold: go on only from Some, and only to a non-void property. */
  function Step(opt: Option<Value>, key: string): (r: Option<Value>)
    ensures r.Some? <==> opt.Some? && !IsVoid(Property(opt.value, key))
    ensures r.Some? ==> r.value == Property(opt.value, key)
  {
    AndThen(opt, (obj: Value) => Options.Of(Property(obj, key)))
  }

  /**
   * `path.reduce(Step, opt)`: a left fold over the keys. The empty path
   * leaves the accumulator as it is; after at least one step a Some never
   * carries a void value.
   */
  function Fold(opt: Option<Value>, path: seq<string>): (f: Option<Value>)
    ensures path == [] ==> f == opt
    ensures path != [] && f.Some? ==> !IsVoid(f.value)
    decreases |path|
  {
    if path == [] then opt else Fold(Step(opt, path[0]), path[1..])
  }

  /**
   * An independent reference definition: descend into `v` key by key; a
   * void value anywhere on the way, the start included, means None.
   */
  function Descend(v: Value, path: seq<string>): (d: Option<Value>)
    ensures d.Some? ==> !IsVoid(d.value)
    decreases |path|
  {
    if IsVoid(v) then None
    else if path == [] then Some(v)
    else Descend(Property(v, path[0]), path[1..])
  }

  /** Once the fold reaches None it stays None for the remaining keys. */
  lemma {:induction false} FoldFromNone(path: seq<string>)
    ensures Fold(None, path) == None
    decreases |path|
  {
    if path != [] {
      StepFromNone(path[0]);
      FoldUnfold(None, path);
      FoldFromNone(path[1..]);
    }
  }

  /** No step leaves None. */
  lemma StepFromNone(key: string)
    ensures Step(None, key) == None
  {
  }

  /** A fold over a non-empty path takes its first step, then folds over the rest. */
  lemma FoldUnfold(opt: Option<Value>, path: seq<string>)
    requires path != []
    ensures Fold(opt, path) == Fold(Step(opt, path[0]), path[1..])
  {
  }

  /** Folding over `p + q` is folding over `p`, then over `q`. */
  lemma {:induction false} FoldAppend(opt: Option<Value>, p: seq<string>, q: seq<string>)
    ensures Fold(opt, p + q) == Fold(Fold(opt, p), q)
    decreases |p|
  {
    if p == [] {
      assert p + q == q;
    } else {
      var k := p[0];
      var pq := p + q;
      assert pq[0] == k;
      assert pq[1..] == p[1..] + q;
      var next := Step(opt, k);
      assert Fold(opt, pq) == Fold(next, pq[1..]);
      assert Fold(opt, p) == Fold(next, p[1..]);
      FoldAppend(next, p[1..], q);
    }
  }

  /** The fold from `Option.of(v)` is the direct descent. */
  lemma {:induction false} FoldIsDescend(v: Value, path: seq<string>)
    ensures Fold(Options.Of(v), path) == Descend(v, path)
    decreases |path|
  {
    if path != [] {
      var k, rest := path[0], path[1..];
      var start := Options.Of(v);
      assert Fold(start, path) == Fold(Step(start, k), rest);
      if IsVoid(v) {
        assert Step(start, k) == None;
        assert Descend(v, path) == None;
        FoldFromNone(rest);
      } else {
        var child := Property(v, k);
        assert Step(start, k) == Options.Of(child);
        assert Descend(v, path) == Descend(child, rest);
        FoldIsDescend(child, rest);
      }
    }
  }

  /**
   * `get_at_path(obj, path)`: `Option.of(obj)` for the empty path; otherwise
   * Some of the value found by descending, or None when a value on the way
   * is null or undefined (a missing key included).
   */
  function GetAtPath(obj: Value, path: seq<string>): (r: Option<Value>)
    ensures path == [] ==> r == Options.Of(obj)
    ensures r == Descend(obj, path)
    ensures r.Some? ==> !IsVoid(r.value)
  {
    FoldIsDescend(obj, path);
    Fold(Options.Of(obj), path)
  }

  /** `has_at_path(obj, path)`: `get_at_path(obj, path).is_some()`. */
  function HasAtPath(obj: Value, path: seq<string>): (b: bool)
    ensures b <==> GetAtPath(obj, path).Some?
    ensures b <==> Descend(obj, path).Some?
  {
    Options.IsSome(GetAtPath(obj, path))
  }

  /** A lookup along `p + q` continues the lookup along `p` with the keys of `q`. */
  lemma GetAtPathAppend(obj: Value, p: seq<string>, q: seq<string>)
    ensures GetAtPath(obj, p + q) == Fold(GetAtPath(obj, p), q)
  {
    FoldAppend(Options.Of(obj), p, q);
  }

  /** Objects nested along `keys`, with `leaf` at the end. */
  function Nest(keys: seq<string>, leaf: Value): Value
  {
    if keys == [] then leaf else Obj(map[keys[0] := Nest(keys[1..], leaf)])
  }

  /** The path a nested object is built along leads to its leaf. */
  lemma {:induction false} NestedPathFound(keys: seq<string>, leaf: Value)
    requires !IsVoid(leaf)
    ensures GetAtPath(Nest(keys, leaf), keys) == Some(leaf)
  {
    DescendNest(keys, leaf);
  }

  lemma {:induction false} DescendNest(keys: seq<string>, leaf: Value)
    requires !IsVoid(leaf)
    ensures Descend(Nest(keys, leaf), keys) == Some(leaf)
    decreases |keys|
  {
    if keys != [] {
      DescendNest(keys[1..], leaf);
    }
  }

  /** An empty object has nothing at any non-empty path. */
  lemma EmptyObjectHasNoPath(path: seq<string>)
    requires path != []
    ensures GetAtPath(Obj(map[]), path) == None
  {
    var empty := Obj(map[]);
    assert Property(empty, path[0]) == Undefined;
    assert Descend(empty, path) == Descend(Undefined, path[1..]);
  }

  /**
   * The ten-level example of src/utils.test.ts:36-49: `path` is
   * `"abcdefghij".split("")`, the first object nests `"foo"` along it and the
   * second is `{}`. The path is a parameter pinned by the precondition
   * rather than a literal in the contract, so that the proof applies the
   * general lemmas instead of unfolding the lookup over a ten-element literal.
   */
  lemma TenLevelExample(path: seq<string>)
    requires path == ["a", "b", "c", "d", "e", "f", "g", "h", "i", "j"]
    ensures GetAtPath(Nest(path, Str("foo")), path) == Some(Str("foo"))
    ensures GetAtPath(Obj(map[]), path) == None
    ensures HasAtPath(Nest(path, Str("foo")), path)
    ensures !HasAtPath(Obj(map[]), path)
  {
    NestedPathFound(path, Str("foo"));
    EmptyObjectHasNoPath(path);
  }

  /**
   * `get_at_path` as written: the accumulator is an Option of src/option.ts,
   * which has no `and_then`, so the first call of the reducer throws a
   * TypeError; only the empty path, which never calls the reducer, returns.
   * `has_at_path` calls it, so it throws on the same paths
   * (`HasAtPathAsWritten`).
   */
  function GetAtPathAsWritten(obj: Value, path: seq<string>): (r: Outcome<Option<Value>, Thrown>)
    ensures path == [] ==> r == Returned(GetAtPath(obj, path))
    ensures path != [] ==> r.Threw? && r.thrown.TypeError?
  {
    if path == [] then Returned(Options.Of(obj))
    else Threw(TypeError("opt.and_then is not a function"))
  }

  /** `has_at_path` as written: `get_at_path(...).is_some()`, so it throws wherever that throws. */
  function HasAtPathAsWritten(obj: Value, path: seq<string>): (r: Outcome<bool, Thrown>)
    ensures path == [] ==> r == Returned(HasAtPath(obj, path))
    ensures path != [] ==> r.Threw? && r.thrown.TypeError?
  {
    match GetAtPathAsWritten(obj, path)
    case Returned(opt) => Returned(Options.IsSome(opt))
    case Threw(e) => Threw(e)
  }

  /** `get_at_path({a: 1}, ["a"])` throws as written, where Some(1) is intended. */
  lemma AsWrittenThrowsOnOneKey()
    ensures var obj := Obj(map["a" := Num(1.0)]);
            && GetAtPath(obj, ["a"]) == Some(Num(1.0))
            && GetAtPathAsWritten(obj, ["a"]).Threw?
  {
    var obj := Obj(map["a" := Num(1.0)]);
    var path := ["a"];
    assert Property(obj, "a") == Num(1.0);
    assert path[0] == "a" && path[1..] == [];
    assert Descend(obj, path) == Descend(Num(1.0), []);
  }
}
