/**
 * src/utils.ts: `is_void` and `is_never`, over a model of JavaScript values.
 */
module Utils {
  import opened Variants

  /**
   * The JavaScript values the library inspects at run time. Numbers are
   * finite reals; arrays and objects hold their own elements and properties.
   */
  datatype Value =
    | Undefined
    | Null
    | Bool(b: bool)
    | Num(n: real)
    | Str(s: string)
    | Arr(items: seq<Value>)
    | Obj(props: map<string, Value>)

  /**
   * `x == null` by ECMAScript's IsLooselyEqual algorithm (section 7.2.14 of
   * ECMA-262, 2023 edition) with `null` on the right: equal types compare
   * strictly, undefined and null are loosely equal, a boolean is first
   * converted to a number, and no other rule applies to null.
   */
  function LooselyEqualsNull(x: Value): (b: bool)
    ensures x == Null || x == Undefined ==> b
    ensures x.Num? || x.Str? || x.Arr? || x.Obj? ==> !b
    decreases if x.Bool? then 1 else 0
  {
    match x
    case Null => true
    case Undefined => true
    case Bool(b) => LooselyEqualsNull(Num(if b then 1.0 else 0.0))
    case Num(_) => false
    case Str(_) => false
    case Arr(_) => false
    case Obj(_) => false
  }

  /** Only null and undefined are loosely equal to null; a boolean converts to 0 or 1, which is not. */
  lemma LooselyEqualsNullIsNullish(x: Value)
    ensures LooselyEqualsNull(x) <==> x == Null || x == Undefined
  {
    if x.Bool? {
      assert LooselyEqualsNull(x) == LooselyEqualsNull(Num(if x.b then 1.0 else 0.0));
    }
  }

  /** `is_void(val)`: `val == null`, which holds exactly for null and undefined. */
  function IsVoid(val: Value): (b: bool)
    ensures b <==> val == Null || val == Undefined
  {
    LooselyEqualsNullIsNullish(val);
    LooselyEqualsNull(val)
  }

  /** The values the tests check: null and undefined are void; 0, "", [], {} and false are not. */
  lemma IsVoidExamples()
    ensures IsVoid(Null) && IsVoid(Undefined)
    ensures !IsVoid(Num(0.0)) && !IsVoid(Str("")) && !IsVoid(Arr([]))
    ensures !IsVoid(Obj(map[])) && !IsVoid(Bool(false))
  {
  }

  /** `is_never(x)`: never returns normally; it always throws `new Error()`. */
  function IsNever<X>(x: X): (o: Outcome<X, Thrown>)
    ensures o.Threw?
    ensures o.thrown == Error("")
  {
    Threw(Error(""))
  }
}
