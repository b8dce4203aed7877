/** Option, and the JavaScript values the services exchange after JSON decoding. */
module Wrappers {
  datatype Option<+T> = None | Some(value: T) {
    function GetOr(default: T): T {
      match this
      case Some(v) => v
      case None => default
    }
  }
}

/**
 * JavaScript values as the services see them: the payload of an RpcException,
 * a reply of another service, a log record's details. Numbers are integers
 * (no floating point), arrays are not distinguished from objects.
 */
module Js {
  datatype Value =
    | Undefined
    | Null
    | Bool(b: bool)
    | Num(n: int)
    | Str(s: string)
    | Obj(fields: map<string, Value>)

  /** `!!v` */
  predicate Truthy(v: Value)
    // JavaScript's falsy values, without NaN and -0, which this model has no numbers for
    ensures !Truthy(v) <==> v in {Undefined, Null, Bool(false), Num(0), Str("")}
  {
    match v
    case Undefined => false
    case Null => false
    case Bool(b) => b
    case Num(n) => n != 0
    case Str(s) => s != ""
    case Obj(_) => true
  }

  /** `v?.key`: only objects carry own properties here; anything else reads undefined. */
  function Get(v: Value, key: string): (r: Value)
    ensures !Has(v, key) ==> r == Undefined
    ensures Has(v, key) ==> r == v.fields[key]
  {
    if v.Obj? && key in v.fields then v.fields[key] else Undefined
  }

  /** `key in v`, for `v` already known to be an object. */
  predicate Has(v: Value, key: string) {
    v.Obj? && key in v.fields
  }

  /** `a || b` */
  function Or(a: Value, b: Value): (r: Value)
    ensures r == a || r == b
    ensures Truthy(r) <==> Truthy(a) || Truthy(b)
    // the first truthy operand wins
    ensures Truthy(a) ==> r == a
  {
    if Truthy(a) then a else b
  }

  /**
   * `v >= k` for a number `k`: booleans and null are converted to 0/1 and 0,
   * undefined and objects to NaN (never greater or equal). Strings are taken as
   * not numeric.
   */
  predicate AtLeast(v: Value, k: int)
    ensures AtLeast(v, k) ==> v.Num? || v.Bool? || v.Null?
    ensures v.Num? ==> (AtLeast(v, k) <==> v.n >= k)
    ensures v.Undefined? || v.Str? || v.Obj? ==> !AtLeast(v, k)
  {
    match v
    case Num(n) => n >= k
    case Bool(b) => (if b then 1 else 0) >= k
    case Null => 0 >= k
    case _ => false
  }

  /** For a positive bound only numbers can compare at least that bound. */
  lemma AtLeastPositiveIsNumber(v: Value, k: int)
    requires k > 1 && AtLeast(v, k)
    ensures v.Num? && v.n >= k && Truthy(v)
  {
  }

  function Object2(k1: string, v1: Value, k2: string, v2: Value): Value {
    Obj(map[k1 := v1, k2 := v2])
  }
}
