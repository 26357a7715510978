/**
 * The value domain shared by the state-model engine and the field controllers.
 *
 * State records, property records and dirty maps are plain JavaScript objects in
 * the repository; here they are finite maps from key to value. Values are
 * immutable, so the deep comparison `isEqual` of `@uform/shared` is Dafny's `==`
 * and its `clone` is the identity.
 */
module Values {

  datatype Option<T> = None | Some(value: T)

  /** A JavaScript value as far as the engine looks at it. */
  datatype Value =
    | Undefined
    | Bool(b: bool)
    | Num(n: int)
    | Str(s: string)
    | Record(fields: map<string, Value>)
    /** An object the model does not look inside (a FormPath instance, a function, ...). */
    | Handle(id: nat)

  /** A plain object: its own enumerable keys and their values. */
  type Rec = map<string, Value>

  /**
   * Property access `r[k]`: a missing key reads as `undefined`. The record has
   * no prototype, so this does not hold in JavaScript for keys that name
   * `Object.prototype` members (`constructor`, `toString`, `__proto__`, ...),
   * which the model leaves out.
   */
  function Get(r: Rec, k: string): (v: Value)
    ensures k !in r ==> v == Undefined
    ensures k in r ==> v == r[k]
  {
    if k in r then r[k] else Undefined
  }

  /** JavaScript truthiness (NaN is not modelled: numbers are integers). */
  predicate Truthy(v: Value)
  {
    match v
    case Undefined => false
    case Bool(b) => b
    case Num(n) => n != 0
    case Str(s) => s != ""
    case Record(_) => true
    case Handle(_) => true
  }
}
