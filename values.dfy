/**
 * The Java objects that flow through a tool call as argument values. Only the runtime class
 * of a value matters to the client (validation is a check of `instanceof`), so each
 * constructor stands for one class, or one family of classes named by `cls`.
 */
module Values {

  datatype Value =
    | Null                                          // a null reference
    | Str(s: string)                                // java.lang.String
    | Int(i: int)                                   // java.lang.Integer
    | Long(l: int)                                  // java.lang.Long
    | Dbl(bits: int)                                // java.lang.Double, by its bit pattern
    | OtherNumber(cls: string)                      // Float, Short, BigDecimal, ...: any other Number
    | Bool(b: bool)                                 // java.lang.Boolean
    | ListVal(cls: string, items: seq<Value>)       // an implementation of java.util.List
    | ArrayVal(component: string, items: seq<Value>)  // a native Java array
    | MapVal(cls: string, entries: map<string, Value>)  // an implementation of java.util.Map
    | Other(cls: string)                            // an object of any other class

  /** `value.getClass().getSimpleName()`, defined for non-null values. */
  function SimpleName(v: Value): string
    requires v != Null
  {
    match v
    case Str(_) => "String"
    case Int(_) => "Integer"
    case Long(_) => "Long"
    case Dbl(_) => "Double"
    case OtherNumber(cls) => cls
    case Bool(_) => "Boolean"
    case ListVal(cls, _) => cls
    case ArrayVal(component, _) => component + "[]"
    case MapVal(cls, _) => cls
    case Other(cls) => cls
  }

  /** `value instanceof Number`. */
  predicate IsNumber(v: Value)
  {
    v.Int? || v.Long? || v.Dbl? || v.OtherNumber?
  }

  /** `value instanceof Supplier` is decided by the binding, not by the value: a parameter is
      bound either to a plain object or to a zero-argument producer. */
  datatype Bound =
    | Literal(v: Value)
    | Supplier(get: () -> Value)

  /** The value a binding contributes when a call is made: a producer is called then. */
  function Resolve(b: Bound): Value
  {
    match b
    case Literal(v) => v
    case Supplier(get) => get()
  }
}
