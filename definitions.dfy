/**
 * The vocabulary of the FHIR object model: the values a property can hold and the
 * definition that a `Property` descriptor carries (name, type, cardinality, requiredness).
 */
module Definitions {
  import opened Wrappers
  import opened Strings

  /**
   * A Python value as the object model sees it. `VList` is any list (a plain list handed to a
   * setter or a `PropertyList` held by an object), `VDict` a plain dictionary, `VObj` an
   * instance of a FHIR class with its `_values` dictionary. Nested objects are held by value.
   */
  datatype Value =
    | VNone
    | VStr(s: string)
    | VInt(i: int)
    | VBool(b: bool)
    | VList(items: seq<Value>)
    | VDict(entries: seq<(string, Value)>)
    | VObj(typeName: string, fields: map<string, Value>)

  /** Python truthiness: None, "", 0, False and empty containers are false; objects are true. */
  predicate Truthy(v: Value) {
    match v
    case VNone => false
    case VStr(s) => s != ""
    case VInt(i) => i != 0
    case VBool(b) => b
    case VList(items) => items != []
    case VDict(entries) => entries != []
    case VObj(_, _) => true
  }

  /** `value.__class__.__name__` */
  function ClassName(v: Value): string {
    match v
    case VNone => "NoneType"
    case VStr(_) => "str"
    case VInt(_) => "int"
    case VBool(_) => "bool"
    case VList(_) => "list"
    case VDict(_) => "dict"
    case VObj(t, _) => t
  }

  /** `count_max` after construction: an int, or `math.inf` for `'*'`. */
  datatype CountMax = Finite(n: int) | Unbounded {
    /** `format(count_max)` */
    function Format(): string {
      match this
      case Finite(n) => IntToString(n)
      case Unbounded => "inf"
    }
  }

  /** What a caller passes as `count_max`: the string `'*'` or a number. */
  datatype CountMaxArg = Star | Count(n: int)

  /** The Python built-in classes a property can be declared with directly. */
  datatype Builtin = Str | Int | Bool

  /**
   * A property's declared type: a class name, resolved lazily in the models namespace,
   * or a class object given directly.
   */
  datatype TypeRef = Named(name: string) | Builtin(b: Builtin) {
    /** `format(definition.type)`: the name itself, or the class object's repr. */
    function Format(): string {
      match this
      case Named(n) => n
      case Builtin(Str) => "<class 'str'>"
      case Builtin(Int) => "<class 'int'>"
      case Builtin(Bool) => "<class 'bool'>"
    }
  }

  datatype PropertyDefinition = PropertyDefinition(
    name: string, ty: TypeRef, countMax: CountMax, countMin: int, required: bool)
  {
    /** `count_max > 1`: the property holds a `PropertyList`. */
    predicate IsList() {
      countMax.Unbounded? || countMax.n > 1
    }

    /** `len < count_max`: a list of this length may take one more element. */
    predicate HasRoom(len: nat) {
      countMax.Unbounded? || len < countMax.n
    }
  }

  /**
   * `PropertyDefinition(name, property_type, count_max, count_min, required)`; `None` where
   * the constructor's assertion (no space in the name) fails.
   */
  function NewPropertyDefinition(name: string, ty: TypeRef, countMax: CountMaxArg, countMin: int, required: bool)
    : (r: Option<PropertyDefinition>)
    ensures r.Some? <==> ' ' !in name
    ensures r.Some? ==> r.value.name == name && r.value.ty == ty && r.value.countMin == countMin
                        && r.value.required == required
    ensures r.Some? ==> (r.value.countMax.Unbounded? <==> countMax.Star?)
    ensures r.Some? && countMax.Count? ==> r.value.countMax == Finite(countMax.n)
  {
    if ' ' in name then None
    else
      var max := match countMax
        case Star => Unbounded
        case Count(n) => Finite(n);
      Some(PropertyDefinition(name, ty, max, countMin, required))
  }

  /** A property is list-valued exactly when it was declared with `'*'` or a count above one. */
  lemma ListValuedIffStarOrAboveOne(name: string, ty: TypeRef, countMax: CountMaxArg, countMin: int, required: bool)
    requires ' ' !in name
    ensures NewPropertyDefinition(name, ty, countMax, countMin, required).value.IsList()
            <==> (countMax.Star? || countMax.n > 1)
  {
  }
}
