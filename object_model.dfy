/**
 * The typed-property machinery behind every FHIR class: the classes visible in the models
 * namespace, `eval_type`, `PropertyMixin.validate_type`, `PropertyList.append/insert` and the
 * `Property` descriptor's getter and setter, all as functions on an object's `_values`
 * dictionary. `FieldsConform` is the invariant the setters keep: only declared properties are
 * stored, list-valued ones hold a list no longer than `count_max`, scalar ones never a list.
 */
module ObjectModel {
  import opened Wrappers
  import opened Strings
  import opened Definitions
  import opened Exceptions

  const ResourceClass: string := "Resource"
  const FHIRBaseObjectClass: string := "FHIRBaseObject"
  const PropertyMixinClass: string := "PropertyMixin"
  const FHIRDateClass: string := "FHIRDate"

  /** An exception raised, or none. */
  datatype Outcome = Pass | Fail(error: FhirError)

  /** A class of the models namespace: all its ancestors, and its properties in `dir()` order. */
  datatype ClassInfo = ClassInfo(bases: set<string>, props: seq<PropertyDefinition>)

  /**
   * The models namespace: the classes `getattr(sys.modules[__name__], name)` can find, and
   * `FHIRDate.validate_type`, which is not part of this model.
   */
  datatype Registry = Registry(classes: map<string, ClassInfo>, validDate: Value -> bool)

  /** Python's ordering of strings: lexicographic by code point. */
  predicate Below(a: string, b: string) {
    if |a| == 0 then |b| > 0
    else |b| > 0 && (a[0] < b[0] || (a[0] == b[0] && Below(a[1..], b[1..])))
  }

  function Names(props: seq<PropertyDefinition>): (names: seq<string>)
    ensures |names| == |props| && forall i :: 0 <= i < |props| ==> names[i] == props[i].name
  {
    if props == [] then [] else Names(props[..|props| - 1]) + [props[|props| - 1].name]
  }

  /**
   * Each class lists distinct property names, in the alphabetical order in which `dir(cls)`
   * yields them, none of them containing a space.
   */
  ghost predicate WellFormed(reg: Registry) {
    forall t :: t in reg.classes ==>
      var props := reg.classes[t].props;
      && (forall i, j :: 0 <= i < j < |props| ==> Below(props[i].name, props[j].name))
      && (forall i, j :: 0 <= i < j < |props| ==> props[i].name != props[j].name)
      && (forall i :: 0 <= i < |props| ==> ' ' !in props[i].name)
  }

  /** `issubclass(a, b)` */
  predicate IsSubclass(reg: Registry, a: string, b: string) {
    a == b || (a in reg.classes && b in reg.classes[a].bases)
  }

  /** `isinstance(v, cls)` for a class of the models namespace */
  predicate IsInstance(reg: Registry, v: Value, cls: string) {
    v.VObj? && IsSubclass(reg, v.typeName, cls)
  }

  function Props(reg: Registry, t: string): seq<PropertyDefinition> {
    if t in reg.classes then reg.classes[t].props else []
  }

  /** The property a class declares under `name`, if any. */
  function FindProp(reg: Registry, t: string, name: string): (r: Option<PropertyDefinition>)
    ensures r.Some? ==> r.value in Props(reg, t) && r.value.name == name
    ensures r.None? ==> forall d :: d in Props(reg, t) ==> d.name != name
  {
    FindIn(Props(reg, t), name)
  }

  function FindIn(props: seq<PropertyDefinition>, name: string): (r: Option<PropertyDefinition>)
    ensures r.Some? ==> r.value in props && r.value.name == name
    ensures r.None? ==> forall d :: d in props ==> d.name != name
  {
    if props == [] then None
    else if props[0].name == name then Some(props[0])
    else FindIn(props[1..], name)
  }

  /** In a well-formed registry, looking a declared property up by name finds that property. */
  lemma {:induction false} FindDeclared(reg: Registry, t: string, d: PropertyDefinition)
    requires WellFormed(reg) && t in reg.classes && d in reg.classes[t].props
    ensures FindProp(reg, t, d.name) == Some(d)
  {
    var props := reg.classes[t].props;
    var i :| 0 <= i < |props| && props[i] == d;
    FindAt(props, i);
  }

  lemma {:induction false} FindAt(props: seq<PropertyDefinition>, i: nat)
    requires i < |props|
    requires forall a, b :: 0 <= a < b < |props| ==> props[a].name != props[b].name
    ensures FindIn(props, props[i].name) == Some(props[i])
    decreases i
  {
    if i > 0 {
      assert props[0].name != props[i].name;
      FindAt(props[1..], i - 1);
      assert props[1..][i - 1] == props[i];
    }
  }

  /** What `eval_type` or a property's own type resolves to. */
  datatype Resolved = ObjectClass | BuiltinClass(b: Builtin) | ModelClass(name: string)

  /** `eval_type(type_name)`: a string is looked up in the namespace, anything else is `object`. */
  function EvalType(reg: Registry, ty: TypeRef): (r: Result<Resolved, FhirError>)
    ensures ty.Builtin? ==> r == Success(ObjectClass)
    ensures ty.Named? ==> (r.Success? <==> ty.name in reg.classes)
    ensures r.Success? && ty.Named? ==> r.value == ModelClass(ty.name)
  {
    match ty
    case Builtin(_) => Success(ObjectClass)
    case Named(n) => if n in reg.classes then Success(ModelClass(n)) else Failure(AttributeError(n))
  }

  /** `_get_property_details_for_name`: like `eval_type`, but a class object stays itself. */
  function PropType(reg: Registry, ty: TypeRef): Result<Resolved, FhirError> {
    match ty
    case Builtin(b) => Success(BuiltinClass(b))
    case Named(_) => EvalType(reg, ty)
  }

  /** `str(value)` for the values a date check reports; containers by their class name. */
  function StrOf(v: Value): string {
    match v
    case VNone => "None"
    case VStr(s) => s
    case VInt(i) => IntToString(i)
    case VBool(b) => if b then "True" else "False"
    case _ => "<" + ClassName(v) + ">"
  }

  /**
   * `PropertyMixin.validate_type`. Only a property whose type names a `PropertyMixin`
   * subclass is checked with `isinstance`; a property declared with a class object resolves to
   * `object` and accepts anything but a missing required value.
   */
  function ValidateType(reg: Registry, d: PropertyDefinition, v: Value): (r: Outcome)
    ensures v == VNone ==> (r.Fail? <==> d.required)
    ensures v != VNone && d.ty.Builtin? ==> r == Pass
    ensures r.Fail? && r.error.PropertyTypeError? ==>
              d.ty.Named? && IsSubclass(reg, d.ty.name, PropertyMixinClass) && !IsInstance(reg, v, d.ty.name)
    ensures v != VNone && d.ty.Named? && d.ty.name in reg.classes && d.ty.name != FHIRDateClass ==>
              (r.Fail? <==> IsSubclass(reg, d.ty.name, PropertyMixinClass) && !IsInstance(reg, v, d.ty.name))
  {
    if v != VNone then
      match EvalType(reg, d.ty)
      case Failure(e) => Fail(e)
      case Success(ObjectClass) => Pass
      case Success(BuiltinClass(_)) => Pass
      case Success(ModelClass(n)) =>
        if n == FHIRDateClass && !reg.validDate(v) then
          Fail(ValueError("Value \"" + StrOf(v) + "\" is not a valid value of FHIRDate"))
        else if IsSubclass(reg, n, PropertyMixinClass) && !IsInstance(reg, v, n) then
          Fail(PropertyTypeError(ClassName(v), d))
        else Pass
    else if d.required then
      Fail(PropertyError("The value of property " + d.name + " could't be none"))
    else Pass
  }

  /** A list of this length respects the property's `count_max`. */
  predicate WithinMax(d: PropertyDefinition, len: nat) {
    d.countMax.Unbounded? || len <= d.countMax.n
  }

  /** `PropertyList.append`: validate, then refuse once the list is full, then append. */
  function AppendItem(reg: Registry, d: PropertyDefinition, items: seq<Value>, v: Value)
    : (r: Result<seq<Value>, FhirError>)
    ensures r.Success? <==> ValidateType(reg, d, v).Pass? && d.HasRoom(|items|)
    ensures r.Success? ==> r.value == items + [v]
    ensures ValidateType(reg, d, v).Pass? && !d.HasRoom(|items|) ==> r == Failure(PropertyMaxSizeError(d))
    ensures ValidateType(reg, d, v).Fail? ==> r == Failure(ValidateType(reg, d, v).error)
  {
    match ValidateType(reg, d, v)
    case Fail(e) => Failure(e)
    case Pass => if d.HasRoom(|items|) then Success(items + [v]) else Failure(PropertyMaxSizeError(d))
  }

  /** The position `list.insert(i, x)` puts `x` at: negative indexes count from the end, then clamp. */
  function InsertPosition(len: nat, i: int): (j: nat)
    ensures j <= len
    ensures 0 <= i <= len ==> j == i
    ensures -(len as int) <= i < 0 ==> j == len + i
    ensures i > len ==> j == len
    ensures i < -(len as int) ==> j == 0
  {
    if i < 0 then (if i + len < 0 then 0 else i + len) else if i > len then len else i
  }

  /** `list.insert(i, x)` */
  function PyInsert(items: seq<Value>, i: int, v: Value): (r: seq<Value>)
    ensures |r| == |items| + 1
    ensures var j := InsertPosition(|items|, i);
            r[j] == v && r[..j] == items[..j] && r[j + 1..] == items[j..]
  {
    var j := InsertPosition(|items|, i);
    items[..j] + [v] + items[j..]
  }

  /** `list.insert` adds exactly one occurrence of the value and loses nothing. */
  lemma PyInsertAddsOne(items: seq<Value>, i: int, v: Value)
    ensures multiset(PyInsert(items, i, v)) == multiset(items) + multiset{v}
  {
    var j := InsertPosition(|items|, i);
    assert items == items[..j] + items[j..];
  }

  /** `PropertyList.insert`: the same checks as `append`, then Python's `list.insert`. */
  function InsertItem(reg: Registry, d: PropertyDefinition, items: seq<Value>, i: int, v: Value)
    : (r: Result<seq<Value>, FhirError>)
    ensures r.Success? <==> AppendItem(reg, d, items, v).Success?
    ensures r.Failure? ==> r == AppendItem(reg, d, items, v)
    ensures r.Success? ==> r.value == PyInsert(items, i, v)
  {
    match ValidateType(reg, d, v)
    case Fail(e) => Failure(e)
    case Pass => if d.HasRoom(|items|) then Success(PyInsert(items, i, v)) else Failure(PropertyMaxSizeError(d))
  }

  /**
   * Appending `items` one by one onto `acc` with `PropertyList.append`, stopping at the first
   * exception: the list built so far and the exception, if any.
   */
  function AppendAll(reg: Registry, d: PropertyDefinition, acc: seq<Value>, items: seq<Value>)
    : (r: (seq<Value>, Outcome))
    ensures |acc| <= |r.0| <= |acc| + |items| && r.0 == acc + items[..|r.0| - |acc|]
    ensures r.1.Pass? <==> r.0 == acc + items
    ensures r.1.Fail? ==> |r.0| - |acc| < |items|
                          && AppendItem(reg, d, r.0, items[|r.0| - |acc|]) == Failure(r.1.error)
    ensures WithinMax(d, |acc|) ==> WithinMax(d, |r.0|)
    decreases |items|
  {
    if items == [] then (acc, Pass)
    else
      match AppendItem(reg, d, acc, items[0])
      case Failure(e) => (acc, Fail(e))
      case Success(next) =>
        var r := AppendAll(reg, d, next, items[1..]);
        assert items[..|r.0| - |acc|] == [items[0]] + items[1..][..|r.0| - |next|];
        r
  }

  /** `Property.__get__`: a list-valued property reads as an empty list until something is stored. */
  function GetProperty(fields: map<string, Value>, d: PropertyDefinition): (v: Value)
    ensures d.name in fields ==> v == fields[d.name]
    ensures d.name !in fields ==> v == (if d.IsList() then VList([]) else VNone)
  {
    if d.name in fields then fields[d.name] else if d.IsList() then VList([]) else VNone
  }

  /** The `setdefault` that `Property.__get__` performs for a list-valued property. */
  function Materialize(fields: map<string, Value>, d: PropertyDefinition): (r: map<string, Value>)
    ensures GetProperty(r, d) == GetProperty(fields, d)
    ensures forall k :: k in fields ==> k in r && r[k] == fields[k]
    ensures forall k :: k in r && k !in fields ==> k == d.name && d.IsList() && r[k] == VList([])
  {
    if d.IsList() && d.name !in fields then fields[d.name := VList([])] else fields
  }

  /** What a setter leaves behind: the new `_values` and the exception it raised, if any. */
  datatype SetOutcome = SetOutcome(fields: map<string, Value>, error: Outcome)

  /**
   * `Property.__set__`. A list-valued property takes only a list: its stored list is emptied and
   * refilled through `append`, so an exception part-way leaves the items accepted before it. A
   * scalar property refuses a list, validates the value and stores it.
   */
  function SetProperty(reg: Registry, d: PropertyDefinition, fields: map<string, Value>, value: Value)
    : (r: SetOutcome)
    ensures forall k :: k != d.name ==> (k in r.fields <==> k in fields) && (k in fields ==> r.fields[k] == fields[k])
    ensures d.IsList() && value.VList? ==>
              d.name in r.fields && r.fields[d.name].VList?
              && (r.error.Pass? <==> r.fields[d.name] == value)
              && r.fields[d.name].items <= value.items
    ensures d.IsList() && !value.VList? ==>
              r == SetOutcome(fields, Fail(PropertyError("The value of property " + d.name + " need to be a list")))
    ensures !d.IsList() && value.VList? ==>
              r == SetOutcome(fields, Fail(PropertyError("The value of property " + d.name + " shouldn't be a list")))
    ensures !d.IsList() && !value.VList? ==>
              (r.error.Pass? <==> ValidateType(reg, d, value).Pass?)
              && r.fields == if r.error.Pass? then fields[d.name := value] else fields
  {
    if d.IsList() then
      if value.VList? then
        var (kept, outcome) := AppendAll(reg, d, [], value.items);
        assert value == VList(value.items);
        SetOutcome(fields[d.name := VList(kept)], outcome)
      else
        SetOutcome(fields, Fail(PropertyError("The value of property " + d.name + " need to be a list")))
    else if value.VList? then
      SetOutcome(fields, Fail(PropertyError("The value of property " + d.name + " shouldn't be a list")))
    else
      match ValidateType(reg, d, value)
      case Fail(e) => SetOutcome(fields, Fail(e))
      case Pass => SetOutcome(fields[d.name := value], Pass)
  }

  /** The stored value suits the property: a list within `count_max` for a list, never a list otherwise. */
  predicate Conforms(d: PropertyDefinition, v: Value) {
    if d.IsList() then v.VList? && WithinMax(d, |v.items|) else !v.VList?
  }

  /** The invariant of an object's `_values` dictionary. */
  predicate FieldsConform(reg: Registry, t: string, fields: map<string, Value>) {
    forall k :: k in fields ==> FindProp(reg, t, k).Some? && Conforms(FindProp(reg, t, k).value, fields[k])
  }

  /** Setting a declared property keeps the invariant, whether or not the setter raises. */
  lemma SetPropertyKeepsInvariant(reg: Registry, t: string, d: PropertyDefinition, fields: map<string, Value>, value: Value)
    requires WellFormed(reg) && t in reg.classes && d in reg.classes[t].props
    requires FieldsConform(reg, t, fields)
    ensures FieldsConform(reg, t, SetProperty(reg, d, fields, value).fields)
  {
    FindDeclared(reg, t, d);
    if d.IsList() && value.VList? {
      var r := AppendAll(reg, d, [], value.items);
      assert WithinMax(d, 0);
    }
  }

  /** Storing a list that fits under a declared list-valued property keeps the invariant. */
  lemma StoreListKeepsInvariant(reg: Registry, t: string, name: string, fields: map<string, Value>, items: seq<Value>)
    requires FindProp(reg, t, name).Some? && FindProp(reg, t, name).value.IsList()
    requires WithinMax(FindProp(reg, t, name).value, |items|)
    requires FieldsConform(reg, t, fields)
    ensures FieldsConform(reg, t, fields[name := VList(items)])
  {
  }

  /** The `setdefault` of a declared property keeps the invariant. */
  lemma MaterializeKeepsInvariant(reg: Registry, t: string, name: string, fields: map<string, Value>)
    requires FindProp(reg, t, name).Some?
    requires FieldsConform(reg, t, fields)
    ensures FieldsConform(reg, t, Materialize(fields, FindProp(reg, t, name).value))
  {
    if FindProp(reg, t, name).value.IsList() {
      assert WithinMax(FindProp(reg, t, name).value, 0);
    }
  }

  /**
   * Assigning a list to a list-valued property replaces its contents: when no item is refused
   * the property holds exactly the assigned items, whatever it held before.
   */
  lemma SetListReplaces(reg: Registry, d: PropertyDefinition, fields: map<string, Value>, items: seq<Value>)
    requires d.IsList()
    requires forall i :: 0 <= i < |items| ==> ValidateType(reg, d, items[i]).Pass?
    requires WithinMax(d, |items|)
    ensures SetProperty(reg, d, fields, VList(items)) == SetOutcome(fields[d.name := VList(items)], Pass)
  {
    AppendAllAccepts(reg, d, [], items);
  }

  /** Items that all validate and fit are all appended. */
  lemma {:induction false} AppendAllAccepts(reg: Registry, d: PropertyDefinition, acc: seq<Value>, items: seq<Value>)
    requires forall i :: 0 <= i < |items| ==> ValidateType(reg, d, items[i]).Pass?
    requires WithinMax(d, |acc| + |items|)
    ensures AppendAll(reg, d, acc, items) == (acc + items, Pass)
    decreases |items|
  {
    if items != [] {
      assert d.HasRoom(|acc|);
      AppendAllAccepts(reg, d, acc + [items[0]], items[1..]);
      assert acc + [items[0]] + items[1..] == acc + items;
    }
  }

  /** One item too many: a bounded list refuses the `count_max + 1`-th item and keeps the rest. */
  lemma SetListOverflow(reg: Registry, d: PropertyDefinition, fields: map<string, Value>, items: seq<Value>)
    requires d.IsList() && d.countMax.Finite? && |items| == d.countMax.n + 1
    requires forall i :: 0 <= i < |items| ==> ValidateType(reg, d, items[i]).Pass?
    ensures SetProperty(reg, d, fields, VList(items))
            == SetOutcome(fields[d.name := VList(items[..d.countMax.n])], Fail(PropertyMaxSizeError(d)))
  {
    var n := d.countMax.n;
    AppendAllAccepts(reg, d, [], items[..n]);
    AppendAllSplit(reg, d, [], items[..n], [items[n]]);
    assert items[..n] + [items[n]] == items;
    assert [] + items[..n] == items[..n];
    assert AppendItem(reg, d, items[..n], items[n]) == Failure(PropertyMaxSizeError(d));
    assert AppendAll(reg, d, items[..n], [items[n]]) == (items[..n], Fail(PropertyMaxSizeError(d)));
  }

  /** Appending in two runs is appending once, when the first run raises nothing. */
  lemma {:induction false} AppendAllSplit(reg: Registry, d: PropertyDefinition, acc: seq<Value>, xs: seq<Value>, ys: seq<Value>)
    requires AppendAll(reg, d, acc, xs).1.Pass?
    ensures AppendAll(reg, d, acc, xs + ys) == AppendAll(reg, d, acc + xs, ys)
    decreases |xs|
  {
    if xs == [] {
      assert xs + ys == ys;
    } else {
      var next := acc + [xs[0]];
      assert (xs + ys)[1..] == xs[1..] + ys;
      AppendAllSplit(reg, d, next, xs[1..], ys);
      assert next + xs[1..] == acc + xs;
    }
  }
}
