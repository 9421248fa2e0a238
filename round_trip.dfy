/**
 * What `toDict` followed by `fromDict` gives back. A dictionary written by `toDict` is read
 * back into the same object when the object is canonical: every value it holds is one
 * `toDict` writes (nothing falsy or empty is left in `_values`), every nested object has
 * exactly the class its property declares (a resource-typed property aside, whose dictionary
 * names its own class), and every value `_fromDict` converts comes back unchanged (strings
 * for `str`, non-zero integers for `int`, `True` for `bool`, scalars for `FHIRDate` and in
 * lists of non-object type).
 */
module RoundTrip {
  import opened Wrappers
  import opened Definitions
  import opened Exceptions
  import opened ObjectModel
  import opened Serialization

  /** A value JSON holds as a scalar, which `_fromDict` keeps as it is. */
  predicate Scalar(x: Value) {
    x.VNone? || x.VStr? || x.VInt? || x.VBool?
  }

  /** Every set property of `v` holds a value that survives `toDict` and `_fromDict`. */
  predicate CanonicalObj(reg: Registry, v: Value)
    decreases v, 1
  {
    && v.VObj? && v.typeName in reg.classes
    && forall k :: k in v.fields ==>
         && FindProp(reg, v.typeName, k).Some?
         && CanonicalField(reg, FindProp(reg, v.typeName, k).value, v.fields[k])
  }

  /** Value `x` of property `d` is written by `toDict` and read back as itself by `_fromDict`. */
  predicate CanonicalField(reg: Registry, d: PropertyDefinition, x: Value)
    decreases x, 2
  {
    match PropType(reg, d.ty)
    case Failure(_) => false
    case Success(pt) =>
      if pt.ModelClass? && IsSubclass(reg, pt.name, ResourceClass) then
        && !d.IsList() && x.VObj? && IsSubclass(reg, x.typeName, ResourceClass)
        && ValidateType(reg, d, x).Pass? && CanonicalObj(reg, x)
      else if d.IsList() then
        && x.VList? && x.items != [] && WithinMax(d, |x.items|)
        && (forall i :: 0 <= i < |x.items| ==> ValidateType(reg, d, x.items[i]).Pass?)
        && if pt.ModelClass? && IsSubclass(reg, pt.name, FHIRBaseObjectClass) then
             forall i :: 0 <= i < |x.items| ==>
               x.items[i].VObj? && x.items[i].typeName == pt.name && CanonicalObj(reg, x.items[i])
           else
             forall i :: 0 <= i < |x.items| ==> Scalar(x.items[i])
      else if pt == ModelClass(FHIRDateClass) then
        Scalar(x) && Truthy(x) && ValidateType(reg, d, x).Pass?
      else if pt.ModelClass? then
        && x.VObj? && x.typeName == pt.name && ValidateType(reg, d, x).Pass?
        && CanonicalObj(reg, x) && ObjToDict(reg, x) != []
      else
        && pt.BuiltinClass?
        && match pt.b
           case Str => x.VStr? && x.s != ""
           case Int => x.VInt? && x.i != 0
           case Bool => x == VBool(true)
  }

  /** The entry `_fromDict` skips: the `resourceType` a resource's dictionary starts with. */
  function SkipOf(reg: Registry, t: string): (r: int)
    ensures r == |Header(reg, t)| - 1
  {
    if IsSubclass(reg, t, ResourceClass) then 0 else -1
  }

  /** The fields of `fields` named by one of `props`. */
  function Restrict(fields: map<string, Value>, props: seq<PropertyDefinition>): map<string, Value> {
    map k | k in fields && k in Names(props) :: fields[k]
  }

  /** A nested object written by `toDict` is rebuilt as itself. */
  lemma RoundTripObj(reg: Registry, v: Value)
    requires WellFormed(reg) && CanonicalObj(reg, v)
    ensures Build(reg, v.typeName, JObj(ObjToDict(reg, v)), SkipOf(reg, v.typeName)) == Success(v)
    decreases v, 4
  {
    var t := v.typeName;
    var j := JObj(ObjToDict(reg, v));
    RoundTripFrom(reg, v, 0);
    assert Props(reg, t)[..0] == [];
    assert Restrict(v.fields, []) == map[];
    if IsSubclass(reg, t, ResourceClass) {
      assert FromEntries(reg, t, map[], j, 0, 0) == FromEntries(reg, t, map[], j, 1, 0);
    }
  }

  /** Where the entries of property `m` (in `dir()` order) start in the object's dictionary. */
  function EntryIndex(reg: Registry, v: Value, m: nat): (r: nat)
    requires v.VObj? && m <= |Props(reg, v.typeName)|
    ensures r <= |ObjToDict(reg, v)|
  {
    PropEntriesPrefix(reg, v, Props(reg, v.typeName), m);
    |Header(reg, v.typeName)| + |PropEntries(reg, v, Props(reg, v.typeName)[..m])|
  }

  /**
   * `_fromDict` past the header and the entries of the first `m` properties has set exactly
   * those properties, and finishes with the object's own fields.
   */
  lemma {:induction false} RoundTripFrom(reg: Registry, v: Value, m: nat)
    requires WellFormed(reg) && CanonicalObj(reg, v)
    requires m <= |Props(reg, v.typeName)|
    ensures FromEntries(reg, v.typeName, Restrict(v.fields, Props(reg, v.typeName)[..m]),
                        JObj(ObjToDict(reg, v)), EntryIndex(reg, v, m), SkipOf(reg, v.typeName))
            == Success(v.fields)
    decreases v, 3, |Props(reg, v.typeName)| - m
  {
    var props := Props(reg, v.typeName);
    if m == |props| {
      assert props[..m] == props;
      forall k | k in v.fields
        ensures k in Names(props)
      {
        var d := FindProp(reg, v.typeName, k).value;
        var i :| 0 <= i < |props| && props[i] == d;
        assert Names(props)[i] == k;
      }
      assert Restrict(v.fields, props) == v.fields;
    } else {
      RoundTripFrom(reg, v, m + 1);
      RoundTripStep(reg, v, m);
    }
  }

  /** `_fromDict` reads the entry of property `m`, if `toDict` wrote one, back into its field. */
  lemma RoundTripStep(reg: Registry, v: Value, m: nat)
    requires WellFormed(reg) && CanonicalObj(reg, v)
    requires m < |Props(reg, v.typeName)|
    ensures var t := v.typeName;
            var props := Props(reg, t);
            var j := JObj(ObjToDict(reg, v));
            FromEntries(reg, t, Restrict(v.fields, props[..m]), j, EntryIndex(reg, v, m), SkipOf(reg, t))
            == FromEntries(reg, t, Restrict(v.fields, props[..m + 1]), j, EntryIndex(reg, v, m + 1), SkipOf(reg, t))
    decreases v, 2, 1
  {
    var props := Props(reg, v.typeName);
    RestrictStep(v.fields, props, m);
    if props[m].name in v.fields {
      StepSet(reg, v, m);
    } else {
      EntryAtUnset(reg, v, m);
    }
  }

  /** The step of `RoundTripStep` for a property the object has set. */
  lemma StepSet(reg: Registry, v: Value, m: nat)
    requires WellFormed(reg) && CanonicalObj(reg, v)
    requires m < |Props(reg, v.typeName)| && Props(reg, v.typeName)[m].name in v.fields
    ensures var t := v.typeName;
            var props := Props(reg, t);
            var d := props[m];
            FromEntries(reg, t, Restrict(v.fields, props[..m]), JObj(ObjToDict(reg, v)), EntryIndex(reg, v, m), SkipOf(reg, t))
            == FromEntries(reg, t, Restrict(v.fields, props[..m])[d.name := v.fields[d.name]], JObj(ObjToDict(reg, v)),
                           EntryIndex(reg, v, m + 1), SkipOf(reg, t))
    decreases v, 2, 0
  {
    var t := v.typeName;
    var d := Props(reg, t)[m];
    var x := v.fields[d.name];
    var fields := Restrict(v.fields, Props(reg, t)[..m]);
    FindDeclared(reg, t, d);
    RoundTripField(reg, d, x);
    SetCanonical(reg, d, fields, x);
    var json := Emit(reg, d, x).value;
    EntryAtSet(reg, v, m, json);
    ReadBack(reg, t, d, x, json, fields, JObj(ObjToDict(reg, v)), EntryIndex(reg, v, m), SkipOf(reg, t));
  }

  /** One entry written for a set property is converted and assigned, and reading moves on. */
  lemma ReadBack(reg: Registry, t: string, d: PropertyDefinition, x: Value, json: Json,
                 fields: map<string, Value>, j: Json, i: nat, skip: int)
    requires FindProp(reg, t, d.name) == Some(d)
    requires ConvertValue(reg, d, json) == Success(x)
    requires SetProperty(reg, d, fields, x) == SetOutcome(fields[d.name := x], Pass)
    requires j.JObj? && i < |j.entries| && i != skip && j.entries[i] == (d.name, json)
    ensures FromEntries(reg, t, fields, j, i, skip) == FromEntries(reg, t, fields[d.name := x], j, i + 1, skip)
  {
    assert ConvertEntry(reg, t, d.name, json) == Success((d, x));
  }

  /** The fields of the first `m + 1` properties are those of the first `m` and property `m`'s own. */
  lemma RestrictStep(fields: map<string, Value>, props: seq<PropertyDefinition>, m: nat)
    requires m < |props|
    ensures var name := props[m].name;
            Restrict(fields, props[..m + 1])
            == if name in fields then Restrict(fields, props[..m])[name := fields[name]]
               else Restrict(fields, props[..m])
  {
    assert props[..m + 1][..m] == props[..m];
    assert Names(props[..m + 1]) == Names(props[..m]) + [props[m].name];
  }

  /** The entry `toDict` writes for a set property `m` sits at that property's index. */
  lemma EntryAtSet(reg: Registry, v: Value, m: nat, json: Json)
    requires v.VObj? && m < |Props(reg, v.typeName)|
    requires var d := Props(reg, v.typeName)[m]; d.name in v.fields && Emit(reg, d, v.fields[d.name]) == Some(json)
    ensures EntryIndex(reg, v, m) < |ObjToDict(reg, v)| && EntryIndex(reg, v, m + 1) == EntryIndex(reg, v, m) + 1
    ensures EntryIndex(reg, v, m) != SkipOf(reg, v.typeName)
    ensures ObjToDict(reg, v)[EntryIndex(reg, v, m)] == (Props(reg, v.typeName)[m].name, json)
  {
    var props := Props(reg, v.typeName);
    var d := props[m];
    var before := PropEntries(reg, v, props[..m]);
    assert props[..m + 1][..m] == props[..m];
    assert PropEntries(reg, v, props[..m + 1]) == before + [(d.name, json)];
    PropEntriesPrefix(reg, v, props, m + 1);
    assert ObjToDict(reg, v) == Header(reg, v.typeName) + PropEntries(reg, v, props);
    assert PropEntries(reg, v, props)[|before|] == (d.name, json);
  }

  /** Nothing is written for a property the object has not set. */
  lemma EntryAtUnset(reg: Registry, v: Value, m: nat)
    requires v.VObj? && m < |Props(reg, v.typeName)| && Props(reg, v.typeName)[m].name !in v.fields
    ensures EntryIndex(reg, v, m + 1) == EntryIndex(reg, v, m)
  {
    var props := Props(reg, v.typeName);
    assert props[..m + 1][..m] == props[..m];
    assert PropEntries(reg, v, props[..m + 1]) == PropEntries(reg, v, props[..m]);
  }

  /** The entries of the first `m` properties begin the entries of all of them. */
  lemma {:induction false} PropEntriesPrefix(reg: Registry, v: Value, props: seq<PropertyDefinition>, m: nat)
    requires v.VObj? && m <= |props|
    ensures PropEntries(reg, v, props[..m]) <= PropEntries(reg, v, props)
    decreases |props| - m
  {
    if m < |props| {
      PropEntriesPrefix(reg, v, props, m + 1);
      assert props[..m + 1][..m] == props[..m];
      assert PropEntries(reg, v, props[..m + 1])
             == PropEntries(reg, v, props[..m]) + PropEntry(reg, v, props[m]);
    } else {
      assert props[..m] == props;
    }
  }

  /** Assigning a canonical value through its property's setter stores it and raises nothing. */
  lemma SetCanonical(reg: Registry, d: PropertyDefinition, fields: map<string, Value>, x: Value)
    requires CanonicalField(reg, d, x)
    ensures SetProperty(reg, d, fields, x) == SetOutcome(fields[d.name := x], Pass)
  {
    if d.IsList() {
      var pt := PropType(reg, d.ty).value;
      if !(pt.ModelClass? && IsSubclass(reg, pt.name, ResourceClass)) {
        SetListReplaces(reg, d, fields, x.items);
        assert x == VList(x.items);
      }
    }
  }

  /** A value `toDict` writes for a property is converted back into that value. */
  lemma RoundTripField(reg: Registry, d: PropertyDefinition, x: Value)
    requires WellFormed(reg) && CanonicalField(reg, d, x)
    ensures Emit(reg, d, x).Some? && ConvertValue(reg, d, Emit(reg, d, x).value) == Success(x)
    decreases x, 5
  {
    var pt := PropType(reg, d.ty).value;
    if pt.ModelClass? && IsSubclass(reg, pt.name, ResourceClass) {
      RoundTripObj(reg, x);
      var e := ObjToDict(reg, x);
      assert e[0] == (ResourceTypeKey, JStr(x.typeName));
      assert KeyIndex(e, ResourceTypeKey) == Some(0);
    } else if d.IsList() {
      var json := JList(RawItems(reg, x, 0));
      if pt.ModelClass? && IsSubclass(reg, pt.name, FHIRBaseObjectClass) {
        RoundTripItems(reg, pt.name, x, 0);
        assert x.items[0..] == x.items;
      } else {
        assert JsonItemsToRaw(json, 0) == x.items;
      }
    } else if pt == ModelClass(FHIRDateClass) {
    } else if pt.ModelClass? {
      RoundTripObj(reg, x);
    } else {
    }
  }

  /** The dictionaries of a list of nested objects are rebuilt, in order, as those objects. */
  lemma {:induction false} RoundTripItems(reg: Registry, n: string, x: Value, i: nat)
    requires WellFormed(reg) && x.VList? && i <= |x.items| && !IsSubclass(reg, n, ResourceClass)
    requires forall k :: 0 <= k < |x.items| ==>
               x.items[k].VObj? && x.items[k].typeName == n && CanonicalObj(reg, x.items[k])
    ensures ConvertItems(reg, n, JList(RawItems(reg, x, 0)), i) == Success(x.items[i..])
    decreases x, 4, |x.items| - i
  {
    if i < |x.items| {
      var item := x.items[i];
      RoundTripObj(reg, item);
      RoundTripItems(reg, n, x, i + 1);
      assert SkipOf(reg, item.typeName) == -1;
      var json := JList(RawItems(reg, x, 0));
      assert json.items[i] == JObj(ObjToDict(reg, item));
      assert Build(reg, n, json.items[i], -1) == Success(item);
      assert ConvertItems(reg, n, json, i) == Success([item] + x.items[i + 1..]);
      assert [item] + x.items[i + 1..] == x.items[i..];
    } else {
      assert x.items[i..] == [];
    }
  }

  /** `Resource.fromDict(obj.toDict())` rebuilds a canonical resource. */
  lemma FromDictOfToDict(reg: Registry, v: Value)
    requires WellFormed(reg) && CanonicalObj(reg, v)
    requires IsSubclass(reg, v.typeName, ResourceClass) && v.typeName != ""
    ensures FromDict(reg, ObjToDict(reg, v)) == Success(v)
  {
    RoundTripObj(reg, v);
    var e := ObjToDict(reg, v);
    assert e[0] == (ResourceTypeKey, JStr(v.typeName));
    assert KeyIndex(e, ResourceTypeKey) == Some(0);
  }

  /**
   * `cls.loads(obj.dumps())` rebuilds a canonical resource whose class is `cls` or one of its
   * subclasses.
   */
  lemma LoadsOfDumps(reg: Registry, cls: string, v: Value)
    requires WellFormed(reg) && CanonicalObj(reg, v) && cls in reg.classes
    requires IsSubclass(reg, v.typeName, ResourceClass) && IsSubclass(reg, v.typeName, cls)
    ensures Dumps(reg, v, "json").Success?
    ensures Loads(reg, cls, Dumps(reg, v, "json").value, "json") == Success(v)
  {
    RoundTripObj(reg, v);
    var e := ObjToDict(reg, v);
    assert e[0] == (ResourceTypeKey, JStr(v.typeName));
    assert KeyIndex(e, ResourceTypeKey) == Some(0);
  }
}
