/**
 * Dictionary (de)serialisation of FHIR objects: `toDict`, `_fromDict`, `fromDict`, `fromJSON`,
 * `loads` and `dumps`. JSON text itself (`json.loads`, `json.dumps(indent=2)`) is not part of
 * this model; a JSON document is the parsed tree `Json`, an object its entries in order.
 */
module Serialization {
  import opened Wrappers
  import opened Strings
  import opened Definitions
  import opened Exceptions
  import opened ObjectModel

  const ResourceTypeKey: string := "resourceType"
  const SupportedFormats: seq<string> := ["json"]

  /** A parsed JSON document; an object keeps its keys in insertion order. */
  datatype Json =
    | JNull
    | JStr(s: string)
    | JInt(i: int)
    | JBool(b: bool)
    | JList(items: seq<Json>)
    | JObj(entries: seq<(string, Json)>)

  predicate JsonTruthy(j: Json) {
    match j
    case JNull => false
    case JStr(s) => s != ""
    case JInt(i) => i != 0
    case JBool(b) => b
    case JList(items) => items != []
    case JObj(entries) => entries != []
  }

  function Keys(entries: seq<(string, Json)>): (keys: seq<string>)
    ensures |keys| == |entries| && forall i :: 0 <= i < |entries| ==> keys[i] == entries[i].0
  {
    if entries == [] then [] else [entries[0].0] + Keys(entries[1..])
  }

  // ---------------------------------------------------------------- toDict

  /** `isinstance(self, Resource)` decides whether `resourceType` leads the dictionary. */
  function Header(reg: Registry, t: string): seq<(string, Json)> {
    if IsSubclass(reg, t, ResourceClass) then [(ResourceTypeKey, JStr(t))] else []
  }

  /**
   * `toDict`: `resourceType` first for a resource, then every property in `dir()` order that
   * has something to say.
   */
  function ObjToDict(reg: Registry, v: Value): seq<(string, Json)>
    requires v.VObj?
    decreases v, 4
  {
    Header(reg, v.typeName) + PropEntries(reg, v, Props(reg, v.typeName))
  }

  function PropEntries(reg: Registry, v: Value, props: seq<PropertyDefinition>): seq<(string, Json)>
    requires v.VObj?
    decreases v, 3, |props|
  {
    if props == [] then []
    else PropEntries(reg, v, props[..|props| - 1]) + PropEntry(reg, v, props[|props| - 1])
  }

  /** One property of `toDict`: the property's key with what `Emit` writes for its value, if anything. */
  function PropEntry(reg: Registry, v: Value, d: PropertyDefinition): (r: seq<(string, Json)>)
    requires v.VObj?
    ensures |r| <= 1
    decreases v, 2
  {
    if d.name !in v.fields then []
    else
      match Emit(reg, d, v.fields[d.name])
      case None => []
      case Some(j) => [(d.name, j)]
  }

  /**
   * What `toDict` writes for value `x` of property `d`: a nested object only when its own
   * dictionary is non-empty, a list only when non-empty (its objects as dictionaries, even
   * empty ones), any other value only when truthy.
   */
  function Emit(reg: Registry, d: PropertyDefinition, x: Value): (r: Option<Json>)
    ensures r.Some? ==> JsonTruthy(r.value)
    decreases x, 6
  {
    if x.VObj? then
      var nested := ObjToDict(reg, x);
      if nested != [] then Some(JObj(nested)) else None
    else if x.VList? && d.IsList() then
      var items := RawItems(reg, x, 0);
      if items != [] then Some(JList(items)) else None
    else if Truthy(x) then Some(Raw(reg, x))
    else None
  }

  /** A value as it lands in the dictionary: objects through `toDict`, everything else as is. */
  function Raw(reg: Registry, x: Value): Json
    decreases x, 5
  {
    match x
    case VNone => JNull
    case VStr(s) => JStr(s)
    case VInt(i) => JInt(i)
    case VBool(b) => JBool(b)
    case VList(_) => JList(RawItems(reg, x, 0))
    case VDict(_) => JObj(RawEntries(reg, x, 0))
    case VObj(_, _) => JObj(ObjToDict(reg, x))
  }

  function RawItems(reg: Registry, x: Value, i: nat): (r: seq<Json>)
    requires x.VList? && i <= |x.items|
    ensures |r| == |x.items| - i
    ensures forall k :: 0 <= k < |r| ==> r[k] == Raw(reg, x.items[i + k])
    decreases x, 1, |x.items| - i
  {
    if i == |x.items| then [] else [Raw(reg, x.items[i])] + RawItems(reg, x, i + 1)
  }

  function RawEntries(reg: Registry, x: Value, i: nat): (r: seq<(string, Json)>)
    requires x.VDict? && i <= |x.entries|
    ensures |r| == |x.entries| - i
    ensures forall k :: 0 <= k < |r| ==> r[k] == (x.entries[i + k].0, Raw(reg, x.entries[i + k].1))
    decreases x, 1, |x.entries| - i
  {
    if i == |x.entries| then []
    else [(x.entries[i].0, Raw(reg, x.entries[i].1))] + RawEntries(reg, x, i + 1)
  }

  /**
   * The property part of `toDict` writes only keys the object has set, each one a declared
   * property name, each with a truthy value.
   */
  lemma {:induction false} PropEntriesKeys(reg: Registry, v: Value, props: seq<PropertyDefinition>)
    requires v.VObj?
    ensures forall i :: 0 <= i < |PropEntries(reg, v, props)| ==>
              var entry := PropEntries(reg, v, props)[i];
              entry.0 in v.fields && entry.0 in Names(props) && JsonTruthy(entry.1)
    decreases |props|
  {
    if props != [] {
      var n := |props| - 1;
      var init := props[..n];
      PropEntriesKeys(reg, v, init);
      assert Names(props) == Names(init) + [props[n].name];
      var e0 := PropEntries(reg, v, init);
      var last := PropEntry(reg, v, props[n]);
      var e := PropEntries(reg, v, props);
      assert e == e0 + last;
      forall i | 0 <= i < |e|
        ensures e[i].0 in v.fields && e[i].0 in Names(props) && JsonTruthy(e[i].1)
      {
        if i < |e0| {
          assert e[i] == e0[i];
        } else {
          assert e[i] == last[0];
        }
      }
    }
  }

  /** Over properties in `dir()` order, the keys of the property part strictly increase. */
  lemma {:induction false} PropEntriesSorted(reg: Registry, v: Value, props: seq<PropertyDefinition>)
    requires v.VObj?
    requires forall a, b :: 0 <= a < b < |props| ==> Below(props[a].name, props[b].name)
    ensures forall a, b :: 0 <= a < b < |PropEntries(reg, v, props)| ==>
              Below(PropEntries(reg, v, props)[a].0, PropEntries(reg, v, props)[b].0)
    decreases |props|
  {
    if props != [] {
      var n := |props| - 1;
      var init := props[..n];
      PropEntriesSorted(reg, v, init);
      PropEntriesKeys(reg, v, init);
      var e0 := PropEntries(reg, v, init);
      var last := PropEntry(reg, v, props[n]);
      var e := PropEntries(reg, v, props);
      assert e == e0 + last;
      forall a, b | 0 <= a < b < |e|
        ensures Below(e[a].0, e[b].0)
      {
        assert e[a] == e0[a];
        if b >= |e0| {
          assert e[b] == last[0];
          assert e[a].0 in Names(init);
          var k :| 0 <= k < |init| && Names(init)[k] == e[a].0;
          assert init[k] == props[k];
        } else {
          assert e[b] == e0[b];
        }
      }
    }
  }

  /** `toDict` leads with `resourceType` for a resource and is the property part alone otherwise. */
  lemma ToDictHeader(reg: Registry, v: Value)
    requires v.VObj?
    ensures IsSubclass(reg, v.typeName, ResourceClass) ==>
              ObjToDict(reg, v)[0] == (ResourceTypeKey, JStr(v.typeName))
    ensures !IsSubclass(reg, v.typeName, ResourceClass) ==>
              ObjToDict(reg, v) == PropEntries(reg, v, Props(reg, v.typeName))
  {
  }

  /** After the header, `toDict` writes only declared properties that are set, with truthy values. */
  lemma ToDictKeys(reg: Registry, v: Value)
    requires WellFormed(reg) && v.VObj? && v.typeName in reg.classes
    ensures forall i :: |Header(reg, v.typeName)| <= i < |ObjToDict(reg, v)| ==>
              var entry := ObjToDict(reg, v)[i];
              FindProp(reg, v.typeName, entry.0).Some? && entry.0 in v.fields && JsonTruthy(entry.1)
  {
    var props := Props(reg, v.typeName);
    PropEntriesKeys(reg, v, props);
    var h := Header(reg, v.typeName);
    var e := PropEntries(reg, v, props);
    var d := ObjToDict(reg, v);
    assert d == h + e;
    forall i | |h| <= i < |d|
      ensures FindProp(reg, v.typeName, d[i].0).Some? && d[i].0 in v.fields && JsonTruthy(d[i].1)
    {
      assert d[i] == e[i - |h|];
      var k :| 0 <= k < |props| && Names(props)[k] == d[i].0;
      FindDeclared(reg, v.typeName, props[k]);
    }
  }

  /** After the header, the keys of `toDict` strictly increase: properties come in `dir()` order. */
  lemma ToDictSorted(reg: Registry, v: Value)
    requires WellFormed(reg) && v.VObj? && v.typeName in reg.classes
    ensures forall a, b :: |Header(reg, v.typeName)| <= a < b < |ObjToDict(reg, v)| ==>
              Below(ObjToDict(reg, v)[a].0, ObjToDict(reg, v)[b].0)
  {
    var props := Props(reg, v.typeName);
    assert forall a, b :: 0 <= a < b < |props| ==> Below(props[a].name, props[b].name);
    PropEntriesSorted(reg, v, props);
    var h := Header(reg, v.typeName);
    var e := PropEntries(reg, v, props);
    var d := ObjToDict(reg, v);
    assert d == h + e;
    forall a, b | |h| <= a < b < |d|
      ensures Below(d[a].0, d[b].0)
    {
      assert d[a] == e[a - |h|] && d[b] == e[b - |h|];
    }
  }

  /** An object with nothing set writes only its `resourceType`, if it is a resource. */
  lemma {:induction false} EmptyPropEntries(reg: Registry, t: string, props: seq<PropertyDefinition>)
    ensures PropEntries(reg, VObj(t, map[]), props) == []
    decreases |props|
  {
    if props != [] {
      EmptyPropEntries(reg, t, props[..|props| - 1]);
    }
  }

  // ---------------------------------------------------------------- fromDict

  /** Where `dict.pop(key)` finds `key`. */
  function KeyIndex(entries: seq<(string, Json)>, key: string): (r: Option<nat>)
    ensures r.Some? ==> r.value < |entries| && entries[r.value].0 == key
                        && forall i :: 0 <= i < r.value ==> entries[i].0 != key
    ensures r.None? ==> forall i :: 0 <= i < |entries| ==> entries[i].0 != key
  {
    if entries == [] then None
    else if entries[0].0 == key then Some(0)
    else match KeyIndex(entries[1..], key)
      case None => None
      case Some(k) => Some(k + 1)
  }

  /** A JSON value kept as it is: lists and dictionaries become plain Python containers. */
  function JsonToRaw(j: Json): Value
    decreases j, 2
  {
    match j
    case JNull => VNone
    case JStr(s) => VStr(s)
    case JInt(i) => VInt(i)
    case JBool(b) => VBool(b)
    case JList(_) => VList(JsonItemsToRaw(j, 0))
    case JObj(_) => VDict(JsonEntriesToRaw(j, 0))
  }

  function JsonItemsToRaw(j: Json, i: nat): (r: seq<Value>)
    requires j.JList? && i <= |j.items|
    ensures |r| == |j.items| - i
    ensures forall k :: 0 <= k < |r| ==> r[k] == JsonToRaw(j.items[i + k])
    decreases j, 1, |j.items| - i
  {
    if i == |j.items| then [] else [JsonToRaw(j.items[i])] + JsonItemsToRaw(j, i + 1)
  }

  function JsonEntriesToRaw(j: Json, i: nat): (r: seq<(string, Value)>)
    requires j.JObj? && i <= |j.entries|
    ensures |r| == |j.entries| - i
    ensures forall k :: 0 <= k < |r| ==> r[k] == (j.entries[i + k].0, JsonToRaw(j.entries[i + k].1))
    decreases j, 1, |j.entries| - i
  {
    if i == |j.entries| then []
    else [(j.entries[i].0, JsonToRaw(j.entries[i].1))] + JsonEntriesToRaw(j, i + 1)
  }

  /** The head of the message of the TypeError `int()` raises for a value of another type. */
  const IntArgumentMessage := "int() argument must be a string, a bytes-like object or a real number"

  /** `str(obj)`, `int(obj)` or `bool(obj)` for a JSON scalar. */
  function Coerce(b: Builtin, j: Json): (r: Result<Value, FhirError>)
    ensures b == Str && j.JStr? ==> r == Success(VStr(j.s))
    ensures b == Int && j.JInt? ==> r == Success(VInt(j.i))
    ensures b == Bool ==> r == Success(VBool(JsonTruthy(j)))
    ensures b == Int && j.JNull? ==> r.Failure? && r.error.TypeError?
    ensures b == Int && j.JStr? ==> (r.Success? <==> ParseInt(j.s).Some?)
  {
    match b
    case Str =>
      Success(VStr(match j
        case JStr(s) => s
        case JInt(i) => IntToString(i)
        case JBool(v) => if v then "True" else "False"
        case _ => "None"))
    case Int =>
      (match j
       case JInt(i) => Success(VInt(i))
       case JBool(v) => Success(VInt(if v then 1 else 0))
       case JStr(s) =>
         (match ParseInt(s)
          case Some(n) => Success(VInt(n))
          case None => Failure(ValueError("invalid literal for int() with base 10: '" + s + "'")))
       case JNull => Failure(TypeError(IntArgumentMessage + ", not 'NoneType'"))
       case JList(_) => Failure(TypeError(IntArgumentMessage + ", not 'list'"))
       case JObj(_) => Failure(TypeError(IntArgumentMessage + ", not 'dict'")))
    case Bool => Success(VBool(JsonTruthy(j)))
  }

  /**
   * `cls()._fromDict(object_dict)` on the entries of `j` from index `i` on, skipping index
   * `skip` (the `resourceType` entry popped before): each entry is converted after its
   * property's type and assigned through the property's setter, in dictionary order.
   */
  function FromEntries(reg: Registry, t: string, fields: map<string, Value>, j: Json, i: nat, skip: int)
    : (r: Result<map<string, Value>, FhirError>)
    requires j.JObj? && i <= |j.entries|
    decreases j, 0, |j.entries| - i
  {
    if i == |j.entries| then Success(fields)
    else if i == skip then FromEntries(reg, t, fields, j, i + 1, skip)
    else
      match ConvertEntry(reg, t, j.entries[i].0, j.entries[i].1)
      case Failure(e) => Failure(e)
      case Success((d, value)) =>
        var s := SetProperty(reg, d, fields, value);
        if s.error.Fail? then Failure(s.error.error)
        else FromEntries(reg, t, s.fields, j, i + 1, skip)
  }

  /** A fresh instance of class `t` filled from the entries of `j`, leaving out index `skip`. */
  function Build(reg: Registry, t: string, j: Json, skip: int): (r: Result<Value, FhirError>)
    requires j.JObj?
    ensures r.Success? ==> r.value.VObj? && r.value.typeName == t
    decreases j, 1
  {
    match FromEntries(reg, t, map[], j, 0, skip)
    case Failure(e) => Failure(e)
    case Success(fields) => Success(VObj(t, fields))
  }

  /** The value `_fromDict` computes for one entry, with the definition it is assigned through. */
  function ConvertEntry(reg: Registry, t: string, attr: string, obj: Json)
    : (r: Result<(PropertyDefinition, Value), FhirError>)
    ensures r.Success? ==> FindProp(reg, t, attr) == Some(r.value.0)
    ensures FindProp(reg, t, attr).None? ==> r == Failure(AttributeError(attr))
    decreases obj, 4
  {
    match FindProp(reg, t, attr)
    case None => Failure(AttributeError(attr))
    case Some(d) =>
      match ConvertValue(reg, d, obj)
      case Failure(e) => Failure(e)
      case Success(v) => Success((d, v))
  }

  function ConvertValue(reg: Registry, d: PropertyDefinition, obj: Json): Result<Value, FhirError>
    decreases obj, 3
  {
    match PropType(reg, d.ty)
    case Failure(e) => Failure(e)
    case Success(pt) =>
      if pt.ModelClass? && IsSubclass(reg, pt.name, ResourceClass) then
        NestedResource(reg, obj)
      else if obj.JObj? then
        (if pt.ModelClass? then Build(reg, pt.name, obj, -1) else Failure(AttributeError("_fromDict")))
      else if obj.JList? then
        (if pt.ModelClass? && IsSubclass(reg, pt.name, FHIRBaseObjectClass) then
           match ConvertItems(reg, pt.name, obj, 0)
           case Failure(e) => Failure(e)
           case Success(items) => Success(VList(items))
         else Success(JsonToRaw(obj)))
      else if pt == ModelClass(FHIRDateClass) then
        Success(JsonToRaw(obj))
      else if pt.BuiltinClass? then
        Coerce(pt.b, obj)
      else
        Failure(TypeError("__init__() takes 1 positional argument but 2 were given"))
  }

  /**
   * A property typed with a `Resource` subclass: the nested dictionary's own `resourceType`
   * is popped and names the class to build, with no check that it fits the property.
   */
  function NestedResource(reg: Registry, obj: Json): (r: Result<Value, FhirError>)
    ensures r.Success? ==> r.value.VObj? && r.value.typeName in reg.classes
    decreases obj, 2
  {
    if obj.JList? then Failure(TypeError("'str' object cannot be interpreted as an integer"))
    else if !obj.JObj? then Failure(AttributeError("pop"))
    else
      match KeyIndex(obj.entries, ResourceTypeKey)
      case None => Failure(KeyError(ResourceTypeKey))
      case Some(k) =>
        var rt := obj.entries[k].1;
        if !rt.JStr? then Failure(AttributeError("_fromDict"))
        else if rt.s !in reg.classes then Failure(AttributeError(rt.s))
        else Build(reg, rt.s, obj, k)
  }

  /** The elements of a list typed with a `FHIRBaseObject` subclass, each built from a dictionary. */
  function ConvertItems(reg: Registry, t: string, obj: Json, i: nat): (r: Result<seq<Value>, FhirError>)
    requires obj.JList? && i <= |obj.items|
    ensures r.Success? ==> |r.value| == |obj.items| - i
    decreases obj, 0, |obj.items| - i
  {
    if i == |obj.items| then Success([])
    else
      var item := obj.items[i];
      var first := if item.JObj? then Build(reg, t, item, -1) else Failure(AttributeError("items"));
      match first
      case Failure(e) => Failure(e)
      case Success(v) =>
        match ConvertItems(reg, t, obj, i + 1)
        case Failure(e) => Failure(e)
        case Success(rest) => Success([v] + rest)
  }

  /**
   * `fromDict`: `resourceType` must be present and truthy, and names the class to build;
   * no check relates it to the class the method was called on.
   */
  function FromDict(reg: Registry, entries: seq<(string, Json)>): (r: Result<Value, FhirError>)
    ensures KeyIndex(entries, ResourceTypeKey).None? ==> r == Failure(KeyError(ResourceTypeKey))
    ensures r.Success? ==> r.value.VObj? && r.value.typeName in reg.classes
    ensures r.Success? ==> exists k :: 0 <= k < |entries| && entries[k] == (ResourceTypeKey, JStr(r.value.typeName))
  {
    match KeyIndex(entries, ResourceTypeKey)
    case None => Failure(KeyError(ResourceTypeKey))
    case Some(k) =>
      var rt := entries[k].1;
      if !JsonTruthy(rt) then Failure(FHIRException("Missing `resourceType` attribute"))
      else if !rt.JStr? then Failure(AttributeError("_fromDict"))
      else if rt.s !in reg.classes then Failure(AttributeError(rt.s))
      else Build(reg, rt.s, JObj(entries), k)
  }

  function MarshallMessage(found: string, cls: string): string {
    "Cannot marshall a <class '" + found + "'> from a " + cls + ": not a subclass!"
  }

  /**
   * `cls.fromJSON` on a parsed document: the `resourceType` must be `cls` itself or name a
   * subclass of it; anything else is refused with a `FHIRException`.
   */
  function FromJson(reg: Registry, cls: string, entries: seq<(string, Json)>): (r: Result<Value, FhirError>)
    requires cls in reg.classes
    ensures r.Success? ==> r.value.VObj? && IsSubclass(reg, r.value.typeName, cls)
    ensures KeyIndex(entries, ResourceTypeKey).None? ==> r == Failure(KeyError(ResourceTypeKey))
    ensures forall k, n :: 0 <= k < |entries| && KeyIndex(entries, ResourceTypeKey) == Some(k)
              && entries[k].1 == JStr(n) && n in reg.classes && !IsSubclass(reg, n, cls)
              ==> r == Failure(FHIRException(MarshallMessage(n, cls)))
  {
    match KeyIndex(entries, ResourceTypeKey)
    case None => Failure(KeyError(ResourceTypeKey))
    case Some(k) =>
      var rt := entries[k].1;
      if rt == JStr(cls) then Build(reg, cls, JObj(entries), k)
      else if !rt.JStr? then Failure(FHIRException(MarshallMessage("object", cls)))
      else if rt.s !in reg.classes then Failure(AttributeError(rt.s))
      else if !IsSubclass(reg, rt.s, cls) then Failure(FHIRException(MarshallMessage(rt.s, cls)))
      else Build(reg, rt.s, JObj(entries), k)
  }

  /** `cls.loads(string, format_)`: only the `json` format is dispatched. */
  function Loads(reg: Registry, cls: string, entries: seq<(string, Json)>, format: string)
    : (r: Result<Value, FhirError>)
    requires cls in reg.classes
    ensures format !in SupportedFormats ==> r == Failure(UnsupportedFormatError(format))
    ensures format in SupportedFormats ==> r == FromJson(reg, cls, entries)
  {
    if format in SupportedFormats then FromJson(reg, cls, entries) else Failure(UnsupportedFormatError(format))
  }

  /** `obj.dumps(format_)`: only the `json` format is dispatched. */
  function Dumps(reg: Registry, v: Value, format: string): (r: Result<seq<(string, Json)>, FhirError>)
    requires v.VObj?
    ensures format !in SupportedFormats ==> r == Failure(UnsupportedFormatError(format))
    ensures format in SupportedFormats ==> r == Success(ObjToDict(reg, v))
  {
    if format in SupportedFormats then Success(ObjToDict(reg, v)) else Failure(UnsupportedFormatError(format))
  }
}
