/**
 * `FHIRBaseObject`: an instance of a FHIR class whose declared properties live in its
 * `_values` dictionary and whose other (underscore) attributes live beside it. Every method
 * is proved against the functions of `ObjectModel` and `Serialization`, and keeps `Valid()`.
 */
module FhirObjects {
  import opened Wrappers
  import opened Definitions
  import opened Exceptions
  import opened ObjectModel
  import opened Serialization

  predicate Private(attr: string) {
    |attr| > 0 && attr[0] == '_'
  }

  class FhirObject {
    const reg: Registry
    const typeName: string
    /** `_values` */
    var values: map<string, Value>
    /** attributes outside the schema, which `__setattr__` lets through for names starting with `_` */
    var extra: map<string, Value>

    ghost predicate Valid()
      reads this
    {
      WellFormed(reg) && typeName in reg.classes && FieldsConform(reg, typeName, values)
    }

    /** The object as a value. */
    function AsValue(): Value
      reads this
    {
      VObj(typeName, values)
    }

    /** `cls()`: an instance with no property set. */
    constructor (reg: Registry, typeName: string)
      requires WellFormed(reg) && typeName in reg.classes
      ensures Valid()
      ensures this.reg == reg && this.typeName == typeName && values == map[] && extra == map[]
    {
      this.reg := reg;
      this.typeName := typeName;
      values := map[];
      extra := map[];
    }

    /**
     * Reading attribute `name`: a declared property through `Property.__get__` (which stores
     * an empty list for an unset list-valued property), otherwise an instance attribute.
     */
    method Get(name: string) returns (r: Result<Value, FhirError>)
      requires Valid()
      modifies this
      ensures Valid() && extra == old(extra)
      ensures FindProp(reg, typeName, name).Some? ==>
                var d := FindProp(reg, typeName, name).value;
                r == Success(GetProperty(old(values), d)) && values == Materialize(old(values), d)
      ensures FindProp(reg, typeName, name).None? ==>
                values == old(values)
                && r == if name in extra then Success(extra[name]) else Failure(AttributeError(name))
    {
      var found := FindProp(reg, typeName, name);
      if found.Some? {
        var d := found.value;
        values := Materialize(values, d);
        r := Success(GetProperty(values, d));
        if d.IsList() {
          assert WithinMax(d, 0);
        }
      } else if name in extra {
        r := Success(extra[name]);
      } else {
        r := Failure(AttributeError(name));
      }
    }

    /**
     * `__setattr__`: a declared property goes through `Property.__set__`, an undeclared name
     * starting with `_` becomes an instance attribute, any other name is refused.
     */
    method SetAttr(name: string, value: Value) returns (r: Outcome)
      requires Valid()
      modifies this
      ensures Valid()
      ensures FindProp(reg, typeName, name).Some? ==>
                var s := SetProperty(reg, FindProp(reg, typeName, name).value, old(values), value);
                values == s.fields && r == s.error && extra == old(extra)
      ensures FindProp(reg, typeName, name).None? && Private(name) ==>
                r == Pass && values == old(values) && extra == old(extra)[name := value]
      ensures FindProp(reg, typeName, name).None? && !Private(name) ==>
                r == Fail(InvalidAttributeError(name, typeName)) && values == old(values) && extra == old(extra)
    {
      var found := FindProp(reg, typeName, name);
      if found.None? {
        if Private(name) {
          extra := extra[name := value];
          r := Pass;
        } else {
          r := Fail(InvalidAttributeError(name, typeName));
        }
        return;
      }
      r := SetDeclared(found.value, value);
    }

    /** `Property.__set__` for a property declared on this object's class. */
    method SetDeclared(d: PropertyDefinition, value: Value) returns (r: Outcome)
      requires Valid() && d in reg.classes[typeName].props
      modifies this
      ensures Valid() && extra == old(extra)
      ensures var s := SetProperty(reg, d, old(values), value); values == s.fields && r == s.error
    {
      SetPropertyKeepsInvariant(reg, typeName, d, values, value);
      if d.IsList() {
        if value.VList? {
          r := Refill(d, value.items);
        } else {
          r := Fail(PropertyError("The value of property " + d.name + " need to be a list"));
        }
      } else if value.VList? {
        r := Fail(PropertyError("The value of property " + d.name + " shouldn't be a list"));
      } else {
        var check := ValidateType(reg, d, value);
        if check.Fail? {
          r := check;
        } else {
          values := values[d.name := value];
          r := Pass;
        }
      }
    }

    /**
     * The list branch of `__set__`: `setdefault`, then `del [:]`, then one `append` per item,
     * stopping at the first item refused.
     */
    method Refill(d: PropertyDefinition, items: seq<Value>) returns (r: Outcome)
      modifies this
      ensures extra == old(extra)
      ensures var (kept, outcome) := AppendAll(reg, d, [], items);
              values == old(values)[d.name := VList(kept)] && r == outcome
    {
      var kept: seq<Value> := [];
      values := values[d.name := VList(kept)];
      var i := 0;
      while i < |items|
        invariant 0 <= i <= |items|
        invariant AppendAll(reg, d, [], items) == AppendAll(reg, d, kept, items[i..])
        invariant values == old(values)[d.name := VList(kept)] && extra == old(extra)
      {
        var appended := AppendItem(reg, d, kept, items[i]);
        if appended.Failure? {
          r := Fail(appended.error);
          return;
        }
        assert items[i..][1..] == items[i + 1..];
        kept := appended.value;
        values := values[d.name := VList(kept)];
        i := i + 1;
      }
      r := Pass;
    }

    /**
     * `_fromDict`: every entry of `j` but the one at `skip`, in order, is converted after its
     * property's type and assigned through the setter; the first exception stops the loop.
     */
    method FromDict(j: Json, skip: int) returns (r: Outcome)
      requires Valid() && j.JObj?
      modifies this
      ensures Valid() && extra == old(extra)
      ensures var res := FromEntries(reg, typeName, old(values), j, 0, skip);
              && (r.Pass? <==> res.Success?)
              && (res.Success? ==> values == res.value)
              && (res.Failure? ==> r == Fail(res.error))
    {
      var i := 0;
      while i < |j.entries|
        invariant 0 <= i <= |j.entries|
        invariant Valid() && extra == old(extra)
        invariant FromEntries(reg, typeName, old(values), j, 0, skip) == FromEntries(reg, typeName, values, j, i, skip)
      {
        if i != skip {
          var converted := ConvertEntry(reg, typeName, j.entries[i].0, j.entries[i].1);
          if converted.Failure? {
            return Fail(converted.error);
          }
          var (d, value) := converted.value;
          var outcome := SetDeclared(d, value);
          if outcome.Fail? {
            return outcome;
          }
        }
        i := i + 1;
      }
      r := Pass;
    }

    /** `self.<name>.append(value)` on a list-valued property. */
    method Append(name: string, value: Value) returns (r: Outcome)
      requires Valid()
      requires FindProp(reg, typeName, name).Some? && FindProp(reg, typeName, name).value.IsList()
      modifies this
      ensures Valid() && extra == old(extra)
      ensures var d := FindProp(reg, typeName, name).value;
              var before := GetProperty(old(values), d).items;
              match AppendItem(reg, d, before, value)
              case Success(after) => r == Pass && values == old(values)[name := VList(after)]
              case Failure(e) => r == Fail(e) && values == Materialize(old(values), d)
    {
      var d := FindProp(reg, typeName, name).value;
      var appended := AppendItem(reg, d, GetProperty(values, d).items, value);
      if appended.Failure? {
        MaterializeKeepsInvariant(reg, typeName, name, values);
        values := Materialize(values, d);
        r := Fail(appended.error);
      } else {
        StoreListKeepsInvariant(reg, typeName, name, values, appended.value);
        values := values[name := VList(appended.value)];
        r := Pass;
      }
    }

    /** `self.<name>.insert(i, value)` on a list-valued property. */
    method Insert(name: string, i: int, value: Value) returns (r: Outcome)
      requires Valid()
      requires FindProp(reg, typeName, name).Some? && FindProp(reg, typeName, name).value.IsList()
      modifies this
      ensures Valid() && extra == old(extra)
      ensures var d := FindProp(reg, typeName, name).value;
              var before := GetProperty(old(values), d).items;
              match InsertItem(reg, d, before, i, value)
              case Success(after) => r == Pass && values == old(values)[name := VList(after)]
              case Failure(e) => r == Fail(e) && values == Materialize(old(values), d)
    {
      var d := FindProp(reg, typeName, name).value;
      var inserted := InsertItem(reg, d, GetProperty(values, d).items, i, value);
      if inserted.Failure? {
        MaterializeKeepsInvariant(reg, typeName, name, values);
        values := Materialize(values, d);
        r := Fail(inserted.error);
      } else {
        StoreListKeepsInvariant(reg, typeName, name, values, inserted.value);
        values := values[name := VList(inserted.value)];
        r := Pass;
      }
    }

    /**
     * `toDict`: reads every property in `dir()` order (which stores an empty list for each
     * unset list-valued one) and builds the sparse dictionary.
     */
    method ToDict() returns (d: seq<(string, Json)>)
      requires Valid()
      modifies this
      ensures Valid() && extra == old(extra)
      ensures d == ObjToDict(reg, VObj(typeName, old(values)))
      ensures values == MaterializeAll(old(values), Props(reg, typeName))
    {
      var obj := VObj(typeName, values);
      var props := Props(reg, typeName);
      d := Header(reg, typeName);
      var i := 0;
      while i < |props|
        invariant 0 <= i <= |props|
        invariant d == Header(reg, typeName) + PropEntries(reg, obj, props[..i])
        invariant values == MaterializeAll(obj.fields, props[..i])
        invariant FieldsConform(reg, typeName, values)
        invariant extra == old(extra)
      {
        var p := props[i];
        FindDeclared(reg, typeName, p);
        MaterializeKeepsInvariant(reg, typeName, p.name, values);
        ReadOneMore(reg, obj, props, i);
        values := Materialize(values, p);
        d := d + PropEntry(reg, obj, p);
        i := i + 1;
      }
      assert props[..|props|] == props;
    }
  }

  /** Reading one more property adds its entry and its `setdefault`. */
  lemma ReadOneMore(reg: Registry, obj: Value, props: seq<PropertyDefinition>, i: nat)
    requires obj.VObj? && i < |props|
    ensures PropEntries(reg, obj, props[..i + 1]) == PropEntries(reg, obj, props[..i]) + PropEntry(reg, obj, props[i])
    ensures MaterializeAll(obj.fields, props[..i + 1]) == Materialize(MaterializeAll(obj.fields, props[..i]), props[i])
  {
    assert props[..i + 1][..i] == props[..i];
  }

  /** The `_values` left after reading each of `props` in turn. */
  function MaterializeAll(fields: map<string, Value>, props: seq<PropertyDefinition>): map<string, Value> {
    if props == [] then fields
    else Materialize(MaterializeAll(fields, props[..|props| - 1]), props[|props| - 1])
  }

  /**
   * `cls(**kwargs)` with `_values` in place before the keyword arguments are assigned: each is
   * set in order through `__setattr__`, stopping at the first exception.
   */
  method Create(reg: Registry, t: string, kwargs: seq<(string, Value)>) returns (obj: FhirObject, r: Outcome)
    requires WellFormed(reg) && t in reg.classes
    ensures fresh(obj) && obj.Valid() && obj.reg == reg && obj.typeName == t
    ensures r == InitOutcome(reg, t, kwargs).1
    ensures obj.values == InitOutcome(reg, t, kwargs).0
  {
    obj := new FhirObject(reg, t);
    var i := 0;
    r := Pass;
    while i < |kwargs|
      invariant 0 <= i <= |kwargs|
      invariant obj.Valid() && obj.reg == reg && obj.typeName == t && r == Pass
      invariant InitOutcome(reg, t, kwargs) == InitFrom(reg, t, obj.values, kwargs[i..])
    {
      var (name, value) := kwargs[i];
      ghost var before := obj.values;
      r := obj.SetAttr(name, value);
      InitFromStep(reg, t, before, kwargs[i..], obj.values, r);
      if r.Fail? {
        return;
      }
      assert kwargs[i..][1..] == kwargs[i + 1..];
      i := i + 1;
    }
  }

  /** One keyword argument: what `__setattr__` leaves behind decides whether the rest are assigned. */
  lemma InitFromStep(reg: Registry, t: string, fields: map<string, Value>, kwargs: seq<(string, Value)>,
                     after: map<string, Value>, r: Outcome)
    requires kwargs != []
    requires FindProp(reg, t, kwargs[0].0).Some? ==>
               var s := SetProperty(reg, FindProp(reg, t, kwargs[0].0).value, fields, kwargs[0].1);
               after == s.fields && r == s.error
    requires FindProp(reg, t, kwargs[0].0).None? && Private(kwargs[0].0) ==> r == Pass && after == fields
    requires FindProp(reg, t, kwargs[0].0).None? && !Private(kwargs[0].0) ==>
               r == Fail(InvalidAttributeError(kwargs[0].0, t)) && after == fields
    ensures InitFrom(reg, t, fields, kwargs) == if r.Fail? then (after, r) else InitFrom(reg, t, after, kwargs[1..])
  {
  }

  /** The `_values` and the outcome of assigning `kwargs` in order to a fresh instance. */
  function InitOutcome(reg: Registry, t: string, kwargs: seq<(string, Value)>): (map<string, Value>, Outcome) {
    InitFrom(reg, t, map[], kwargs)
  }

  function InitFrom(reg: Registry, t: string, fields: map<string, Value>, kwargs: seq<(string, Value)>)
    : (map<string, Value>, Outcome)
    decreases |kwargs|
  {
    if kwargs == [] then (fields, Pass)
    else
      var (name, value) := kwargs[0];
      match FindProp(reg, t, name)
      case None =>
        if Private(name) then InitFrom(reg, t, fields, kwargs[1..])
        else (fields, Fail(InvalidAttributeError(name, t)))
      case Some(d) =>
        var s := SetProperty(reg, d, fields, value);
        if s.error.Fail? then (s.fields, s.error) else InitFrom(reg, t, s.fields, kwargs[1..])
  }

  /**
   * What `Property.__set__` checks before it first touches `_values`: the shape of the value
   * (a list for a list-valued property, anything else for a scalar one) and, for a scalar,
   * its type.
   */
  function PreStoreCheck(reg: Registry, d: PropertyDefinition, value: Value): (r: Outcome)
    ensures r.Fail? ==> SetProperty(reg, d, map[], value) == SetOutcome(map[], r)
    ensures r.Pass? <==> (if d.IsList() then value.VList? else !value.VList? && ValidateType(reg, d, value).Pass?)
  {
    if d.IsList() then
      if value.VList? then Pass
      else Fail(PropertyError("The value of property " + d.name + " need to be a list"))
    else if value.VList? then Fail(PropertyError("The value of property " + d.name + " shouldn't be a list"))
    else ValidateType(reg, d, value)
  }

  /**
   * `FHIRBaseObject.__init__` as written: the keyword arguments are assigned before
   * `self._values` exists. An undeclared name is refused as before; for the first one naming a
   * declared property the setter's shape and type checks still run and raise their error, and a
   * value that passes them fails on the missing `_values` attribute.
   */
  function InitAsWritten(reg: Registry, t: string, kwargs: seq<(string, Value)>): (r: Outcome)
    ensures r.Pass? <==> forall i :: 0 <= i < |kwargs| ==> FindProp(reg, t, kwargs[i].0).None? && Private(kwargs[i].0)
    ensures kwargs != [] && FindProp(reg, t, kwargs[0].0).Some? ==>
              var d := FindProp(reg, t, kwargs[0].0).value;
              r.Fail?
              && (PreStoreCheck(reg, d, kwargs[0].1).Pass? ==> r == Fail(AttributeError("_values")))
              && (PreStoreCheck(reg, d, kwargs[0].1).Fail? ==> r == SetProperty(reg, d, map[], kwargs[0].1).error)
    decreases |kwargs|
  {
    if kwargs == [] then Pass
    else
      var (name, value) := kwargs[0];
      match FindProp(reg, t, name)
      case Some(d) =>
        var check := PreStoreCheck(reg, d, value);
        if check.Fail? then check else Fail(AttributeError("_values"))
      case None =>
        if Private(name) then
          var rest := InitAsWritten(reg, t, kwargs[1..]);
          assert forall i :: 1 <= i < |kwargs| ==> kwargs[i] == kwargs[1..][i - 1];
          rest
        else Fail(InvalidAttributeError(name, t))
  }

  /**
   * The constructor as written cannot take a single property: `Patient(gender=...)` raises
   * an AttributeError even though `gender` is declared and the value is acceptable, while the
   * intended constructor stores it.
   */
  lemma InitAsWrittenRejectsEveryProperty(reg: Registry, t: string, d: PropertyDefinition, v: Value)
    requires WellFormed(reg) && t in reg.classes && d in reg.classes[t].props
    requires !d.IsList() && !v.VList? && ValidateType(reg, d, v).Pass?
    ensures InitAsWritten(reg, t, [(d.name, v)]) == Fail(AttributeError("_values"))
    ensures InitOutcome(reg, t, [(d.name, v)]) == (map[d.name := v], Pass)
  {
    FindDeclared(reg, t, d);
    assert SetProperty(reg, d, map[], v) == SetOutcome(map[d.name := v], Pass);
    assert [(d.name, v)][1..] == [];
    assert InitFrom(reg, t, map[d.name := v], []) == (map[d.name := v], Pass);
  }

  /** The intended constructor keeps the `_values` invariant whatever the keyword arguments. */
  lemma {:induction false} InitKeepsInvariant(reg: Registry, t: string, fields: map<string, Value>, kwargs: seq<(string, Value)>)
    requires WellFormed(reg) && t in reg.classes && FieldsConform(reg, t, fields)
    ensures FieldsConform(reg, t, InitFrom(reg, t, fields, kwargs).0)
    decreases |kwargs|
  {
    if kwargs != [] {
      var (name, value) := kwargs[0];
      match FindProp(reg, t, name)
      case None =>
        InitKeepsInvariant(reg, t, fields, kwargs[1..]);
      case Some(d) =>
        SetPropertyKeepsInvariant(reg, t, d, fields, value);
        InitKeepsInvariant(reg, t, SetProperty(reg, d, fields, value).fields, kwargs[1..]);
    }
  }
}
