/**
 * The helpers every converter inherits from `BaseFHIRConverter`: error accumulation
 * (`valid_condition`, `check_errors`), building and reading codeable concepts, identifiers
 * and references. The class itself is not part of this model; each helper is given the
 * behaviour its callers and the tests rely on, and is specified by the property those
 * callers need.
 */
module BaseConverter {
  import opened Wrappers
  import opened Strings
  import opened Exceptions
  import opened FhirTypes

  /**
   * `valid_condition(condition, message, errors)`: records `message` when `condition` holds
   * and hands `condition` back, so that `if not valid_condition(...)` guards the happy path.
   */
  function ValidCondition(condition: bool, message: string, errors: seq<string>): (r: (bool, seq<string>))
    ensures r.0 == condition
    ensures condition ==> r.1 == errors + [message]
    ensures !condition ==> r.1 == errors
  {
    if condition then (true, errors + [message]) else (false, errors)
  }

  /**
   * `check_errors(errors)` followed by `return obj`: the object when nothing was recorded,
   * otherwise a `FhirRequestProcessException` carrying every recorded message.
   */
  function CheckErrors<T>(obj: T, errors: seq<string>): (r: Result<T, FhirError>)
    ensures r.Success? <==> errors == []
    ensures r.Success? ==> r.value == obj
    ensures r.Failure? ==> r.error == FhirRequestProcessException(errors) && r.error.IsFHIRException()
  {
    if errors == [] then Success(obj) else Failure(FhirRequestProcessException(errors))
  }

  /** A failed conversion names, in its message, every error recorded on the way. */
  lemma CheckErrorsReportsAll<T>(obj: T, errors: seq<string>, k: nat)
    requires k < |errors|
    ensures CheckErrors(obj, errors).Failure?
    ensures exists pre, post :: CheckErrors(obj, errors).error.Message() == pre + errors[k] + post
  {
    RequestProcessMessageListsEveryError(errors, k);
  }

  /** `get_first_coding_from_codeable_concept(concept)`: `concept.coding[0]`, if there is one. */
  function FirstCoding(c: Concept): (r: Option<Coding>)
    ensures r.Some? <==> c.coding.Some? && |c.coding.value| > 0
    ensures r.Some? ==> r.value == c.coding.value[0]
  {
    match c.coding
    case Some(cs) => if |cs| > 0 then Some(cs[0]) else None
    case None => None
  }

  /** `build_codeable_concept(code, system, text)`: one coding carrying the code and system. */
  function BuildCodeableConcept(code: string, system: Option<string>, text: Option<string>): (r: Concept)
    ensures FirstCoding(r) == Some(Coding(system, Some(code), None))
    ensures r.coding.Some? && |r.coding.value| == 1 && r.text == text
  {
    Concept(Some([Coding(system, Some(code), None)]), text, None, None)
  }

  /** `build_simple_codeable_concept(text)`: a concept that is only a text. */
  function BuildSimpleCodeableConcept(text: string): (r: Concept)
    ensures r.text == Some(text) && FirstCoding(r).None?
  {
    Concept(None, Some(text), None, None)
  }

  /** The first coding of an identifier's type, where the identifier has one. */
  function TypeCoding(id: Identifier): (r: Option<Coding>)
    ensures r.Some? <==> id.ty.Some? && FirstCoding(id.ty.value).Some?
    ensures r.Some? ==> r == FirstCoding(id.ty.value)
  {
    match id.ty
    case Some(c) => FirstCoding(c)
    case None => None
  }

  /**
   * `build_fhir_identifier(value, type_system, type_code)`: a "usual" identifier whose type
   * has one coding with the given system and code.
   */
  function BuildIdentifier(value: string, system: string, code: string): (r: Identifier)
    ensures r.use == Some(UsualUse) && r.value == Some(value)
    ensures TypeCoding(r) == Some(Coding(Some(system), Some(code), None))
  {
    Identifier(Some(UsualUse), Some(BuildCodeableConcept(code, Some(system), None)), Some(value))
  }

  /** An identifier whose type's first coding has the given code. */
  predicate HasTypeCode(id: Identifier, code: string) {
    TypeCoding(id).Some? && TypeCoding(id).value.code == Some(code)
  }

  /**
   * `get_fhir_identifier_by_code(identifiers, code)`: the value of the first identifier whose
   * type code is `code`; `None` when there is none.
   */
  function IdentifierByCode(ids: seq<Identifier>, code: string): (r: Option<string>)
    ensures (forall i :: 0 <= i < |ids| ==> !HasTypeCode(ids[i], code)) ==> r == None
  {
    if |ids| == 0 then None
    else if HasTypeCode(ids[0], code) then ids[0].value
    else IdentifierByCode(ids[1..], code)
  }

  /** The identifier found by code is the first one with that code, wherever it sits. */
  lemma {:induction false} IdentifierByCodeFirst(ids: seq<Identifier>, code: string, i: nat)
    requires i < |ids| && HasTypeCode(ids[i], code)
    requires forall j :: 0 <= j < i ==> !HasTypeCode(ids[j], code)
    ensures IdentifierByCode(ids, code) == ids[i].value
    decreases i
  {
    if i > 0 {
      IdentifierByCodeFirst(ids[1..], code, i - 1);
    }
  }

  /**
   * `build_fhir_id_identifier` / `build_fhir_uuid_identifier`: append the identifier of a
   * record's key, typed with `code`, when the record has that key.
   */
  method AppendKeyIdentifier(ids: seq<Identifier>, key: Option<string>, system: string, code: string)
    returns (r: seq<Identifier>)
    ensures key.None? ==> r == ids
    ensures key.Some? ==> r == ids + [BuildIdentifier(key.value, system, code)]
  {
    r := ids;
    if key.Some? {
      r := r + [BuildIdentifier(key.value, system, code)];
    }
  }

  /** `build_fhir_resource_reference(obj)`: `"<ResourceType>/<id>"`. */
  function BuildReference(resourceType: string, id: string): (r: Reference)
    ensures r.reference == Some(resourceType + "/" + id)
  {
    Reference(Some(resourceType + "/" + id))
  }

  /** `get_resource_id_from_reference(reference)`: the part after the resource type, if any. */
  function ResourceId(r: Reference): (id: Option<string>)
    ensures id.Some? ==> id.value != "" && '/' !in id.value
  {
    match r.reference
    case None => None
    case Some(s) =>
      var parts := Split(s, '/');
      if |parts| == 2 && parts[1] != "" then Some(parts[1]) else None
  }

  /** Reading the id back out of a built reference gives the id it was built from. */
  lemma ResourceIdOfBuildReference(resourceType: string, id: string)
    requires '/' !in resourceType && '/' !in id && id != ""
    ensures ResourceId(BuildReference(resourceType, id)) == Some(id)
  {
    SplitAt(resourceType, '/', id);
    SplitNone(id, '/');
    assert resourceType + "/" + id == resourceType + ['/'] + id;
  }

  /**
   * `get_imis_obj_by_fhir_reference(reference)`: the key of the stored record the reference
   * names, when one exists (`objects.filter(pk=id).first()`); `keys` are the stored records' keys.
   */
  function FindByReference(r: Reference, keys: set<string>): (found: Option<string>)
    ensures found.Some? <==> ResourceId(r).Some? && ResourceId(r).value in keys
    ensures found.Some? ==> found == ResourceId(r)
  {
    match ResourceId(r)
    case Some(id) => if id in keys then Some(id) else None
    case None => None
  }

  /** A stored record's reference finds that record again. */
  lemma FindByBuiltReference(resourceType: string, id: string, keys: set<string>)
    requires '/' !in resourceType && '/' !in id && id != ""
    ensures FindByReference(BuildReference(resourceType, id), keys) == if id in keys then Some(id) else None
  {
    ResourceIdOfBuildReference(resourceType, id);
  }

  /** A Python string that is present and truthy: not `None` and not empty. */
  predicate NonEmpty(s: Option<string>) {
    s.Some? && s.value != ""
  }

  /** `build_fhir_contact_point(value, system, use)`. */
  function BuildContactPoint(value: Option<string>, system: string, use: string): (cp: ContactPoint)
    ensures cp.system == Some(system) && cp.value == value && cp.use == Some(use)
  {
    ContactPoint(Some(system), value, Some(use))
  }

  function HasSystem(system: string): ContactPoint -> bool {
    (cp: ContactPoint) => cp.system == Some(system)
  }

  /**
   * What a decoding loop that assigns a field from every contact point of `system` leaves in
   * that field: the value of the last such contact point, or the old value when there is none.
   */
  function LastContact(cps: seq<ContactPoint>, system: string, old_: Option<string>): Option<string> {
    match Last(cps, HasSystem(system))
    case Some(cp) => cp.value
    case None => old_
  }

  /**
   * The last element of `xs` that satisfies `p`: what a decoding loop that assigns a field
   * for every matching element leaves in that field ("last one wins").
   */
  function Last<T>(xs: seq<T>, p: T -> bool): (r: Option<T>)
    ensures r.Some? ==> p(r.value) && exists i :: 0 <= i < |xs| && xs[i] == r.value && forall j :: i < j < |xs| ==> !p(xs[j])
    ensures r.None? ==> forall i :: 0 <= i < |xs| ==> !p(xs[i])
  {
    if |xs| == 0 then None
    else if p(xs[|xs| - 1]) then Some(xs[|xs| - 1])
    else
      var pre := xs[..|xs| - 1];
      var r := Last(pre, p);
      assert r.Some? ==> exists i :: 0 <= i < |xs| && xs[i] == r.value && forall j :: i < j < |xs| ==> !p(xs[j]) by {
        if r.Some? {
          var i :| 0 <= i < |pre| && pre[i] == r.value && forall j :: i < j < |pre| ==> !p(pre[j]);
          assert xs[i] == r.value;
        }
      }
      r
  }

  /** One more element: it wins if it matches, otherwise the earlier winner stays. */
  lemma LastSnoc<T>(xs: seq<T>, x: T, p: T -> bool)
    ensures Last(xs + [x], p) == if p(x) then Some(x) else Last(xs, p)
  {
    assert (xs + [x])[..|xs|] == xs;
  }

  /** The first element of `xs` that satisfies `p`: what a search loop that stops at the first hit finds. */
  function First<T>(xs: seq<T>, p: T -> bool): (r: Option<T>)
    ensures r.Some? ==> p(r.value) && exists i :: 0 <= i < |xs| && xs[i] == r.value && forall j :: 0 <= j < i ==> !p(xs[j])
    ensures r.None? ==> forall i :: 0 <= i < |xs| ==> !p(xs[i])
  {
    if |xs| == 0 then None
    else if p(xs[0]) then Some(xs[0])
    else
      var rest := xs[1..];
      var r := First(rest, p);
      assert r.Some? ==> exists i :: 0 <= i < |xs| && xs[i] == r.value && forall j :: 0 <= j < i ==> !p(xs[j]) by {
        if r.Some? {
          var i :| 0 <= i < |rest| && rest[i] == r.value && forall j :: 0 <= j < i ==> !p(rest[j]);
          assert xs[i + 1] == r.value;
          forall j | 0 <= j < i + 1 ensures !p(xs[j]) {
            if j > 0 { assert xs[j] == rest[j - 1]; }
          }
        }
      }
      r
  }

  /** An element that matches with no match before it is the one `First` finds. */
  lemma {:induction false} FirstAt<T>(xs: seq<T>, p: T -> bool, i: nat)
    requires i < |xs| && p(xs[i]) && forall j :: 0 <= j < i ==> !p(xs[j])
    ensures First(xs, p) == Some(xs[i])
    decreases i
  {
    if i > 0 {
      FirstAt(xs[1..], p, i - 1);
    }
  }
}
