/**
 * The FHIR data types the converters read and write, as the converters see them: every
 * element an encoder may leave unset or a decoder may find missing is an `Option`. A
 * CodeableConcept keeps, besides `coding` and `text`, the two keys `system` and `code` that
 * some STU3 decoders read directly on the concept.
 */
module FhirTypes {
  import opened Wrappers

  datatype Coding = Coding(system: Option<string>, code: Option<string>, display: Option<string>)

  datatype Concept = Concept(
    coding: Option<seq<Coding>>, text: Option<string>, system: Option<string>, code: Option<string>)

  datatype Identifier = Identifier(use: Option<string>, ty: Option<Concept>, value: Option<string>)

  datatype ContactPoint = ContactPoint(system: Option<string>, value: Option<string>, use: Option<string>)

  datatype Address = Address(text: Option<string>, use: Option<string>, ty: Option<string>)

  /** A name; `given` may hold `None` where an encoder put a missing first name in the list. */
  datatype HumanName = HumanName(use: Option<string>, family: Option<string>, given: Option<seq<Option<string>>>)

  /**
   * One key of a dictionary in a request body: missing (`d[key]` raises KeyError), present
   * with `None`, or present with a value.
   */
  datatype Field<T> = Absent | Null | Has(v: T)
  {
    /** `d.get(key)`: `None` for a missing key as for a present `None`. */
    function Get(): (r: Option<T>)
      ensures r.Some? <==> Has?
      ensures Has? ==> r.value == v
    {
      if Has? then Some(v) else None
    }
  }

  /** A key that was assigned: present, with `None` where the assigned value was `None`. */
  function Assigned<T>(o: Option<T>): (f: Field<T>)
    ensures !f.Absent? && f.Get() == o
  {
    match o
    case Some(x) => Has(x)
    case None => Null
  }

  /** A name as the dictionary a decoder indexes: its `use`, `family` and `given` keys. */
  datatype NameDict = NameDict(use: Field<string>, family: Field<string>, given: Field<seq<Option<string>>>)

  /**
   * The dictionary of a name's properties (what `_values` holds after the three are assigned):
   * every key present, each with the assigned value.
   */
  function NameProperties(n: HumanName): (d: NameDict)
    ensures !d.use.Absent? && !d.family.Absent? && !d.given.Absent?
    ensures d.use.Get() == n.use && d.family.Get() == n.family && d.given.Get() == n.given
  {
    NameDict(Assigned(n.use), Assigned(n.family), Assigned(n.given))
  }

  /**
   * A name object's `__dict__`: the object keeps its properties under `_values`, so none of
   * the keys `use`, `family` and `given` is present.
   */
  function NameAttributes(n: HumanName): (d: NameDict)
    ensures d.use.Absent? && d.family.Absent? && d.given.Absent?
  {
    NameDict(Absent, Absent, Absent)
  }

  /** A reference `"<ResourceType>/<id>"`. */
  datatype Reference = Reference(reference: Option<string>)

  datatype Period = Period(start: Option<string>, end: Option<string>)

  /** An amount of money; amounts are kept as integers (the source's decimals are not modelled). */
  datatype Money = Money(value: Option<int>, currency: Option<string>)

  // Value sets used by several converters (api_fhir/models: ContactPointSystem, ContactPointUse,
  // AddressUse, AddressType, NameUse, IdentifierUse, AdministrativeGender).
  const PhoneSystem := "phone"
  const FaxSystem := "fax"
  const EmailSystem := "email"
  const HomeUse := "home"
  const PhysicalType := "physical"
  const BothType := "both"
  const UsualUse := "usual"

  const MaleGender := "male"
  const FemaleGender := "female"
  const OtherGender := "other"
  const UnknownGender := "unknown"
}
