/**
 * `ConverterInsuree`, the legacy converter behind the patient serializer: an insuree's names
 * and three identifiers as a Patient made of plain dictionaries, and the names back. The
 * Patient and its names are dictionaries here, indexed with `[...]`, so a missing key raises.
 */
module ConverterInsuree {
  import opened Wrappers
  import opened Exceptions
  import opened FhirTypes
  import opened BaseConverter

  /** The audit user every decoded insuree gets. */
  const DefaultAuditUser := 1

  /** The placeholder identifier types, as (system, code) of a bare concept. */
  const InsureeIdType := "specify"
  const ChfIdType := "specify2"
  const PassportType := "specify3"

  /** The part of an insuree the converter reads or writes; `id` is the database key as text. */
  datatype Insuree = Insuree(
    id: Option<string>, chfId: Option<string>, passport: Option<string>,
    lastName: Option<string>, otherNames: Option<string>, auditUserId: Option<int>)

  /** The Patient as the dictionary the legacy converter reads: its `name` and `identifier` keys. */
  datatype PatientDict = PatientDict(name: Field<seq<NameDict>>, identifier: Field<seq<Identifier>>)

  /** `Insuree()` followed by `audit_user_id = 1`; the three dates set from the clock are not modelled. */
  const NewInsuree := Insuree(None, None, None, None, None, Some(DefaultAuditUser))

  // ---------------------------------------------------------------- to FHIR

  /** The name `buildHumanNames` fills in: "usual", the last name as family, the other names as the only given name. */
  function UsualName(ins: Insuree): HumanName {
    HumanName(Some(UsualUse), ins.lastName, Some([ins.otherNames]))
  }

  /**
   * `buildHumanNames` as written: the name list holds the name object's `__dict__`, in which
   * none of `use`, `family` and `given` is a key.
   */
  function EncodedNamesAsWritten(ins: Insuree): (names: seq<NameDict>)
    ensures |names| == 1 && names[0].use.Absent?
  {
    [NameAttributes(UsualName(ins))]
  }

  /**
   * `buildHumanNames` corrected: one "usual" name dictionary, the last name as family (present
   * as `None` when there is none) and the other names as the only given name.
   */
  function EncodedNames(ins: Insuree): (names: seq<NameDict>)
    ensures |names| == 1 && names[0].use == Has(UsualUse)
    ensures !names[0].family.Absent? && names[0].family.Get() == ins.lastName
    ensures names[0].given == Has([ins.otherNames])
  {
    [NameProperties(UsualName(ins))]
  }

  /** One identifier of `buildFhirIdentifiers`: "usual", typed by a bare concept whose system and code are `ty`. */
  function TypedIdentifier(value: Option<string>, ty: string): (id: Identifier)
    ensures id.use == Some(UsualUse) && id.value == value
    ensures id.ty.Some? && id.ty.value.system == Some(ty) && id.ty.value.code == Some(ty)
  {
    Identifier(Some(UsualUse), Some(Concept(None, None, Some(ty), Some(ty))), value)
  }

  /** `buildFhirIdentifiers`: always three identifiers, the key, the CHF id and the passport, present or not. */
  function EncodedIdentifiers(ins: Insuree): (ids: seq<Identifier>)
    ensures |ids| == 3
    ensures ids[0].value == ins.id && ids[1].value == ins.chfId && ids[2].value == ins.passport
  {
    [TypedIdentifier(ins.id, InsureeIdType), TypedIdentifier(ins.chfId, ChfIdType), TypedIdentifier(ins.passport, PassportType)]
  }

  /** `buildFhirIdentifiers` as the list the source appends to. */
  method BuildFhirIdentifiers(ins: Insuree) returns (ids: seq<Identifier>)
    ensures ids == EncodedIdentifiers(ins)
  {
    ids := [];
    ids := ids + [TypedIdentifier(ins.id, InsureeIdType)];
    ids := ids + [TypedIdentifier(ins.chfId, ChfIdType)];
    ids := ids + [TypedIdentifier(ins.passport, PassportType)];
  }

  /** `toFhirObj`: the names, then the identifiers. */
  function Encoded(ins: Insuree): (p: PatientDict)
    ensures p.name.Has? && p.identifier.Has? && |p.identifier.v| == 3
  {
    PatientDict(Has(EncodedNames(ins)), Has(EncodedIdentifiers(ins)))
  }

  // ---------------------------------------------------------------- to IMIS

  predicate IsUsual(n: NameDict) {
    n.use == Has(UsualUse)
  }

  /** The search stops at a name whose `use` key is missing (`name['use']` raises) or is "usual". */
  predicate StopsSearch(n: NameDict) {
    n.use.Absent? || IsUsual(n)
  }

  function StopsSearchAt(): NameDict -> bool {
    (n: NameDict) => StopsSearch(n)
  }

  /**
   * Reading the usual name `n`: `name['family']`, then `name['given'][0]`, each raising on a
   * missing key, a `None` given list or an empty one.
   */
  function TakeName(ins: Insuree, n: NameDict): (r: Result<Insuree, FhirError>)
    ensures r.Success? <==> n.family != Absent && n.given.Has? && |n.given.v| > 0
    ensures r.Success? ==> r.value == ins.(lastName := n.family.Get(), otherNames := n.given.v[0])
  {
    match n.family
    case Absent => Failure(KeyError("family"))
    case _ =>
      match n.given
      case Absent => Failure(KeyError("given"))
      case Null => Failure(TypeError("'NoneType' object is not subscriptable"))
      case Has(given) =>
        if |given| == 0 then Failure(IndexError("list index out of range"))
        else Success(ins.(lastName := n.family.Get(), otherNames := given[0]))
  }

  /**
   * What `buildImisNames` does: the names are searched in order for the first "usual" one,
   * which gives the last name and the first given name; a missing or `None` name list, a name
   * met on the way without a `use` key, and a usual name missing a key or given name raise.
   */
  function NamesDecoded(ins: Insuree, p: PatientDict): (r: Result<Insuree, FhirError>)
    ensures p.name.Absent? ==> r == Failure(KeyError("name"))
    ensures p.name.Null? ==> r == Failure(TypeError("'NoneType' object is not iterable"))
    ensures r.Success? ==> r.value == ins.(lastName := r.value.lastName, otherNames := r.value.otherNames)
    ensures p.name.Has? && (forall i :: 0 <= i < |p.name.v| ==> p.name.v[i].use.Has? && !IsUsual(p.name.v[i])) ==>
              r == Success(ins)
  {
    match p.name
    case Absent => Failure(KeyError("name"))
    case Null => Failure(TypeError("'NoneType' object is not iterable"))
    case Has(names) =>
      match First(names, StopsSearchAt())
      case None => Success(ins)
      case Some(n) =>
        if n.use.Absent? then Failure(KeyError("use"))
        else TakeName(ins, n)
  }

  /** `buildImisNames`: the loop that stops at the first "usual" name. */
  method BuildImisNames(ins: Insuree, p: PatientDict) returns (r: Result<Insuree, FhirError>)
    ensures r == NamesDecoded(ins, p)
  {
    if p.name.Absent? {
      return Failure(KeyError("name"));
    }
    if p.name.Null? {
      return Failure(TypeError("'NoneType' object is not iterable"));
    }
    var names := p.name.v;
    var i := 0;
    while i < |names|
      invariant 0 <= i <= |names|
      invariant First(names[..i], StopsSearchAt()).None?
      invariant First(names, StopsSearchAt()) == First(names[i..], StopsSearchAt())
    {
      if names[i].use.Absent? {
        assert names[i..][0] == names[i];
        return Failure(KeyError("use"));
      }
      if names[i].use == Has(UsualUse) {
        assert names[i..][0] == names[i];
        r := TakeName(ins, names[i]);
        return;
      }
      FirstSkip(names, i);
      i := i + 1;
    }
    return Success(ins);
  }

  /** Skipping a name at which the search does not stop does not change where it stops. */
  lemma FirstSkip(names: seq<NameDict>, i: nat)
    requires i < |names| && !StopsSearch(names[i])
    requires First(names[..i], StopsSearchAt()).None?
    ensures First(names[..i + 1], StopsSearchAt()).None?
    ensures First(names[i..], StopsSearchAt()) == First(names[i + 1..], StopsSearchAt())
  {
    assert names[i..][1..] == names[i + 1..];
    assert names[..i + 1][..i] == names[..i];
  }

  /**
   * `buildImisIdentifiers`: walks the identifiers and changes nothing; a missing identifier
   * list raises, and so does a `None` one. `toImisObj` does not call it.
   */
  method BuildImisIdentifiers(ins: Insuree, p: PatientDict) returns (r: Result<Insuree, FhirError>)
    ensures p.identifier.Absent? ==> r == Failure(KeyError("identifier"))
    ensures p.identifier.Null? ==> r == Failure(TypeError("'NoneType' object is not iterable"))
    ensures p.identifier.Has? ==> r == Success(ins)
  {
    if p.identifier.Absent? {
      return Failure(KeyError("identifier"));
    }
    if p.identifier.Null? {
      return Failure(TypeError("'NoneType' object is not iterable"));
    }
    for i := 0 to |p.identifier.v|
    {
    }
    return Success(ins);
  }

  /** `toImisObj`: a new insuree with audit user 1, and the names read from the Patient. */
  function Decoded(p: PatientDict): (r: Result<Insuree, FhirError>)
    ensures r.Success? ==> r.value.auditUserId == Some(DefaultAuditUser) && r.value.id.None? && r.value.chfId.None?
  {
    NamesDecoded(NewInsuree, p)
  }

  /**
   * As written, decoding an encoded insuree raises KeyError('use'): the name list holds a
   * `__dict__` without that key.
   */
  lemma InsureeAsWrittenNotReadBack(ins: Insuree)
    ensures Decoded(Encoded(ins).(name := Has(EncodedNamesAsWritten(ins)))) == Failure(KeyError("use"))
  {
    FirstAt(EncodedNamesAsWritten(ins), StopsSearchAt(), 0);
  }

  /**
   * Encoding an insuree (with the corrected names) and decoding the result gives back its
   * last name and other names on a new insuree; its key, CHF id and passport are not read back.
   */
  lemma InsureeRoundTrip(ins: Insuree)
    ensures Decoded(Encoded(ins)) == Success(NewInsuree.(lastName := ins.lastName, otherNames := ins.otherNames))
  {
    FirstAt(EncodedNames(ins), StopsSearchAt(), 0);
  }

  /** A "usual" name with an empty given list, first where the search stops, makes decoding raise. */
  lemma EmptyGivenFails(before: seq<NameDict>, family: Field<string>, after: seq<NameDict>)
    requires forall j :: 0 <= j < |before| ==> !StopsSearch(before[j])
    requires !family.Absent?
    ensures Decoded(PatientDict(Has(before + [NameDict(Has(UsualUse), family, Has([]))] + after), Absent))
      == Failure(IndexError("list index out of range"))
  {
    var names := before + [NameDict(Has(UsualUse), family, Has([]))] + after;
    assert names[|before|] == NameDict(Has(UsualUse), family, Has([]));
    assert forall j :: 0 <= j < |before| ==> names[j] == before[j];
    FirstAt(names, StopsSearchAt(), |before|);
  }
}
