/**
 * The `PractitionerRoleConverter`: a claim administrator as a FHIR PractitionerRole that
 * references the administrator (as a Practitioner) and the administrator's health facility
 * (as a Location), and back: the decoder looks both references up in the database and
 * attaches the facility to the administrator it found.
 */
module PractitionerRoleConverter {
  import opened Wrappers
  import opened Exceptions
  import opened FhirTypes
  import opened BaseConverter

  const PractitionerType := "Practitioner"
  const LocationType := "Location"
  const NoPractitionerId := "Could not fetch Practitioner id from reference"
  const NoLocationId := "Could not fetch Location id from reference"

  /** A claim administrator; `healthFacility` is the key of its facility, if it has one. */
  datatype ClaimAdmin = ClaimAdmin(id: string, healthFacility: Option<string>)

  /** What the decoder can look up: the stored administrators by key, and the keys of the stored facilities. */
  datatype Database = Database(admins: map<string, ClaimAdmin>, facilities: set<string>)

  datatype PractitionerRole = PractitionerRole(identifier: seq<Identifier>, practitioner: Reference, location: seq<Reference>)

  // ---------------------------------------------------------------- to FHIR

  /** `build_fhir_location_references`: one reference to the administrator's facility, when it has one. */
  function LocationReferences(ca: ClaimAdmin): (refs: seq<Reference>)
    ensures |refs| == if ca.healthFacility.Some? then 1 else 0
    ensures |refs| == 1 ==> refs[0] == BuildReference(LocationType, ca.healthFacility.value)
  {
    if ca.healthFacility.Some? then [BuildReference(LocationType, ca.healthFacility.value)] else []
  }

  /**
   * `to_fhir_obj`: the db-id identifier, the reference to the administrator as a Practitioner
   * and the location references.
   */
  function Encoded(ca: ClaimAdmin, idSystem: string, idTypeCode: string): (role: PractitionerRole)
    ensures |role.identifier| == 1 && role.identifier[0].value == Some(ca.id) && HasTypeCode(role.identifier[0], idTypeCode)
    ensures role.practitioner.reference == Some(PractitionerType + "/" + ca.id)
  {
    PractitionerRole([BuildIdentifier(ca.id, idSystem, idTypeCode)], BuildReference(PractitionerType, ca.id), LocationReferences(ca))
  }

  /** `to_fhir_obj` as the builders run it. */
  method ToFhir(ca: ClaimAdmin, idSystem: string, idTypeCode: string) returns (role: PractitionerRole)
    ensures role == Encoded(ca, idSystem, idTypeCode)
  {
    var ids := AppendKeyIdentifier([], Some(ca.id), idSystem, idTypeCode);
    role := PractitionerRole(ids, BuildReference(PractitionerType, ca.id), []);
    if ca.healthFacility.Some? {
      role := role.(location := [BuildReference(LocationType, ca.healthFacility.value)]);
    }
  }

  // ---------------------------------------------------------------- to IMIS

  /**
   * `get_practitioner_by_reference`: a reference without an id is reported and gives no
   * administrator; otherwise `ClaimAdmin.objects.get` either finds it or raises `DoesNotExist`.
   */
  function PractitionerByReference(r: Reference, db: Database, errors: seq<string>)
    : (res: Result<(Option<ClaimAdmin>, seq<string>), FhirError>)
    ensures ResourceId(r).None? ==> res == Success((None, errors + [NoPractitionerId]))
    ensures ResourceId(r).Some? && ResourceId(r).value !in db.admins ==> res == Failure(DoesNotExist("ClaimAdmin"))
    ensures ResourceId(r).Some? && ResourceId(r).value in db.admins ==>
      res == Success((Some(db.admins[ResourceId(r).value]), errors))
  {
    var id := ResourceId(r);
    var (missing, errs) := ValidCondition(id.None?, NoPractitionerId, errors);
    if missing then Success((None, errs))
    else if id.value in db.admins then Success((Some(db.admins[id.value]), errs))
    else Failure(DoesNotExist("ClaimAdmin"))
  }

  /** `get_first_location`: the first reference of a non-empty list. */
  function FirstLocation(refs: seq<Reference>): (r: Reference)
    requires |refs| > 0
    ensures r in refs && r == refs[0]
  {
    refs[0]
  }

  /**
   * `get_location_by_reference`: no reference gives no facility and no error; otherwise only
   * the first reference is read, an id-less one is reported, and `HealthFacility.objects.get`
   * either finds the facility or raises `DoesNotExist`.
   */
  function LocationByReference(refs: seq<Reference>, db: Database, errors: seq<string>)
    : (res: Result<(Option<string>, seq<string>), FhirError>)
    ensures |refs| == 0 ==> res == Success((None, errors))
    ensures |refs| > 0 && ResourceId(refs[0]).None? ==> res == Success((None, errors + [NoLocationId]))
    ensures |refs| > 0 && ResourceId(refs[0]).Some? ==>
      res == (if ResourceId(refs[0]).value in db.facilities then Success((ResourceId(refs[0]), errors))
              else Failure(DoesNotExist("HealthFacility")))
  {
    if |refs| == 0 then Success((None, errors))
    else
      var id := ResourceId(FirstLocation(refs));
      var (missing, errs) := ValidCondition(id.None?, NoLocationId, errors);
      if missing then Success((None, errs))
      else if id.value in db.facilities then Success((id, errs))
      else Failure(DoesNotExist("HealthFacility"))
  }

  /**
   * The stages of `to_imis_obj` before `check_errors`: the administrator found (with the
   * facility attached) and the errors recorded, or the exception a lookup raised.
   */
  function Decoded(role: PractitionerRole, db: Database): Result<(Option<ClaimAdmin>, seq<string>), FhirError> {
    match PractitionerByReference(role.practitioner, db, [])
    case Failure(e) => Failure(e)
    case Success(p) =>
      match LocationByReference(role.location, db, p.1)
      case Failure(e) => Failure(e)
      case Success(l) =>
        match p.0
        case Some(ca) => Success((Some(ca.(healthFacility := l.0)), l.1))
        case None => Success((None, l.1))
  }

  /**
   * `to_imis_obj`: both lookups, the facility attached when an administrator was found, then
   * `check_errors`. A result that passes the check always holds an administrator.
   */
  method ToImis(role: PractitionerRole, db: Database) returns (r: Result<Option<ClaimAdmin>, FhirError>)
    ensures Decoded(role, db).Failure? ==> r == Failure(Decoded(role, db).error)
    ensures Decoded(role, db).Success? ==> r == CheckErrors(Decoded(role, db).value.0, Decoded(role, db).value.1)
    ensures r.Success? ==> r.value.Some?
  {
    var p := PractitionerByReference(role.practitioner, db, []);
    if p.Failure? {
      return Failure(p.error);
    }
    var l := LocationByReference(role.location, db, p.value.1);
    if l.Failure? {
      return Failure(l.error);
    }
    var claimAdmin := p.value.0;
    if claimAdmin.Some? {
      claimAdmin := Some(claimAdmin.value.(healthFacility := l.value.0));
    }
    r := CheckErrors(claimAdmin, l.value.1);
  }

  /** Only the first location reference matters: whatever follows it is never read. */
  lemma OnlyFirstLocationRead(role: PractitionerRole, first: Reference, rest: seq<Reference>, db: Database)
    ensures Decoded(role.(location := [first] + rest), db) == Decoded(role.(location := [first]), db)
  {
    assert ([first] + rest)[0] == first;
  }

  /** Two references without ids report both problems, the practitioner's first. */
  lemma BothReferencesReported(role: PractitionerRole, db: Database)
    requires ResourceId(role.practitioner).None?
    requires |role.location| > 0 && ResourceId(role.location[0]).None?
    ensures Decoded(role, db) == Success((None, [NoPractitionerId, NoLocationId]))
  {
    assert [] + [NoPractitionerId] + [NoLocationId] == [NoPractitionerId, NoLocationId];
  }

  /**
   * Encoding a stored administrator and decoding the result gives back that administrator with
   * its facility, when the facility is stored too and neither key holds a `/`.
   */
  lemma PractitionerRoleRoundTrip(ca: ClaimAdmin, db: Database, idSystem: string, idTypeCode: string)
    requires ca.id in db.admins && ca.id != "" && '/' !in ca.id
    requires ca.healthFacility.Some? ==>
      (ca.healthFacility.value in db.facilities && ca.healthFacility.value != "" && '/' !in ca.healthFacility.value)
    ensures Decoded(Encoded(ca, idSystem, idTypeCode), db) ==
      Success((Some(db.admins[ca.id].(healthFacility := ca.healthFacility)), []))
  {
    ResourceIdOfBuildReference(PractitionerType, ca.id);
    if ca.healthFacility.Some? {
      ResourceIdOfBuildReference(LocationType, ca.healthFacility.value);
    }
  }
}
