/**
 * The STU3 `ClaimConverter`: a claim of the insurance database to a FHIR Claim and back.
 * Decoding runs eight builders, each recording a message for the field it could not fill,
 * and fails once at the end; a diagnosis code the database does not know, or a diagnosis
 * concept without a coding, aborts the conversion on the spot.
 */
module ClaimConverter {
  import opened Wrappers
  import opened Exceptions
  import opened FhirTypes
  import opened BaseConverter

  const MissingDateClaimed := "Missing the date of creation"
  const MissingClaimCode := "Missing the claim code"
  const MissingPatient := "Missing the patient reference"
  const MissingFacility := "Missing the facility reference"
  const MissingStartDate := "Missing the billable start date"
  const MissingMainDiagnosis := "Missing the main diagnosis for claim"
  const MissingTotal := "Missing the value for `total` attribute"
  const MissingEnterer := "Missing the enterer reference"

  const LocationType := "Location"
  const PatientType := "Patient"
  const PractitionerType := "Practitioner"

  /** The texts `ImisClaimIcdTypes` gives the five diagnosis slots (that enum is not part of this model). */
  datatype IcdTypes = IcdTypes(main: string, first: string, second: string, third: string, fourth: string)
  {
    predicate Distinct() {
      main != first && main != second && main != third && main != fourth
      && first != second && first != third && first != fourth
      && second != third && second != fourth && third != fourth
    }
  }

  /** The identifier-type system and the two identifier type codes the claim uses, and the slot texts. */
  datatype Constants = Constants(identifierTypeSystem: string, dbIdCode: string, claimCodeType: string, icd: IcdTypes)

  /** The keys of the stored records the decoder can look up. */
  datatype Db = Db(insurees: set<string>, facilities: set<string>, admins: set<string>, diagnosisCodes: set<string>)

  /**
   * The fields of a claim the converter reads or writes. References to other records hold
   * those records' keys; `icd` holds the code of the main diagnosis, `icd1`..`icd4` the
   * secondary diagnoses; `claimed` is the claimed amount.
   */
  datatype ImisClaim = ImisClaim(
    id: Option<string>, code: Option<string>, dateClaimed: Option<string>,
    healthFacility: Option<string>, insuree: Option<string>, admin: Option<string>,
    dateFrom: Option<string>, dateTo: Option<string>,
    icd: Option<string>, icd1: Option<string>, icd2: Option<string>, icd3: Option<string>, icd4: Option<string>,
    claimed: Option<int>)

  const EmptyClaim := ImisClaim(None, None, None, None, None, None, None, None, None, None, None, None, None, None)

  /** A diagnosis entry: its 1-based sequence number, its code concept and its list of type concepts. */
  datatype Diagnosis = Diagnosis(sequence: int, code: Option<Concept>, ty: seq<Concept>)

  /** A FHIR Claim; list-valued elements are lists, which the object model never leaves unset. */
  datatype FhirClaim = FhirClaim(
    created: Option<string>, facility: Option<Reference>, identifier: seq<Identifier>,
    patient: Option<Reference>, billablePeriod: Option<Period>, diagnosis: seq<Diagnosis>,
    total: Option<Money>, enterer: Option<Reference>)

  const EmptyFhirClaim := FhirClaim(None, None, [], None, None, [], None, None)

  // ---------------------------------------------------------------- identifiers

  /** The claim-code identifier; its value is the claim's code, which may be missing. */
  function CodeIdentifier(claim: ImisClaim, k: Constants): (r: Identifier)
    ensures TypeCoding(r) == Some(Coding(Some(k.identifierTypeSystem), Some(k.claimCodeType), None))
    ensures r.value == claim.code
  {
    BuildIdentifier("", k.identifierTypeSystem, k.claimCodeType).(value := claim.code)
  }

  /** `build_fhir_identifiers`: the database id (when there is one), then the claim code. */
  method BuildFhirIdentifiers(claim: ImisClaim, k: Constants) returns (ids: seq<Identifier>)
    ensures ids == (if claim.id.Some? then [BuildIdentifier(claim.id.value, k.identifierTypeSystem, k.dbIdCode)] else [])
                   + [CodeIdentifier(claim, k)]
  {
    ids := AppendKeyIdentifier([], claim.id, k.identifierTypeSystem, k.dbIdCode);
    ids := ids + [CodeIdentifier(claim, k)];
  }

  /** An identifier the decoder takes the claim code from. */
  function IsClaimCode(k: Constants): Identifier -> bool {
    (id: Identifier) => TypeCoding(id).Some? && TypeCoding(id).value.system == Some(k.identifierTypeSystem)
                        && TypeCoding(id).value.code == Some(k.claimCodeType) && NonEmpty(id.value)
  }

  /** The claim code after decoding: the value of the last matching identifier, else the old code. */
  function CodeDecoded(claim: ImisClaim, ids: seq<Identifier>, k: Constants): ImisClaim {
    match Last(ids, IsClaimCode(k))
    case Some(id) => claim.(code := id.value)
    case None => claim
  }

  /**
   * `build_imis_identifier`: every identifier whose type's first coding has the
   * identifier-type system and the claim-code type, and whose value is not empty, sets the
   * code (the last one wins); a claim still without a code records a message.
   */
  method BuildImisIdentifier(claim: ImisClaim, fc: FhirClaim, k: Constants, errors: seq<string>)
    returns (r: ImisClaim, errs: seq<string>)
    ensures r == CodeDecoded(claim, fc.identifier, k)
    ensures errs == ValidCondition(r.code.None?, MissingClaimCode, errors).1
  {
    r := claim;
    var ids := fc.identifier;
    var i := 0;
    while i < |ids|
      invariant 0 <= i <= |ids|
      invariant r == CodeDecoded(claim, ids[..i], k)
    {
      var id := ids[i];
      assert ids[..i + 1] == ids[..i] + [id];
      LastSnoc(ids[..i], id, IsClaimCode(k));
      if id.ty.Some? {
        var coding := FirstCoding(id.ty.value);
        if coding.Some? && coding.value.system == Some(k.identifierTypeSystem) {
          if NonEmpty(id.value) && coding.value.code == Some(k.claimCodeType) {
            r := r.(code := id.value);
          }
        }
      }
      i := i + 1;
    }
    assert ids[..|ids|] == ids;
    errs := ValidCondition(r.code.None?, MissingClaimCode, errors).1;
  }

  /**
   * The encoded identifiers give the claim code back, whether or not a database-id
   * identifier precedes it, as long as the claim has a non-empty code.
   */
  lemma IdentifiersRoundTrip(claim: ImisClaim, k: Constants, x: ImisClaim)
    requires NonEmpty(claim.code)
    ensures CodeDecoded(x, (if claim.id.Some? then [BuildIdentifier(claim.id.value, k.identifierTypeSystem, k.dbIdCode)] else [])
                           + [CodeIdentifier(claim, k)], k) == x.(code := claim.code)
  {
    var pre := if claim.id.Some? then [BuildIdentifier(claim.id.value, k.identifierTypeSystem, k.dbIdCode)] else [];
    LastSnoc(pre, CodeIdentifier(claim, k), IsClaimCode(k));
  }

  // ---------------------------------------------------------------- references and dates

  /** A reference for the record with the given key, unset when the claim has no such record. */
  function ReferenceTo(resourceType: string, key: Option<string>): Option<Reference> {
    match key
    case Some(id) => Some(BuildReference(resourceType, id))
    case None => None
  }

  /** The key the decoder finds for a reference: only a present reference is looked up. */
  function Resolve(r: Option<Reference>, keys: set<string>): (found: Option<string>)
    ensures r.None? ==> found.None?
    ensures r.Some? ==> found == FindByReference(r.value, keys)
  {
    match r
    case Some(ref) => FindByReference(ref, keys)
    case None => None
  }

  /** A record's reference resolves back to that record when it is stored. */
  lemma ReferenceRoundTrip(resourceType: string, key: Option<string>, keys: set<string>)
    requires '/' !in resourceType
    requires key.Some? ==> '/' !in key.value && key.value != "" && key.value in keys
    ensures Resolve(ReferenceTo(resourceType, key), keys) == key
  {
    if key.Some? {
      FindByBuiltReference(resourceType, key.value, keys);
    }
  }

  /** `build_imis_date_claimed`: a non-empty `created` becomes the claim date; no claim date records a message. */
  function DateClaimedDecoded(claim: ImisClaim, fc: FhirClaim, errors: seq<string>): (r: (ImisClaim, seq<string>))
    ensures r.0 == (if NonEmpty(fc.created) then claim.(dateClaimed := fc.created) else claim)
    ensures r.1 == ValidCondition(r.0.dateClaimed.None?, MissingDateClaimed, errors).1
  {
    var c := if NonEmpty(fc.created) then claim.(dateClaimed := fc.created) else claim;
    (c, ValidCondition(c.dateClaimed.None?, MissingDateClaimed, errors).1)
  }

  /**
   * `build_imis_health_facility`, `build_imis_patient`, `build_imis_claim_admin`: a present
   * reference is looked up; a record still missing afterwards records its message.
   */
  function FacilityDecoded(claim: ImisClaim, fc: FhirClaim, db: Db, errors: seq<string>): (r: (ImisClaim, seq<string>))
    ensures r.0 == (if fc.facility.Some? then claim.(healthFacility := Resolve(fc.facility, db.facilities)) else claim)
    ensures r.1 == ValidCondition(r.0.healthFacility.None?, MissingFacility, errors).1
  {
    var c := if fc.facility.Some? then claim.(healthFacility := Resolve(fc.facility, db.facilities)) else claim;
    (c, ValidCondition(c.healthFacility.None?, MissingFacility, errors).1)
  }

  function PatientDecoded(claim: ImisClaim, fc: FhirClaim, db: Db, errors: seq<string>): (r: (ImisClaim, seq<string>))
    ensures r.0 == (if fc.patient.Some? then claim.(insuree := Resolve(fc.patient, db.insurees)) else claim)
    ensures r.1 == ValidCondition(r.0.insuree.None?, MissingPatient, errors).1
  {
    var c := if fc.patient.Some? then claim.(insuree := Resolve(fc.patient, db.insurees)) else claim;
    (c, ValidCondition(c.insuree.None?, MissingPatient, errors).1)
  }

  function AdminDecoded(claim: ImisClaim, fc: FhirClaim, db: Db, errors: seq<string>): (r: (ImisClaim, seq<string>))
    ensures r.0 == (if fc.enterer.Some? then claim.(admin := Resolve(fc.enterer, db.admins)) else claim)
    ensures r.1 == ValidCondition(r.0.admin.None?, MissingEnterer, errors).1
  {
    var c := if fc.enterer.Some? then claim.(admin := Resolve(fc.enterer, db.admins)) else claim;
    (c, ValidCondition(c.admin.None?, MissingEnterer, errors).1)
  }

  /** `build_fhir_billable_period`: a period always, with start and end only for non-empty dates. */
  function BillablePeriod(claim: ImisClaim): (r: Period)
    ensures r.start == (if NonEmpty(claim.dateFrom) then claim.dateFrom else None)
    ensures r.end == (if NonEmpty(claim.dateTo) then claim.dateTo else None)
  {
    Period(if NonEmpty(claim.dateFrom) then claim.dateFrom else None,
           if NonEmpty(claim.dateTo) then claim.dateTo else None)
  }

  /**
   * `build_imis_date_range`: non-empty start and end dates are taken; a claim still without a
   * start date records a message, one without an end date does not.
   */
  function DateRangeDecoded(claim: ImisClaim, fc: FhirClaim, errors: seq<string>): (r: (ImisClaim, seq<string>))
    ensures fc.billablePeriod.None? ==> r.0 == claim
    ensures fc.billablePeriod.Some? ==>
      r.0.dateFrom == (if NonEmpty(fc.billablePeriod.value.start) then fc.billablePeriod.value.start else claim.dateFrom)
      && r.0.dateTo == (if NonEmpty(fc.billablePeriod.value.end) then fc.billablePeriod.value.end else claim.dateTo)
      && r.0 == claim.(dateFrom := r.0.dateFrom, dateTo := r.0.dateTo)
    ensures r.1 == ValidCondition(r.0.dateFrom.None?, MissingStartDate, errors).1
  {
    var c := match fc.billablePeriod
      case None => claim
      case Some(period) =>
        var c1 := if NonEmpty(period.start) then claim.(dateFrom := period.start) else claim;
        if NonEmpty(period.end) then c1.(dateTo := period.end) else c1;
    (c, ValidCondition(c.dateFrom.None?, MissingStartDate, errors).1)
  }

  /** The encoded period gives both dates back; a claim with no start date is reported. */
  lemma BillablePeriodRoundTrip(claim: ImisClaim, x: ImisClaim, errors: seq<string>)
    requires NonEmpty(claim.dateFrom)
    ensures var fc := EmptyFhirClaim.(billablePeriod := Some(BillablePeriod(claim)));
      DateRangeDecoded(x, fc, errors) == (x.(dateFrom := claim.dateFrom, dateTo := if NonEmpty(claim.dateTo) then claim.dateTo else x.dateTo), errors)
  {
  }

  // ---------------------------------------------------------------- total

  /** `build_fhir_total`: the claimed amount, with a missing or zero amount sent as 0. */
  function Total(claim: ImisClaim): (r: Money)
    ensures r.value.Some?
    ensures claim.claimed.Some? ==> r.value == claim.claimed
    ensures claim.claimed.None? ==> r.value == Some(0)
  {
    Money(Some(if claim.claimed.Some? && claim.claimed.value != 0 then claim.claimed.value else 0), None)
  }

  /** `build_imis_total_claimed`: the total's amount (possibly missing); no amount records a message. */
  function TotalDecoded(claim: ImisClaim, fc: FhirClaim, errors: seq<string>): (r: (ImisClaim, seq<string>))
    ensures r.0 == (if fc.total.Some? then claim.(claimed := fc.total.value.value) else claim)
    ensures r.1 == ValidCondition(r.0.claimed.None?, MissingTotal, errors).1
  {
    var c := if fc.total.Some? then claim.(claimed := fc.total.value.value) else claim;
    (c, ValidCondition(c.claimed.None?, MissingTotal, errors).1)
  }

  /** The encoded total gives the claimed amount back, and a missing amount comes back as 0: never a message. */
  lemma TotalRoundTrip(claim: ImisClaim, x: ImisClaim, errors: seq<string>)
    ensures TotalDecoded(x, EmptyFhirClaim.(total := Some(Total(claim))), errors)
            == (x.(claimed := Some(claim.claimed.UnwrapOr(0))), errors)
  {
  }

  // ---------------------------------------------------------------- diagnoses

  /** The diagnosis `build_fhir_diagnosis` appends to `ds`: numbered one past the current length. */
  function NewDiagnosis(ds: seq<Diagnosis>, code: string, ty: string): Diagnosis {
    Diagnosis(|ds| + 1, Some(BuildCodeableConcept(code, None, None)), [BuildSimpleCodeableConcept(ty)])
  }

  /** `build_fhir_diagnosis`: append one diagnosis with the next sequence number. */
  method BuildFhirDiagnosis(ds: seq<Diagnosis>, code: string, ty: string) returns (r: seq<Diagnosis>)
    ensures r == ds + [NewDiagnosis(ds, code, ty)]
    ensures r[|ds|].sequence == |ds| + 1
  {
    r := ds + [Diagnosis(|ds| + 1, Some(BuildCodeableConcept(code, None, None)), [BuildSimpleCodeableConcept(ty)])];
  }

  /** A secondary diagnosis is added only for a non-empty slot. */
  function AddIf(ds: seq<Diagnosis>, slot: Option<string>, ty: string): seq<Diagnosis> {
    if NonEmpty(slot) then ds + [NewDiagnosis(ds, slot.value, ty)] else ds
  }

  /** The diagnoses of a claim: the main one first, then each non-empty secondary slot in slot order. */
  function Diagnoses(claim: ImisClaim, k: Constants): seq<Diagnosis>
    requires claim.icd.Some?
  {
    var d0 := [NewDiagnosis([], claim.icd.value, k.icd.main)];
    AddIf(AddIf(AddIf(AddIf(d0, claim.icd1, k.icd.first), claim.icd2, k.icd.second), claim.icd3, k.icd.third),
          claim.icd4, k.icd.fourth)
  }

  /** Every entry is numbered by its 1-based position. */
  predicate Numbered(ds: seq<Diagnosis>) {
    forall i :: 0 <= i < |ds| ==> ds[i].sequence == i + 1
  }

  lemma AddIfNumbered(ds: seq<Diagnosis>, slot: Option<string>, ty: string)
    requires Numbered(ds)
    ensures Numbered(AddIf(ds, slot, ty))
  {
  }

  /**
   * The main diagnosis is always first, entries are numbered 1, 2, ... by position, and
   * there is one entry per non-empty secondary slot.
   */
  lemma DiagnosesShape(claim: ImisClaim, k: Constants)
    requires claim.icd.Some?
    ensures var ds := Diagnoses(claim, k);
      Numbered(ds) && ds[0] == NewDiagnosis([], claim.icd.value, k.icd.main)
      && |ds| == 1 + (if NonEmpty(claim.icd1) then 1 else 0) + (if NonEmpty(claim.icd2) then 1 else 0)
                   + (if NonEmpty(claim.icd3) then 1 else 0) + (if NonEmpty(claim.icd4) then 1 else 0)
  {
    var d0 := [NewDiagnosis([], claim.icd.value, k.icd.main)];
    var d1 := AddIf(d0, claim.icd1, k.icd.first);
    var d2 := AddIf(d1, claim.icd2, k.icd.second);
    var d3 := AddIf(d2, claim.icd3, k.icd.third);
    AddIfNumbered(d0, claim.icd1, k.icd.first);
    AddIfNumbered(d1, claim.icd2, k.icd.second);
    AddIfNumbered(d2, claim.icd3, k.icd.third);
    AddIfNumbered(d3, claim.icd4, k.icd.fourth);
  }

  /** `build_fhir_diagnoses`: fails on a claim without a main diagnosis (`None.code`). */
  method BuildFhirDiagnoses(claim: ImisClaim, k: Constants) returns (r: Result<seq<Diagnosis>, FhirError>)
    ensures claim.icd.None? ==> r == Failure(AttributeError("code"))
    ensures claim.icd.Some? ==> r == Success(Diagnoses(claim, k))
  {
    if claim.icd.None? {
      return Failure(AttributeError("code"));
    }
    var ds := BuildFhirDiagnosis([], claim.icd.value, k.icd.main);
    assert ds == [NewDiagnosis([], claim.icd.value, k.icd.main)];
    if NonEmpty(claim.icd1) {
      ds := BuildFhirDiagnosis(ds, claim.icd1.value, k.icd.first);
    }
    if NonEmpty(claim.icd2) {
      ds := BuildFhirDiagnosis(ds, claim.icd2.value, k.icd.second);
    }
    if NonEmpty(claim.icd3) {
      ds := BuildFhirDiagnosis(ds, claim.icd3.value, k.icd.third);
    }
    if NonEmpty(claim.icd4) {
      ds := BuildFhirDiagnosis(ds, claim.icd4.value, k.icd.fourth);
    }
    return Success(ds);
  }

  /**
   * `get_diagnosis_type` as written: it reads `.text` on the diagnosis's list of type
   * concepts, which fails for any non-empty list; an empty list gives no type.
   */
  function DiagnosisTypeAsWritten(d: Diagnosis): Result<Option<string>, FhirError> {
    if |d.ty| > 0 then Failure(AttributeError("text")) else Success(None)
  }

  /** Every diagnosis the encoder produces makes the as-written decoder fail. */
  lemma EncodedDiagnosisTypeUnreadable(ds: seq<Diagnosis>, code: string, ty: string)
    ensures DiagnosisTypeAsWritten(NewDiagnosis(ds, code, ty)) == Failure(AttributeError("text"))
  {
  }

  /** `get_diagnosis_type` reading the text of the first type concept, as the converter's own checks do. */
  function DiagnosisType(d: Diagnosis): (r: Option<string>)
    ensures |d.ty| == 0 ==> r.None?
  {
    if |d.ty| > 0 then d.ty[0].text else None
  }

  /** The corrected decoder reads back the type the encoder wrote. */
  lemma EncodedDiagnosisType(ds: seq<Diagnosis>, code: string, ty: string)
    ensures DiagnosisType(NewDiagnosis(ds, code, ty)) == Some(ty)
  {
  }

  /**
   * `get_diagnosis_code`: no concept gives no code; a concept without a coding fails; a
   * non-empty code is looked up and must exist (`objects.get`).
   */
  function DiagnosisCode(d: Diagnosis, db: Db): (r: Result<Option<string>, FhirError>)
    ensures r.Success? && r.value.Some? ==> r.value.value in db.diagnosisCodes
    ensures r == Failure(DoesNotExist("ClaimDiagnosisCode")) <==>
      d.code.Some? && FirstCoding(d.code.value).Some? && NonEmpty(FirstCoding(d.code.value).value.code)
      && FirstCoding(d.code.value).value.code.value !in db.diagnosisCodes
  {
    match d.code
    case None => Success(None)
    case Some(concept) =>
      match FirstCoding(concept)
      case None => Failure(AttributeError("code"))
      case Some(coding) =>
        if NonEmpty(coding.code) then
          if coding.code.value in db.diagnosisCodes then Success(coding.code) else Failure(DoesNotExist("ClaimDiagnosisCode"))
        else Success(None)
  }

  /** The slot a diagnosis type selects; `None` for a type that is none of the five. */
  function Slot(claim: ImisClaim, ty: string, k: Constants): Option<string> {
    if ty == k.icd.main then claim.icd
    else if ty == k.icd.first then claim.icd1
    else if ty == k.icd.second then claim.icd2
    else if ty == k.icd.third then claim.icd3
    else if ty == k.icd.fourth then claim.icd4
    else None
  }

  /** Storing a code in the slot of a type; an unknown or missing type changes nothing. */
  function SetSlot(claim: ImisClaim, ty: Option<string>, code: Option<string>, k: Constants): (r: ImisClaim)
    ensures k.icd.Distinct() ==> forall t :: t in {k.icd.main, k.icd.first, k.icd.second, k.icd.third, k.icd.fourth} ==>
      Slot(r, t, k) == if ty == Some(t) then code else Slot(claim, t, k)
  {
    match ty
    case None => claim
    case Some(t) =>
      if t == k.icd.main then claim.(icd := code)
      else if t == k.icd.first then claim.(icd1 := code)
      else if t == k.icd.second then claim.(icd2 := code)
      else if t == k.icd.third then claim.(icd3 := code)
      else if t == k.icd.fourth then claim.(icd4 := code)
      else claim
  }

  /** One iteration of the decoding loop: the entry's code goes to the slot its type names. */
  function DiagnosisStep(claim: ImisClaim, d: Diagnosis, db: Db, k: Constants): Result<ImisClaim, FhirError> {
    match DiagnosisCode(d, db)
    case Failure(e) => Failure(e)
    case Success(code) => Success(SetSlot(claim, DiagnosisType(d), code, k))
  }

  /** The loop over the diagnoses, first to last, stopping at the first failure. */
  function DiagnosesDecoded(claim: ImisClaim, ds: seq<Diagnosis>, db: Db, k: Constants): Result<ImisClaim, FhirError>
    decreases |ds|
  {
    if ds == [] then Success(claim)
    else
      match DiagnosesDecoded(claim, ds[..|ds| - 1], db, k)
      case Failure(e) => Failure(e)
      case Success(c) => DiagnosisStep(c, ds[|ds| - 1], db, k)
  }

  function HasType(ty: string): Diagnosis -> bool {
    (d: Diagnosis) => DiagnosisType(d) == Some(ty)
  }

  /**
   * The slot a type names ends up holding the code of the LAST diagnosis of that type, or
   * keeps its old value when no diagnosis has that type: the slot is chosen by the type
   * text, not by the position in the list.
   */
  lemma {:induction false} DiagnosesDecodedSlot(claim: ImisClaim, ds: seq<Diagnosis>, db: Db, k: Constants, t: string)
    requires k.icd.Distinct() && t in {k.icd.main, k.icd.first, k.icd.second, k.icd.third, k.icd.fourth}
    requires DiagnosesDecoded(claim, ds, db, k).Success?
    ensures match Last(ds, HasType(t))
      case Some(d) => DiagnosisCode(d, db).Success? && Slot(DiagnosesDecoded(claim, ds, db, k).value, t, k) == DiagnosisCode(d, db).value
      case None => Slot(DiagnosesDecoded(claim, ds, db, k).value, t, k) == Slot(claim, t, k)
    decreases |ds|
  {
    if ds != [] {
      var pre, d := ds[..|ds| - 1], ds[|ds| - 1];
      assert ds == pre + [d];
      LastSnoc(pre, d, HasType(t));
      DiagnosesDecodedSlot(claim, pre, db, k, t);
    }
  }

  /** The loop fails only on an entry whose code concept has no coding or names an unknown code. */
  lemma {:induction false} DiagnosesDecodedSucceeds(claim: ImisClaim, ds: seq<Diagnosis>, db: Db, k: Constants)
    requires forall i :: 0 <= i < |ds| ==> DiagnosisCode(ds[i], db).Success?
    ensures DiagnosesDecoded(claim, ds, db, k).Success?
    decreases |ds|
  {
    if ds != [] {
      DiagnosesDecodedSucceeds(claim, ds[..|ds| - 1], db, k);
    }
  }

  /**
   * `build_imis_diagnoses` (reading the first type concept's text): the loop, then a
   * message when the claim still has no main diagnosis.
   */
  method BuildImisDiagnoses(claim: ImisClaim, fc: FhirClaim, db: Db, k: Constants, errors: seq<string>)
    returns (r: Result<(ImisClaim, seq<string>), FhirError>)
    ensures DiagnosesDecoded(claim, fc.diagnosis, db, k).Failure? ==> r == Failure(DiagnosesDecoded(claim, fc.diagnosis, db, k).error)
    ensures DiagnosesDecoded(claim, fc.diagnosis, db, k).Success? ==>
      var c := DiagnosesDecoded(claim, fc.diagnosis, db, k).value;
      r == Success((c, ValidCondition(c.icd.None?, MissingMainDiagnosis, errors).1))
  {
    var c := claim;
    var ds := fc.diagnosis;
    var i := 0;
    while i < |ds|
      invariant 0 <= i <= |ds|
      invariant DiagnosesDecoded(claim, ds[..i], db, k) == Success(c)
    {
      assert ds[..i + 1][..i] == ds[..i];
      var ty := DiagnosisType(ds[i]);
      var code := DiagnosisCode(ds[i], db);
      if code.Failure? {
        DiagnosesFailureStays(claim, ds, db, k, i + 1);
        assert ds[..|ds|] == ds;
        return Failure(code.error);
      }
      c := SetSlot(c, ty, code.value, k);
      i := i + 1;
    }
    assert ds[..|ds|] == ds;
    r := Success((c, ValidCondition(c.icd.None?, MissingMainDiagnosis, errors).1));
  }

  /** A failure in a prefix is the failure of the whole loop. */
  lemma {:induction false} DiagnosesFailureStays(claim: ImisClaim, ds: seq<Diagnosis>, db: Db, k: Constants, n: nat)
    requires n <= |ds| && DiagnosesDecoded(claim, ds[..n], db, k).Failure?
    ensures DiagnosesDecoded(claim, ds, db, k) == DiagnosesDecoded(claim, ds[..n], db, k)
    decreases |ds| - n
  {
    if n < |ds| {
      assert ds[..n + 1][..n] == ds[..n];
      DiagnosesFailureStays(claim, ds, db, k, n + 1);
    } else {
      assert ds[..n] == ds;
    }
  }

  /** `Last` over a list built by `AddIf`: the added entry wins for its own type. */
  lemma LastAddIf(ds: seq<Diagnosis>, slot: Option<string>, ty: string, t: string)
    ensures Last(AddIf(ds, slot, ty), HasType(t))
      == if NonEmpty(slot) && ty == t then Some(NewDiagnosis(ds, slot.value, ty)) else Last(ds, HasType(t))
  {
    if NonEmpty(slot) {
      LastSnoc(ds, NewDiagnosis(ds, slot.value, ty), HasType(t));
    }
  }

  /** The type of a slot finds, in the encoded list, the entry made from that slot. */
  lemma DiagnosesLast(claim: ImisClaim, k: Constants, t: string)
    requires claim.icd.Some? && k.icd.Distinct()
    requires t in {k.icd.main, k.icd.first, k.icd.second, k.icd.third, k.icd.fourth}
    ensures var found := Last(Diagnoses(claim, k), HasType(t));
      (t == k.icd.main ==> found.Some? && found.value.code == Some(BuildCodeableConcept(claim.icd.value, None, None)))
      && (t != k.icd.main ==> (found.Some? <==> NonEmpty(Slot(claim, t, k))))
      && (t != k.icd.main && found.Some? ==> found.value.code == Some(BuildCodeableConcept(Slot(claim, t, k).value, None, None)))
  {
    var d0 := [NewDiagnosis([], claim.icd.value, k.icd.main)];
    var d1 := AddIf(d0, claim.icd1, k.icd.first);
    var d2 := AddIf(d1, claim.icd2, k.icd.second);
    var d3 := AddIf(d2, claim.icd3, k.icd.third);
    assert d0 == [] + [d0[0]];
    LastSnoc([], d0[0], HasType(t));
    LastAddIf(d0, claim.icd1, k.icd.first, t);
    LastAddIf(d1, claim.icd2, k.icd.second, t);
    LastAddIf(d2, claim.icd3, k.icd.third, t);
    LastAddIf(d3, claim.icd4, k.icd.fourth, t);
    if t == k.icd.main {
      assert Last(Diagnoses(claim, k), HasType(t)) == Some(d0[0]);
    } else if t == k.icd.first {
      assert Last(Diagnoses(claim, k), HasType(t)) == Last(d1, HasType(t));
    } else if t == k.icd.second {
      assert Last(Diagnoses(claim, k), HasType(t)) == Last(d2, HasType(t));
    } else if t == k.icd.third {
      assert Last(Diagnoses(claim, k), HasType(t)) == Last(d3, HasType(t));
    }
  }

  /**
   * Decoding the encoded diagnoses restores the main diagnosis and every non-empty secondary
   * slot, provided the codes are known to the database; empty slots keep their old value.
   */
  lemma DiagnosesRoundTrip(claim: ImisClaim, k: Constants, db: Db, x: ImisClaim, t: string)
    requires claim.icd.Some? && k.icd.Distinct()
    requires KnownCodes(claim, db)
    requires t in {k.icd.main, k.icd.first, k.icd.second, k.icd.third, k.icd.fourth}
    ensures DiagnosesDecoded(x, Diagnoses(claim, k), db, k).Success?
    ensures Slot(DiagnosesDecoded(x, Diagnoses(claim, k), db, k).value, t, k)
            == if NonEmpty(Slot(claim, t, k)) then Slot(claim, t, k) else Slot(x, t, k)
  {
    var ds := Diagnoses(claim, k);
    forall i | 0 <= i < |ds| ensures DiagnosisCode(ds[i], db).Success? {
      DiagnosesCodesKnown(claim, k, db, i);
    }
    DiagnosesDecodedSucceeds(x, ds, db, k);
    DiagnosesDecodedSlot(x, ds, db, k, t);
    DiagnosesLast(claim, k, t);
  }

  /** The main diagnosis is present, and it and every non-empty secondary slot name a stored diagnosis code. */
  predicate KnownCodes(claim: ImisClaim, db: Db) {
    NonEmpty(claim.icd) && claim.icd.value in db.diagnosisCodes
    && (NonEmpty(claim.icd1) ==> claim.icd1.value in db.diagnosisCodes)
    && (NonEmpty(claim.icd2) ==> claim.icd2.value in db.diagnosisCodes)
    && (NonEmpty(claim.icd3) ==> claim.icd3.value in db.diagnosisCodes)
    && (NonEmpty(claim.icd4) ==> claim.icd4.value in db.diagnosisCodes)
  }

  /** Each encoded entry's code is one of the claim's non-empty slots. */
  lemma DiagnosesCodesKnown(claim: ImisClaim, k: Constants, db: Db, i: nat)
    requires KnownCodes(claim, db)
    requires i < |Diagnoses(claim, k)|
    ensures DiagnosisCode(Diagnoses(claim, k)[i], db).Success?
  {
    var d0 := [NewDiagnosis([], claim.icd.value, k.icd.main)];
    var d1 := AddIf(d0, claim.icd1, k.icd.first);
    var d2 := AddIf(d1, claim.icd2, k.icd.second);
    var d3 := AddIf(d2, claim.icd3, k.icd.third);
    assert forall j :: 0 <= j < |d0| ==> DiagnosisCode(d0[j], db).Success?;
    assert forall j :: 0 <= j < |d1| ==> DiagnosisCode(d1[j], db).Success?;
    assert forall j :: 0 <= j < |d2| ==> DiagnosisCode(d2[j], db).Success?;
    assert forall j :: 0 <= j < |d3| ==> DiagnosisCode(d3[j], db).Success?;
  }

  // ---------------------------------------------------------------- whole conversions

  /** The FHIR claim `to_fhir_obj` builds from a claim with a main diagnosis. */
  predicate Encodes(fc: FhirClaim, claim: ImisClaim, k: Constants)
    requires claim.icd.Some?
  {
    fc.created == claim.dateClaimed
    && fc.facility == ReferenceTo(LocationType, claim.healthFacility)
    && fc.identifier == (if claim.id.Some? then [BuildIdentifier(claim.id.value, k.identifierTypeSystem, k.dbIdCode)] else [])
                        + [CodeIdentifier(claim, k)]
    && fc.patient == ReferenceTo(PatientType, claim.insuree)
    && fc.billablePeriod == Some(BillablePeriod(claim))
    && fc.diagnosis == Diagnoses(claim, k)
    && fc.total == Some(Total(claim))
    && fc.enterer == ReferenceTo(PractitionerType, claim.admin)
  }

  /**
   * `to_fhir_obj`: fails on a claim without a claim date (`None.isoformat()`) or without a
   * main diagnosis; otherwise every element is filled as the builders above describe.
   */
  method ToFhir(claim: ImisClaim, k: Constants) returns (r: Result<FhirClaim, FhirError>)
    ensures claim.dateClaimed.None? ==> r == Failure(AttributeError("isoformat"))
    ensures claim.dateClaimed.Some? && claim.icd.None? ==> r == Failure(AttributeError("code"))
    ensures claim.dateClaimed.Some? && claim.icd.Some? ==> r.Success?
    ensures r.Success? ==> claim.icd.Some? && Encodes(r.value, claim, k)
  {
    if claim.dateClaimed.None? {
      return Failure(AttributeError("isoformat"));
    }
    var fc := EmptyFhirClaim.(created := claim.dateClaimed);
    fc := fc.(facility := ReferenceTo(LocationType, claim.healthFacility));
    var ids := BuildFhirIdentifiers(claim, k);
    fc := fc.(identifier := ids);
    fc := fc.(patient := ReferenceTo(PatientType, claim.insuree));
    fc := fc.(billablePeriod := Some(BillablePeriod(claim)));
    var ds := BuildFhirDiagnoses(claim, k);
    if ds.Failure? {
      return Failure(ds.error);
    }
    fc := fc.(diagnosis := ds.value);
    fc := fc.(total := Some(Total(claim)));
    fc := fc.(enterer := ReferenceTo(PractitionerType, claim.admin));
    return Success(fc);
  }

  /** The claim and messages after the four builders that run before the diagnoses. */
  function HeadDecoded(fc: FhirClaim, db: Db, k: Constants): (ImisClaim, seq<string>) {
    var (c1, e1) := DateClaimedDecoded(EmptyClaim, fc, []);
    var (c2, e2) := FacilityDecoded(c1, fc, db, e1);
    var c3 := CodeDecoded(c2, fc.identifier, k);
    var e3 := ValidCondition(c3.code.None?, MissingClaimCode, e2).1;
    var (c4, e4) := PatientDecoded(c3, fc, db, e3);
    DateRangeDecoded(c4, fc, e4)
  }

  /** The whole decoding: the diagnoses may abort it; otherwise total and enterer follow. */
  function Decoded(fc: FhirClaim, db: Db, k: Constants): Result<(ImisClaim, seq<string>), FhirError> {
    var (c5, e5) := HeadDecoded(fc, db, k);
    match DiagnosesDecoded(c5, fc.diagnosis, db, k)
    case Failure(e) => Failure(e)
    case Success(c6) =>
      var e6 := ValidCondition(c6.icd.None?, MissingMainDiagnosis, e5).1;
      var (c7, e7) := TotalDecoded(c6, fc, e6);
      Success(AdminDecoded(c7, fc, db, e7))
  }

  /**
   * `to_imis_obj`: all eight builders run in order before the messages are looked at, so
   * every missing field is reported together; an aborted diagnosis lookup fails first.
   */
  method ToImis(fc: FhirClaim, db: Db, k: Constants) returns (r: Result<ImisClaim, FhirError>)
    ensures Decoded(fc, db, k).Failure? ==> r == Failure(Decoded(fc, db, k).error)
    ensures Decoded(fc, db, k).Success? ==> r == CheckErrors(Decoded(fc, db, k).value.0, Decoded(fc, db, k).value.1)
  {
    var errors: seq<string> := [];
    var claim := EmptyClaim;
    claim, errors := DateClaimedDecoded(claim, fc, errors).0, DateClaimedDecoded(claim, fc, errors).1;
    claim, errors := FacilityDecoded(claim, fc, db, errors).0, FacilityDecoded(claim, fc, db, errors).1;
    claim, errors := BuildImisIdentifier(claim, fc, k, errors);
    claim, errors := PatientDecoded(claim, fc, db, errors).0, PatientDecoded(claim, fc, db, errors).1;
    claim, errors := DateRangeDecoded(claim, fc, errors).0, DateRangeDecoded(claim, fc, errors).1;
    assert (claim, errors) == HeadDecoded(fc, db, k);
    var diag := BuildImisDiagnoses(claim, fc, db, k, errors);
    if diag.Failure? {
      return Failure(diag.error);
    }
    claim, errors := diag.value.0, diag.value.1;
    claim, errors := TotalDecoded(claim, fc, errors).0, TotalDecoded(claim, fc, errors).1;
    claim, errors := AdminDecoded(claim, fc, db, errors).0, AdminDecoded(claim, fc, db, errors).1;
    r := CheckErrors(claim, errors);
  }

  /** A claim with nothing filled in is reported with all eight messages at once, in builder order. */
  lemma EveryMissingFieldReported(db: Db, k: Constants)
    ensures Decoded(EmptyFhirClaim, db, k) == Success((EmptyClaim,
      [MissingDateClaimed, MissingFacility, MissingClaimCode, MissingPatient, MissingStartDate,
       MissingMainDiagnosis, MissingTotal, MissingEnterer]))
  {
    var fc := EmptyFhirClaim;
    var m := [MissingDateClaimed, MissingFacility, MissingClaimCode, MissingPatient, MissingStartDate,
              MissingMainDiagnosis, MissingTotal, MissingEnterer];
    assert Last(fc.identifier, IsClaimCode(k)) == None;
    assert [] + [m[0]] == m[..1];
    assert m[..1] + [m[1]] == m[..2];
    assert m[..2] + [m[2]] == m[..3];
    assert m[..3] + [m[3]] == m[..4];
    assert m[..4] + [m[4]] == m[..5];
    assert m[..5] + [m[5]] == m[..6];
    assert m[..6] + [m[6]] == m[..7];
    assert m[..7] + [m[7]] == m;
    assert HeadDecoded(fc, db, k) == (EmptyClaim, m[..5]);
    assert DiagnosesDecoded(EmptyClaim, fc.diagnosis, db, k) == Success(EmptyClaim);
  }


  /** The diagnoses loop changes the five diagnosis slots and nothing else. */
  lemma {:induction false} DiagnosesDecodedFrame(claim: ImisClaim, ds: seq<Diagnosis>, db: Db, k: Constants)
    requires DiagnosesDecoded(claim, ds, db, k).Success?
    ensures DiagnosesDecoded(claim, ds, db, k).value.(icd := claim.icd, icd1 := claim.icd1, icd2 := claim.icd2,
                                                      icd3 := claim.icd3, icd4 := claim.icd4) == claim
    decreases |ds|
  {
    if ds != [] {
      DiagnosesDecodedFrame(claim, ds[..|ds| - 1], db, k);
    }
  }

  /** What decoding an encoded claim gives back: every field the encoder wrote, the database id aside. */
  function RoundTripped(claim: ImisClaim): ImisClaim {
    EmptyClaim.(dateClaimed := claim.dateClaimed, healthFacility := claim.healthFacility, code := claim.code,
                insuree := claim.insuree, dateFrom := claim.dateFrom,
                dateTo := if NonEmpty(claim.dateTo) then claim.dateTo else None,
                icd := claim.icd,
                icd1 := if NonEmpty(claim.icd1) then claim.icd1 else None,
                icd2 := if NonEmpty(claim.icd2) then claim.icd2 else None,
                icd3 := if NonEmpty(claim.icd3) then claim.icd3 else None,
                icd4 := if NonEmpty(claim.icd4) then claim.icd4 else None,
                claimed := Some(claim.claimed.UnwrapOr(0)), admin := claim.admin)
  }

  /** A record key usable in a reference: non-empty, without '/', and stored. */
  predicate StoredKey(key: Option<string>, keys: set<string>) {
    key.Some? && key.value != "" && '/' !in key.value && key.value in keys
  }

  /** The head of the decoding on an encoded claim: nothing is missing. */
  lemma HeadRoundTrip(fc: FhirClaim, claim: ImisClaim, k: Constants, db: Db)
    requires claim.icd.Some? && Encodes(fc, claim, k)
    requires NonEmpty(claim.dateClaimed) && NonEmpty(claim.code) && NonEmpty(claim.dateFrom)
    requires StoredKey(claim.healthFacility, db.facilities) && StoredKey(claim.insuree, db.insurees)
    ensures HeadDecoded(fc, db, k)
      == (EmptyClaim.(dateClaimed := claim.dateClaimed, healthFacility := claim.healthFacility, code := claim.code,
                      insuree := claim.insuree, dateFrom := claim.dateFrom,
                      dateTo := if NonEmpty(claim.dateTo) then claim.dateTo else None), [])
  {
    ReferenceRoundTrip(LocationType, claim.healthFacility, db.facilities);
    ReferenceRoundTrip(PatientType, claim.insuree, db.insurees);
    var c1 := EmptyClaim.(dateClaimed := claim.dateClaimed);
    var c2 := c1.(healthFacility := claim.healthFacility);
    assert FacilityDecoded(c1, fc, db, []) == (c2, []);
    IdentifiersRoundTrip(claim, k, c2);
  }

  /** All five slots at once: the encoded diagnoses fill the main and the non-empty secondary slots. */
  lemma DiagnosesAllSlots(claim: ImisClaim, k: Constants, db: Db, x: ImisClaim)
    requires claim.icd.Some? && k.icd.Distinct()
    requires KnownCodes(claim, db)
    ensures DiagnosesDecoded(x, Diagnoses(claim, k), db, k)
      == Success(x.(icd := claim.icd, icd1 := if NonEmpty(claim.icd1) then claim.icd1 else x.icd1,
                    icd2 := if NonEmpty(claim.icd2) then claim.icd2 else x.icd2,
                    icd3 := if NonEmpty(claim.icd3) then claim.icd3 else x.icd3,
                    icd4 := if NonEmpty(claim.icd4) then claim.icd4 else x.icd4))
  {
    DiagnosesRoundTrip(claim, k, db, x, k.icd.main);
    DiagnosesRoundTrip(claim, k, db, x, k.icd.first);
    DiagnosesRoundTrip(claim, k, db, x, k.icd.second);
    DiagnosesRoundTrip(claim, k, db, x, k.icd.third);
    DiagnosesRoundTrip(claim, k, db, x, k.icd.fourth);
    DiagnosesDecodedFrame(x, Diagnoses(claim, k), db, k);
  }

  /**
   * Decoding a claim's encoding, with every referenced record and diagnosis code stored,
   * succeeds with no message and restores every field the encoder wrote.
   */
  lemma ClaimRoundTrip(fc: FhirClaim, claim: ImisClaim, k: Constants, db: Db)
    requires claim.icd.Some? && Encodes(fc, claim, k) && k.icd.Distinct()
    requires NonEmpty(claim.dateClaimed) && NonEmpty(claim.code) && NonEmpty(claim.dateFrom)
    requires StoredKey(claim.healthFacility, db.facilities) && StoredKey(claim.insuree, db.insurees)
    requires StoredKey(claim.admin, db.admins)
    requires KnownCodes(claim, db)
    ensures Decoded(fc, db, k) == Success((RoundTripped(claim), []))
  {
    HeadRoundTrip(fc, claim, k, db);
    var c5 := HeadDecoded(fc, db, k).0;
    DiagnosesAllSlots(claim, k, db, c5);
    var c6 := DiagnosesDecoded(c5, fc.diagnosis, db, k).value;
    var c7 := c6.(claimed := Some(claim.claimed.UnwrapOr(0)));
    assert TotalDecoded(c6, fc, []) == (c7, []);
    ReferenceRoundTrip(PractitionerType, claim.admin, db.admins);
    assert AdminDecoded(c7, fc, db, []) == (RoundTripped(claim), []);
  }
}
