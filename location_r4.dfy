/**
 * The R4 `LocationConverter`: a health facility together with the location record it belongs
 * to, as one FHIR R4 Location and back. The Location's id joins the two uuids, its name joins
 * the two names, its identifiers carry both codes, its `type` (a list in R4) codes the
 * facility level and its `physicalType` the kind of location record (region, district, ward
 * or village); `partOf` is the location record's parent.
 *
 * Two defects of the decoder as written are modelled next to the corrected decoder: the new
 * facility it fills has no location record, and it reads `coding` on the `type` list.
 */
module LocationConverterR4 {
  import opened Wrappers
  import opened Strings
  import opened Exceptions
  import opened FhirTypes
  import opened BaseConverter
  import L = LocationConverter

  const MissingLocationCode := "Missing location code"
  const MissingLocationName := "Missing location `name` attribute"
  const MissingLocationType := "Missing location `type` attribute"
  const MissingPhysicalType := "Missing location type"
  const MissingParent := "Missing location `parent id` attribute"

  const HealthCenterText := "hospital center"
  const HospitalText := "hospital"
  const DispensaryText := "dispensary"
  const RegionText := "region"
  const DistrictText := "district"
  const WardText := "ward"
  const VillageText := "village"

  /** The messages Python gives `None + str` and `str + None`. */
  const NoneLeftOperand := "unsupported operand type(s) for +: 'NoneType' and 'str'"
  const NoneRightOperand := "can only concatenate str (not \"NoneType\") to str"

  /**
   * The location-type table: the configured physical-type code of each kind of location
   * record and the value the database stores for that kind (`ImisLocationType`).
   */
  datatype PhysicalTable = PhysicalTable(
    regionCode: string, districtCode: string, wardCode: string, villageCode: string,
    region: string, district: string, ward: string, village: string)
  {
    /** Distinct codes and distinct kinds, so that the table can be read backwards. */
    predicate Distinct() {
      regionCode != districtCode && regionCode != wardCode && regionCode != villageCode
      && districtCode != wardCode && districtCode != villageCode && wardCode != villageCode
      && region != district && region != ward && region != village
      && district != ward && district != village && ward != village
    }

    /** No kind is coded by the empty code the encoder emits for an unknown kind. */
    predicate CodesNonEmpty() {
      regionCode != "" && districtCode != "" && wardCode != "" && villageCode != ""
    }
  }

  /**
   * The configured values the converter reads: identifier types, the role-type system and
   * level codes of `R4LocationConfig`, the physical-type system and codes, and the defaults
   * of a new facility.
   */
  datatype Constants = Constants(
    identifierTypeSystem: string, uuidTypeCode: string, facilityIdType: string,
    roleTypeSystem: string, levels: L.LevelTable,
    physicalTypeSystem: string, physical: PhysicalTable,
    offline: bool, careType: string)
  {
    predicate Valid() {
      levels.Distinct() && levels.CodesNonEmpty() && physical.Distinct() && physical.CodesNonEmpty()
      && uuidTypeCode != facilityIdType
    }
  }

  /** The location record a facility belongs to; `parent` is the reference to its parent location. */
  datatype LocationRecord = LocationRecord(
    uuid: Option<string>, code: Option<string>, name: Option<string>, ty: Option<string>, parent: Option<Reference>)

  const EmptyRecord := LocationRecord(None, None, None, None, None)

  /** A health facility; `location` is `None` when the facility has no location record. */
  datatype HealthFacility = HealthFacility(
    uuid: Option<string>, code: Option<string>, name: Option<string>, level: Option<string>,
    address: Option<string>, contacts: L.Contacts, location: Option<LocationRecord>,
    offline: bool, careType: string, auditUserId: Option<int>)

  /** An R4 Location; its list elements are lists, never `None`. */
  datatype Location = Location(
    id: Option<string>, identifier: seq<Identifier>, name: Option<string>, ty: seq<Concept>,
    address: Option<Address>, telecom: seq<ContactPoint>, physicalType: Option<Concept>,
    partOf: Option<Reference>)

  const EmptyLocation := Location(None, [], None, [], None, [], None, None)

  // ---------------------------------------------------------------- the new facility

  /**
   * `createDefaultInsuree(audit_user_id)` as written: the configured `offline` and `care_type`,
   * the caller's audit user, and no location record.
   */
  function DefaultHealthFacilityAsWritten(auditUserId: Option<int>, k: Constants): (hf: HealthFacility)
    ensures hf.offline == k.offline && hf.careType == k.careType && hf.auditUserId == auditUserId
    ensures hf.code.None? && hf.name.None? && hf.level.None? && hf.location.None?
  {
    HealthFacility(None, None, None, None, None, L.NoContacts, None, k.offline, k.careType, auditUserId)
  }

  /** The corrected new facility: the same, with an empty location record for the decoder to fill. */
  function DefaultHealthFacility(auditUserId: Option<int>, k: Constants): (hf: HealthFacility)
    ensures hf == DefaultHealthFacilityAsWritten(auditUserId, k).(location := Some(EmptyRecord))
  {
    HealthFacility(None, None, None, None, None, L.NoContacts, Some(EmptyRecord), k.offline, k.careType, auditUserId)
  }

  // ---------------------------------------------------------------- id and name

  /**
   * `a + ", " + b` in Python: a `TypeError` when either operand is `None` (the left one is
   * evaluated first).
   */
  function JoinPair(a: Option<string>, b: Option<string>): (r: Result<string, FhirError>)
    ensures r.Success? <==> a.Some? && b.Some?
    ensures a.None? ==> r == Failure(TypeError(NoneLeftOperand))
    ensures a.Some? && b.None? ==> r == Failure(TypeError(NoneRightOperand))
    ensures r.Success? ==> |a.value| <= |r.value| && r.value[..|a.value|] == a.value && r.value[|a.value|..] == ", " + b.value
  {
    if a.None? then Failure(TypeError(NoneLeftOperand))
    else if b.None? then Failure(TypeError(NoneRightOperand))
    else Success(a.value + ", " + b.value)
  }

  /**
   * The id `build_fhir_pk` receives: the facility's uuid and its location record's uuid; a
   * facility without a location record fails reading `location`, as every other stage does.
   */
  function Pk(hf: HealthFacility): (r: Result<string, FhirError>)
    ensures r.Success? <==> hf.uuid.Some? && hf.location.Some? && hf.location.value.uuid.Some?
    ensures hf.uuid.Some? && hf.location.None? ==> r == Failure(AttributeError("location"))
  {
    if hf.uuid.None? then Failure(TypeError(NoneLeftOperand))
    else match hf.location
      case None => Failure(AttributeError("location"))
      case Some(rec) => JoinPair(hf.uuid, rec.uuid)
  }

  /**
   * Splitting the joined name on `,` gives back the facility name and, after dropping the
   * leading blank, the location name, when neither holds a comma and the location name does
   * not start with a blank.
   */
  lemma NameSplitRoundTrip(a: string, b: string)
    requires ',' !in a && ',' !in b
    ensures Split(a + ", " + b, ',') == [a, " " + b]
    ensures (b == "" || !IsSpace(b[0])) ==> LStrip(" " + b) == b
  {
    assert a + ", " + b == a + [','] + (" " + b);
    SplitAt(a, ',', " " + b);
    SplitNone(" " + b, ',');
    assert (" " + b)[1..] == b;
  }

  // ---------------------------------------------------------------- identifiers

  /** `build_fhir_hf_code_identifier`: a facility-id identifier whose value is the code, `None` included. */
  function CodeIdentifier(code: Option<string>, k: Constants): (id: Identifier)
    ensures id.value == code && HasTypeCode(id, k.facilityIdType)
  {
    BuildIdentifier("", k.identifierTypeSystem, k.facilityIdType).(value := code)
  }

  /** A uuid identifier, when the record has a uuid. */
  function UuidIdentifier(uuid: Option<string>, k: Constants): (ids: seq<Identifier>)
    ensures |ids| == if uuid.Some? then 1 else 0
    ensures forall i :: 0 <= i < |ids| ==> HasTypeCode(ids[i], k.uuidTypeCode)
  {
    if uuid.Some? then [BuildIdentifier(uuid.value, k.identifierTypeSystem, k.uuidTypeCode)] else []
  }

  /** `build_fhir_location_identifier`: facility uuid, facility code, location uuid, location code. */
  function Identifiers(hf: HealthFacility, rec: LocationRecord, k: Constants): seq<Identifier> {
    UuidIdentifier(hf.uuid, k) + ([CodeIdentifier(hf.code, k)] + (UuidIdentifier(rec.uuid, k) + [CodeIdentifier(rec.code, k)]))
  }

  /** `build_fhir_location_identifier` as the list the source appends to. */
  method BuildFhirIdentifiers(hf: HealthFacility, rec: LocationRecord, k: Constants) returns (ids: seq<Identifier>)
    ensures ids == Identifiers(hf, rec, k)
    ensures |ids| == 2 + (if hf.uuid.Some? then 1 else 0) + (if rec.uuid.Some? then 1 else 0)
  {
    ids := AppendKeyIdentifier([], hf.uuid, k.identifierTypeSystem, k.uuidTypeCode);
    ids := ids + [CodeIdentifier(hf.code, k)];
    ids := AppendKeyIdentifier(ids, rec.uuid, k.identifierTypeSystem, k.uuidTypeCode);
    ids := ids + [CodeIdentifier(rec.code, k)];
  }

  /** The facility-id identifier found in the encoded list is the facility's, not the location record's. */
  lemma IdentifiersFindFacilityCode(hf: HealthFacility, rec: LocationRecord, k: Constants)
    requires k.uuidTypeCode != k.facilityIdType
    ensures IdentifierByCode(Identifiers(hf, rec, k), k.facilityIdType) == hf.code
  {
    var ids := Identifiers(hf, rec, k);
    var i := |UuidIdentifier(hf.uuid, k)|;
    assert ids[i] == CodeIdentifier(hf.code, k);
    IdentifierByCodeFirst(ids, k.facilityIdType, i);
  }

  // ---------------------------------------------------------------- level

  /** The text `build_fhir_location_type` puts beside the level code. */
  function LevelText(level: Option<string>, t: L.LevelTable): (text: string)
    ensures text == "" <==> !L.KnownLevel(level, t)
  {
    if level == Some(t.healthCenter) then HealthCenterText
    else if level == Some(t.hospital) then HospitalText
    else if level == Some(t.dispensary) then DispensaryText
    else ""
  }

  /** `build_fhir_location_type`: a one-element list, the level's code (role-type system) and text. */
  function EncodedType(level: Option<string>, k: Constants): (tys: seq<Concept>)
    ensures |tys| == 1 && tys[0].coding == Some([Coding(Some(k.roleTypeSystem), Some(L.LevelCode(level, k.levels)), None)])
    ensures tys[0].text == Some(LevelText(level, k.levels))
  {
    [BuildCodeableConcept(L.LevelCode(level, k.levels), Some(k.roleTypeSystem), Some(LevelText(level, k.levels)))]
  }

  /**
   * `build_imis_hf_level` as written: the `type` list is never `None`, so the missing-type
   * check passes, and reading `coding` on the list raises `AttributeError`.
   */
  function LevelDecodedAsWritten(hf: HealthFacility, loc: Location, errors: seq<string>): (r: Result<(HealthFacility, seq<string>), FhirError>)
    ensures r == Failure(AttributeError("coding"))
  {
    var (missing, errs) := ValidCondition(false, L.MissingType, errors);
    if missing then Success((hf, errs)) else Failure(AttributeError("coding"))
  }

  /** The codings of a concept; a concept without a coding list has none. */
  function CodingsOf(c: Concept): seq<Coding> {
    match c.coding
    case Some(cs) => cs
    case None => []
  }

  /** The codings of every concept of the list, in order. */
  function AllCodings(tys: seq<Concept>): (cs: seq<Coding>)
    ensures |tys| == 1 ==> cs == CodingsOf(tys[0])
  {
    if |tys| == 0 then [] else CodingsOf(tys[0]) + AllCodings(tys[1..])
  }

  /**
   * The corrected `build_imis_hf_level`: an empty `type` list is reported as a missing type;
   * otherwise the codings of all its concepts are read, the last level coding wins, and a level
   * still missing is reported.
   */
  function LevelDecoded(hf: HealthFacility, loc: Location, errors: seq<string>, k: Constants): (r: (HealthFacility, seq<string>))
    ensures |loc.ty| == 0 ==> r == (hf, errors + [L.MissingType])
    ensures |loc.ty| > 0 ==> r.0 == hf.(level := r.0.level) && r.1 == errors + (if r.0.level.None? then [L.MissingLevel] else [])
    ensures r.0.level != hf.level ==> L.KnownLevel(r.0.level, k.levels)
  {
    var (missing, errs) := ValidCondition(|loc.ty| == 0, L.MissingType, errors);
    if missing then (hf, errs)
    else
      var h := hf.(level := L.LastLevel(AllCodings(loc.ty), hf.level, k.roleTypeSystem, k.levels));
      (h, ValidCondition(h.level.None?, L.MissingLevel, errs).1)
  }

  /** The corrected `build_imis_hf_level`, running the shared level loop over the collected codings. */
  method BuildImisHfLevel(hf: HealthFacility, loc: Location, errors: seq<string>, k: Constants)
    returns (r: (HealthFacility, seq<string>))
    ensures r == LevelDecoded(hf, loc, errors, k)
  {
    var (missing, errs) := ValidCondition(|loc.ty| == 0, L.MissingType, errors);
    if missing {
      return (hf, errs);
    }
    var level := L.DecodeLevel(AllCodings(loc.ty), hf.level, k.roleTypeSystem, k.levels);
    errs := ValidCondition(level.None?, L.MissingLevel, errs).1;
    return (hf.(level := level), errs);
  }

  /** Decoding the encoded type restores a known level; an unknown level is reported as missing. */
  lemma LevelStageRoundTrip(level: Option<string>, x: HealthFacility, loc: Location, errors: seq<string>, k: Constants)
    requires k.Valid() && x.level.None? && loc.ty == EncodedType(level, k)
    ensures L.KnownLevel(level, k.levels) ==> LevelDecoded(x, loc, errors, k) == (x.(level := level), errors)
    ensures !L.KnownLevel(level, k.levels) ==> LevelDecoded(x, loc, errors, k) == (x, errors + [L.MissingLevel])
  {
    L.LastLevelOfEncoded(level, x.level, k.roleTypeSystem, k.levels);
  }

  // ---------------------------------------------------------------- physical type

  /** `build_fhir_physical_type`: the configured code of the location record's kind, `""` for any other kind. */
  function PhysicalCode(ty: Option<string>, p: PhysicalTable): (code: string)
    ensures code in {p.regionCode, p.districtCode, p.wardCode, p.villageCode, ""}
  {
    if ty == Some(p.region) then p.regionCode
    else if ty == Some(p.district) then p.districtCode
    else if ty == Some(p.ward) then p.wardCode
    else if ty == Some(p.village) then p.villageCode
    else ""
  }

  /** The text `build_fhir_physical_type` puts beside the code. */
  function PhysicalText(ty: Option<string>, p: PhysicalTable): (text: string)
    ensures text == "" <==> !KnownPhysical(ty, p)
  {
    if ty == Some(p.region) then RegionText
    else if ty == Some(p.district) then DistrictText
    else if ty == Some(p.ward) then WardText
    else if ty == Some(p.village) then VillageText
    else ""
  }

  /** The kind a physical-type code stands for, as the decoding loop's `if`/`elif` chain reads it. */
  function PhysicalOfCode(code: Option<string>, p: PhysicalTable): (ty: Option<string>)
    ensures ty.Some? ==> KnownPhysical(ty, p)
  {
    if code == Some(p.regionCode) then Some(p.region)
    else if code == Some(p.districtCode) then Some(p.district)
    else if code == Some(p.wardCode) then Some(p.ward)
    else if code == Some(p.villageCode) then Some(p.village)
    else None
  }

  /** A kind of location record known to the database. */
  predicate KnownPhysical(ty: Option<string>, p: PhysicalTable) {
    ty == Some(p.region) || ty == Some(p.district) || ty == Some(p.ward) || ty == Some(p.village)
  }

  /** The physical-type table read forwards and backwards. */
  lemma PhysicalRoundTrip(ty: Option<string>, p: PhysicalTable)
    requires p.Distinct() && p.CodesNonEmpty()
    ensures KnownPhysical(ty, p) ==> PhysicalOfCode(Some(PhysicalCode(ty, p)), p) == ty
    ensures !KnownPhysical(ty, p) ==> PhysicalOfCode(Some(PhysicalCode(ty, p)), p) == None
  {
  }

  /** `build_fhir_physical_type`: one coding with the physical-type system, and the kind's text. */
  function EncodedPhysicalType(ty: Option<string>, k: Constants): (c: Concept)
    ensures c.coding == Some([Coding(Some(k.physicalTypeSystem), Some(PhysicalCode(ty, k.physical)), None)])
    ensures c.text == Some(PhysicalText(ty, k.physical))
  {
    BuildCodeableConcept(PhysicalCode(ty, k.physical), Some(k.physicalTypeSystem), Some(PhysicalText(ty, k.physical)))
  }

  predicate IsPhysicalCoding(c: Coding, system: string, p: PhysicalTable) {
    c.system == Some(system) && PhysicalOfCode(c.code, p).Some?
  }

  function IsPhysicalCodingOf(system: string, p: PhysicalTable): Coding -> bool {
    (c: Coding) => IsPhysicalCoding(c, system, p)
  }

  /** The kind the codings leave on the location record: the last physical-type coding wins. */
  function LastPhysical(cs: seq<Coding>, old_: Option<string>, system: string, p: PhysicalTable): Option<string> {
    match Last(cs, IsPhysicalCodingOf(system, p))
    case Some(c) => PhysicalOfCode(c.code, p)
    case None => old_
  }

  /**
   * What `build_imis_location_type` does: a missing physical type is reported; otherwise its
   * codings are read (a missing coding list raises `TypeError`), the record's kind is set by
   * the last physical-type coding, and a kind still missing is reported. Past the first check
   * the facility's location record is read, which fails when there is none.
   * The `TypeError` branch is kept because the shared `Concept` value lets `coding` be missing,
   * as the STU3 dictionaries can. A list property of an R4 object reads as `[]` when unset,
   * so a concept built through the R4 model never takes that branch.
   */
  function PhysicalTypeDecoded(hf: HealthFacility, loc: Location, errors: seq<string>, k: Constants)
    : (r: Result<(HealthFacility, seq<string>), FhirError>)
    ensures loc.physicalType.None? ==> r == Success((hf, errors + [MissingLocationType]))
    ensures loc.physicalType.Some? && loc.physicalType.value.coding.None? ==> r == Failure(TypeError("'NoneType' object is not iterable"))
    ensures loc.physicalType.Some? && loc.physicalType.value.coding.Some? && hf.location.None? ==> r == Failure(AttributeError("location"))
    ensures r.Success? && loc.physicalType.Some? ==>
      hf.location.Some? && r.value.0.location.Some?
      && r.value.0 == hf.(location := Some(hf.location.value.(ty := r.value.0.location.value.ty)))
      && r.value.1 == errors + (if r.value.0.location.value.ty.None? then [MissingPhysicalType] else [])
  {
    var (missing, errs) := ValidCondition(loc.physicalType.None?, MissingLocationType, errors);
    if missing then Success((hf, errs))
    else match loc.physicalType.value.coding
      case None => Failure(TypeError("'NoneType' object is not iterable"))
      case Some(cs) =>
        match hf.location
        case None => Failure(AttributeError("location"))
        case Some(rec) =>
          var rec' := rec.(ty := LastPhysical(cs, rec.ty, k.physicalTypeSystem, k.physical));
          Success((hf.(location := Some(rec')), ValidCondition(rec'.ty.None?, MissingPhysicalType, errs).1))
  }

  /** `build_imis_location_type` as the loop the source runs. */
  method BuildImisLocationType(hf: HealthFacility, loc: Location, errors: seq<string>, k: Constants)
    returns (r: Result<(HealthFacility, seq<string>), FhirError>)
    ensures r == PhysicalTypeDecoded(hf, loc, errors, k)
  {
    var (missing, errs) := ValidCondition(loc.physicalType.None?, MissingLocationType, errors);
    if missing {
      return Success((hf, errs));
    }
    if loc.physicalType.value.coding.None? {
      return Failure(TypeError("'NoneType' object is not iterable"));
    }
    var cs := loc.physicalType.value.coding.value;
    if hf.location.None? {
      return Failure(AttributeError("location"));
    }
    var p := k.physical;
    var ty := hf.location.value.ty;
    var i := 0;
    while i < |cs|
      invariant 0 <= i <= |cs|
      invariant ty == LastPhysical(cs[..i], hf.location.value.ty, k.physicalTypeSystem, p)
    {
      assert cs[..i + 1] == cs[..i] + [cs[i]];
      LastSnoc(cs[..i], cs[i], IsPhysicalCodingOf(k.physicalTypeSystem, p));
      if cs[i].system == Some(k.physicalTypeSystem) {
        var code := cs[i].code;
        if code == Some(p.regionCode) {
          ty := Some(p.region);
        } else if code == Some(p.districtCode) {
          ty := Some(p.district);
        } else if code == Some(p.wardCode) {
          ty := Some(p.ward);
        } else if code == Some(p.villageCode) {
          ty := Some(p.village);
        }
      }
      i := i + 1;
    }
    assert cs[..|cs|] == cs;
    errs := ValidCondition(ty.None?, MissingPhysicalType, errs).1;
    return Success((hf.(location := Some(hf.location.value.(ty := ty))), errs));
  }

  // ---------------------------------------------------------------- the other decoding stages

  /**
   * `build_imis_hf_identiftier`: the value of the first facility-id identifier becomes the
   * facility code when it is a non-empty string; a code still missing is reported.
   */
  function HfCodeDecoded(hf: HealthFacility, loc: Location, errors: seq<string>, k: Constants): (r: (HealthFacility, seq<string>))
    ensures r.0 == hf.(code := r.0.code)
    ensures r.0.code == if NonEmpty(IdentifierByCode(loc.identifier, k.facilityIdType)) then IdentifierByCode(loc.identifier, k.facilityIdType) else hf.code
    ensures r.1 == errors + (if r.0.code.None? then [L.MissingHfCode] else [])
  {
    var value := IdentifierByCode(loc.identifier, k.facilityIdType);
    var h := if NonEmpty(value) then hf.(code := value) else hf;
    (h, ValidCondition(h.code.None?, L.MissingHfCode, errors).1)
  }

  /**
   * `build_imis_location_identiftier`: the same identifier's value becomes the location record's
   * code; the record is read whatever the value, so a facility without one fails.
   */
  function LocationCodeDecoded(hf: HealthFacility, loc: Location, errors: seq<string>, k: Constants)
    : (r: Result<(HealthFacility, seq<string>), FhirError>)
    ensures r.Failure? <==> hf.location.None?
    ensures r.Failure? ==> r.error == AttributeError("location")
    ensures r.Success? ==>
      r.value.0.location.Some? && r.value.0 == hf.(location := Some(hf.location.value.(code := r.value.0.location.value.code)))
      && r.value.0.location.value.code == (if NonEmpty(IdentifierByCode(loc.identifier, k.facilityIdType)) then IdentifierByCode(loc.identifier, k.facilityIdType) else hf.location.value.code)
      && r.value.1 == errors + (if r.value.0.location.value.code.None? then [MissingLocationCode] else [])
  {
    var value := IdentifierByCode(loc.identifier, k.facilityIdType);
    match hf.location
    case None => Failure(AttributeError("location"))
    case Some(rec) =>
      var rec' := if NonEmpty(value) then rec.(code := value) else rec;
      Success((hf.(location := Some(rec')), ValidCondition(rec'.code.None?, MissingLocationCode, errors).1))
  }

  /**
   * `build_imis_hf_name`: the text before the first comma. A missing name fails on `split`; the
   * missing-name check never fires, since a piece of a split is never `None`.
   */
  function HfNameDecoded(hf: HealthFacility, loc: Location, errors: seq<string>): (r: Result<(HealthFacility, seq<string>), FhirError>)
    ensures r.Failure? <==> loc.name.None?
    ensures r.Failure? ==> r.error == AttributeError("split")
    ensures r.Success? ==> r.value.1 == errors && r.value.0 == hf.(name := r.value.0.name)
    ensures r.Success? ==> (r.value.0.name.Some? && ',' !in r.value.0.name.value
      && |r.value.0.name.value| <= |loc.name.value| && r.value.0.name.value == loc.name.value[..|r.value.0.name.value|])
  {
    match loc.name
    case None => Failure(AttributeError("split"))
    case Some(n) =>
      var parts := Split(n, ',');
      assert Join(parts, [',']) == n;
      JoinFirst(parts, [',']);
      var (missing, errs) := ValidCondition(false, MissingLocationName, errors);
      Success((hf.(name := Some(parts[0])), errs))
  }

  /** The first piece of a join is a prefix of the joined text. */
  lemma JoinFirst(parts: seq<string>, sep: string)
    requires |parts| >= 1
    ensures |parts[0]| <= |Join(parts, sep)| && Join(parts, sep)[..|parts[0]|] == parts[0]
  {
    if |parts| > 1 {
      assert Join(parts, sep) == parts[0] + (sep + Join(parts[1..], sep));
    }
  }

  /**
   * `build_imis_location_name`: the text after the first comma, up to the next one, without
   * leading blanks. A name without a comma fails on the index; the location record is read last.
   */
  function LocationNameDecoded(hf: HealthFacility, loc: Location, errors: seq<string>): (r: Result<(HealthFacility, seq<string>), FhirError>)
    ensures loc.name.None? ==> r == Failure(AttributeError("split"))
    ensures loc.name.Some? && ',' !in loc.name.value ==> r == Failure(IndexError("list index out of range"))
    ensures loc.name.Some? && ',' in loc.name.value && hf.location.None? ==> r == Failure(AttributeError("location"))
    ensures r.Success? ==> (r.value.1 == errors && hf.location.Some? && r.value.0.location.Some?
      && r.value.0 == hf.(location := Some(hf.location.value.(name := r.value.0.location.value.name))))
  {
    match loc.name
    case None => Failure(AttributeError("split"))
    case Some(n) =>
      var parts := Split(n, ',');
      if |parts| < 2 then
        SplitNoneSingle(n);
        Failure(IndexError("list index out of range"))
      else
        SplitTwoHasComma(n);
        match hf.location
        case None => Failure(AttributeError("location"))
        case Some(rec) => Success((hf.(location := Some(rec.(name := Some(LStrip(parts[1]))))), errors))
  }

  /** Text with a comma splits into at least two pieces; a single piece means no comma. */
  lemma SplitNoneSingle(s: string)
    requires |Split(s, ',')| < 2
    ensures ',' !in s
  {
    var parts := Split(s, ',');
    assert Join(parts, [',']) == s;
  }

  lemma SplitTwoHasComma(s: string)
    requires |Split(s, ',')| >= 2
    ensures ',' in s
  {
    if ',' !in s {
      SplitNone(s, ',');
    }
  }

  /** `build_imis_hf_address`: the text of a physical address, nothing for any other address. */
  function AddressDecoded(hf: HealthFacility, loc: Location): (r: HealthFacility)
    ensures r == hf.(address := r.address)
    ensures r.address != hf.address ==> loc.address.Some? && loc.address.value.ty == Some(PhysicalType) && r.address == loc.address.value.text
  {
    match loc.address
    case Some(a) => if a.ty == Some(PhysicalType) then hf.(address := a.text) else hf
    case None => hf
  }

  /**
   * `build_imis_parent_location_id`: a missing `partOf` is reported without touching the
   * location record; otherwise the reference is stored on the record.
   */
  function ParentDecoded(hf: HealthFacility, loc: Location, errors: seq<string>): (r: Result<(HealthFacility, seq<string>), FhirError>)
    ensures loc.partOf.None? ==> r == Success((hf, errors + [MissingParent]))
    ensures loc.partOf.Some? ==> (r.Failure? <==> hf.location.None?)
    ensures loc.partOf.Some? && r.Success? ==>
      hf.location.Some? && r.value == (hf.(location := Some(hf.location.value.(parent := loc.partOf))), errors)
  {
    var (missing, errs) := ValidCondition(loc.partOf.None?, MissingParent, errors);
    if missing then Success((hf, errs))
    else match hf.location
      case None => Failure(AttributeError("location"))
      case Some(rec) => Success((hf.(location := Some(rec.(parent := loc.partOf))), errs))
  }

  // ---------------------------------------------------------------- whole conversions

  /**
   * `to_fhir_obj`: the joined id, the four identifiers, the joined name, level type, address,
   * telecom, physical type and the parent reference. A `None` uuid or name, or a facility
   * without a location record, raises.
   */
  function Encoded(hf: HealthFacility, k: Constants): (r: Result<Location, FhirError>)
    ensures r.Success? <==> Pk(hf).Success? && JoinPair(hf.name, hf.location.value.name).Success?
  {
    match Pk(hf)
    case Failure(e) => Failure(e)
    case Success(pk) =>
      var rec := hf.location.value;
      match JoinPair(hf.name, rec.name)
      case Failure(e) => Failure(e)
      case Success(name) =>
        Success(Location(Some(pk), Identifiers(hf, rec, k), Some(name), EncodedType(hf.level, k),
          Some(Address(hf.address, Some(HomeUse), Some(PhysicalType))), L.Telecom(hf.contacts),
          Some(EncodedPhysicalType(rec.ty, k)), rec.parent))
  }

  /** `to_fhir_obj`: every builder in turn. */
  method ToFhir(hf: HealthFacility, k: Constants) returns (r: Result<Location, FhirError>)
    ensures r == Encoded(hf, k)
    ensures r.Success? ==> |r.value.telecom| <= 3 && |r.value.ty| == 1 && 2 <= |r.value.identifier| <= 4
  {
    var pk := Pk(hf);
    if pk.Failure? {
      return Failure(pk.error);
    }
    var rec := hf.location.value;
    var ids := BuildFhirIdentifiers(hf, rec, k);
    var name := JoinPair(hf.name, rec.name);
    if name.Failure? {
      return Failure(name.error);
    }
    var telecom := L.BuildFhirTelecom(hf.contacts);
    var loc := EmptyLocation.(id := Some(pk.value), identifier := ids, name := Some(name.value));
    loc := loc.(ty := EncodedType(hf.level, k));
    loc := loc.(address := Some(Address(hf.address, Some(HomeUse), Some(PhysicalType))));
    loc := loc.(telecom := telecom);
    loc := loc.(physicalType := Some(EncodedPhysicalType(rec.ty, k)));
    loc := loc.(partOf := rec.parent);
    return Success(loc);
  }

  /** The stages of the corrected `to_imis_obj` up to the names, starting from the facility `hf0`. */
  function DecodedHead(hf0: HealthFacility, loc: Location, k: Constants): Result<(HealthFacility, seq<string>), FhirError> {
    var s1 := HfCodeDecoded(hf0, loc, [], k);
    match LocationCodeDecoded(s1.0, loc, s1.1, k)
    case Failure(e) => Failure(e)
    case Success(s2) =>
      match HfNameDecoded(s2.0, loc, s2.1)
      case Failure(e) => Failure(e)
      case Success(s3) => LocationNameDecoded(s3.0, loc, s3.1)
  }

  /** The remaining stages: level, address, contacts, physical type and parent. */
  function DecodedTail(s: (HealthFacility, seq<string>), loc: Location, k: Constants): Result<(HealthFacility, seq<string>), FhirError> {
    var s5 := LevelDecoded(s.0, loc, s.1, k);
    var h := AddressDecoded(s5.0, loc);
    var h' := h.(contacts := L.DecodeContacts(h.contacts, loc.telecom));
    match PhysicalTypeDecoded(h', loc, s5.1, k)
    case Failure(e) => Failure(e)
    case Success(s8) => ParentDecoded(s8.0, loc, s8.1)
  }

  /** The stages of the corrected `to_imis_obj` before `check_errors`. */
  function Decoded(loc: Location, auditUserId: Option<int>, k: Constants): Result<(HealthFacility, seq<string>), FhirError> {
    match DecodedHead(DefaultHealthFacility(auditUserId, k), loc, k)
    case Failure(e) => Failure(e)
    case Success(s) => DecodedTail(s, loc, k)
  }

  /**
   * The stages of `to_imis_obj` as written: the new facility has no location record, and the
   * level stage reads `coding` on the `type` list.
   */
  function DecodedAsWritten(loc: Location, auditUserId: Option<int>, k: Constants): Result<(HealthFacility, seq<string>), FhirError> {
    match DecodedHead(DefaultHealthFacilityAsWritten(auditUserId, k), loc, k)
    case Failure(e) => Failure(e)
    case Success(s) =>
      match LevelDecodedAsWritten(s.0, loc, s.1)
      case Failure(e) => Failure(e)
      case Success(s5) => DecodedTail(s5, loc, k)
  }

  /** `to_imis_obj` as written never returns a facility: every Location fails at the location code. */
  lemma ToImisAsWrittenAlwaysFails(loc: Location, auditUserId: Option<int>, k: Constants)
    ensures DecodedAsWritten(loc, auditUserId, k) == Failure(AttributeError("location"))
  {
    var s1 := HfCodeDecoded(DefaultHealthFacilityAsWritten(auditUserId, k), loc, [], k);
    assert s1.0.location.None?;
  }

  /**
   * Even with a location record on the new facility, the level stage as written fails on every
   * Location the encoder produces.
   */
  lemma EncodedTypeUnreadableAsWritten(hf: HealthFacility, x: HealthFacility, errors: seq<string>, k: Constants)
    requires Encoded(hf, k).Success?
    ensures Encoded(hf, k).value.ty == EncodedType(hf.level, k)
    ensures LevelDecodedAsWritten(x, Encoded(hf, k).value, errors).Failure?
  {
  }

  /** The corrected `to_imis_obj`: every builder, then `check_errors`; an exception of a builder propagates. */
  method ToImis(loc: Location, auditUserId: Option<int>, k: Constants) returns (r: Result<HealthFacility, FhirError>)
    ensures Decoded(loc, auditUserId, k).Failure? ==> r == Failure(Decoded(loc, auditUserId, k).error)
    ensures Decoded(loc, auditUserId, k).Success? ==>
      r == CheckErrors(Decoded(loc, auditUserId, k).value.0, Decoded(loc, auditUserId, k).value.1)
  {
    var s := DecodedHead(DefaultHealthFacility(auditUserId, k), loc, k);
    if s.Failure? {
      return Failure(s.error);
    }
    var s5 := BuildImisHfLevel(s.value.0, loc, s.value.1, k);
    var h := AddressDecoded(s5.0, loc);
    var c := L.BuildImisContacts(h.contacts, loc.telecom);
    h := h.(contacts := c);
    var s8 := BuildImisLocationType(h, loc, s5.1, k);
    if s8.Failure? {
      return Failure(s8.error);
    }
    var s9 := ParentDecoded(s8.value.0, loc, s8.value.1);
    if s9.Failure? {
      return Failure(s9.error);
    }
    return CheckErrors(s9.value.0, s9.value.1);
  }

  /** A facility with a location record that carries the facility's own code. */
  predicate CodesAgree(h: HealthFacility) {
    h.location.Some? && h.location.value.code == h.code
  }

  /** Whatever the Location, a decoded facility and its location record carry the same code. */
  lemma DecodedCodesAgree(loc: Location, auditUserId: Option<int>, k: Constants)
    requires Decoded(loc, auditUserId, k).Success?
    ensures Decoded(loc, auditUserId, k).value.0.location.Some?
    ensures Decoded(loc, auditUserId, k).value.0.location.value.code == Decoded(loc, auditUserId, k).value.0.code
  {
    var d := DefaultHealthFacility(auditUserId, k);
    var s := DecodedHead(d, loc, k);
    var s1 := HfCodeDecoded(d, loc, [], k);
    var s2 := LocationCodeDecoded(s1.0, loc, s1.1, k);
    assert CodesAgree(s2.value.0);
    var s3 := HfNameDecoded(s2.value.0, loc, s2.value.1);
    assert CodesAgree(s3.value.0);
    assert CodesAgree(s.value.0);
    TailKeepsCodes(s.value, loc, k);
  }

  /** The stages after the names change neither the facility's code nor its record's code. */
  lemma TailKeepsCodes(s: (HealthFacility, seq<string>), loc: Location, k: Constants)
    requires CodesAgree(s.0) && DecodedTail(s, loc, k).Success?
    ensures CodesAgree(DecodedTail(s, loc, k).value.0)
  {
    var s5 := LevelDecoded(s.0, loc, s.1, k);
    var h := AddressDecoded(s5.0, loc);
    var h' := h.(contacts := L.DecodeContacts(h.contacts, loc.telecom));
    assert CodesAgree(h');
    var s8 := PhysicalTypeDecoded(h', loc, s5.1, k);
    assert CodesAgree(s8.value.0);
  }

  /**
   * A Location with a name of two parts and nothing else reports, in order, the missing codes,
   * type, physical type and parent.
   */
  lemma BareLocationReportsAll(a: string, b: string, auditUserId: Option<int>, k: Constants)
    requires ',' !in a && ',' !in b
    ensures Decoded(EmptyLocation.(name := Some(a + ", " + b)), auditUserId, k).Success?
    ensures Decoded(EmptyLocation.(name := Some(a + ", " + b)), auditUserId, k).value.1 ==
      [L.MissingHfCode, MissingLocationCode, L.MissingType, MissingLocationType, MissingParent]
  {
    var loc := EmptyLocation.(name := Some(a + ", " + b));
    BareLocationHead(a, b, auditUserId, k);
    var s := DecodedHead(DefaultHealthFacility(auditUserId, k), loc, k).value;
    BareLocationTail(loc, s, k);
    assert Decoded(loc, auditUserId, k) == DecodedTail(s, loc, k);
    assert s.1 + [L.MissingType, MissingLocationType, MissingParent]
      == [L.MissingHfCode, MissingLocationCode, L.MissingType, MissingLocationType, MissingParent];
  }

  /** The first stages on a bare two-part-name Location report the two missing codes. */
  lemma BareLocationHead(a: string, b: string, auditUserId: Option<int>, k: Constants)
    requires ',' !in a && ',' !in b
    ensures var r := DecodedHead(DefaultHealthFacility(auditUserId, k), EmptyLocation.(name := Some(a + ", " + b)), k);
      r.Success? && r.value.1 == [L.MissingHfCode, MissingLocationCode]
  {
    var loc := EmptyLocation.(name := Some(a + ", " + b));
    var s1 := HfCodeDecoded(DefaultHealthFacility(auditUserId, k), loc, [], k);
    assert s1.1 == [L.MissingHfCode];
    var s2 := LocationCodeDecoded(s1.0, loc, s1.1, k);
    assert s2.Success? && s2.value.1 == s1.1 + [MissingLocationCode];
    NameSplitRoundTrip(a, b);
  }

  /** The remaining stages on a Location with no type, physical type or parent report those three. */
  lemma BareLocationTail(loc: Location, s: (HealthFacility, seq<string>), k: Constants)
    requires loc.ty == [] && loc.physicalType.None? && loc.partOf.None?
    ensures DecodedTail(s, loc, k) == Success((DecodedTail(s, loc, k).value.0, s.1 + [L.MissingType, MissingLocationType, MissingParent]))
  {
    var s5 := LevelDecoded(s.0, loc, s.1, k);
    assert s5.1 == s.1 + [L.MissingType];
    var h := AddressDecoded(s5.0, loc);
    var s8 := PhysicalTypeDecoded(h.(contacts := L.DecodeContacts(h.contacts, loc.telecom)), loc, s5.1, k);
    assert s8.Success? && s8.value.1 == s5.1 + [MissingLocationType];
    var s9 := ParentDecoded(s8.value.0, loc, s8.value.1);
    assert s9.Success? && s9.value.1 == s8.value.1 + [MissingParent];
    assert DecodedTail(s, loc, k) == s9;
    assert s.1 + [L.MissingType] + [MissingLocationType] + [MissingParent] == s.1 + [L.MissingType, MissingLocationType, MissingParent];
  }

  /**
   * The round trip of the corrected decoder: encoding a facility and decoding the result gives
   * back, on a new facility, its code, name, level, address and contacts, and a location record
   * with its name, kind and parent and no error. The record's code comes back as the facility's
   * code: both are read from the first facility-id identifier.
   */
  lemma LocationRoundTrip(hf: HealthFacility, auditUserId: Option<int>, k: Constants)
    requires k.Valid()
    requires hf.uuid.Some? && hf.location.Some? && hf.location.value.uuid.Some?
    requires NonEmpty(hf.code) && L.KnownLevel(hf.level, k.levels)
    requires hf.name.Some? && ',' !in hf.name.value
    requires hf.location.value.name.Some? && ',' !in hf.location.value.name.value
    requires hf.location.value.name.value == "" || !IsSpace(hf.location.value.name.value[0])
    requires KnownPhysical(hf.location.value.ty, k.physical) && hf.location.value.parent.Some?
    ensures Encoded(hf, k).Success?
    ensures Decoded(Encoded(hf, k).value, auditUserId, k) == Success((DefaultHealthFacility(auditUserId, k).(
      code := hf.code, name := hf.name, level := hf.level, address := hf.address, contacts := hf.contacts,
      location := Some(EmptyRecord.(code := hf.code, name := hf.location.value.name,
        ty := hf.location.value.ty, parent := hf.location.value.parent))), []))
  {
    var rec := hf.location.value;
    var loc := Encoded(hf, k).value;
    var d := DefaultHealthFacility(auditUserId, k);
    var h3 := d.(code := hf.code, name := hf.name, location := Some(EmptyRecord.(code := hf.code, name := rec.name)));
    HeadRoundTrip(hf, d, k);
    LevelStageRoundTrip(hf.level, h3, loc, [], k);
    var h5 := h3.(level := hf.level, address := hf.address);
    L.TelecomRoundTrip(hf.contacts, L.NoContacts);
    var h6 := h5.(contacts := hf.contacts);
    assert AddressDecoded(h3.(level := hf.level), loc) == h5;
    PhysicalStageRoundTrip(rec.ty, h6, loc, k);
  }

  /** The identifier and name stages of the round trip. */
  lemma HeadRoundTrip(hf: HealthFacility, d: HealthFacility, k: Constants)
    requires k.Valid() && d.location == Some(EmptyRecord) && d.code.None?
    requires hf.uuid.Some? && hf.location.Some? && hf.location.value.uuid.Some? && NonEmpty(hf.code)
    requires hf.name.Some? && ',' !in hf.name.value
    requires hf.location.value.name.Some? && ',' !in hf.location.value.name.value
    requires hf.location.value.name.value == "" || !IsSpace(hf.location.value.name.value[0])
    ensures Encoded(hf, k).Success?
    ensures DecodedHead(d, Encoded(hf, k).value, k) ==
      Success((d.(code := hf.code, name := hf.name, location := Some(EmptyRecord.(code := hf.code, name := hf.location.value.name))), []))
  {
    var rec := hf.location.value;
    var loc := Encoded(hf, k).value;
    IdentifiersFindFacilityCode(hf, rec, k);
    NameSplitRoundTrip(hf.name.value, rec.name.value);
    var s1 := HfCodeDecoded(d, loc, [], k);
    assert s1 == (d.(code := hf.code), []);
    var h2 := d.(code := hf.code, location := Some(EmptyRecord.(code := hf.code)));
    assert LocationCodeDecoded(s1.0, loc, s1.1, k) == Success((h2, []));
    assert HfNameDecoded(h2, loc, []) == Success((h2.(name := hf.name), []));
  }

  /**
   * Decoding the encoded physical type onto a record without a kind restores a known kind, and the
   * parent stage then stores the reference.
   */
  lemma PhysicalStageRoundTrip(ty: Option<string>, h: HealthFacility, loc: Location, k: Constants)
    requires k.Valid() && KnownPhysical(ty, k.physical)
    requires h.location.Some? && h.location.value.ty.None? && loc.physicalType == Some(EncodedPhysicalType(ty, k))
    requires loc.partOf.Some?
    ensures PhysicalTypeDecoded(h, loc, [], k) == Success((h.(location := Some(h.location.value.(ty := ty))), []))
    ensures ParentDecoded(h.(location := Some(h.location.value.(ty := ty))), loc, []) ==
      Success((h.(location := Some(h.location.value.(ty := ty, parent := loc.partOf))), []))
  {
    var c := Coding(Some(k.physicalTypeSystem), Some(PhysicalCode(ty, k.physical)), None);
    PhysicalRoundTrip(ty, k.physical);
    assert [c] == [] + [c];
    LastSnoc([], c, IsPhysicalCodingOf(k.physicalTypeSystem, k.physical));
  }
}
