/**
 * The STU3 `LocationConverter`: a health facility of the insurance database as a FHIR
 * Location and back. The STU3 decoder reads the Location as a plain dictionary; here its keys
 * are the fields of `Location`, each `None` when the key is absent.
 */
module LocationConverter {
  import opened Wrappers
  import opened Exceptions
  import opened FhirTypes
  import opened BaseConverter

  const MissingHfCode := "Missing hf code"
  const MissingName := "Missing patient `name` attribute"
  const MissingType := "Missing patient `type` attribute"
  const MissingLevel := "Missing hf level"

  /**
   * The configured codes the converter uses, the three values of a facility level in the
   * database (`ImisHfLevel`, which is not part of this model) and the configured defaults of a
   * new facility.
   */
  datatype Constants = Constants(
    identifierTypeSystem: string, idTypeCode: string, facilityIdType: string,
    roleTypeSystem: string, levels: LevelTable, offline: bool, careType: string)
  {
    /** Distinct level codes and levels, and distinct identifier type codes. */
    predicate Distinct() {
      levels.Distinct() && levels.CodesNonEmpty() && idTypeCode != facilityIdType
    }
  }

  /**
   * The facility-level table: the configured role-type code of each of the three levels
   * (health center, hospital, dispensary) and the value the database stores for that level.
   */
  datatype LevelTable = LevelTable(
    healthCenterCode: string, hospitalCode: string, dispensaryCode: string,
    healthCenter: string, hospital: string, dispensary: string)
  {
    /** Distinct codes and distinct levels, so that the table can be read backwards. */
    predicate Distinct() {
      healthCenterCode != hospitalCode && healthCenterCode != dispensaryCode && hospitalCode != dispensaryCode
      && healthCenter != hospital && healthCenter != dispensary && hospital != dispensary
    }

    /** No level is coded by the empty code the encoder emits for an unknown level. */
    predicate CodesNonEmpty() {
      healthCenterCode != "" && hospitalCode != "" && dispensaryCode != ""
    }
  }

  /** The phone, fax and e-mail of a facility. */
  datatype Contacts = Contacts(phone: Option<string>, fax: Option<string>, email: Option<string>)

  const NoContacts := Contacts(None, None, None)

  /** A health facility; its `phone`, `fax` and `email` fields are grouped as `contacts`. */
  datatype HealthFacility = HealthFacility(
    id: Option<string>, code: Option<string>, name: Option<string>, level: Option<string>,
    address: Option<string>, contacts: Contacts,
    offline: bool, careType: string, auditUserId: Option<int>)

  datatype Location = Location(
    identifier: Option<seq<Identifier>>, name: Option<string>, ty: Option<Concept>,
    address: Option<Address>, telecom: Option<seq<ContactPoint>>)

  const EmptyLocation := Location(None, None, None, None, None)

  /**
   * `createDefaultInsuree(audit_user_id)`: a new facility with the configured `offline` and
   * `care_type` and the caller's audit user (the validity date, a clock read, is not modelled).
   */
  function DefaultHealthFacility(auditUserId: Option<int>, k: Constants): (hf: HealthFacility)
    ensures hf.offline == k.offline && hf.careType == k.careType && hf.auditUserId == auditUserId
    ensures hf.code.None? && hf.name.None? && hf.level.None?
  {
    HealthFacility(None, None, None, None, None, NoContacts, k.offline, k.careType, auditUserId)
  }

  // ---------------------------------------------------------------- identifiers

  /** `build_fhir_location_identifier`: the db-id identifier, when the facility has an id, then the facility-code identifier. */
  function Identifiers(hf: HealthFacility, k: Constants): (ids: seq<Identifier>)
    ensures |ids| == if hf.id.Some? then 2 else 1
    ensures ids[|ids| - 1].value == hf.code && HasTypeCode(ids[|ids| - 1], k.facilityIdType)
  {
    (if hf.id.Some? then [BuildIdentifier(hf.id.value, k.identifierTypeSystem, k.idTypeCode)] else [])
    + [BuildIdentifier("", k.identifierTypeSystem, k.facilityIdType).(value := hf.code)]
  }

  /** An identifier whose type's coding list is present but empty: reading its first coding fails. */
  predicate EmptyTypeCoding(id: Identifier) {
    id.ty.Some? && id.ty.value.coding == Some([])
  }

  /**
   * An identifier the decoder takes the facility code from: its type's first coding has the
   * identifier-type system and the facility-id code, and it has a value.
   */
  predicate IsHfCode(id: Identifier, k: Constants) {
    TypeCoding(id).Some? && TypeCoding(id).value.system == Some(k.identifierTypeSystem)
    && TypeCoding(id).value.code == Some(k.facilityIdType) && id.value.Some?
  }

  function IsHfCodeOf(k: Constants): Identifier -> bool {
    (id: Identifier) => IsHfCode(id, k)
  }

  /**
   * What `build_imis_hf_identiftier` does to the facility: an `IndexError` when some identifier's
   * type has an empty coding list, otherwise the value of the last facility-code identifier wins.
   */
  function HfCodeDecoded(hf: HealthFacility, loc: Location, k: Constants): (r: Result<HealthFacility, FhirError>)
    ensures r.Failure? <==> loc.identifier.Some? && exists i :: 0 <= i < |loc.identifier.value| && EmptyTypeCoding(loc.identifier.value[i])
    ensures r.Failure? ==> r.error == IndexError("list index out of range")
    ensures r.Success? ==> r.value == hf.(code := r.value.code)
    ensures r.Success? && r.value.code != hf.code ==> loc.identifier.Some? && exists i :: 0 <= i < |loc.identifier.value| && IsHfCode(loc.identifier.value[i], k)
  {
    match loc.identifier
    case None => Success(hf)
    case Some(ids) =>
      if exists i :: 0 <= i < |ids| && EmptyTypeCoding(ids[i]) then Failure(IndexError("list index out of range"))
      else
        match Last(ids, IsHfCodeOf(k))
        case Some(id) => Success(hf.(code := id.value))
        case None => Success(hf)
  }

  /** The identifier stage with its error check: a missing code after decoding is reported. */
  function IdentifierStage(hf: HealthFacility, loc: Location, errors: seq<string>, k: Constants)
    : (r: Result<(HealthFacility, seq<string>), FhirError>)
    ensures r.Success? ==> r.value.1 == errors + (if r.value.0.code.None? then [MissingHfCode] else [])
  {
    match HfCodeDecoded(hf, loc, k)
    case Failure(e) => Failure(e)
    case Success(hf') => Success((hf', ValidCondition(hf'.code.None?, MissingHfCode, errors).1))
  }

  /** `build_imis_hf_identiftier`: the loop over the identifiers, then the missing-code check. */
  method BuildImisHfIdentifier(hf: HealthFacility, loc: Location, errors: seq<string>, k: Constants)
    returns (r: Result<(HealthFacility, seq<string>), FhirError>)
    ensures r == IdentifierStage(hf, loc, errors, k)
  {
    var h := hf;
    if loc.identifier.Some? {
      var scanned := ScanHfIdentifiers(hf, loc.identifier.value, k);
      if scanned.Failure? {
        return Failure(scanned.error);
      }
      h := scanned.value;
    }
    var (_, errs) := ValidCondition(h.code.None?, MissingHfCode, errors);
    return Success((h, errs));
  }

  /** The facility after the last facility-code identifier of `ids` has been taken. */
  function ScannedFacility(hf: HealthFacility, ids: seq<Identifier>, k: Constants): HealthFacility {
    match Last(ids, IsHfCodeOf(k))
    case Some(id) => hf.(code := id.value)
    case None => hf
  }

  /** One more identifier: a facility-code identifier replaces the code, any other keeps it. */
  lemma ScannedFacilitySnoc(hf: HealthFacility, pre: seq<Identifier>, id: Identifier, k: Constants)
    ensures ScannedFacility(hf, pre + [id], k) == if IsHfCode(id, k) then hf.(code := id.value) else ScannedFacility(hf, pre, k)
  {
    LastSnoc(pre, id, IsHfCodeOf(k));
  }

  /** The loop of `build_imis_hf_identiftier` over a list of identifiers. */
  method ScanHfIdentifiers(hf: HealthFacility, ids: seq<Identifier>, k: Constants) returns (r: Result<HealthFacility, FhirError>)
    ensures r == HfCodeDecoded(hf, EmptyLocation.(identifier := Some(ids)), k)
  {
    ghost var loc := EmptyLocation.(identifier := Some(ids));
    var h := hf;
    var i := 0;
    while i < |ids|
      invariant 0 <= i <= |ids|
      invariant forall j :: 0 <= j < i ==> !EmptyTypeCoding(ids[j])
      invariant h == ScannedFacility(hf, ids[..i], k)
    {
      assert ids[..i + 1] == ids[..i] + [ids[i]];
      ScannedFacilitySnoc(hf, ids[..i], ids[i], k);
      var ty := ids[i].ty;
      if ty.Some? && ty.value.coding.Some? {
        if |ty.value.coding.value| == 0 {
          assert EmptyTypeCoding(ids[i]);
          return Failure(IndexError("list index out of range"));
        }
        var first := ty.value.coding.value[0];
        if first.system == Some(k.identifierTypeSystem) {
          if first.code == Some(k.facilityIdType) {
            if ids[i].value.Some? {
              h := h.(code := ids[i].value);
            }
          }
        }
      }
      i := i + 1;
    }
    assert ids[..|ids|] == ids;
    assert HfCodeDecoded(hf, loc, k) == Success(ScannedFacility(hf, ids, k));
    return Success(h);
  }

  /** The encoded identifiers give the facility code back to any facility being decoded. */
  lemma IdentifiersRoundTrip(hf: HealthFacility, x: HealthFacility, k: Constants)
    requires k.idTypeCode != k.facilityIdType
    ensures HfCodeDecoded(x, EmptyLocation.(identifier := Some(Identifiers(hf, k))), k)
      == Success(if hf.code.Some? then x.(code := hf.code) else x)
  {
    var ids := Identifiers(hf, k);
    var last := ids[|ids| - 1];
    assert !EmptyTypeCoding(last);
    if hf.id.Some? {
      assert ids == [ids[0]] + [last];
      assert !EmptyTypeCoding(ids[0]) && !IsHfCode(ids[0], k);
      LastSnoc([ids[0]], last, IsHfCodeOf(k));
      assert [ids[0]] == [] + [ids[0]];
      LastSnoc([], ids[0], IsHfCodeOf(k));
    } else {
      assert ids == [] + [last];
      LastSnoc([], last, IsHfCodeOf(k));
    }
  }

  // ---------------------------------------------------------------- name

  /** `build_imis_hf_name`: the name when present, otherwise the missing-name message. */
  function NameDecoded(hf: HealthFacility, loc: Location, errors: seq<string>): (r: (HealthFacility, seq<string>))
    ensures r.0 == hf.(name := r.0.name)
    ensures loc.name.Some? ==> r == (hf.(name := loc.name), errors)
    ensures loc.name.None? ==> r == (hf, errors + [MissingName])
  {
    var (missing, errs) := ValidCondition(loc.name.None?, MissingName, errors);
    if !missing then (hf.(name := loc.name), errs) else (hf, errs)
  }

  // ---------------------------------------------------------------- level

  /** `build_fhir_location_type`: the configured code of the facility's level, `""` for any other level. */
  function LevelCode(level: Option<string>, t: LevelTable): (code: string)
    ensures code in {t.healthCenterCode, t.hospitalCode, t.dispensaryCode, ""}
  {
    if level == Some(t.healthCenter) then t.healthCenterCode
    else if level == Some(t.hospital) then t.hospitalCode
    else if level == Some(t.dispensary) then t.dispensaryCode
    else ""
  }

  /** The level a role-type code stands for, as the decoding loop's `if`/`elif` chain reads it. */
  function LevelOfCode(code: Option<string>, t: LevelTable): (level: Option<string>)
    ensures level.Some? ==> level.value in {t.healthCenter, t.hospital, t.dispensary}
  {
    if code == Some(t.healthCenterCode) then Some(t.healthCenter)
    else if code == Some(t.hospitalCode) then Some(t.hospital)
    else if code == Some(t.dispensaryCode) then Some(t.dispensary)
    else None
  }

  /** A level known to the database. */
  predicate KnownLevel(level: Option<string>, t: LevelTable) {
    level == Some(t.healthCenter) || level == Some(t.hospital) || level == Some(t.dispensary)
  }

  /** The level table read forwards and backwards: a known level comes back, any other level codes to nothing. */
  lemma LevelRoundTrip(level: Option<string>, t: LevelTable)
    requires t.Distinct() && t.CodesNonEmpty()
    ensures KnownLevel(level, t) ==> LevelOfCode(Some(LevelCode(level, t)), t) == level
    ensures !KnownLevel(level, t) ==> LevelOfCode(Some(LevelCode(level, t)), t) == None
  {
  }

  /** A coding that sets the level: the role-type system and one of the three codes. */
  predicate IsLevelCoding(c: Coding, system: string, t: LevelTable) {
    c.system == Some(system) && LevelOfCode(c.code, t).Some?
  }

  function IsLevelCodingOf(system: string, t: LevelTable): Coding -> bool {
    (c: Coding) => IsLevelCoding(c, system, t)
  }

  /** The level the codings leave on the facility: the last level coding wins. */
  function LastLevel(cs: seq<Coding>, old_: Option<string>, system: string, t: LevelTable): Option<string> {
    match Last(cs, IsLevelCodingOf(system, t))
    case Some(c) => LevelOfCode(c.code, t)
    case None => old_
  }

  /** The loop over a type's codings that both location converters run. */
  method DecodeLevel(cs: seq<Coding>, level: Option<string>, system: string, t: LevelTable) returns (r: Option<string>)
    ensures r == LastLevel(cs, level, system, t)
  {
    r := level;
    var i := 0;
    while i < |cs|
      invariant 0 <= i <= |cs|
      invariant r == LastLevel(cs[..i], level, system, t)
    {
      assert cs[..i + 1] == cs[..i] + [cs[i]];
      LastSnoc(cs[..i], cs[i], IsLevelCodingOf(system, t));
      if cs[i].system == Some(system) {
        var code := cs[i].code;
        if code == Some(t.healthCenterCode) {
          r := Some(t.healthCenter);
        } else if code == Some(t.hospitalCode) {
          r := Some(t.hospital);
        } else if code == Some(t.dispensaryCode) {
          r := Some(t.dispensary);
        }
      }
      i := i + 1;
    }
    assert cs[..|cs|] == cs;
  }

  /** A single coding of a known level's code decodes to that level; of the empty code, to nothing. */
  lemma LastLevelOfEncoded(level: Option<string>, old_: Option<string>, system: string, t: LevelTable)
    requires t.Distinct() && t.CodesNonEmpty()
    ensures LastLevel([Coding(Some(system), Some(LevelCode(level, t)), None)], old_, system, t)
      == if KnownLevel(level, t) then level else old_
  {
    var c := Coding(Some(system), Some(LevelCode(level, t)), None);
    LevelRoundTrip(level, t);
    assert [c] == [] + [c];
    LastSnoc([], c, IsLevelCodingOf(system, t));
  }

  /**
   * `build_imis_hf_level`: a missing type is reported; otherwise its codings are read (iterating
   * a missing coding list raises `TypeError`) and a level still missing afterwards is reported.
   */
  function LevelDecoded(hf: HealthFacility, loc: Location, errors: seq<string>, k: Constants)
    : (r: Result<(HealthFacility, seq<string>), FhirError>)
    ensures r.Failure? <==> loc.ty.Some? && loc.ty.value.coding.None?
    ensures loc.ty.None? ==> r == Success((hf, errors + [MissingType]))
    ensures r.Success? && loc.ty.Some? ==>
      r.value.0 == hf.(level := r.value.0.level)
      && r.value.1 == errors + (if r.value.0.level.None? then [MissingLevel] else [])
  {
    var (missing, errs) := ValidCondition(loc.ty.None?, MissingType, errors);
    if missing then Success((hf, errs))
    else match loc.ty.value.coding
      case None => Failure(TypeError("'NoneType' object is not iterable"))
      case Some(cs) =>
        var h := hf.(level := LastLevel(cs, hf.level, k.roleTypeSystem, k.levels));
        Success((h, ValidCondition(h.level.None?, MissingLevel, errs).1))
  }

  /** `build_imis_hf_level` as the loop the source runs. */
  method BuildImisHfLevel(hf: HealthFacility, loc: Location, errors: seq<string>, k: Constants)
    returns (r: Result<(HealthFacility, seq<string>), FhirError>)
    ensures r == LevelDecoded(hf, loc, errors, k)
  {
    var (missing, errs) := ValidCondition(loc.ty.None?, MissingType, errors);
    if missing {
      return Success((hf, errs));
    }
    if loc.ty.value.coding.None? {
      return Failure(TypeError("'NoneType' object is not iterable"));
    }
    var level := DecodeLevel(loc.ty.value.coding.value, hf.level, k.roleTypeSystem, k.levels);
    var h := hf.(level := level);
    errs := ValidCondition(h.level.None?, MissingLevel, errs).1;
    return Success((h, errs));
  }

  /** The encoded type of a facility: one coding, with the role-type system and the level's code. */
  function EncodedType(hf: HealthFacility, k: Constants): (c: Concept)
    ensures c.coding == Some([Coding(Some(k.roleTypeSystem), Some(LevelCode(hf.level, k.levels)), None)])
  {
    BuildCodeableConcept(LevelCode(hf.level, k.levels), Some(k.roleTypeSystem), None)
  }

  /**
   * Decoding the encoded type restores a known level; an unknown level (codes non-empty) leaves
   * the level missing and is reported.
   */
  lemma LevelStageRoundTrip(hf: HealthFacility, x: HealthFacility, errors: seq<string>, k: Constants)
    requires k.Distinct() && x.level.None?
    ensures KnownLevel(hf.level, k.levels) ==>
      LevelDecoded(x, EmptyLocation.(ty := Some(EncodedType(hf, k))), errors, k) == Success((x.(level := hf.level), errors))
    ensures !KnownLevel(hf.level, k.levels) ==>
      LevelDecoded(x, EmptyLocation.(ty := Some(EncodedType(hf, k))), errors, k) == Success((x, errors + [MissingLevel]))
  {
    LastLevelOfEncoded(hf.level, x.level, k.roleTypeSystem, k.levels);
  }

  // ---------------------------------------------------------------- address and telecom

  /** `build_fhir_location_address`: the facility's address as a home, physical address. */
  function EncodedAddress(hf: HealthFacility): (a: Address)
    ensures a.text == hf.address && a.ty == Some(PhysicalType)
  {
    Address(hf.address, Some(HomeUse), Some(PhysicalType))
  }

  /** `build_imis_hf_address`: the text of a physical address, nothing for any other address. */
  function AddressDecoded(hf: HealthFacility, loc: Location): (r: HealthFacility)
    ensures r == hf.(address := r.address)
    ensures r.address != hf.address ==> loc.address.Some? && loc.address.value.ty == Some(PhysicalType)
  {
    if loc.address.Some? && loc.address.value.ty == Some(PhysicalType) then hf.(address := loc.address.value.text)
    else hf
  }

  /** `build_fhir_location_telcome`: phone, fax, then e-mail, each only when present. */
  function Telecom(c: Contacts): (cps: seq<ContactPoint>)
    ensures |cps| == (if c.phone.Some? then 1 else 0) + (if c.fax.Some? then 1 else 0) + (if c.email.Some? then 1 else 0)
  {
    (if c.phone.Some? then [BuildContactPoint(c.phone, PhoneSystem, HomeUse)] else [])
    + (if c.fax.Some? then [BuildContactPoint(c.fax, FaxSystem, HomeUse)] else [])
    + (if c.email.Some? then [BuildContactPoint(c.email, EmailSystem, HomeUse)] else [])
  }

  /** `build_fhir_location_telcome` as the list the source appends to; both location converters run it. */
  method BuildFhirTelecom(c: Contacts) returns (telecom: seq<ContactPoint>)
    ensures telecom == Telecom(c)
  {
    telecom := [];
    if c.phone.Some? {
      telecom := telecom + [BuildContactPoint(c.phone, PhoneSystem, HomeUse)];
    }
    if c.fax.Some? {
      telecom := telecom + [BuildContactPoint(c.fax, FaxSystem, HomeUse)];
    }
    if c.email.Some? {
      telecom := telecom + [BuildContactPoint(c.email, EmailSystem, HomeUse)];
    }
  }

  /** `build_imis_hf_contacts`: per system, the value of the last contact point of that system wins. */
  function DecodeContacts(c: Contacts, cps: seq<ContactPoint>): Contacts {
    Contacts(LastContact(cps, PhoneSystem, c.phone), LastContact(cps, FaxSystem, c.fax), LastContact(cps, EmailSystem, c.email))
  }

  /** The contact points of a location, when it has a telecom list, decoded into the facility. */
  function ContactsDecoded(hf: HealthFacility, loc: Location): (r: HealthFacility)
    ensures r == hf.(contacts := r.contacts)
  {
    match loc.telecom
    case None => hf
    case Some(cps) => hf.(contacts := DecodeContacts(hf.contacts, cps))
  }

  /** The loop of `build_imis_hf_contacts`, shared by both location converters. */
  method BuildImisContacts(c: Contacts, cps: seq<ContactPoint>) returns (r: Contacts)
    ensures r == DecodeContacts(c, cps)
  {
    r := c;
    var i := 0;
    while i < |cps|
      invariant 0 <= i <= |cps|
      invariant r == DecodeContacts(c, cps[..i])
    {
      assert cps[..i + 1] == cps[..i] + [cps[i]];
      LastSnoc(cps[..i], cps[i], HasSystem(PhoneSystem));
      LastSnoc(cps[..i], cps[i], HasSystem(FaxSystem));
      LastSnoc(cps[..i], cps[i], HasSystem(EmailSystem));
      if cps[i].system == Some(PhoneSystem) {
        r := r.(phone := cps[i].value);
      } else if cps[i].system == Some(FaxSystem) {
        r := r.(fax := cps[i].value);
      } else if cps[i].system == Some(EmailSystem) {
        r := r.(email := cps[i].value);
      }
      i := i + 1;
    }
    assert cps[..|cps|] == cps;
  }

  /** Appending at most one contact point: it wins for its own system, the earlier list decides the others. */
  lemma LastContactAppend(pre: seq<ContactPoint>, xs: seq<ContactPoint>, system: string, old_: Option<string>)
    requires |xs| <= 1
    ensures LastContact(pre + xs, system, old_) ==
      if |xs| == 1 && xs[0].system == Some(system) then xs[0].value else LastContact(pre, system, old_)
  {
    if |xs| == 1 {
      LastSnoc(pre, xs[0], HasSystem(system));
    } else {
      assert pre + xs == pre;
    }
  }

  /** The value the encoded telecom list gives one system: the facility's own contact of that system, if it has one. */
  lemma TelecomSystem(c: Contacts, system: string, old_: Option<string>)
    ensures LastContact(Telecom(c), system, old_) ==
      if system == EmailSystem && c.email.Some? then c.email
      else if system == FaxSystem && c.fax.Some? then c.fax
      else if system == PhoneSystem && c.phone.Some? then c.phone
      else old_
  {
    var p := if c.phone.Some? then [BuildContactPoint(c.phone, PhoneSystem, HomeUse)] else [];
    var f := if c.fax.Some? then [BuildContactPoint(c.fax, FaxSystem, HomeUse)] else [];
    var e := if c.email.Some? then [BuildContactPoint(c.email, EmailSystem, HomeUse)] else [];
    assert Telecom(c) == p + f + e;
    LastContactAppend(p + f, e, system, old_);
    LastContactAppend(p, f, system, old_);
    LastContactAppend([], p, system, old_);
    assert [] + p == p;
  }

  /** Decoding the encoded telecom list restores each contact the facility has and keeps the others. */
  lemma TelecomRoundTrip(c: Contacts, x: Contacts)
    ensures DecodeContacts(x, Telecom(c)) == Contacts(
      if c.phone.Some? then c.phone else x.phone,
      if c.fax.Some? then c.fax else x.fax,
      if c.email.Some? then c.email else x.email)
  {
    TelecomSystem(c, PhoneSystem, x.phone);
    TelecomSystem(c, FaxSystem, x.fax);
    TelecomSystem(c, EmailSystem, x.email);
  }

  // ---------------------------------------------------------------- whole conversions

  /** `to_fhir_obj` as a value: identifiers, name, type, address and telecom. */
  function Encoded(hf: HealthFacility, k: Constants): Location {
    Location(Some(Identifiers(hf, k)), hf.name, Some(EncodedType(hf, k)), Some(EncodedAddress(hf)), Some(Telecom(hf.contacts)))
  }

  /** `to_fhir_obj`: every builder in turn. */
  method ToFhir(hf: HealthFacility, k: Constants) returns (loc: Location)
    ensures loc == Encoded(hf, k)
    ensures loc.telecom.Some? && |loc.telecom.value| <= 3
    ensures loc.identifier.Some? && |loc.identifier.value| == if hf.id.Some? then 2 else 1
  {
    var ids := AppendKeyIdentifier([], hf.id, k.identifierTypeSystem, k.idTypeCode);
    ids := ids + [BuildIdentifier("", k.identifierTypeSystem, k.facilityIdType).(value := hf.code)];
    loc := EmptyLocation.(identifier := Some(ids));
    loc := loc.(name := hf.name);
    loc := loc.(ty := Some(EncodedType(hf, k)));
    loc := loc.(address := Some(EncodedAddress(hf)));
    var telecom := BuildFhirTelecom(hf.contacts);
    loc := loc.(telecom := Some(telecom));
    assert ids == Identifiers(hf, k);
  }

  /**
   * The stages of `to_imis_obj` before `check_errors`: the decoded facility and the errors
   * recorded, or the exception a stage raised.
   */
  function Decoded(loc: Location, auditUserId: Option<int>, k: Constants): Result<(HealthFacility, seq<string>), FhirError> {
    match IdentifierStage(DefaultHealthFacility(auditUserId, k), loc, [], k)
    case Failure(e) => Failure(e)
    case Success(s1) =>
      var s2 := NameDecoded(s1.0, loc, s1.1);
      match LevelDecoded(s2.0, loc, s2.1, k)
      case Failure(e) => Failure(e)
      case Success(s3) => Success((ContactsDecoded(AddressDecoded(s3.0, loc), loc), s3.1))
  }

  /** `to_imis_obj`: every builder, then `check_errors`; an exception of a builder propagates. */
  method ToImis(loc: Location, auditUserId: Option<int>, k: Constants) returns (r: Result<HealthFacility, FhirError>)
    ensures Decoded(loc, auditUserId, k).Failure? ==> r == Failure(Decoded(loc, auditUserId, k).error)
    ensures Decoded(loc, auditUserId, k).Success? ==>
      r == CheckErrors(Decoded(loc, auditUserId, k).value.0, Decoded(loc, auditUserId, k).value.1)
  {
    var hf := DefaultHealthFacility(auditUserId, k);
    var s1 := BuildImisHfIdentifier(hf, loc, [], k);
    if s1.Failure? {
      return Failure(s1.error);
    }
    var s2 := NameDecoded(s1.value.0, loc, s1.value.1);
    var s3 := BuildImisHfLevel(s2.0, loc, s2.1, k);
    if s3.Failure? {
      return Failure(s3.error);
    }
    var h := AddressDecoded(s3.value.0, loc);
    if loc.telecom.Some? {
      var c := BuildImisContacts(h.contacts, loc.telecom.value);
      h := h.(contacts := c);
    }
    return CheckErrors(h, s3.value.1);
  }

  /** A location with none of its fields reports the missing code, name and type together. */
  lemma EmptyLocationReportsAll(auditUserId: Option<int>, k: Constants)
    ensures Decoded(EmptyLocation, auditUserId, k) ==
      Success((DefaultHealthFacility(auditUserId, k), [MissingHfCode, MissingName, MissingType]))
  {
    assert [] + [MissingHfCode] + [MissingName] + [MissingType] == [MissingHfCode, MissingName, MissingType];
  }

  /**
   * Encoding a facility and decoding the result gives back its code, name, level, address and
   * contacts on a new facility, with no error, when the facility has a code, a name and a known level.
   */
  lemma LocationRoundTrip(hf: HealthFacility, auditUserId: Option<int>, k: Constants)
    requires k.Distinct()
    requires hf.code.Some? && hf.name.Some? && KnownLevel(hf.level, k.levels)
    ensures Decoded(Encoded(hf, k), auditUserId, k) == Success((DefaultHealthFacility(auditUserId, k).(
      code := hf.code, name := hf.name, level := hf.level, address := hf.address, contacts := hf.contacts), []))
  {
    var loc := Encoded(hf, k);
    var d := DefaultHealthFacility(auditUserId, k);
    IdentifiersRoundTrip(hf, d, k);
    assert HfCodeDecoded(d, loc, k) == HfCodeDecoded(d, EmptyLocation.(identifier := Some(Identifiers(hf, k))), k);
    var h1 := d.(code := hf.code);
    assert IdentifierStage(d, loc, [], k) == Success((h1, []));
    var h2 := h1.(name := hf.name);
    assert NameDecoded(h1, loc, []) == (h2, []);
    LevelStageRoundTrip(hf, h2, [], k);
    assert LevelDecoded(h2, loc, [], k) == LevelDecoded(h2, EmptyLocation.(ty := Some(EncodedType(hf, k))), [], k);
    var h3 := h2.(level := hf.level);
    var h4 := h3.(address := hf.address);
    assert AddressDecoded(h3, loc) == h4;
    TelecomRoundTrip(hf.contacts, h4.contacts);
  }
}
