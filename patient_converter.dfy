/**
 * The STU3 `PatientConverter`: an insuree of the insurance database to a FHIR Patient and a
 * Patient (as the request body's dictionary) back to an insuree. Encoding fills the Patient
 * one element after the other; decoding runs every builder, collecting error messages, and
 * fails once at the end.
 */
module PatientConverter {
  import opened Wrappers
  import opened Exceptions
  import opened FhirTypes
  import opened BaseConverter

  // HL7 v2 table 0203 identifier types
  const AccessionCode := "ACSN"
  const SocialBeneficiaryCode := "SB"
  const PassportCode := "PPN"

  const MissingName := "Missing patient `name` attribute"
  const MissingFamilyName := "Missing patient family name"
  const MissingGivenName := "Missing patient given name"
  const MissingBirthDate := "Missing patient `birthDate` attribute"

  /**
   * The constants of `api_fhir.constant` the converter uses: the identifier-type system and
   * the marital-status system with its five codes (that module is not part of this model).
   */
  datatype Constants = Constants(
    identifierTypeSystem: string, maritalSystem: string,
    married: string, neverMarried: string, divorced: string, widowed: string, unknown: string)
  {
    /** The five marital codes are pairwise distinct. */
    predicate DistinctMarital() {
      married != neverMarried && married != divorced && married != widowed && married != unknown
      && neverMarried != divorced && neverMarried != widowed && neverMarried != unknown
      && divorced != widowed && divorced != unknown && widowed != unknown
    }
  }

  /**
   * The fields of an insuree the converter reads or writes. `gender` is the primary key of
   * the insuree's Gender row, `dob` the birth date as the date parser returns it.
   */
  datatype Insuree = Insuree(
    id: Option<string>, chfId: Option<string>, passport: Option<string>, typeOfId: Option<string>,
    lastName: Option<string>, otherNames: Option<string>, dob: Option<string>,
    gender: Option<string>, marital: Option<string>,
    phone: Option<string>, email: Option<string>,
    currentAddress: Option<string>, geolocation: Option<string>,
    head: bool, cardIssued: bool, auditUserId: Option<int>)

  datatype Patient = Patient(
    name: Option<seq<NameDict>>, identifier: Option<seq<Identifier>>, birthDate: Option<string>,
    gender: Option<string>, maritalStatus: Option<Concept>,
    telecom: Option<seq<ContactPoint>>, address: Option<seq<Address>>)

  /** `createDefaultInsuree`: not head of family, no card issued, every other field unset. */
  const DefaultInsuree := Insuree(None, None, None, None, None, None, None, None, None, None, None, None, None,
                                  false, false, None)

  // ---------------------------------------------------------------- names

  /** The name `build_human_names` fills in: "usual", family from the last name, given from the other names. */
  function UsualName(ins: Insuree): HumanName {
    HumanName(Some(UsualUse), ins.lastName, Some([ins.otherNames]))
  }

  /**
   * `build_human_names` as written: the Patient's name list holds the name object's
   * `__dict__`, in which the three properties are not keys.
   */
  function HumanNamesAsWritten(ins: Insuree): seq<NameDict> {
    [NameAttributes(UsualName(ins))]
  }

  /** `build_human_names` corrected: the name list holds the dictionary of the name's properties. */
  function HumanNames(ins: Insuree): seq<NameDict> {
    [NameProperties(UsualName(ins))]
  }

  predicate IsUsual(n: NameDict) {
    n.use == Has(UsualUse)
  }

  /** The search stops at a name whose `use` key is missing (`name['use']` raises) or is "usual". */
  predicate StopsSearch(n: NameDict) {
    n.use.Absent? || IsUsual(n)
  }

  /**
   * Taking the family name (`None` when the key holds `None`) and, when the given list is
   * present and not empty, its first entry from a name whose `family` key is present.
   */
  function TakeName(ins: Insuree, n: NameDict): Insuree {
    ins.(lastName := n.family.Get(),
         otherNames := if n.given.Has? && |n.given.v| > 0 then n.given.v[0] else ins.otherNames)
  }

  /** The messages recorded after the search: a missing family name, then a missing given name. */
  function NameMessages(r: Insuree): seq<string> {
    (if r.lastName.None? then [MissingFamilyName] else []) + (if r.otherNames.None? then [MissingGivenName] else [])
  }

  /**
   * What `build_imis_names` does to an insuree, and the messages it records: the names are
   * searched in order for the first "usual" one, whose family and first given name are taken;
   * a name met on the way without a `use` key, or the usual name without a `family` key,
   * raises KeyError; a missing name list, family name or given name each add a message.
   */
  function NamesDecoded(ins: Insuree, p: Patient): Result<(Insuree, seq<string>), FhirError> {
    if p.name.None? then Success((ins, [MissingName]))
    else
      match First(p.name.value, StopsSearch)
      case None => Success((ins, NameMessages(ins)))
      case Some(n) =>
        if n.use.Absent? then Failure(KeyError("use"))
        else if n.family.Absent? then Failure(KeyError("family"))
        else Success((TakeName(ins, n), NameMessages(TakeName(ins, n))))
  }

  /**
   * `build_imis_names`: the search loop stops at the first "usual" name; the messages are
   * appended to the earlier ones, and an exception ends the conversion.
   */
  method BuildImisNames(ins: Insuree, p: Patient, errors: seq<string>) returns (res: Result<(Insuree, seq<string>), FhirError>)
    ensures NamesDecoded(ins, p).Failure? ==> res == Failure(NamesDecoded(ins, p).error)
    ensures NamesDecoded(ins, p).Success? ==>
              res == Success((NamesDecoded(ins, p).value.0, errors + NamesDecoded(ins, p).value.1))
  {
    var vc := ValidCondition(p.name.None?, MissingName, errors);
    var missing := vc.0;
    var errs := vc.1;
    var r := ins;
    if !missing {
      var names := p.name.value;
      var i := 0;
      while i < |names|
        invariant 0 <= i <= |names|
        invariant r == ins
        invariant forall j :: 0 <= j < i ==> !StopsSearch(names[j])
      {
        if names[i].use.Absent? {
          FirstAt(names, StopsSearch, i);
          return Failure(KeyError("use"));
        }
        if names[i].use == Has(UsualUse) {
          FirstAt(names, StopsSearch, i);
          if names[i].family.Absent? {
            return Failure(KeyError("family"));
          }
          r := TakeName(r, names[i]);
          break;
        }
        i := i + 1;
      }
      errs := ValidCondition(r.lastName.None?, MissingFamilyName, errs).1;
      errs := ValidCondition(r.otherNames.None?, MissingGivenName, errs).1;
      ghost var e1: seq<string> := if r.lastName.None? then [MissingFamilyName] else [];
      ghost var e2: seq<string> := if r.otherNames.None? then [MissingGivenName] else [];
      assert errs == errors + e1 + e2 == errors + (e1 + e2);
    }
    res := Success((r, errs));
  }

  /**
   * Decoding names into a fresh insuree raises nothing and records no message exactly when
   * there is a name list whose first usual name, met before any name without a `use` key,
   * has a family name and a present first given name.
   */
  lemma NamesAccepted(p: Patient)
    ensures NamesDecoded(DefaultInsuree, p).Success? && NamesDecoded(DefaultInsuree, p).value.1 == [] <==>
      p.name.Some? && First(p.name.value, StopsSearch).Some?
      && var n := First(p.name.value, StopsSearch).value;
         IsUsual(n) && n.family.Has? && n.given.Has? && |n.given.v| > 0 && n.given.v[0].Some?
  {
  }

  /**
   * Decoding names raises KeyError('use') exactly when some name without a `use` key comes
   * before every usual name, and KeyError('family') exactly when the first usual name, met
   * before any such name, has no `family` key; it raises nothing else.
   */
  lemma NamesRaise(ins: Insuree, p: Patient)
    ensures NamesDecoded(ins, p) == Failure(KeyError("use")) <==>
      p.name.Some? && exists i :: 0 <= i < |p.name.value| && p.name.value[i].use.Absent?
                                 && forall j :: 0 <= j < i ==> !StopsSearch(p.name.value[j])
    ensures NamesDecoded(ins, p) == Failure(KeyError("family")) <==>
      p.name.Some? && exists i :: 0 <= i < |p.name.value| && IsUsual(p.name.value[i]) && p.name.value[i].family.Absent?
                                 && forall j :: 0 <= j < i ==> !StopsSearch(p.name.value[j])
    ensures NamesDecoded(ins, p).Failure? ==> NamesDecoded(ins, p).error in {KeyError("use"), KeyError("family")}
  {
    if p.name.Some? {
      var names := p.name.value;
      match First(names, StopsSearch)
      case None =>
      case Some(n) =>
        var i :| 0 <= i < |names| && names[i] == n && forall j :: 0 <= j < i ==> !StopsSearch(names[j]);
        forall k | 0 <= k < |names| && StopsSearch(names[k]) && forall j :: 0 <= j < k ==> !StopsSearch(names[j])
          ensures k == i
        {
        }
    }
  }

  /**
   * As written, the encoded name list cannot be decoded: the first name is a `__dict__` without
   * a `use` key, so decoding raises KeyError('use') whatever the insuree.
   */
  lemma NamesAsWrittenNotReadBack(ins: Insuree)
    ensures NamesDecoded(DefaultInsuree, Patient(Some(HumanNamesAsWritten(ins)), None, None, None, None, None, None))
      == Failure(KeyError("use"))
  {
    FirstAt(HumanNamesAsWritten(ins), StopsSearch, 0);
  }

  /** The corrected encoded name decodes back to the insuree's last and other names. */
  lemma NamesRoundTrip(ins: Insuree)
    requires ins.lastName.Some? && ins.otherNames.Some?
    ensures NamesDecoded(DefaultInsuree, Patient(Some(HumanNames(ins)), None, None, None, None, None, None))
      == Success((DefaultInsuree.(lastName := ins.lastName, otherNames := ins.otherNames), []))
  {
    var names := HumanNames(ins);
    FirstAt(names, StopsSearch, 0);
    assert names[0].family == Has(ins.lastName.value) && names[0].given == Has([ins.otherNames]);
    var a := DefaultInsuree.(lastName := ins.lastName, otherNames := ins.otherNames);
    assert TakeName(DefaultInsuree, names[0]) == a;
    assert NameMessages(a) == [];
    var p := Patient(Some(names), None, None, None, None, None, None);
    assert First(p.name.value, StopsSearch) == Some(names[0]);
  }

  // ---------------------------------------------------------------- identifiers

  /**
   * `build_fhir_identifiers`: database id (ACSN), then CHF id (SB), then passport (PPN), each
   * only when present; the passport is skipped whenever the insuree has a `typeofid`.
   */
  method BuildFhirIdentifiers(ins: Insuree, k: Constants) returns (ids: seq<Identifier>)
    ensures ids == (if ins.id.Some? then [BuildIdentifier(ins.id.value, k.identifierTypeSystem, AccessionCode)] else [])
                 + (if ins.chfId.Some? then [BuildIdentifier(ins.chfId.value, k.identifierTypeSystem, SocialBeneficiaryCode)] else [])
                 + (if ins.typeOfId.None? && ins.passport.Some?
                    then [BuildIdentifier(ins.passport.value, k.identifierTypeSystem, PassportCode)] else [])
  {
    ids := AppendKeyIdentifier([], ins.id, k.identifierTypeSystem, AccessionCode);
    ids := AppendKeyIdentifier(ids, ins.chfId, k.identifierTypeSystem, SocialBeneficiaryCode);
    if ins.typeOfId.None? {
      ids := AppendKeyIdentifier(ids, ins.passport, k.identifierTypeSystem, PassportCode);
    }
  }

  /** An identifier whose type carries `system` and `code` directly (as the decoder reads it) and a value. */
  function FlatMatch(system: string, code: string): Identifier -> bool {
    (id: Identifier) => id.ty.Some? && id.ty.value.system == Some(system) && id.ty.value.code == Some(code) && id.value.Some?
  }

  /** The value the last matching identifier leaves in a field, or the field's old value. */
  function LastValue(ids: seq<Identifier>, system: string, code: string, old_: Option<string>): Option<string> {
    match Last(ids, FlatMatch(system, code))
    case Some(id) => id.value
    case None => old_
  }

  /**
   * `build_imis_identifiers`: every identifier typed SB (resp. PPN) in the identifier-type
   * system and carrying a value overwrites the CHF id (resp. passport); the last one wins.
   */
  method BuildImisIdentifiers(ins: Insuree, p: Patient, k: Constants) returns (r: Insuree)
    ensures r == IdentifiersDecoded(ins, p, k)
  {
    r := ins;
    if p.identifier.Some? {
      var ids := p.identifier.value;
      var i := 0;
      while i < |ids|
        invariant 0 <= i <= |ids|
        invariant r == ins.(chfId := LastValue(ids[..i], k.identifierTypeSystem, SocialBeneficiaryCode, ins.chfId),
                            passport := LastValue(ids[..i], k.identifierTypeSystem, PassportCode, ins.passport))
      {
        var id := ids[i];
        assert ids[..i + 1] == ids[..i] + [id];
        LastSnoc(ids[..i], id, FlatMatch(k.identifierTypeSystem, SocialBeneficiaryCode));
        LastSnoc(ids[..i], id, FlatMatch(k.identifierTypeSystem, PassportCode));
        if id.ty.Some? && id.ty.value.system == Some(k.identifierTypeSystem) {
          if id.ty.value.code == Some(SocialBeneficiaryCode) {
            if id.value.Some? {
              r := r.(chfId := id.value);
            }
          } else if id.ty.value.code == Some(PassportCode) {
            if id.value.Some? {
              r := r.(passport := id.value);
            }
          }
        }
        i := i + 1;
      }
      assert ids[..|ids|] == ids;
    }
  }

  /**
   * The encoder puts the identifier type's system and code inside a coding, where this
   * decoder does not look: decoding the encoded identifiers leaves CHF id and passport as they were.
   */
  lemma EncodedIdentifiersNotReadBack(ids: seq<Identifier>, p: Patient, k: Constants, x: Insuree)
    requires forall i :: 0 <= i < |ids| ==> exists v, c :: ids[i] == BuildIdentifier(v, k.identifierTypeSystem, c)
    requires p.identifier == Some(ids)
    ensures IdentifiersDecoded(x, p, k) == x
  {
    forall i, code | 0 <= i < |ids| ensures !FlatMatch(k.identifierTypeSystem, code)(ids[i]) {
      var v, c :| ids[i] == BuildIdentifier(v, k.identifierTypeSystem, c);
    }
  }

  // ---------------------------------------------------------------- birth date

  /**
   * `build_imis_birth_date`: a missing birth date records a message; otherwise the date is
   * taken (the parsing of its text is not modelled).
   */
  function BirthDateDecoded(ins: Insuree, p: Patient, errors: seq<string>): (r: (Insuree, seq<string>))
    ensures p.birthDate.None? ==> r == (ins, errors + [MissingBirthDate])
    ensures p.birthDate.Some? ==> r == (ins.(dob := p.birthDate), errors)
  {
    var (missing, errs) := ValidCondition(p.birthDate.None?, MissingBirthDate, errors);
    if missing then (ins, errs) else (ins.(dob := p.birthDate), errs)
  }

  // ---------------------------------------------------------------- gender

  /**
   * `build_fhir_gender`: the administrative gender the Patient gets; `None` where the source
   * leaves it unset (a gender code other than M, F, O).
   */
  function EncodeGender(gender: Option<string>): (r: Option<string>)
    ensures gender.None? ==> r == Some(UnknownGender)
    ensures r.None? <==> gender.Some? && gender.value != "M" && gender.value != "F" && gender.value != "O"
  {
    match gender
    case None => Some(UnknownGender)
    case Some(code) =>
      if code == "M" then Some(MaleGender)
      else if code == "F" then Some(FemaleGender)
      else if code == "O" then Some(OtherGender)
      else None
  }

  /**
   * `build_imis_gender` as written: its third test repeats the "female" comparison, so
   * "other" is never decoded.
   */
  function DecodeGenderAsWritten(gender: string): Option<string> {
    if gender == MaleGender then Some("M")
    else if gender == FemaleGender then Some("F")
    else if gender == FemaleGender then Some("O")
    else None
  }

  /** The encoded "other" gender does not come back: the insuree's gender stays as it was. */
  lemma GenderOtherLost()
    ensures EncodeGender(Some("O")) == Some(OtherGender)
    ensures DecodeGenderAsWritten(EncodeGender(Some("O")).value) == None
  {
  }

  /** `build_imis_gender` with the third test comparing against "other". */
  function DecodeGender(gender: string): (r: Option<string>)
    ensures r.Some? <==> gender in {MaleGender, FemaleGender, OtherGender}
  {
    if gender == MaleGender then Some("M")
    else if gender == FemaleGender then Some("F")
    else if gender == OtherGender then Some("O")
    else None
  }

  /** Encoding and the corrected decoding are inverse on the three mapped codes, both ways. */
  lemma GenderRoundTrip(code: string, gender: string)
    ensures code in {"M", "F", "O"} ==> EncodeGender(Some(code)).Some? && DecodeGender(EncodeGender(Some(code)).value) == Some(code)
    ensures DecodeGender(gender).Some? ==> EncodeGender(DecodeGender(gender)) == Some(gender)
  {
  }

  /** `build_imis_gender` (corrected): the Gender row whose key is the decoded code, when there is one. */
  function GenderDecoded(ins: Insuree, p: Patient): (r: Insuree)
    ensures p.gender.Some? && DecodeGender(p.gender.value).Some? ==> r == ins.(gender := DecodeGender(p.gender.value))
    ensures p.gender.None? || DecodeGender(p.gender.value).None? ==> r == ins
  {
    if p.gender.Some? then
      var code := DecodeGender(p.gender.value);
      if code.Some? then ins.(gender := code) else ins
    else ins
  }

  // ---------------------------------------------------------------- marital status

  /** The marital-status code for an insuree's marital letter M, S, D, W, N. */
  function MaritalFhirCode(m: string, k: Constants): (r: Option<string>)
    ensures r.Some? <==> m in {"M", "S", "D", "W", "N"}
  {
    if m == "M" then Some(k.married)
    else if m == "S" then Some(k.neverMarried)
    else if m == "D" then Some(k.divorced)
    else if m == "W" then Some(k.widowed)
    else if m == "N" then Some(k.unknown)
    else None
  }

  /** The insuree's marital letter for a marital-status code. */
  function MaritalImisCode(code: string, k: Constants): (r: Option<string>)
    ensures r.Some? <==> code in {k.married, k.neverMarried, k.divorced, k.widowed, k.unknown}
  {
    if code == k.married then Some("M")
    else if code == k.neverMarried then Some("S")
    else if code == k.divorced then Some("D")
    else if code == k.widowed then Some("W")
    else if code == k.unknown then Some("N")
    else None
  }

  /** With distinct codes the two tables are inverse to each other, in both directions. */
  lemma MaritalTablesInverse(m: string, code: string, k: Constants)
    requires k.DistinctMarital()
    ensures MaritalFhirCode(m, k).Some? ==> MaritalImisCode(MaritalFhirCode(m, k).value, k) == Some(m)
    ensures MaritalImisCode(code, k).Some? ==> MaritalFhirCode(MaritalImisCode(code, k).value, k) == Some(code)
  {
  }

  /** `build_fhir_marital_status`: the status for M/S/D/W/N, left unset otherwise. */
  function EncodeMarital(marital: Option<string>, k: Constants): (r: Option<Concept>)
    ensures r.Some? <==> marital.Some? && MaritalFhirCode(marital.value, k).Some?
    ensures r.Some? ==> FirstCoding(r.value) == Some(Coding(Some(k.maritalSystem), MaritalFhirCode(marital.value, k), None))
  {
    match marital
    case None => None
    case Some(m) =>
      match MaritalFhirCode(m, k)
      case Some(code) => Some(BuildCodeableConcept(code, Some(k.maritalSystem), None))
      case None => None
  }

  /** `build_imis_marital`: reads `system` and `code` directly on the concept. */
  function DecodeMarital(status: Concept, k: Constants): (r: Option<string>)
    ensures r.Some? ==> status.system == Some(k.maritalSystem)
    ensures status.system == Some(k.maritalSystem) && status.code.Some? ==> r == MaritalImisCode(status.code.value, k)
  {
    if status.system == Some(k.maritalSystem) && status.code.Some? then MaritalImisCode(status.code.value, k) else None
  }

  /** A concept carrying the system and code directly decodes back to the letter it was made from. */
  lemma MaritalFlatRoundTrip(m: string, k: Constants)
    requires k.DistinctMarital() && MaritalFhirCode(m, k).Some?
    ensures DecodeMarital(Concept(None, None, Some(k.maritalSystem), MaritalFhirCode(m, k)), k) == Some(m)
  {
  }

  /** The encoder puts system and code inside a coding, so its own output decodes to nothing. */
  lemma EncodedMaritalNotReadBack(marital: Option<string>, k: Constants)
    requires EncodeMarital(marital, k).Some?
    ensures DecodeMarital(EncodeMarital(marital, k).value, k) == None
  {
  }

  /** `build_imis_marital`: the letter of a recognised marital status; otherwise the insuree is unchanged. */
  function MaritalDecoded(ins: Insuree, p: Patient, k: Constants): (r: Insuree)
    ensures p.maritalStatus.Some? && DecodeMarital(p.maritalStatus.value, k).Some?
            ==> r == ins.(marital := DecodeMarital(p.maritalStatus.value, k))
    ensures p.maritalStatus.None? || DecodeMarital(p.maritalStatus.value, k).None? ==> r == ins
  {
    if p.maritalStatus.Some? then
      var m := DecodeMarital(p.maritalStatus.value, k);
      if m.Some? then ins.(marital := m) else ins
    else ins
  }

  // ---------------------------------------------------------------- telecom and addresses

  /** `build_fhir_telecom`: phone, then e-mail, each only when present. */
  function Telecom(ins: Insuree): seq<ContactPoint> {
    (if ins.phone.Some? then [BuildContactPoint(ins.phone, PhoneSystem, HomeUse)] else [])
    + (if ins.email.Some? then [BuildContactPoint(ins.email, EmailSystem, HomeUse)] else [])
  }

  /** `build_imis_contacts`: the last phone and the last e-mail contact point win. */
  method BuildImisContacts(ins: Insuree, p: Patient) returns (r: Insuree)
    ensures r == ContactsDecoded(ins, p)
  {
    r := ins;
    if p.telecom.Some? {
      var cps := p.telecom.value;
      var i := 0;
      while i < |cps|
        invariant 0 <= i <= |cps|
        invariant r == ins.(phone := LastContact(cps[..i], PhoneSystem, ins.phone),
                            email := LastContact(cps[..i], EmailSystem, ins.email))
      {
        assert cps[..i + 1] == cps[..i] + [cps[i]];
        LastSnoc(cps[..i], cps[i], HasSystem(PhoneSystem));
        LastSnoc(cps[..i], cps[i], HasSystem(EmailSystem));
        if cps[i].system == Some(PhoneSystem) {
          r := r.(phone := cps[i].value);
        } else if cps[i].system == Some(EmailSystem) {
          r := r.(email := cps[i].value);
        }
        i := i + 1;
      }
      assert cps[..|cps|] == cps;
    }
  }

  /** Decoding the encoded telecom list into any insuree restores the encoded phone and e-mail. */
  lemma TelecomRoundTrip(ins: Insuree, x: Insuree)
    ensures LastContact(Telecom(ins), PhoneSystem, x.phone) == if ins.phone.Some? then ins.phone else x.phone
    ensures LastContact(Telecom(ins), EmailSystem, x.email) == if ins.email.Some? then ins.email else x.email
  {
    var t := Telecom(ins);
    if ins.phone.Some? && ins.email.Some? {
      assert t == [] + [t[0]] + [t[1]];
      LastSnoc([] + [t[0]], t[1], HasSystem(PhoneSystem));
      LastSnoc([] + [t[0]], t[1], HasSystem(EmailSystem));
      LastSnoc([], t[0], HasSystem(PhoneSystem));
    } else if ins.phone.Some? || ins.email.Some? {
      assert t == [] + [t[0]];
      LastSnoc([], t[0], HasSystem(PhoneSystem));
      LastSnoc([], t[0], HasSystem(EmailSystem));
    }
  }

  /** `build_fhir_addresses`: the current address (physical), then the geolocation (both). */
  function Addresses(ins: Insuree): seq<Address> {
    (if ins.currentAddress.Some? then [Address(ins.currentAddress, Some(HomeUse), Some(PhysicalType))] else [])
    + (if ins.geolocation.Some? then [Address(ins.geolocation, Some(HomeUse), Some(BothType))] else [])
  }

  function HasType(ty: string): Address -> bool {
    (a: Address) => a.ty == Some(ty)
  }

  function LastAddress(addrs: seq<Address>, ty: string, old_: Option<string>): Option<string> {
    match Last(addrs, HasType(ty))
    case Some(a) => a.text
    case None => old_
  }

  /** `build_imis_addresses`: the last physical address and the last "both" address win. */
  method BuildImisAddresses(ins: Insuree, p: Patient) returns (r: Insuree)
    ensures r == AddressesDecoded(ins, p)
  {
    r := ins;
    if p.address.Some? {
      var addrs := p.address.value;
      var i := 0;
      while i < |addrs|
        invariant 0 <= i <= |addrs|
        invariant r == ins.(currentAddress := LastAddress(addrs[..i], PhysicalType, ins.currentAddress),
                            geolocation := LastAddress(addrs[..i], BothType, ins.geolocation))
      {
        assert addrs[..i + 1] == addrs[..i] + [addrs[i]];
        LastSnoc(addrs[..i], addrs[i], HasType(PhysicalType));
        LastSnoc(addrs[..i], addrs[i], HasType(BothType));
        if addrs[i].ty == Some(PhysicalType) {
          r := r.(currentAddress := addrs[i].text);
        } else if addrs[i].ty == Some(BothType) {
          r := r.(geolocation := addrs[i].text);
        }
        i := i + 1;
      }
      assert addrs[..|addrs|] == addrs;
    }
  }

  /** Decoding the encoded addresses into any insuree restores current address and geolocation. */
  lemma AddressesRoundTrip(ins: Insuree, x: Insuree)
    ensures LastAddress(Addresses(ins), PhysicalType, x.currentAddress) == if ins.currentAddress.Some? then ins.currentAddress else x.currentAddress
    ensures LastAddress(Addresses(ins), BothType, x.geolocation) == if ins.geolocation.Some? then ins.geolocation else x.geolocation
  {
    var t := Addresses(ins);
    if ins.currentAddress.Some? && ins.geolocation.Some? {
      assert t == [] + [t[0]] + [t[1]];
      LastSnoc([] + [t[0]], t[1], HasType(PhysicalType));
      LastSnoc([] + [t[0]], t[1], HasType(BothType));
      LastSnoc([], t[0], HasType(PhysicalType));
    } else if ins.currentAddress.Some? || ins.geolocation.Some? {
      assert t == [] + [t[0]];
      LastSnoc([], t[0], HasType(PhysicalType));
      LastSnoc([], t[0], HasType(BothType));
    }
  }

  // ---------------------------------------------------------------- whole conversions

  /** The identifiers encoded for an insuree (what `BuildFhirIdentifiers` computes). */
  function FhirIdentifiers(ins: Insuree, k: Constants): seq<Identifier> {
    (if ins.id.Some? then [BuildIdentifier(ins.id.value, k.identifierTypeSystem, AccessionCode)] else [])
    + (if ins.chfId.Some? then [BuildIdentifier(ins.chfId.value, k.identifierTypeSystem, SocialBeneficiaryCode)] else [])
    + (if ins.typeOfId.None? && ins.passport.Some?
       then [BuildIdentifier(ins.passport.value, k.identifierTypeSystem, PassportCode)] else [])
  }

  /** The Patient `to_fhir_obj` builds for an insuree with a birth date. */
  function Encoded(ins: Insuree, k: Constants): Patient
    requires ins.dob.Some?
  {
    Patient(Some(HumanNames(ins)), Some(FhirIdentifiers(ins, k)), ins.dob, EncodeGender(ins.gender),
            EncodeMarital(ins.marital, k), Some(Telecom(ins)), Some(Addresses(ins)))
  }

  /**
   * `to_fhir_obj`: names, identifiers, birth date, gender, marital status, telecom and
   * addresses in that order; an insuree without a birth date fails (`None.isoformat()`).
   */
  method ToFhir(ins: Insuree, k: Constants) returns (r: Result<Patient, FhirError>)
    ensures ins.dob.None? ==> r == Failure(AttributeError("isoformat"))
    ensures ins.dob.Some? ==> r == Success(Encoded(ins, k))
    ensures r.Success? ==> r.value.identifier.Some? && |r.value.identifier.value| <= 3
    ensures r.Success? ==> |r.value.name.value| == 1 && IsUsual(r.value.name.value[0])
  {
    var p := Patient(None, None, None, None, None, None, None);
    p := p.(name := Some(HumanNames(ins)));
    var ids := BuildFhirIdentifiers(ins, k);
    p := p.(identifier := Some(ids));
    if ins.dob.None? {
      return Failure(AttributeError("isoformat"));
    }
    p := p.(birthDate := ins.dob);
    p := p.(gender := EncodeGender(ins.gender));
    p := p.(maritalStatus := EncodeMarital(ins.marital, k));
    p := p.(telecom := Some(Telecom(ins)));
    p := p.(address := Some(Addresses(ins)));
    return Success(p);
  }

  /** The identifiers decoded into an insuree (what `BuildImisIdentifiers` computes). */
  function IdentifiersDecoded(ins: Insuree, p: Patient, k: Constants): Insuree {
    ins.(chfId := LastValue(p.identifier.UnwrapOr([]), k.identifierTypeSystem, SocialBeneficiaryCode, ins.chfId),
         passport := LastValue(p.identifier.UnwrapOr([]), k.identifierTypeSystem, PassportCode, ins.passport))
  }

  /** The contact points decoded into an insuree (what `BuildImisContacts` computes). */
  function ContactsDecoded(ins: Insuree, p: Patient): Insuree {
    ins.(phone := LastContact(p.telecom.UnwrapOr([]), PhoneSystem, ins.phone),
         email := LastContact(p.telecom.UnwrapOr([]), EmailSystem, ins.email))
  }

  /** The addresses decoded into an insuree (what `BuildImisAddresses` computes). */
  function AddressesDecoded(ins: Insuree, p: Patient): Insuree {
    ins.(currentAddress := LastAddress(p.address.UnwrapOr([]), PhysicalType, ins.currentAddress),
         geolocation := LastAddress(p.address.UnwrapOr([]), BothType, ins.geolocation))
  }

  /**
   * Every decoder applied in `to_imis_obj` order to a fresh insuree: the insuree and the
   * messages (names first, then the birth date), or the exception the names raise.
   */
  function Decoded(p: Patient, k: Constants): Result<(Insuree, seq<string>), FhirError> {
    match NamesDecoded(DefaultInsuree, p)
    case Failure(e) => Failure(e)
    case Success(named) =>
      var b := IdentifiersDecoded(named.0, p, k);
      var c := BirthDateDecoded(b, p, named.1);
      Success((AddressesDecoded(ContactsDecoded(MaritalDecoded(GenderDecoded(c.0, p), p, k), p), p), c.1))
  }

  /**
   * `to_imis_obj`: every builder runs, and an exception of the name builder ends the
   * conversion; then an unauthenticated caller is refused before the collected messages are
   * looked at; otherwise the audit user is 1 and any message fails the conversion with all messages.
   */
  method ToImis(p: Patient, authenticated: bool, k: Constants) returns (r: Result<Insuree, FhirError>)
    ensures Decoded(p, k).Failure? ==> r == Failure(Decoded(p, k).error)
    ensures Decoded(p, k).Success? && !authenticated ==> r == Failure(NotAuthenticated)
    ensures Decoded(p, k).Success? && authenticated ==>
              r == CheckErrors(Decoded(p, k).value.0.(auditUserId := Some(1)), Decoded(p, k).value.1)
  {
    var errors: seq<string> := [];
    var ins := DefaultInsuree;
    var named := BuildImisNames(ins, p, errors);
    if named.Failure? {
      return Failure(named.error);
    }
    assert [] + NamesDecoded(DefaultInsuree, p).value.1 == NamesDecoded(DefaultInsuree, p).value.1;
    ins, errors := named.value.0, named.value.1;
    ins := BuildImisIdentifiers(ins, p, k);
    var birth := BirthDateDecoded(ins, p, errors);
    ins, errors := birth.0, birth.1;
    ins := GenderDecoded(ins, p);
    ins := MaritalDecoded(ins, p, k);
    ins := BuildImisContacts(ins, p);
    ins := BuildImisAddresses(ins, p);
    if !authenticated {
      return Failure(NotAuthenticated);
    }
    assert Decoded(p, k) == Success((ins, errors));
    ins := ins.(auditUserId := Some(1));
    r := CheckErrors(ins, errors);
  }

  /** As written, every encoded insuree fails to decode: the name builder raises KeyError('use'). */
  lemma PatientAsWrittenNotReadBack(ins: Insuree, k: Constants)
    requires ins.dob.Some?
    ensures Decoded(Encoded(ins, k).(name := Some(HumanNamesAsWritten(ins))), k) == Failure(KeyError("use"))
  {
    var p := Encoded(ins, k).(name := Some(HumanNamesAsWritten(ins)));
    NamesAsWrittenNotReadBack(ins);
    assert NamesDecoded(DefaultInsuree, p)
      == NamesDecoded(DefaultInsuree, Patient(Some(HumanNamesAsWritten(ins)), None, None, None, None, None, None));
  }

  /** The encoded identifiers leave CHF id and passport of any insuree unchanged. */
  lemma FhirIdentifiersNotReadBack(ins: Insuree, k: Constants, p: Patient, x: Insuree)
    requires p.identifier == Some(FhirIdentifiers(ins, k))
    ensures IdentifiersDecoded(x, p, k) == x
  {
    var ids := FhirIdentifiers(ins, k);
    forall i | 0 <= i < |ids|
      ensures exists v, c :: ids[i] == BuildIdentifier(v, k.identifierTypeSystem, c)
    {
      if ins.id.Some? && i == 0 {
        assert ids[i] == BuildIdentifier(ins.id.value, k.identifierTypeSystem, AccessionCode);
      } else {
        var j := if ins.id.Some? then i - 1 else i;
        if ins.chfId.Some? && j == 0 {
          assert ids[i] == BuildIdentifier(ins.chfId.value, k.identifierTypeSystem, SocialBeneficiaryCode);
        } else {
          assert ids[i] == BuildIdentifier(ins.passport.value, k.identifierTypeSystem, PassportCode);
        }
      }
    }
    EncodedIdentifiersNotReadBack(ids, p, k, x);
  }

  /** The name, identifier, birth-date, gender and marital decoders on an encoded insuree. */
  lemma DecodedHead(ins: Insuree, k: Constants)
    requires ins.dob.Some? && ins.lastName.Some? && ins.otherNames.Some?
    requires ins.gender.None? || ins.gender.value in {"M", "F", "O"}
    ensures var p := Encoded(ins, k);
      var a := DefaultInsuree.(lastName := ins.lastName, otherNames := ins.otherNames);
      NamesDecoded(DefaultInsuree, p) == Success((a, []))
      && MaritalDecoded(GenderDecoded(BirthDateDecoded(IdentifiersDecoded(a, p, k), p, []).0, p), p, k)
         == DefaultInsuree.(lastName := ins.lastName, otherNames := ins.otherNames, dob := ins.dob, gender := ins.gender)
      && BirthDateDecoded(IdentifiersDecoded(a, p, k), p, []).1 == []
  {
    var p := Encoded(ins, k);
    var a := DefaultInsuree.(lastName := ins.lastName, otherNames := ins.otherNames);
    assert NamesDecoded(DefaultInsuree, p) == Success((a, [])) by {
      NamesRoundTrip(ins);
      assert NamesDecoded(DefaultInsuree, p) == NamesDecoded(DefaultInsuree, Patient(Some(HumanNames(ins)), None, None, None, None, None, None));
    }
    FhirIdentifiersNotReadBack(ins, k, p, a);
    GenderRoundTrip(ins.gender.UnwrapOr(""), "");
    if ins.marital.Some? && EncodeMarital(ins.marital, k).Some? {
      EncodedMaritalNotReadBack(ins.marital, k);
    }
  }

  /**
   * Encoding an insuree and decoding the result raises nothing, records no message and gives
   * back its names, birth date, gender, telecom and addresses; identifiers and marital status
   * are not read back.
   */
  lemma PatientRoundTrip(ins: Insuree, k: Constants)
    requires ins.dob.Some? && ins.lastName.Some? && ins.otherNames.Some?
    requires ins.gender.None? || ins.gender.value in {"M", "F", "O"}
    ensures Decoded(Encoded(ins, k), k).Success? && Decoded(Encoded(ins, k), k).value.1 == []
    ensures var d := Decoded(Encoded(ins, k), k).value.0;
      d.lastName == ins.lastName && d.otherNames == ins.otherNames && d.dob == ins.dob && d.gender == ins.gender
      && d.phone == ins.phone && d.email == ins.email
      && d.currentAddress == ins.currentAddress && d.geolocation == ins.geolocation
      && d.chfId == None && d.passport == None && d.marital == None
  {
    var p := Encoded(ins, k);
    DecodedHead(ins, k);
    var e := DefaultInsuree.(lastName := ins.lastName, otherNames := ins.otherNames, dob := ins.dob, gender := ins.gender);
    TelecomRoundTrip(ins, e);
    AddressesRoundTrip(ins, ContactsDecoded(e, p));
  }
}
