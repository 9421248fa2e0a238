/**
 * The R4 `ActivityDefinitionConverter`: a medical service as a FHIR ActivityDefinition and back.
 * The service's patient category is a 4-bit mask (8 kids, 4 adults, 2 female, 1 male) that
 * the encoder spells as letters in two use-context entries, "gender" and "age".
 *
 * Two defects of the source are modelled next to their corrections: the encoder's strict
 * comparisons lose the lowest bit of each pair, and the decoder reads `code` and `text` on the
 * use-context list itself.
 */
module ActivityDefinitionConverter {
  import opened Wrappers
  import opened Exceptions
  import opened FhirTypes
  import opened BaseConverter

  const MissingServiceCode := "Missing the service code"
  const MissingValidityFrom := "Missing activity definition `validity from` attribute"
  const MissingServCode := "Missing activity definition `serv code` attribute"
  const MissingServName := "Missing activity definition `serv name` attribute"
  const MissingServType := "Missing activity definition `serv type` attribute"
  const MissingServCategory := "Missing activity definition `serv category` attribute"
  const MissingServCareType := "Missing activity definition `serv care type` attribute"

  const ActiveStatus := "active"
  const GenderContext := "gender"
  const AgeContext := "age"
  const WorkflowContext := "workflow"
  const VenueContext := "venue"

  /** The message Python gives `None > 8`. */
  const NoneComparison := "'>' not supported between instances of 'NoneType' and 'int'"

  /**
   * A medical service. `topic` is not a column: it is the attribute the decoder sets from
   * the ActivityDefinition's `topic` list (the service's `type` is never set back).
   */
  datatype Service = Service(
    uuid: Option<string>, code: Option<string>, name: Option<string>, validityFrom: Option<string>,
    ty: Option<string>, patientCategory: Option<int>, category: Option<string>, careType: Option<string>,
    price: Option<int>, topic: Option<seq<Option<string>>>)

  /** `Service()`: nothing set. */
  const NewService := Service(None, None, None, None, None, None, None, None, None, None)

  /**
   * The text of a use-context entry: the pair of letters the gender and age builders return,
   * or a plain text.
   */
  datatype ContextText = Pair(first: string, second: string) | Plain(text: Option<string>)

  /** A use-context entry: `build_codeable_concept(code, text=...)`, its coding's code and its text. */
  datatype Context = Context(code: string, text: ContextText)

  /** The ActivityDefinition; its list elements are lists, never `None`. Dates are kept as ISO text. */
  datatype ActivityDefinition = ActivityDefinition(
    id: Option<string>, identifier: seq<Identifier>, status: Option<string>, date: Option<string>,
    name: Option<string>, title: Option<string>, useContext: seq<Context>, topic: seq<Option<string>>,
    extension: seq<Option<int>>)

  const EmptyActivityDefinition := ActivityDefinition(None, [], None, None, None, None, [], [], [])

  // ---------------------------------------------------------------- patient category

  /** A patient category the mask can express. */
  predicate ValidCategory(cat: int) {
    0 <= cat < 16
  }

  /**
   * `build_imis_serv_pat_cat`: 8 for "K", 4 for "A", 2 for "F" and 1 for "M", each counted once
   * when it is among the letters.
   */
  function PatCatOf(letters: seq<string>): (n: int)
    ensures ValidCategory(n)
    ensures n >= 8 <==> "K" in letters
    ensures n % 8 >= 4 <==> "A" in letters
    ensures n % 4 >= 2 <==> "F" in letters
    ensures n % 2 == 1 <==> "M" in letters
  {
    (if "K" in letters then 8 else 0) + (if "A" in letters then 4 else 0)
    + (if "F" in letters then 2 else 0) + (if "M" in letters then 1 else 0)
  }

  /** `build_fhir_gender` as written: a bit is peeled off only when the rest is strictly above it. */
  function GenderAsWritten(cat: int): (g: (string, string))
    ensures g.0 in {"F", ""} && g.1 in {"M", ""}
  {
    var c1 := if cat > 8 then cat - 8 else cat;
    var c2 := if c1 > 4 then c1 - 4 else c1;
    var c3 := if c2 > 2 then c2 - 2 else c2;
    (if c2 > 2 then "F" else "", if c3 > 1 then "M" else "")
  }

  /** `build_fhir_age` as written. */
  function AgeAsWritten(cat: int): (a: (string, string))
    ensures a.0 in {"K", ""} && a.1 in {"A", ""}
  {
    var c1 := if cat > 8 then cat - 8 else cat;
    (if cat > 8 then "K" else "", if c1 > 4 then "A" else "")
  }

  /** The letters the decoder collects from the gender and age pairs. */
  function Letters(g: (string, string), a: (string, string)): seq<string> {
    [g.0, g.1, a.0, a.1]
  }

  /** The encoder as written loses a category that is exactly one bit: 1 reads back as 0, and 8 as 7. */
  lemma PatCatAsWrittenLost()
    ensures PatCatOf(Letters(GenderAsWritten(1), AgeAsWritten(1))) == 0
    ensures PatCatOf(Letters(GenderAsWritten(8), AgeAsWritten(8))) == 7
  {
    assert Letters(GenderAsWritten(1), AgeAsWritten(1)) == ["", "", "", ""];
    assert Letters(GenderAsWritten(8), AgeAsWritten(8)) == ["F", "M", "", "A"];
  }

  /** The corrected `build_fhir_gender`: a bit is peeled off when the rest reaches it. */
  function Gender(cat: int): (g: (string, string))
    ensures g.0 in {"F", ""} && g.1 in {"M", ""}
    ensures ValidCategory(cat) ==> g.0 == (if cat % 8 % 4 >= 2 then "F" else "") && g.1 == (if cat % 2 == 1 then "M" else "")
  {
    var c1 := if cat >= 8 then cat - 8 else cat;
    var c2 := if c1 >= 4 then c1 - 4 else c1;
    var c3 := if c2 >= 2 then c2 - 2 else c2;
    (if c2 >= 2 then "F" else "", if c3 >= 1 then "M" else "")
  }

  /** The corrected `build_fhir_age`. */
  function Age(cat: int): (a: (string, string))
    ensures a.0 in {"K", ""} && a.1 in {"A", ""}
    ensures ValidCategory(cat) ==> a.0 == (if cat >= 8 then "K" else "") && a.1 == (if cat % 8 >= 4 then "A" else "")
  {
    var c1 := if cat >= 8 then cat - 8 else cat;
    (if cat >= 8 then "K" else "", if c1 >= 4 then "A" else "")
  }

  /** Every category the mask can express survives the corrected encoding and the decoding. */
  lemma PatCatRoundTrip(cat: int)
    requires ValidCategory(cat)
    ensures PatCatOf(Letters(Gender(cat), Age(cat))) == cat
  {
    var l := Letters(Gender(cat), Age(cat));
    assert "K" in l <==> cat >= 8;
    assert "A" in l <==> cat % 8 >= 4;
    assert "F" in l <==> cat % 4 >= 2;
    assert "M" in l <==> cat % 2 == 1;
  }

  // ---------------------------------------------------------------- to FHIR

  /** `build_fhir_identifiers`: the uuid identifier, when there is a uuid, then the code, typed with the uuid type code. */
  function Identifiers(s: Service, system: string, uuidTypeCode: string): (ids: seq<Identifier>)
    ensures |ids| == if s.uuid.Some? then 2 else 1
    ensures ids[|ids| - 1].value == s.code && HasTypeCode(ids[|ids| - 1], uuidTypeCode)
    ensures s.uuid.Some? ==> ids[0].value == s.uuid && HasTypeCode(ids[0], uuidTypeCode)
  {
    (if s.uuid.Some? then [BuildIdentifier(s.uuid.value, system, uuidTypeCode)] else [])
    + [BuildIdentifier("", system, uuidTypeCode).(value := s.code)]
  }

  /**
   * `build_fhir_use_context`: exactly four entries, in the order gender, age, workflow, venue,
   * the first two spelling the patient category (corrected encoding).
   */
  function UseContext(s: Service): (r: Result<seq<Context>, FhirError>)
    ensures r.Success? <==> s.patientCategory.Some?
    ensures r.Success? ==> (|r.value| == 4
      && r.value[0].code == GenderContext && r.value[1].code == AgeContext
      && r.value[2] == Context(WorkflowContext, Plain(s.category)) && r.value[3] == Context(VenueContext, Plain(s.careType)))
  {
    match s.patientCategory
    case None => Failure(TypeError(NoneComparison))
    case Some(cat) =>
        var g := Gender(cat);
        var a := Age(cat);
        Success([Context(GenderContext, Pair(g.0, g.1)), Context(AgeContext, Pair(a.0, a.1)),
                 Context(WorkflowContext, Plain(s.category)), Context(VenueContext, Plain(s.careType))])
  }

  /**
   * `to_fhir_obj`: id, identifiers, status "active", date, name (the code), title (the name),
   * use context, topic `[type]` and the unit-price extension. A missing validity date or
   * patient category raises.
   */
  function Encoded(s: Service, system: string, uuidTypeCode: string): (r: Result<ActivityDefinition, FhirError>)
    ensures r.Success? ==> (r.value.status == Some(ActiveStatus) && r.value.topic == [s.ty]
      && r.value.name == s.code && r.value.title == s.name && r.value.extension == [s.price])
    ensures s.validityFrom.None? ==> r == Failure(AttributeError("isoformat"))
  {
    if s.validityFrom.None? then Failure(AttributeError("isoformat"))
    else match UseContext(s)
      case Failure(e) => Failure(e)
      case Success(ctx) =>
        Success(ActivityDefinition(s.uuid, Identifiers(s, system, uuidTypeCode), Some(ActiveStatus), s.validityFrom,
          s.code, s.name, ctx, [s.ty], [s.price]))
  }

  /**
   * `build_fhir_code` (not called by `to_fhir_obj`): a concept whose coding is the service
   * code and whose text is its name.
   */
  function EncodedCode(s: Service): (c: Concept)
    ensures FirstCoding(c) == Some(Coding(None, s.code, None)) && c.text == s.name
    ensures s.code.Some? ==> c == BuildCodeableConcept(s.code.value, None, s.name)
  {
    Concept(Some([Coding(None, s.code, None)]), s.name, None, None)
  }

  // ---------------------------------------------------------------- to IMIS

  /**
   * `build_imis_identifier`: the value of the first identifier typed with the uuid type code
   * becomes the code when it is a non-empty string; a code still missing is reported.
   */
  function IdentifierDecoded(s: Service, ad: ActivityDefinition, errors: seq<string>, uuidTypeCode: string): (r: (Service, seq<string>))
    ensures r.0 == s.(code := r.0.code)
    ensures r.0.code == if NonEmpty(IdentifierByCode(ad.identifier, uuidTypeCode)) then IdentifierByCode(ad.identifier, uuidTypeCode) else s.code
    ensures r.1 == errors + (if r.0.code.None? then [MissingServiceCode] else [])
  {
    var value := IdentifierByCode(ad.identifier, uuidTypeCode);
    var s' := if NonEmpty(value) then s.(code := value) else s;
    (s', ValidCondition(s'.code.None?, MissingServiceCode, errors).1)
  }

  /**
   * A field read with `valid_condition(value is None, message, errors)`: a missing value is
   * reported, a present one is returned for the caller to store.
   */
  function Required(value: Option<string>, message: string, errors: seq<string>): (r: (Option<string>, seq<string>))
    ensures r.0 == value
    ensures r.1 == errors + (if value.None? then [message] else [])
  {
    (value, ValidCondition(value.None?, message, errors).1)
  }

  /**
   * The stages of `to_imis_obj` that read plain fields: validity date, code (the name), name
   * (the title) and the topic list, which is never `None` and lands in the `topic` attribute.
   */
  function FieldsDecoded(s: Service, ad: ActivityDefinition, errors: seq<string>): (r: (Service, seq<string>))
    ensures r.0.validityFrom == (if ad.date.Some? then ad.date else s.validityFrom)
    ensures r.0.code == (if ad.name.Some? then ad.name else s.code)
    ensures r.0.name == (if ad.title.Some? then ad.title else s.name)
    ensures r.0 == s.(validityFrom := r.0.validityFrom, code := r.0.code, name := r.0.name, topic := Some(ad.topic))
    ensures r.1 == errors + (if ad.date.None? then [MissingValidityFrom] else [])
      + (if ad.name.None? then [MissingServCode] else []) + (if ad.title.None? then [MissingServName] else [])
  {
    var (date, e1) := Required(ad.date, MissingValidityFrom, errors);
    var (code, e2) := Required(ad.name, MissingServCode, e1);
    var (name, e3) := Required(ad.title, MissingServName, e2);
    var (_, e4) := ValidCondition(false, MissingServType, e3);
    (s.(validityFrom := if date.Some? then date else s.validityFrom,
        code := if code.Some? then code else s.code,
        name := if name.Some? then name else s.name,
        topic := Some(ad.topic)), e4)
  }

  /**
   * `build_imis_serv_pat_cat` as written: reading `code` on the use-context list raises
   * `AttributeError`, whatever the list holds.
   */
  function PatCatDecodedAsWritten(s: Service, ad: ActivityDefinition): (r: Result<Service, FhirError>)
    ensures r == Failure(AttributeError("code"))
  {
    Failure(AttributeError("code"))
  }

  /** Whether a use-context entry carries the given code. */
  function HasCode(code: string): Context -> bool {
    (c: Context) => c.code == code
  }

  /** The first use-context entry with the given code. */
  function ContextByCode(ctx: seq<Context>, code: string): (r: Option<Context>)
    ensures r.Some? ==> r.value.code == code && r.value in ctx
    ensures r.None? ==> forall i :: 0 <= i < |ctx| ==> ctx[i].code != code
  {
    First(ctx, HasCode(code))
  }

  /** The letters of a gender or age entry. */
  function PairLetters(c: Option<Context>): seq<string> {
    match c
    case Some(Context(_, Pair(a, b))) => [a, b]
    case _ => []
  }

  /** The plain text of a workflow or venue entry. */
  function PlainText(c: Option<Context>): Option<string> {
    match c
    case Some(Context(_, Plain(t))) => t
    case _ => None
  }

  /**
   * The corrected decoding of the use context: the patient category from the letters of the
   * "gender" and "age" entries, the category from the "workflow" entry's text and the care type
   * from the "venue" entry's text, each missing text reported.
   */
  function UseContextDecoded(s: Service, ad: ActivityDefinition, errors: seq<string>): (r: (Service, seq<string>))
    ensures r.0.patientCategory.Some? && ValidCategory(r.0.patientCategory.value)
    ensures r.0 == s.(patientCategory := r.0.patientCategory, category := r.0.category, careType := r.0.careType)
    ensures r.1 == errors + (if PlainText(ContextByCode(ad.useContext, WorkflowContext)).None? then [MissingServCategory] else [])
      + (if PlainText(ContextByCode(ad.useContext, VenueContext)).None? then [MissingServCareType] else [])
  {
    var letters := PairLetters(ContextByCode(ad.useContext, GenderContext)) + PairLetters(ContextByCode(ad.useContext, AgeContext));
    var s1 := s.(patientCategory := Some(PatCatOf(letters)));
    var (category, e1) := Required(PlainText(ContextByCode(ad.useContext, WorkflowContext)), MissingServCategory, errors);
    var s2 := if category.Some? then s1.(category := category) else s1;
    var (careType, e2) := Required(PlainText(ContextByCode(ad.useContext, VenueContext)), MissingServCareType, e1);
    (if careType.Some? then s2.(careType := careType) else s2, e2)
  }

  /** The corrected `to_imis_obj` before `check_errors`. */
  function Decoded(ad: ActivityDefinition, uuidTypeCode: string): (r: (Service, seq<string>)) {
    var s1 := IdentifierDecoded(NewService, ad, [], uuidTypeCode);
    var s2 := FieldsDecoded(s1.0, ad, s1.1);
    UseContextDecoded(s2.0, ad, s2.1)
  }

  /** `to_imis_obj` as written, before `check_errors`: the stages run until the patient category raises. */
  function DecodedAsWritten(ad: ActivityDefinition, uuidTypeCode: string): (r: Result<(Service, seq<string>), FhirError>) {
    var s1 := IdentifierDecoded(NewService, ad, [], uuidTypeCode);
    var s2 := FieldsDecoded(s1.0, ad, s1.1);
    match PatCatDecodedAsWritten(s2.0, ad)
    case Failure(e) => Failure(e)
    case Success(s3) => Success((s3, s2.1))
  }

  /** `to_imis_obj` as written never returns a service. */
  lemma ToImisAsWrittenAlwaysFails(ad: ActivityDefinition, uuidTypeCode: string)
    ensures DecodedAsWritten(ad, uuidTypeCode) == Failure(AttributeError("code"))
  {
  }

  /** The corrected `to_imis_obj`: every builder, then `check_errors`. */
  method ToImis(ad: ActivityDefinition, uuidTypeCode: string) returns (r: Result<Service, FhirError>)
    ensures r == CheckErrors(Decoded(ad, uuidTypeCode).0, Decoded(ad, uuidTypeCode).1)
    ensures r.Success? ==> r.value.patientCategory.Some? && ValidCategory(r.value.patientCategory.value)
  {
    var s1 := IdentifierDecoded(NewService, ad, [], uuidTypeCode);
    var s2 := FieldsDecoded(s1.0, ad, s1.1);
    var s3 := UseContextDecoded(s2.0, ad, s2.1);
    r := CheckErrors(s3.0, s3.1);
  }

  /** An ActivityDefinition with nothing in it reports, in order, every missing field. */
  lemma EmptyReportsAll(uuidTypeCode: string)
    ensures Decoded(EmptyActivityDefinition, uuidTypeCode).1 ==
      [MissingServiceCode, MissingValidityFrom, MissingServCode, MissingServName, MissingServCategory, MissingServCareType]
  {
    assert [] + [MissingServiceCode] + [MissingValidityFrom] + [MissingServCode] + [MissingServName]
      + [MissingServCategory] + [MissingServCareType]
      == [MissingServiceCode, MissingValidityFrom, MissingServCode, MissingServName, MissingServCategory, MissingServCareType];
  }

  /**
   * Encoding a service and decoding the result with the corrected converter gives back its
   * code, name, validity date, patient category, category and care type, and its type as the
   * one-element `topic`, with no error. The code is first taken from the uuid identifier and
   * then overwritten by the name.
   */
  lemma ActivityDefinitionRoundTrip(s: Service, system: string, uuidTypeCode: string)
    requires NonEmpty(s.uuid) && s.code.Some? && s.name.Some? && s.validityFrom.Some?
    requires s.patientCategory.Some? && ValidCategory(s.patientCategory.value)
    requires s.category.Some? && s.careType.Some?
    ensures Encoded(s, system, uuidTypeCode).Success?
    ensures Decoded(Encoded(s, system, uuidTypeCode).value, uuidTypeCode) ==
      (NewService.(code := s.code, name := s.name, validityFrom := s.validityFrom, patientCategory := s.patientCategory,
        category := s.category, careType := s.careType, topic := Some([s.ty])), [])
  {
    var ad := Encoded(s, system, uuidTypeCode).value;
    IdentifierByCodeFirst(ad.identifier, uuidTypeCode, 0);
    var s1 := NewService.(code := s.uuid);
    assert IdentifierDecoded(NewService, ad, [], uuidTypeCode) == (s1, []);
    var s2 := s1.(code := s.code, name := s.name, validityFrom := s.validityFrom, topic := Some([s.ty]));
    assert FieldsDecoded(s1, ad, []) == (s2, []);
    ContextRoundTrip(s2, s, ad);
  }

  /** The use-context stage of the round trip: the category mask and the two texts come back. */
  lemma ContextRoundTrip(x: Service, s: Service, ad: ActivityDefinition)
    requires s.patientCategory.Some? && ValidCategory(s.patientCategory.value)
    requires s.category.Some? && s.careType.Some?
    requires UseContext(s).Success? && ad.useContext == UseContext(s).value
    ensures UseContextDecoded(x, ad, []) ==
      (x.(patientCategory := s.patientCategory, category := s.category, careType := s.careType), [])
  {
    var cat := s.patientCategory.value;
    PatCatRoundTrip(cat);
    var ctx := ad.useContext;
    EncodedContextLookups(s);
    var g, a := Gender(cat), Age(cat);
    assert PairLetters(ContextByCode(ctx, GenderContext)) + PairLetters(ContextByCode(ctx, AgeContext)) == Letters(g, a);
  }

  /** In an encoded use context, each of the four codes finds the entry the encoder wrote for it. */
  lemma EncodedContextLookups(s: Service)
    requires s.patientCategory.Some?
    ensures UseContext(s).Success?
    ensures var ctx := UseContext(s).value;
      var g, a := Gender(s.patientCategory.value), Age(s.patientCategory.value);
      PairLetters(ContextByCode(ctx, GenderContext)) == [g.0, g.1]
      && PairLetters(ContextByCode(ctx, AgeContext)) == [a.0, a.1]
      && PlainText(ContextByCode(ctx, WorkflowContext)) == s.category
      && PlainText(ContextByCode(ctx, VenueContext)) == s.careType
  {
    var ctx := UseContext(s).value;
    FirstAt(ctx, HasCode(GenderContext), 0);
    FirstAt(ctx, HasCode(AgeContext), 1);
    FirstAt(ctx, HasCode(WorkflowContext), 2);
    FirstAt(ctx, HasCode(VenueContext), 3);
  }
}
