/**
 * The R4 `MedicationConverter`: a medical item as a FHIR Medication. The item's package text
 * ("<amount> <form> ...") gives the Medication's amount and form; decoding reads back only the
 * item code, from the identifiers.
 */
module MedicationConverter {
  import opened Wrappers
  import opened Strings
  import opened Exceptions
  import opened FhirTypes
  import opened BaseConverter

  const MissingItemCode := "Missing the item code"
  const PackageIndexError := "list index out of range"

  /** The part of an item the converter reads or writes. */
  datatype Item = Item(uuid: Option<string>, code: Option<string>, package: Option<string>)

  /** `Item()`: nothing set. */
  const NewItem := Item(None, None, None)

  /** The Medication as the builders fill it in; the unit price is not part of this model. */
  datatype Medication = Medication(id: Option<string>, identifier: seq<Identifier>, form: Option<string>, amount: Option<int>)

  const EmptyMedication := Medication(None, [], None, None)

  // ---------------------------------------------------------------- package text

  /** `int(s)`: the value, or the `ValueError` Python raises. */
  function IntOf(s: string): (r: Result<int, FhirError>)
    ensures r.Success? <==> ParseInt(s).Some?
    ensures r.Success? ==> r.value == ParseInt(s).value
    ensures r.Failure? ==> r.error.ValueError?
  {
    match ParseInt(s)
    case Some(n) => Success(n)
    case None => Failure(ValueError("invalid literal for int() with base 10: '" + s + "'"))
  }

  /**
   * `split_package_form`: the second space-separated token of the package text; text with
   * no space has no second token and raises `IndexError`, and a missing text has no `split`.
   */
  function SplitPackageForm(package: Option<string>): (r: Result<string, FhirError>)
    ensures package.None? ==> r == Failure(AttributeError("split"))
    ensures package.Some? && |Split(package.value, ' ')| < 2 ==> r == Failure(IndexError(PackageIndexError))
    ensures r.Success? ==> package.Some? && r.value == Split(package.value, ' ')[1] && ' ' !in r.value
  {
    match package
    case None => Failure(AttributeError("split"))
    case Some(text) =>
      var tokens := Split(text, ' ');
      if |tokens| < 2 then Failure(IndexError(PackageIndexError)) else Success(tokens[1])
  }

  /** `split_package_amount`: the integer value of the first space-separated token. */
  function SplitPackageAmount(package: Option<string>): (r: Result<int, FhirError>)
    ensures package.None? ==> r == Failure(AttributeError("split"))
    ensures package.Some? ==> r == IntOf(Split(package.value, ' ')[0])
  {
    match package
    case None => Failure(AttributeError("split"))
    case Some(text) => IntOf(Split(text, ' ')[0])
  }

  /** The form is found exactly when the package text holds a space. */
  lemma PackageFormNeedsSpace(text: string)
    ensures SplitPackageForm(Some(text)).Success? <==> ' ' in text
  {
    var tokens := Split(text, ' ');
    if ' ' !in text {
      SplitNone(text, ' ');
    }
  }

  /** `int(str(i)) == i` */
  lemma IntOfIntToString(i: int)
    ensures IntOf(IntToString(i)) == Success(i)
  {
    ParseIntOfIntToString(i);
  }

  /** A package text whose tokens are known: the form is the second token, the amount the first read as a number. */
  lemma PackageOfTokens(text: string, tokens: seq<string>)
    requires Split(text, ' ') == tokens && |tokens| >= 2
    ensures SplitPackageForm(Some(text)) == Success(tokens[1])
    ensures SplitPackageAmount(Some(text)) == IntOf(tokens[0])
  {
  }

  /** The words of a package text written out by an amount, a form and further words hold no space. */
  lemma WordsNoSpace(amount: int, form: string, more: seq<string>)
    requires ' ' !in form && forall i :: 0 <= i < |more| ==> ' ' !in more[i]
    ensures var parts := [IntToString(amount), form] + more;
      forall i :: 0 <= i < |parts| ==> ' ' !in parts[i]
  {
    var parts := [IntToString(amount), form] + more;
    IntToStringNoSpace(amount);
    forall i | 0 <= i < |parts|
      ensures ' ' !in parts[i]
    {
      if i >= 2 {
        assert parts[i] == more[i - 2];
      }
    }
  }

  /**
   * A package text written as an amount, a form and any further words, separated by single
   * spaces, gives back that amount and that form.
   */
  lemma PackageRoundTrip(amount: int, form: string, more: seq<string>)
    requires ' ' !in form && forall i :: 0 <= i < |more| ==> ' ' !in more[i]
    ensures SplitPackageAmount(Some(Join([IntToString(amount), form] + more, " "))) == Success(amount)
    ensures SplitPackageForm(Some(Join([IntToString(amount), form] + more, " "))) == Success(form)
  {
    var parts := [IntToString(amount), form] + more;
    WordsNoSpace(amount, form, more);
    SplitJoin(parts, ' ');
    PackageOfTokens(Join(parts, " "), parts);
    IntOfIntToString(amount);
  }

  // ---------------------------------------------------------------- to FHIR

  /** `build_fhir_identifiers`: the uuid identifier, when there is a uuid, then the code, both typed with the uuid type code. */
  function Identifiers(item: Item, system: string, uuidTypeCode: string): (ids: seq<Identifier>)
    ensures |ids| == if item.uuid.Some? then 2 else 1
    ensures ids[|ids| - 1].value == item.code && HasTypeCode(ids[|ids| - 1], uuidTypeCode)
    ensures item.uuid.Some? ==> ids[0].value == item.uuid && HasTypeCode(ids[0], uuidTypeCode)
  {
    (if item.uuid.Some? then [BuildIdentifier(item.uuid.value, system, uuidTypeCode)] else [])
    + [BuildIdentifier("", system, uuidTypeCode).(value := item.code)]
  }

  /**
   * The Medication `to_fhir_obj` fills in: the key, the identifiers, the form and the amount;
   * the first builder that raises decides the error.
   */
  function Encoded(item: Item, system: string, uuidTypeCode: string): (r: Result<Medication, FhirError>)
    ensures r.Success? <==> SplitPackageForm(item.package).Success? && SplitPackageAmount(item.package).Success?
    ensures r.Failure? && SplitPackageForm(item.package).Failure? ==> r.error == SplitPackageForm(item.package).error
    ensures r.Success? ==> (r.value.id == item.uuid && r.value.identifier == Identifiers(item, system, uuidTypeCode)
      && r.value.form == Some(SplitPackageForm(item.package).value) && r.value.amount == Some(SplitPackageAmount(item.package).value))
  {
    match SplitPackageForm(item.package)
    case Failure(e) => Failure(e)
    case Success(form) =>
      match SplitPackageAmount(item.package)
      case Failure(e) => Failure(e)
      case Success(amount) => Success(Medication(item.uuid, Identifiers(item, system, uuidTypeCode), Some(form), Some(amount)))
  }

  /**
   * `to_fhir_obj` as written: the builders run, but the Medication is never returned, so a
   * call that does not raise gives `None`.
   */
  function ToFhirAsWritten(item: Item, system: string, uuidTypeCode: string): (r: Result<Option<Medication>, FhirError>)
    ensures r.Failure? <==> Encoded(item, system, uuidTypeCode).Failure?
    ensures r.Success? ==> r.value.None?
  {
    match Encoded(item, system, uuidTypeCode)
    case Failure(e) => Failure(e)
    case Success(_) => Success(None)
  }

  /**
   * An item whose package reads "<amount> <form>" is converted to nothing at all by the code
   * as written.
   */
  lemma ToFhirAsWrittenLosesMedication(uuid: Option<string>, code: Option<string>, amount: int, form: string, system: string, uuidTypeCode: string)
    requires ' ' !in form
    ensures ToFhirAsWritten(Item(uuid, code, Some(Join([IntToString(amount), form], " "))), system, uuidTypeCode) == Success(None)
  {
    PackageRoundTrip(amount, form, []);
    assert [IntToString(amount), form] + [] == [IntToString(amount), form];
  }

  /**
   * With the corrected `to_fhir_obj`, an item whose package reads "<amount> <form> ..." gives a
   * Medication keyed by the item's uuid, with that form and that amount.
   */
  lemma EncodedPackage(item: Item, amount: int, form: string, more: seq<string>, system: string, uuidTypeCode: string)
    requires ' ' !in form && forall i :: 0 <= i < |more| ==> ' ' !in more[i]
    requires item.package == Some(Join([IntToString(amount), form] + more, " "))
    ensures Encoded(item, system, uuidTypeCode) ==
      Success(Medication(item.uuid, Identifiers(item, system, uuidTypeCode), Some(form), Some(amount)))
  {
    PackageRoundTrip(amount, form, more);
  }

  /** The corrected `to_fhir_obj`: each builder sets its field on the Medication, which is returned. */
  method ToFhir(item: Item, system: string, uuidTypeCode: string) returns (r: Result<Medication, FhirError>)
    ensures r == Encoded(item, system, uuidTypeCode)
  {
    var m := EmptyMedication.(id := item.uuid);
    m := m.(identifier := Identifiers(item, system, uuidTypeCode));
    var form := SplitPackageForm(item.package);
    if form.Failure? {
      return Failure(form.error);
    }
    m := m.(form := Some(form.value));
    var amount := SplitPackageAmount(item.package);
    if amount.Failure? {
      return Failure(amount.error);
    }
    m := m.(amount := Some(amount.value));
    return Success(m);
  }

  // ---------------------------------------------------------------- to IMIS

  /**
   * `build_imis_identifier`: the value of the first identifier typed with the uuid type code
   * becomes the item code when it is a non-empty string; a code still missing is reported.
   */
  function IdentifierDecoded(item: Item, m: Medication, errors: seq<string>, uuidTypeCode: string): (r: (Item, seq<string>))
    ensures r.0 == item.(code := r.0.code)
    ensures r.0.code == if NonEmpty(IdentifierByCode(m.identifier, uuidTypeCode)) then IdentifierByCode(m.identifier, uuidTypeCode) else item.code
    ensures r.1 == errors + (if r.0.code.None? then [MissingItemCode] else [])
  {
    var value := IdentifierByCode(m.identifier, uuidTypeCode);
    var item' := if NonEmpty(value) then item.(code := value) else item;
    (item', ValidCondition(item'.code.None?, MissingItemCode, errors).1)
  }

  /** `to_imis_obj`: a new item with its code read from the identifiers, then `check_errors`. */
  method ToImis(m: Medication, uuidTypeCode: string) returns (r: Result<Item, FhirError>)
    ensures r.Success? <==> NonEmpty(IdentifierByCode(m.identifier, uuidTypeCode))
    ensures r.Success? ==> r.value == NewItem.(code := IdentifierByCode(m.identifier, uuidTypeCode))
    ensures r.Failure? ==> r.error == FhirRequestProcessException([MissingItemCode])
  {
    var errors := [];
    var item := NewItem;
    var decoded := IdentifierDecoded(item, m, errors, uuidTypeCode);
    r := CheckErrors(decoded.0, decoded.1);
  }

  /**
   * Decoding an encoded item: both identifiers carry the uuid type code, so the item code read
   * back is the uuid when the item has one, and the code otherwise; an empty or missing value
   * is reported as a missing code.
   */
  lemma MedicationRoundTrip(item: Item, system: string, uuidTypeCode: string)
    requires Encoded(item, system, uuidTypeCode).Success?
    ensures var key := if item.uuid.Some? then item.uuid else item.code;
      IdentifierDecoded(NewItem, Encoded(item, system, uuidTypeCode).value, [], uuidTypeCode)
      == if NonEmpty(key) then (NewItem.(code := key), []) else (NewItem, [MissingItemCode])
  {
    var ids := Encoded(item, system, uuidTypeCode).value.identifier;
    IdentifierByCodeFirst(ids, uuidTypeCode, 0);
    assert IdentifierByCode(ids, uuidTypeCode) == if item.uuid.Some? then item.uuid else item.code;
    assert [] + [MissingItemCode] == [MissingItemCode];
  }
}
