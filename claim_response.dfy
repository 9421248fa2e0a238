/**
 * `ClaimResponseConverter`, STU3 and R4: the response the API returns for a claim. Both
 * versions report the claim's status as the response's `outcome`; the R4 version also reports
 * the rejection reason, the totals of the claim, and checks the category of every claim item.
 */
module ClaimResponseConverter {
  import opened Wrappers
  import opened Strings
  import opened Exceptions
  import opened FhirTypes
  import opened BaseConverter

  /** The five configured display strings of a claim status (`get_fhir_claim_status_*_code`). */
  datatype StatusNames = StatusNames(rejected: string, entered: string, checked: string, processed: string, valuated: string) {
    predicate Distinct() {
      rejected != entered && rejected != checked && rejected != processed && rejected != valuated
      && entered != checked && entered != processed && entered != valuated
      && checked != processed && checked != valuated
      && processed != valuated
    }
  }

  /** The claim statuses that have a display: rejected, entered, checked, processed, valuated. */
  predicate KnownStatus(status: int) {
    status == 1 || status == 2 || status == 4 || status == 8 || status == 16
  }

  /**
   * R4 `get_status_display_by_code`, also written inline in the STU3 `build_fhir_outcome`:
   * the configured display of a known status, `None` for any other.
   */
  function StatusDisplay(status: int, names: StatusNames): (r: Option<string>)
    ensures r.Some? <==> KnownStatus(status)
    ensures r.Some? ==> r.value in {names.rejected, names.entered, names.checked, names.processed, names.valuated}
  {
    if status == 1 then Some(names.rejected)
    else if status == 2 then Some(names.entered)
    else if status == 4 then Some(names.checked)
    else if status == 8 then Some(names.processed)
    else if status == 16 then Some(names.valuated)
    else None
  }

  /** The status a display names, the inverse table of `StatusDisplay`. */
  function StatusOfDisplay(display: string, names: StatusNames): (r: Option<int>)
    ensures r.Some? ==> KnownStatus(r.value)
  {
    if display == names.rejected then Some(1)
    else if display == names.entered then Some(2)
    else if display == names.checked then Some(4)
    else if display == names.processed then Some(8)
    else if display == names.valuated then Some(16)
    else None
  }

  /** With distinct configured names the display of a status identifies it, and every name is some status's display. */
  lemma StatusDisplayInverse(status: int, display: string, names: StatusNames)
    requires names.Distinct()
    ensures KnownStatus(status) ==> StatusOfDisplay(StatusDisplay(status, names).value, names) == Some(status)
    ensures StatusOfDisplay(display, names).Some? ==> StatusDisplay(StatusOfDisplay(display, names).value, names) == Some(display)
  {
  }

  /** The status an outcome reports: its first coding's code read back as an integer. */
  function OutcomeStatus(outcome: Option<Concept>): (r: Option<int>)
    ensures outcome.None? ==> r.None?
  {
    match outcome
    case None => None
    case Some(c) =>
      match FirstCoding(c)
      case Some(Coding(_, Some(code), _)) => ParseInt(code)
      case _ => None
  }

  /** The outcome of a claim with the given status, as both versions build it. */
  function Outcome(status: int, names: StatusNames): (c: Concept)
    ensures OutcomeStatus(Some(c)) == Some(status)
    ensures c.text == StatusDisplay(status, names)
  {
    ParseIntOfIntToString(status);
    BuildCodeableConcept(IntToString(status), None, StatusDisplay(status, names))
  }

  // ---------------------------------------------------------------- STU3

  /** The fields of a claim the STU3 response reads. */
  datatype Stu3Claim = Stu3Claim(code: string, status: Option<int>)

  datatype Stu3ClaimResponse = Stu3ClaimResponse(id: Option<string>, created: Option<string>, outcome: Option<Concept>)

  /**
   * STU3 `build_fhir_outcome`: no outcome for a claim without a status; otherwise an outcome
   * whose code is the status and whose text is the status's display (`None` for an unknown one).
   */
  method BuildFhirOutcomeStu3(status: Option<int>, names: StatusNames) returns (outcome: Option<Concept>)
    ensures outcome.Some? <==> status.Some?
    ensures OutcomeStatus(outcome) == status
    ensures outcome.Some? ==> outcome.value.text == StatusDisplay(status.value, names)
  {
    outcome := None;
    if status.Some? {
      var code := status.value;
      var display: Option<string> := None;
      if code == 1 {
        display := Some(names.rejected);
      } else if code == 2 {
        display := Some(names.entered);
      } else if code == 4 {
        display := Some(names.checked);
      } else if code == 8 {
        display := Some(names.processed);
      } else if code == 16 {
        display := Some(names.valuated);
      }
      ParseIntOfIntToString(code);
      outcome := Some(BuildCodeableConcept(IntToString(code), None, display));
    }
  }

  /**
   * STU3 `to_fhir_obj`: the response's id is the claim code, `created` the current time (a
   * parameter here), and the outcome reports the claim's status.
   */
  method ToFhirStu3(claim: Stu3Claim, now: string, names: StatusNames) returns (r: Stu3ClaimResponse)
    ensures r.id == Some(claim.code) && r.created == Some(now)
    ensures OutcomeStatus(r.outcome) == claim.status
    ensures claim.status.Some? ==> r.outcome.Some? && r.outcome.value.text == StatusDisplay(claim.status.value, names)
  {
    r := Stu3ClaimResponse(Some(claim.code), Some(now), None);
    var outcome := BuildFhirOutcomeStu3(claim.status, names);
    r := r.(outcome := outcome);
  }

  /** With distinct status names, a known status can be recovered from the STU3 outcome's text alone. */
  lemma Stu3OutcomeTextNamesStatus(status: int, names: StatusNames)
    requires names.Distinct() && KnownStatus(status)
    ensures Outcome(status, names).text.Some?
    ensures StatusOfDisplay(Outcome(status, names).text.value, names) == Some(status)
  {
    StatusDisplayInverse(status, "", names);
  }

  // ---------------------------------------------------------------- R4

  /** The configured codes the R4 response uses (`R4ClaimConfig`) and the installation's currency. */
  datatype R4Codes = R4Codes(
    names: StatusNames, itemCode: string, serviceCode: string,
    passedCode: string, rejectedCode: string, currency: string)

  /** A claim item as `ClaimConverter.build_fhir_items` emits it; `display` is the item's `str()`. */
  datatype ClaimItem = ClaimItem(category: Option<string>, productOrService: Option<string>, display: string)

  /**
   * The fields of a claim the R4 response reads. The identifiers of the claim, and the
   * references to the claim, its insuree and the communication request, are built by
   * converters that are not part of this model and are given here as built.
   */
  datatype R4Claim = R4Claim(
    uuid: string, identifiers: seq<Identifier>, status: Option<int>, rejectionReason: int,
    valuated: Option<int>, reinsured: Option<int>, approved: Option<int>, claimed: Option<int>,
    items: seq<ClaimItem>,
    request: Reference, patient: Reference, communicationRequest: Reference)

  /** A `ClaimResponseTotal`: an adjudication category and an amount. */
  datatype Total = Total(category: Option<Concept>, amount: Money)

  datatype ProcessNote = ProcessNote(number: int, text: string)

  datatype R4ClaimResponse = R4ClaimResponse(
    id: Option<string>, identifier: seq<Identifier>, created: Option<string>, request: Option<Reference>, outcome: Option<Concept>,
    error: seq<Concept>, patient: Option<Reference>, total: seq<Total>,
    communicationRequest: seq<Reference>, processNote: seq<ProcessNote>)

  const EmptyR4Response := R4ClaimResponse(None, [], None, None, None, [], None, [], [], [])

  /**
   * R4 `build_fhir_outcome`: as in STU3, but the code is `str(status)` and the display comes
   * from `get_status_display_by_code`.
   */
  method BuildFhirOutcomeR4(status: Option<int>, names: StatusNames) returns (outcome: Option<Concept>)
    ensures outcome.Some? <==> status.Some?
    ensures OutcomeStatus(outcome) == status
    ensures outcome.Some? ==> outcome.value.text == StatusDisplay(status.value, names)
  {
    outcome := None;
    if status.Some? {
      outcome := Some(Outcome(status.value, names));
    }
  }

  /** The rejection reason an `error` list reports: the code of its single entry read back as an integer, 0 for none. */
  function ErrorReason(error: seq<Concept>): (r: int)
    ensures error == [] ==> r == 0
  {
    if |error| == 1 then
      match FirstCoding(error[0])
      case Some(Coding(_, Some(code), _)) => ParseInt(code).UnwrapOr(0)
      case _ => 0
    else 0
  }

  /**
   * `build_fhir_errors`: a single error whose code is the rejection reason, only when the
   * reason is truthy (non-zero); otherwise the list stays empty.
   */
  method BuildFhirErrors(rejectionReason: int) returns (error: seq<Concept>)
    ensures |error| == (if rejectionReason != 0 then 1 else 0)
    ensures ErrorReason(error) == rejectionReason
  {
    error := [];
    if rejectionReason != 0 {
      ParseIntOfIntToString(rejectionReason);
      error := [BuildCodeableConcept(IntToString(rejectionReason), None, None)];
    }
  }

  /** A claim item whose category text is the configured item code or service code. */
  predicate KnownCategory(item: ClaimItem, codes: R4Codes) {
    item.category == Some(codes.itemCode) || item.category == Some(codes.serviceCode)
  }

  /** The text Python's `format` gives an optional string. */
  function Formatted(s: Option<string>): string {
    match s
    case Some(v) => v
    case None => "None"
  }

  /** The message `build_fhir_items` raises for an item of unknown category. */
  function CategoryMessage(item: ClaimItem): string {
    "Could not assign category " + Formatted(item.category) + " for claim_item: " + item.display
  }

  /**
   * `build_fhir_items`: every item must be of the item or the service category; the first
   * item that is neither raises `FHIRRequestProcessException`. (The lookups of the matching
   * database rows are done and their results discarded; they are not modelled.)
   */
  method CheckItemCategories(items: seq<ClaimItem>, codes: R4Codes) returns (r: Option<FhirError>)
    ensures r.None? <==> forall i :: 0 <= i < |items| ==> KnownCategory(items[i], codes)
    ensures r.Some? ==> exists i :: (0 <= i < |items| && !KnownCategory(items[i], codes)
      && r.value == FhirRequestProcessException([CategoryMessage(items[i])])
      && forall j :: 0 <= j < i ==> KnownCategory(items[j], codes))
  {
    var i := 0;
    while i < |items|
      invariant 0 <= i <= |items|
      invariant forall j :: 0 <= j < i ==> KnownCategory(items[j], codes)
    {
      var item := items[i];
      if item.category == Some(codes.itemCode) {
        // the matching claim item row is looked up here
      } else if item.category == Some(codes.serviceCode) {
        // the matching claim service row is looked up here
      } else {
        return Some(FhirRequestProcessException([CategoryMessage(item)]));
      }
      i := i + 1;
    }
    return None;
  }

  // ----- totals

  const AdjudicationSystem := "http://terminology.hl7.org/CodeSystem/adjudication.html"

  /** A total whose amount is present. */
  predicate HasAmount(t: Total) {
    t.amount.value.Some?
  }

  /**
   * `build_fhir_total_valuated`, `_reinsured`, `_approved`, `_claimed`: an empty total when the
   * claim has no such amount, otherwise the amount in the installation's currency under the
   * adjudication category of that name.
   */
  function BuildTotal(category: string, value: Option<int>, currency: string): (t: Total)
    ensures t.amount.value == value
    ensures HasAmount(t) <==> t.category.Some?
    ensures HasAmount(t) ==> (t.amount.currency == Some(currency)
      && FirstCoding(t.category.value) == Some(Coding(Some(AdjudicationSystem), Some(category), None)))
  {
    if value.Some? then
      Total(Some(BuildCodeableConcept(category, Some(AdjudicationSystem), None)), Money(value, Some(currency)))
    else
      Total(None, Money(None, None))
  }

  /** The four totals of a claim, in the order the response lists them. */
  function ClaimTotals(claim: R4Claim, currency: string): (ts: seq<Total>)
    ensures |ts| == 4
    ensures ts[0].amount.value == claim.valuated && ts[1].amount.value == claim.reinsured
    ensures ts[2].amount.value == claim.approved && ts[3].amount.value == claim.claimed
  {
    [BuildTotal("valuated", claim.valuated, currency), BuildTotal("reinsured", claim.reinsured, currency),
     BuildTotal("approved", claim.approved, currency), BuildTotal("claimed", claim.claimed, currency)]
  }

  /** The totals of `ts` that have an amount, in the order of `ts`. */
  function Present(ts: seq<Total>): (r: seq<Total>)
    ensures |r| <= |ts|
    ensures forall i :: 0 <= i < |r| ==> HasAmount(r[i])
  {
    if ts == [] then []
    else (if HasAmount(ts[0]) then [ts[0]] else []) + Present(ts[1..])
  }

  /** The totals kept are exactly those of `ts` that have an amount. */
  lemma {:induction false} PresentMembers(ts: seq<Total>)
    ensures forall t :: t in Present(ts) <==> t in ts && HasAmount(t)
  {
    if ts != [] {
      PresentMembers(ts[1..]);
      assert ts == [ts[0]] + ts[1..];
    }
  }

  /** Each total with an amount is kept and each total without one is dropped, keeping the order. */
  lemma {:induction false} PresentCons(t: Total, ts: seq<Total>)
    ensures Present([t] + ts) == if HasAmount(t) then [t] + Present(ts) else Present(ts)
  {
    assert ([t] + ts)[1..] == ts;
  }

  /**
   * `build_fhir_total` as written: a chain of thirteen presence patterns, each listing the
   * present totals, and an `else` that lists all four.
   */
  function TotalsAsWritten(v: Total, r: Total, a: Total, c: Total): seq<Total> {
    var (pv, pr, pa, pc) := (HasAmount(v), HasAmount(r), HasAmount(a), HasAmount(c));
    if pv && !pr && !pa && !pc then [v]
    else if !pv && pr && !pa && !pc then [r]
    else if !pv && !pr && pa && !pc then [a]
    else if !pv && !pr && !pa && pc then [c]
    else if pv && pr && !pa && !pc then [v, r]
    else if pv && !pr && pa && !pc then [v, a]
    else if pv && !pr && !pa && pc then [v, c]
    else if !pv && pr && pa && !pc then [r, a]
    else if !pv && pr && !pa && pc then [r, c]
    else if !pv && !pr && pa && pc then [a, c]
    else if pv && pr && pa && !pc then [v, r, a]
    else if pv && pr && !pa && pc then [v, r, c]
    else if !pv && pr && pa && pc then [r, a, c]
    else [v, r, a, c]
  }

  /** The present totals of four, spelled out through `PresentCons`. */
  lemma PresentFour(v: Total, r: Total, a: Total, c: Total)
    ensures Present([v, r, a, c]) ==
      (if HasAmount(v) then [v] else []) + ((if HasAmount(r) then [r] else [])
      + ((if HasAmount(a) then [a] else []) + (if HasAmount(c) then [c] else [])))
  {
    var pc := if HasAmount(c) then [c] else [];
    var pa := if HasAmount(a) then [a] else [];
    var pr := if HasAmount(r) then [r] else [];
    var pv := if HasAmount(v) then [v] else [];
    assert Present([c]) == pc by {
      assert [c][1..] == [];
    }
    assert Present([a, c]) == pa + pc by {
      assert [a, c] == [a] + [c];
      PresentCons(a, [c]);
    }
    assert Present([r, a, c]) == pr + (pa + pc) by {
      assert [r, a, c] == [r] + [a, c];
      PresentCons(r, [a, c]);
    }
    assert Present([v, r, a, c]) == pv + (pr + (pa + pc)) by {
      assert [v, r, a, c] == [v] + [r, a, c];
      PresentCons(v, [r, a, c]);
    }
  }

  /**
   * On fourteen of the sixteen presence patterns the chain lists exactly the present totals in
   * order; the two exceptions are "none present" and "valuated, approved and claimed present
   * without reinsured".
   */
  lemma TotalsAsWrittenAgrees(v: Total, r: Total, a: Total, c: Total)
    requires HasAmount(v) || HasAmount(r) || HasAmount(a) || HasAmount(c)
    requires !(HasAmount(v) && !HasAmount(r) && HasAmount(a) && HasAmount(c))
    ensures TotalsAsWritten(v, r, a, c) == Present([v, r, a, c])
  {
    PresentFour(v, r, a, c);
  }

  /**
   * The two patterns the chain misses: there the response lists all four totals, including
   * totals that have no amount and no category.
   */
  lemma TotalsAsWrittenKeepsEmpty(v: Total, r: Total, a: Total, c: Total)
    requires (!HasAmount(v) && !HasAmount(r) && !HasAmount(a) && !HasAmount(c))
      || (HasAmount(v) && !HasAmount(r) && HasAmount(a) && HasAmount(c))
    ensures TotalsAsWritten(v, r, a, c) == [v, r, a, c]
    ensures !HasAmount(TotalsAsWritten(v, r, a, c)[1])
    ensures TotalsAsWritten(v, r, a, c) != Present([v, r, a, c])
  {
    PresentFour(v, r, a, c);
  }

  /** A claim that has every amount but the reinsured one: the written chain emits an empty reinsured total. */
  lemma TotalsAsWrittenCounterexample(currency: string)
    ensures TotalsAsWritten(BuildTotal("valuated", Some(1), currency), BuildTotal("reinsured", None, currency),
      BuildTotal("approved", Some(1), currency), BuildTotal("claimed", Some(1), currency))[1] == Total(None, Money(None, None))
  {
  }

  /**
   * `build_fhir_total` as intended: the present totals, in the order valuated, reinsured,
   * approved, claimed.
   */
  method BuildFhirTotal(claim: R4Claim, currency: string) returns (total: seq<Total>)
    ensures total == Present(ClaimTotals(claim, currency))
  {
    var valuated := BuildTotal("valuated", claim.valuated, currency);
    var reinsured := BuildTotal("reinsured", claim.reinsured, currency);
    var approved := BuildTotal("approved", claim.approved, currency);
    var claimed := BuildTotal("claimed", claim.claimed, currency);
    total := [];
    if HasAmount(valuated) {
      total := total + [valuated];
    }
    if HasAmount(reinsured) {
      total := total + [reinsured];
    }
    if HasAmount(approved) {
      total := total + [approved];
    }
    if HasAmount(claimed) {
      total := total + [claimed];
    }
    PresentFour(valuated, reinsured, approved, claimed);
  }

  /**
   * What the response's totals say: one total per amount the claim has, each carrying that
   * amount, and none for an amount it lacks.
   */
  lemma TotalsReportAmounts(claim: R4Claim, currency: string)
    ensures |Present(ClaimTotals(claim, currency))| ==
      (if claim.valuated.Some? then 1 else 0) + (if claim.reinsured.Some? then 1 else 0)
      + (if claim.approved.Some? then 1 else 0) + (if claim.claimed.Some? then 1 else 0)
    ensures forall t :: t in Present(ClaimTotals(claim, currency)) ==>
      t.category.Some? && t.amount.currency == Some(currency)
    ensures claim.claimed.Some? ==> BuildTotal("claimed", claim.claimed, currency) in Present(ClaimTotals(claim, currency))
  {
    var ts := ClaimTotals(claim, currency);
    PresentFour(ts[0], ts[1], ts[2], ts[3]);
    assert ts == [ts[0], ts[1], ts[2], ts[3]];
  }

  // ----- items: process notes and adjudication (used by `build_fhir_item`)

  /**
   * `FhirUtils.get_next_array_sequential_id(notes)`: the number after the last one used. FhirUtils
   * is not part of this model; the next id is taken as one more than the list's length.
   */
  function NextSequentialId(notes: seq<ProcessNote>): int {
    |notes| + 1
  }

  /** Notes numbered 1, 2, 3, … in list order. */
  predicate NumberedInOrder(notes: seq<ProcessNote>) {
    forall i :: 0 <= i < |notes| ==> notes[i].number == i + 1
  }

  /**
   * `build_process_note`: for a truthy justification, append one note with the next number and
   * return it; otherwise append nothing and return `None`.
   */
  method BuildProcessNote(notes: seq<ProcessNote>, text: Option<string>)
    returns (notes': seq<ProcessNote>, note: Option<ProcessNote>)
    ensures !NonEmpty(text) ==> notes' == notes && note.None?
    ensures NonEmpty(text) ==> note == Some(ProcessNote(NextSequentialId(notes), text.value)) && notes' == notes + [note.value]
    ensures NumberedInOrder(notes) ==> NumberedInOrder(notes')
  {
    notes' := notes;
    note := None;
    if NonEmpty(text) {
      var n := ProcessNote(NextSequentialId(notes), text.value);
      notes' := notes + [n];
      note := Some(n);
    }
  }

  /**
   * `build_fhir_adjudication_reason`: a concept whose code is the item's status and whose text is
   * the configured "passed" code for status 1, the "rejected" code for status 2, and `None` otherwise.
   */
  function AdjudicationReason(status: int, codes: R4Codes): (c: Concept)
    ensures OutcomeStatus(Some(c)) == Some(status)
    ensures c.text.Some? <==> status == 1 || status == 2
    ensures c.text.Some? ==> c.text.value in {codes.passedCode, codes.rejectedCode}
  {
    ParseIntOfIntToString(status);
    var text := if status == 1 then Some(codes.passedCode) else if status == 2 then Some(codes.rejectedCode) else None;
    BuildCodeableConcept(IntToString(status), None, text)
  }

  /** With distinct configured codes, the reason's text tells a passed item from a rejected one. */
  lemma AdjudicationReasonText(status: int, codes: R4Codes)
    requires codes.passedCode != codes.rejectedCode
    ensures AdjudicationReason(status, codes).text == Some(codes.passedCode) <==> status == 1
    ensures AdjudicationReason(status, codes).text == Some(codes.rejectedCode) <==> status == 2
  {
  }

  /**
   * R4 `to_fhir_obj`: the creation date (a parameter here), the reference to the claim, the
   * claim's uuid as id, the outcome, the rejection error, the item check, the patient
   * reference, the totals and the communication request. An item of unknown category makes the
   * whole conversion fail. The identifiers are the claim's, as the R4 `ClaimConverter` builds
   * them; that converter is not part of this model.
   */
  method ToFhirR4(claim: R4Claim, today: string, codes: R4Codes) returns (r: Result<R4ClaimResponse, FhirError>)
    ensures r.Failure? <==> exists i :: 0 <= i < |claim.items| && !KnownCategory(claim.items[i], codes)
    ensures r.Failure? ==> exists i :: (0 <= i < |claim.items| && !KnownCategory(claim.items[i], codes)
      && r.error == FhirRequestProcessException([CategoryMessage(claim.items[i])])
      && forall j :: 0 <= j < i ==> KnownCategory(claim.items[j], codes))
    ensures r.Success? ==>
      && r.value.id == Some(claim.uuid) && r.value.identifier == claim.identifiers && r.value.created == Some(today)
      && r.value.request == Some(claim.request) && r.value.patient == Some(claim.patient)
      && OutcomeStatus(r.value.outcome) == claim.status
      && (claim.status.Some? ==> r.value.outcome.Some? && r.value.outcome.value.text == StatusDisplay(claim.status.value, codes.names))
      && ErrorReason(r.value.error) == claim.rejectionReason
      && r.value.total == Present(ClaimTotals(claim, codes.currency))
      && r.value.communicationRequest == [claim.communicationRequest]
      && r.value.processNote == []
  {
    var resp := EmptyR4Response.(created := Some(today), request := Some(claim.request), id := Some(claim.uuid));
    resp := resp.(identifier := claim.identifiers);
    var outcome := BuildFhirOutcomeR4(claim.status, codes.names);
    resp := resp.(outcome := outcome);
    var error := BuildFhirErrors(claim.rejectionReason);
    resp := resp.(error := error);
    var failed := CheckItemCategories(claim.items, codes);
    if failed.Some? {
      return Failure(failed.value);
    }
    resp := resp.(patient := Some(claim.patient));
    var total := BuildFhirTotal(claim, codes.currency);
    resp := resp.(total := total);
    resp := resp.(communicationRequest := [claim.communicationRequest]);
    return Success(resp);
  }
}
