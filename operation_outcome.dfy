/**
 * The `OperationOutcomeConverter`: the FHIR OperationOutcome the API answers with when a
 * request fails with a `FHIRException`. The converter only encodes; decoding is refused.
 */
module OperationOutcomeConverter {
  import opened Wrappers
  import opened Exceptions
  import opened FhirTypes
  import opened BaseConverter

  /** `IssueSeverity.ERROR` */
  const ErrorSeverity := "error"
  const ToImisRefused := "`toImisObj()` must be implemented."

  datatype Issue = Issue(severity: Option<string>, code: Option<string>, details: Option<Concept>)

  datatype OperationOutcome = OperationOutcome(issue: seq<Issue>)

  /**
   * `build_exception_outcome(obj)`: an outcome that, for a `FHIRException`, holds exactly one
   * issue: severity "error", the configured exception code, and the exception's message as the
   * text of the details; for anything else the outcome stays empty.
   */
  function ExceptionOutcome(e: FhirError, exceptionCode: string): (o: OperationOutcome)
    ensures e.IsFHIRException() ==> |o.issue| == 1
    ensures !e.IsFHIRException() ==> o.issue == []
    ensures forall i :: 0 <= i < |o.issue| ==>
      o.issue[i].severity == Some(ErrorSeverity) && o.issue[i].code == Some(exceptionCode)
      && o.issue[i].details.Some? && o.issue[i].details.value.text == Some(e.Message())
      && FirstCoding(o.issue[i].details.value).None?
  {
    var outcome := OperationOutcome([]);
    if e.IsFHIRException() then
      outcome.(issue := outcome.issue + [Issue(Some(ErrorSeverity), Some(exceptionCode), Some(BuildSimpleCodeableConcept(e.Message())))])
    else outcome
  }

  /** `to_fhir_obj(obj)`: an outcome for a `FHIRException`, `None` for anything else. */
  function ToFhir(e: FhirError, exceptionCode: string): (r: Option<OperationOutcome>)
    ensures r.Some? <==> e.IsFHIRException()
    ensures r.Some? ==> |r.value.issue| == 1
  {
    if e.IsFHIRException() then Some(ExceptionOutcome(e, exceptionCode)) else None
  }

  /** `to_imis_obj`: always raises `NotImplementedError`, whatever it is given. */
  function ToImis<T>(data: T, auditUserId: Option<int>): (r: Result<T, FhirError>)
    ensures r.Failure? && r.error.NotImplementedError? && !r.error.IsFHIRException()
    ensures r.error.Message() == ToImisRefused
  {
    Failure(NotImplementedError(ToImisRefused))
  }

  /**
   * The outcome of a failed conversion with one recorded error: one error issue whose details
   * read the fixed prefix followed by that error.
   */
  lemma RequestProcessOutcome(error: string, exceptionCode: string)
    ensures ToFhir(FhirRequestProcessException([error]), exceptionCode).Some?
    ensures ToFhir(FhirRequestProcessException([error]), exceptionCode).value.issue ==
      [Issue(Some(ErrorSeverity), Some(exceptionCode), Some(BuildSimpleCodeableConcept(RequestProcessPrefix + error)))]
  {
    SingleErrorMessage(error);
  }

  /** Every error of a failed conversion appears in the details of the outcome's one issue. */
  lemma OutcomeNamesEveryError(errors: seq<string>, k: nat, exceptionCode: string)
    requires k < |errors|
    ensures ToFhir(FhirRequestProcessException(errors), exceptionCode).Some?
    ensures exists pre, post ::
      ToFhir(FhirRequestProcessException(errors), exceptionCode).value.issue[0].details.value.text == Some(pre + errors[k] + post)
  {
    RequestProcessMessageListsEveryError(errors, k);
    var o := ToFhir(FhirRequestProcessException(errors), exceptionCode).value;
    assert o.issue[0].details.value.text == Some(FhirRequestProcessException(errors).Message());
  }
}
