/** The checkpoint form's values, their initial state and the two declared validation rules. */
module Validation {
  import opened Wrappers

  /** The only length a one-time code may have. */
  const CodeLength: nat := 6

  const RequiredMessage: string := "An authentication code must be provided."
  const LengthMessage: string := "Authentication code must be 6 digits in length."

  /** The form's values: the single `code` field, exactly as typed. */
  datatype Values = Values(code: string)

  /** Which declared rule a code breaks. */
  datatype ErrorKind = RequiredField | InvalidLength {
    /** The field-level message shown beside the input. */
    function Message(): string {
      match this
      case RequiredField => RequiredMessage
      case InvalidLength => LengthMessage
    }
  }

  /** The `required` rule: a string value must not be empty (no trimming). */
  predicate Present(code: string) {
    |code| > 0
  }

  /** The `length` rule: exactly CodeLength characters, of any kind. */
  predicate HasCodeLength(code: string) {
    |code| == CodeLength
  }

  /**
   * The schema's verdict on a code: the first rule that fails, or None.
   * The empty code breaks both rules; the required rule is reported.
   */
  function Validate(code: string): (r: Option<ErrorKind>)
    ensures r.None? <==> |code| == CodeLength
    ensures r == Some(RequiredField) <==> code == []
    ensures r == Some(InvalidLength) <==> code != [] && |code| != CodeLength
    ensures r.Some? ==> r.value.Message() == (if code == [] then RequiredMessage else LengthMessage)
  {
    if !Present(code) then Some(RequiredField)
    else if !HasCodeLength(code) then Some(InvalidLength)
    else None
  }

  /** Only the length of a code matters: two codes of equal length get the same verdict. */
  lemma LengthIsTheOnlyCriterion(a: string, b: string)
    requires |a| == |b|
    ensures Validate(a) == Validate(b)
  {
  }

  /** The values a freshly mounted form starts with; submitting them at once is refused. */
  function InitialValues(): (v: Values)
    ensures Validate(v.code) == Some(RequiredField)
  {
    Values("")
  }
}
