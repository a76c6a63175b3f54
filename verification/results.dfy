/** Outcomes shared by the validating constructors and the rating engine:
    an optional value, the validation errors the domain raises, a result that
    carries either a value or one such error, and the "first violated check
    wins" rule that every constructor of the domain follows. */
module Results {

  datatype Option<+T> = None | Some(value: T)

  /** One variant per `ValueError` the domain raises; the comment gives the gist of its message. */
  datatype ValidationError =
    | MakeEmpty                         // "Make cannot be empty"
    | ModelEmpty                        // "Model cannot be empty"
    | YearOutOfRange(maxYear: int)      // "Year must be between 1900 and {maxYear}"
    | ValueNotPositive                  // "Value must be positive"
    | CityEmpty                         // "City cannot be empty"
    | StateEmpty                        // "State cannot be empty"
    | PostalCodeEmpty                   // "Postal code cannot be empty"
    | DeductibleOutOfRange              // "Deductible percentage must be between 0 and 1"
    | BrokerFeeNegative                 // "Broker fee cannot be negative"
    | PostalDigitInvalid(found: char)   // int() of a last postal-code character that is no digit
    | AppliedRateNegative               // "Applied rate cannot be negative"
    | BasePremiumNegative               // "Base premium cannot be negative"
    | DeductibleValueNegative           // "Deductible value cannot be negative"
    | PolicyLimitNegative               // "Policy limit cannot be negative"
    | CalculatedPremiumNegative         // "Calculated premium cannot be negative"

  /** Either a fully valid value or the one error that stopped its construction. */
  datatype Result<+T> = Ok(value: T) | Err(error: ValidationError) {

    predicate IsFailure() {
      Err?
    }

    function PropagateFailure<U>(): Result<U>
      requires Err?
    {
      Err(error)
    }

    function Extract(): T
      requires Ok?
    {
      value
    }
  }

  /** A validity condition together with the error raised when it does not hold. */
  datatype Check = Check(holds: bool, error: ValidationError)

  /** The error of the first check, in order, that does not hold; None when all hold. */
  function FirstViolation(checks: seq<Check>): (r: Option<ValidationError>)
    ensures r.None? <==> forall i :: 0 <= i < |checks| ==> checks[i].holds
    ensures r.Some? ==>
      exists i :: 0 <= i < |checks| && !checks[i].holds && checks[i].error == r.value
        && forall j :: 0 <= j < i ==> checks[j].holds
  {
    if |checks| == 0 then None
    else if !checks[0].holds then Some(checks[0].error)
    else
      var rest := FirstViolation(checks[1..]);
      assert forall i :: 1 <= i < |checks| ==> checks[i] == checks[1..][i - 1];
      rest
  }

  /** The check at position `i` is reported when it fails and every earlier one holds. This
      follows from the postcondition of `FirstViolation` alone: it fixes the reported check as
      the first failing one, and only `i` can be that. */
  lemma FirstViolationAt(checks: seq<Check>, i: nat)
    requires i < |checks| && !checks[i].holds
    requires forall j :: 0 <= j < i ==> checks[j].holds
    ensures FirstViolation(checks) == Some(checks[i].error)
  {
  }

  /** Runs the checks in order: `value` when all hold, otherwise the first violation. */
  function Validated<T>(checks: seq<Check>, value: T): (r: Result<T>)
    ensures r.Ok? <==> forall i :: 0 <= i < |checks| ==> checks[i].holds
    ensures r.Ok? ==> r.value == value
    ensures r.Err? ==> exists i :: 0 <= i < |checks| && r.error == checks[i].error
  {
    match FirstViolation(checks)
    case None => Ok(value)
    case Some(e) => Err(e)
  }

  /** `Validated` reports the check at `i` when it is the first that fails. */
  lemma ValidatedFailsAt<T>(checks: seq<Check>, i: nat, value: T)
    requires i < |checks| && !checks[i].holds
    requires forall j :: 0 <= j < i ==> checks[j].holds
    ensures Validated(checks, value) == Err(checks[i].error)
  {
    FirstViolationAt(checks, i);
  }
}
