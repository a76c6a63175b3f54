/** The priced premium: an immutable value object whose five amounts must all
    be non-negative. */
module Premiums {
  import opened Results

  datatype Premium = Premium(
    appliedRate: real,
    basePremium: real,
    deductibleValue: real,
    policyLimit: real,
    calculatedPremium: real)

  predicate Valid(p: Premium) {
    p.appliedRate >= 0.0 && p.basePremium >= 0.0 && p.deductibleValue >= 0.0
      && p.policyLimit >= 0.0 && p.calculatedPremium >= 0.0
  }

  /** The errors that name a negative amount of a premium. */
  predicate IsAmountError(e: ValidationError) {
    e.AppliedRateNegative? || e.BasePremiumNegative? || e.DeductibleValueNegative?
      || e.PolicyLimitNegative? || e.CalculatedPremiumNegative?
  }

  /** The checks of construction, in the order they are made. */
  function Checks(p: Premium): seq<Check> {
    [ Check(!(p.appliedRate < 0.0), AppliedRateNegative),
      Check(!(p.basePremium < 0.0), BasePremiumNegative),
      Check(!(p.deductibleValue < 0.0), DeductibleValueNegative),
      Check(!(p.policyLimit < 0.0), PolicyLimitNegative),
      Check(!(p.calculatedPremium < 0.0), CalculatedPremiumNegative) ]
  }

  /** Builds a premium or reports the first negative amount. */
  function NewPremium(appliedRate: real, basePremium: real, deductibleValue: real, policyLimit: real, calculatedPremium: real): (r: Result<Premium>)
    ensures r.Ok? <==> appliedRate >= 0.0 && basePremium >= 0.0 && deductibleValue >= 0.0
                       && policyLimit >= 0.0 && calculatedPremium >= 0.0
    ensures r.Ok? ==> r.value == Premium(appliedRate, basePremium, deductibleValue, policyLimit, calculatedPremium)
    ensures r.Ok? ==> Valid(r.value)
    ensures r.Err? ==> IsAmountError(r.error)
  {
    var p := Premium(appliedRate, basePremium, deductibleValue, policyLimit, calculatedPremium);
    var checks := Checks(p);
    assert (forall i :: 0 <= i < |checks| ==> checks[i].holds)
      <==> checks[0].holds && checks[1].holds && checks[2].holds && checks[3].holds && checks[4].holds;
    assert forall i :: 0 <= i < |checks| ==> IsAmountError(checks[i].error);
    Validated(checks, p)
  }

  /** Only the first negative amount is reported, in the order applied rate, base premium,
      deductible value, policy limit, calculated premium. */
  lemma PremiumChecksInOrder(a: real, b: real, d: real, l: real, c: real)
    ensures a < 0.0 ==> NewPremium(a, b, d, l, c) == Err(AppliedRateNegative)
    ensures a >= 0.0 && b < 0.0 ==> NewPremium(a, b, d, l, c) == Err(BasePremiumNegative)
    ensures a >= 0.0 && b >= 0.0 && d < 0.0 ==> NewPremium(a, b, d, l, c) == Err(DeductibleValueNegative)
    ensures a >= 0.0 && b >= 0.0 && d >= 0.0 && l < 0.0 ==> NewPremium(a, b, d, l, c) == Err(PolicyLimitNegative)
    ensures a >= 0.0 && b >= 0.0 && d >= 0.0 && l >= 0.0 && c < 0.0 ==> NewPremium(a, b, d, l, c) == Err(CalculatedPremiumNegative)
  {
    var p := Premium(a, b, d, l, c);
    var checks := Checks(p);
    if a < 0.0 {
      ValidatedFailsAt(checks, 0, p);
    } else if b < 0.0 {
      ValidatedFailsAt(checks, 1, p);
    } else if d < 0.0 {
      ValidatedFailsAt(checks, 2, p);
    } else if l < 0.0 {
      ValidatedFailsAt(checks, 3, p);
    } else if c < 0.0 {
      ValidatedFailsAt(checks, 4, p);
    }
  }
}
