/** What the rating engine promises across calls and configurations: the
    closed-form relations between the five amounts, the deductible boundaries,
    the range of the location adjustment, when construction of the premium can
    and cannot fail, monotonicity, and the worked example of the unit tests. */
module CalculatorProperties {
  import opened Results
  import opened Settings
  import Addresses
  import Cars
  import Premiums
  import Digits
  import opened Calculator

  /** The relations between the amounts of every premium the engine prices. */
  lemma QuoteIdentities(cfg: Config, currentYear: int, car: Cars.Car, d: real, fee: real)
    requires Usable(cfg) && Cars.LocationValid(car)
    ensures var r := CalculatePremium(cfg, currentYear, car, d, fee);
      r.Ok? ==>
        && r.value.basePremium == car.value * r.value.appliedRate
        && r.value.calculatedPremium == r.value.basePremium * (1.0 - d) + fee
        && r.value.deductibleValue == car.value * cfg.defaultCoveragePercentage * d
        && r.value.policyLimit == car.value * cfg.defaultCoveragePercentage * (1.0 - d)
        && r.value.deductibleValue + r.value.policyLimit == car.value * cfg.defaultCoveragePercentage
  {
    if CalculatePremium(cfg, currentYear, car, d, fee).Ok? {
      var rate := AdjustRateByLocation(cfg, BaseRate(cfg, car, currentYear), car).value;
      var p := CalculatePremium(cfg, currentYear, car, d, fee).value;
      assert p == ReferenceQuote(cfg, car, d, fee, rate);
      var coverage := car.value * cfg.defaultCoveragePercentage;
      DiscountFactors(coverage, d);
    }
  }

  /** With the adjustment off or no address, the applied rate is exactly age rate plus value rate. */
  lemma UnadjustedRateIsBaseRate(cfg: Config, currentYear: int, car: Cars.Car, d: real, fee: real)
    requires Usable(cfg) && Cars.LocationValid(car)
    requires !cfg.enableGisAdjustment || car.location.None?
    requires 0.0 <= d <= 1.0 && fee >= 0.0
    ensures var r := CalculatePremium(cfg, currentYear, car, d, fee);
      r.Ok? ==>
        r.value.appliedRate
        == ((currentYear - car.year) as real) * cfg.ageRatePerYear
           + (car.value / cfg.valueBracket) * cfg.valueRatePer10000
  {
  }

  /** No deductible leaves the base premium and the whole coverage; a full deductible leaves
      only the broker fee and no coverage. */
  lemma DeductibleBoundaries(cfg: Config, currentYear: int, car: Cars.Car, fee: real)
    requires Usable(cfg) && Cars.LocationValid(car)
    ensures var r := CalculatePremium(cfg, currentYear, car, 0.0, fee);
      r.Ok? ==> r.value.deductibleValue == 0.0 && r.value.calculatedPremium == r.value.basePremium + fee
    ensures var r := CalculatePremium(cfg, currentYear, car, 1.0, fee);
      r.Ok? ==> r.value.policyLimit == 0.0 && r.value.calculatedPremium == fee
  {
    if CalculatePremium(cfg, currentYear, car, 0.0, fee).Ok? {
      QuoteIdentities(cfg, currentYear, car, 0.0, fee);
    }
    if CalculatePremium(cfg, currentYear, car, 1.0, fee).Ok? {
      QuoteIdentities(cfg, currentYear, car, 1.0, fee);
    }
  }

  /** With the adjustment on, a postal code whose last character is no digit fails the
      calculation: there is no fallback to a zero adjustment. */
  lemma NonDigitPostalCodeFails(cfg: Config, currentYear: int, car: Cars.Car, d: real, fee: real)
    requires Usable(cfg) && Cars.LocationValid(car)
    requires cfg.enableGisAdjustment && car.location.Some?
    requires Digits.DigitValue(Addresses.LastPostalChar(car.location.value)).None?
    requires 0.0 <= d <= 1.0 && fee >= 0.0
    ensures CalculatePremium(cfg, currentYear, car, d, fee)
         == Err(PostalDigitInvalid(Addresses.LastPostalChar(car.location.value)))
  {
  }

  /** With the adjustment on, a postal code ending in digit k shifts the base rate by
      k tenths of the span between the bounds above the minimum. */
  lemma DigitPostalCodeAdjusts(cfg: Config, currentYear: int, car: Cars.Car, d: real, fee: real, k: nat)
    requires Usable(cfg) && Cars.LocationValid(car)
    requires cfg.enableGisAdjustment && car.location.Some?
    requires Digits.DigitValue(Addresses.LastPostalChar(car.location.value)) == Some(k)
    requires 0.0 <= d <= 1.0 && fee >= 0.0
    ensures var r := CalculatePremium(cfg, currentYear, car, d, fee);
      r.Ok? ==>
        r.value.appliedRate
        == BaseRate(cfg, car, currentYear)
           + (k as real / 10.0) * (cfg.maxGisAdjustment - cfg.minGisAdjustment) + cfg.minGisAdjustment
  {
  }

  /** Nine tenths of the way is as far as a digit takes the adjustment, so it never reaches a
      maximum above the minimum. */
  lemma LocationAdjustmentRange(cfg: Config, k: nat)
    requires k <= 9
    ensures cfg.minGisAdjustment < cfg.maxGisAdjustment ==> LocationAdjustment(cfg, k) < cfg.maxGisAdjustment
  {
  }

  /** With the default bounds the adjustment runs from -0.02 to 0.016 in steps of 0.004. */
  lemma DefaultAdjustmentSteps(k: nat)
    requires k <= 9
    ensures LocationAdjustment(Default, k) == -0.02 + 0.004 * (k as real)
    ensures -0.02 <= LocationAdjustment(Default, k) <= 0.016
  {
  }

  /** The default configuration leaves the adjustment off, so the applied rate is the base rate. */
  lemma DefaultAppliedRateIsBaseRate(currentYear: int, car: Cars.Car, d: real, fee: real)
    requires Cars.LocationValid(car)
    requires 0.0 <= d <= 1.0 && fee >= 0.0
    ensures var r := CalculatePremium(Default, currentYear, car, d, fee);
      r.Ok? ==> r.value.appliedRate == BaseRate(Default, car, currentYear)
  {
  }

  /** The default coverage of 1.0 makes the policy limit the value less the deductible share. */
  lemma DefaultCoveragePolicyLimit(cfg: Config, currentYear: int, car: Cars.Car, d: real, fee: real)
    requires Usable(cfg) && Cars.LocationValid(car)
    requires cfg.defaultCoveragePercentage == Default.defaultCoveragePercentage
    ensures var r := CalculatePremium(cfg, currentYear, car, d, fee);
      r.Ok? ==> r.value.policyLimit == car.value * (1.0 - d)
  {
    if CalculatePremium(cfg, currentYear, car, d, fee).Ok? {
      QuoteIdentities(cfg, currentYear, car, d, fee);
    }
  }

  /** For a car of positive value the base premium is negative only when the applied rate is,
      and that is checked first: the engine never reports a negative base premium. */
  lemma BasePremiumNeverFirstError(cfg: Config, currentYear: int, car: Cars.Car, d: real, fee: real)
    requires Usable(cfg) && Cars.LocationValid(car)
    requires car.value > 0.0
    ensures CalculatePremium(cfg, currentYear, car, d, fee) != Err(BasePremiumNegative)
  {
    if 0.0 <= d <= 1.0 && fee >= 0.0 && AdjustRateByLocation(cfg, BaseRate(cfg, car, currentYear), car).Ok? {
      BasePremiumNotReportedWhenPriced(cfg, currentYear, car, d, fee);
    }
  }

  /** The case of `BasePremiumNeverFirstError` in which premium construction is reached. */
  lemma BasePremiumNotReportedWhenPriced(cfg: Config, currentYear: int, car: Cars.Car, d: real, fee: real)
    requires Usable(cfg) && Cars.LocationValid(car)
    requires car.value > 0.0 && 0.0 <= d <= 1.0 && fee >= 0.0
    requires AdjustRateByLocation(cfg, BaseRate(cfg, car, currentYear), car).Ok?
    ensures CalculatePremium(cfg, currentYear, car, d, fee) != Err(BasePremiumNegative)
  {
    var rate := AdjustRateByLocation(cfg, BaseRate(cfg, car, currentYear), car).value;
    PricedByReference(cfg, currentYear, car, d, fee);
    ReferenceBaseFollowsRate(cfg, car, d, fee, rate);
    BaseAfterRateNeverReported(ReferenceQuote(cfg, car, d, fee, rate));
  }

  /** For a positive value, the closed-form base premium is non-negative whenever the rate is. */
  lemma ReferenceBaseFollowsRate(cfg: Config, car: Cars.Car, d: real, fee: real, rate: real)
    requires car.value > 0.0
    ensures var q := ReferenceQuote(cfg, car, d, fee, rate);
      q.appliedRate >= 0.0 ==> q.basePremium >= 0.0
  {
    if rate >= 0.0 {
      ScaleBetween(rate, rate, car.value);
    }
  }

  /** Once deductible share and fee pass and the location step succeeds, the engine's result
      is premium construction applied to the closed-form amounts. */
  lemma PricedByReference(cfg: Config, currentYear: int, car: Cars.Car, d: real, fee: real)
    requires Usable(cfg) && Cars.LocationValid(car)
    requires 0.0 <= d <= 1.0 && fee >= 0.0
    requires AdjustRateByLocation(cfg, BaseRate(cfg, car, currentYear), car).Ok?
    ensures CalculatePremium(cfg, currentYear, car, d, fee)
         == Assemble(ReferenceQuote(cfg, car, d, fee, AdjustRateByLocation(cfg, BaseRate(cfg, car, currentYear), car).value))
  {
  }

  /** A negative base premium is reported only when the applied rate before it is non-negative. */
  lemma BaseAfterRateNeverReported(q: Premiums.Premium)
    requires q.appliedRate >= 0.0 ==> q.basePremium >= 0.0
    ensures Assemble(q) != Err(BasePremiumNegative)
  {
    Premiums.PremiumChecksInOrder(q.appliedRate, q.basePremium, q.deductibleValue, q.policyLimit, q.calculatedPremium);
  }

  /** Non-negative rates and coverage, a positive value bracket, a car no newer than the
      current year, no adjustment and valid deductible and fee always price successfully. */
  lemma OrdinaryInputsSucceed(cfg: Config, currentYear: int, car: Cars.Car, d: real, fee: real)
    requires Usable(cfg) && Cars.LocationValid(car)
    requires cfg.ageRatePerYear >= 0.0 && cfg.valueRatePer10000 >= 0.0
    requires cfg.valueBracket > 0.0 && cfg.defaultCoveragePercentage >= 0.0
    requires !cfg.enableGisAdjustment || car.location.None?
    requires Cars.Valid(car, currentYear) && car.year <= currentYear
    requires 0.0 <= d <= 1.0 && fee >= 0.0
    ensures CalculatePremium(cfg, currentYear, car, d, fee).Ok?
  {
    var rate := BaseRate(cfg, car, currentYear);
    assert rate >= 0.0;
    assert AdjustRateByLocation(cfg, rate, car) == Ok(rate);
    ReferenceQuoteValid(cfg, car, d, fee, rate);
  }

  /** The closed-form amounts are all non-negative for a non-negative rate, value and
      coverage, a deductible share in [0, 1] and a non-negative fee. */
  lemma ReferenceQuoteValid(cfg: Config, car: Cars.Car, d: real, fee: real, rate: real)
    requires rate >= 0.0 && car.value > 0.0 && cfg.defaultCoveragePercentage >= 0.0
    requires 0.0 <= d <= 1.0 && fee >= 0.0
    ensures Premiums.Valid(ReferenceQuote(cfg, car, d, fee, rate))
  {
    var coverage := car.value * cfg.defaultCoveragePercentage;
    ScaleBetween(rate, rate, car.value);
    ScaleBetween(cfg.defaultCoveragePercentage, cfg.defaultCoveragePercentage, car.value);
    ScaleBetween(d, 1.0, coverage);
    ScaleBetween(1.0 - d, 1.0, coverage);
    ScaleBetween(1.0 - d, 1.0, car.value * rate);
  }

  /** An older car of otherwise the same description never gets a lower applied rate. */
  lemma AppliedRateMonotoneInAge(cfg: Config, currentYear: int, car: Cars.Car, olderYear: int, d: real, fee: real)
    requires Usable(cfg) && Cars.LocationValid(car)
    requires cfg.ageRatePerYear >= 0.0 && olderYear <= car.year
    ensures var younger := CalculatePremium(cfg, currentYear, car, d, fee);
      var older := CalculatePremium(cfg, currentYear, car.(year := olderYear), d, fee);
      younger.Ok? && older.Ok? ==> younger.value.appliedRate <= older.value.appliedRate
  {
    var older := car.(year := olderYear);
    if CalculatePremium(cfg, currentYear, car, d, fee).Ok? && CalculatePremium(cfg, currentYear, older, d, fee).Ok? {
      BaseRateMonotoneInAge(cfg, currentYear, car, olderYear);
      AppliedRateIsAdjustedRate(cfg, currentYear, car, d, fee);
      AppliedRateIsAdjustedRate(cfg, currentYear, older, d, fee);
      AdjustmentPreservesOrder(cfg, BaseRate(cfg, car, currentYear), BaseRate(cfg, older, currentYear), car, older);
    }
  }

  /** With a non-negative per-year rate, an older car of otherwise the same description has
      a base rate at least as high. */
  lemma BaseRateMonotoneInAge(cfg: Config, currentYear: int, car: Cars.Car, olderYear: int)
    requires Usable(cfg)
    requires cfg.ageRatePerYear >= 0.0 && olderYear <= car.year
    ensures BaseRate(cfg, car, currentYear) <= BaseRate(cfg, car.(year := olderYear), currentYear)
  {
    var older := car.(year := olderYear);
    var ageGap := (car.year - olderYear) as real;
    ScaleBetween(ageGap, ageGap, cfg.ageRatePerYear);
    assert AgeRate(cfg, older, currentYear) == AgeRate(cfg, car, currentYear) + ageGap * cfg.ageRatePerYear;
  }

  /** The applied rate of a priced premium is the location-adjusted base rate. */
  lemma AppliedRateIsAdjustedRate(cfg: Config, currentYear: int, car: Cars.Car, d: real, fee: real)
    requires Usable(cfg) && Cars.LocationValid(car)
    ensures var r := CalculatePremium(cfg, currentYear, car, d, fee);
      var adjusted := AdjustRateByLocation(cfg, BaseRate(cfg, car, currentYear), car);
      r.Ok? ==> adjusted.Ok? && r.value.appliedRate == adjusted.value
  {
  }

  /** Two cars at the same location keep the order of their base rates after adjustment. */
  lemma AdjustmentPreservesOrder(cfg: Config, low: real, high: real, car1: Cars.Car, car2: Cars.Car)
    requires Cars.LocationValid(car1) && car2.location == car1.location
    requires low <= high
    requires AdjustRateByLocation(cfg, low, car1).Ok? && AdjustRateByLocation(cfg, high, car2).Ok?
    ensures AdjustRateByLocation(cfg, low, car1).value <= AdjustRateByLocation(cfg, high, car2).value
  {
  }

  /** At a fixed non-negative rate, a more valuable car never gets a lower base premium. */
  lemma BasePremiumMonotoneInValue(cfg: Config, car: Cars.Car, moreValue: real, d: real, fee: real, rate: real)
    requires rate >= 0.0 && car.value <= moreValue
    ensures ReferenceQuote(cfg, car, d, fee, rate).basePremium
         <= ReferenceQuote(cfg, car.(value := moreValue), d, fee, rate).basePremium
  {
    var gap := moreValue - car.value;
    ScaleBetween(gap, gap, rate);
    assert moreValue * rate == car.value * rate + gap * rate;
  }

  /** The unit tests' ten-year-old car worth 100000 with no address, a 10% deductible and a
      broker fee of 50, priced with the defaults. */
  lemma WorkedExample(currentYear: int)
    ensures var car := Cars.Car("Toyota", "Corolla", currentYear - 10, 100000.0, None);
      && AgeRate(Default, car, currentYear) == 10.0 * 0.005
      && ValueRate(Default, car) == (100000.0 / 10000.0) * 0.005
      && CalculatePremium(Default, currentYear, car, 0.1, 50.0)
         == Ok(Premiums.Premium(0.10, 10000.0, 10000.0, 90000.0, 9050.0))
  {
  }

  /** A next-year car is valid but has age -1; when cheap enough its applied rate is negative
      and premium construction fails even though deductible and fee are fine. */
  lemma NextYearCheapCarFails(currentYear: int)
    requires currentYear >= Cars.MinYear
    ensures var car := Cars.Car("Toyota", "Corolla", currentYear + 1, 5000.0, None);
      && Cars.NewCar(car.make, car.model, car.year, car.value, car.location, currentYear) == Ok(car)
      && Cars.Age(car, currentYear) == -1
      && CalculatePremium(Default, currentYear, car, 0.1, 0.0) == Err(AppliedRateNegative)
  {
    var car := Cars.Car("Toyota", "Corolla", currentYear + 1, 5000.0, None);
    Premiums.PremiumChecksInOrder(-0.0025, 5000.0 * -0.0025, 500.0, 4500.0, 5000.0 * -0.0025 * 0.9);
  }
}
