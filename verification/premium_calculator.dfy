/** The rating engine: age rate plus value rate gives the base rate, an
    optional postal-code-digit adjustment gives the applied rate, and the
    deductible and broker fee turn it into a priced premium. */
module Calculator {
  import opened Results
  import opened Settings
  import Addresses
  import Cars
  import Premiums
  import Digits

  /** The part of the rate owed to the car's age in `currentYear`. */
  function AgeRate(cfg: Config, car: Cars.Car, currentYear: int): (rate: real)
    ensures cfg.ageRatePerYear >= 0.0 && car.year <= currentYear ==> rate >= 0.0
    ensures car.year == currentYear ==> rate == 0.0
  {
    (Cars.Age(car, currentYear) as real) * cfg.ageRatePerYear
  }

  /** The part of the rate owed to the car's value, per value bracket. */
  function ValueRate(cfg: Config, car: Cars.Car): (rate: real)
    requires Usable(cfg)
    ensures cfg.valueBracket > 0.0 && cfg.valueRatePer10000 >= 0.0 && car.value > 0.0 ==> rate >= 0.0
  {
    (car.value / cfg.valueBracket) * cfg.valueRatePer10000
  }

  /** Age rate plus value rate. */
  function BaseRate(cfg: Config, car: Cars.Car, currentYear: int): real
    requires Usable(cfg)
  {
    AgeRate(cfg, car, currentYear) + ValueRate(cfg, car)
  }

  /** The adjustment for a postal code ending in `digit`: a tenth of the span between the
      bounds per digit step, starting at the minimum. */
  function LocationAdjustment(cfg: Config, digit: nat): (adjustment: real)
    requires digit <= 9
    ensures digit == 0 ==> adjustment == cfg.minGisAdjustment
    ensures cfg.minGisAdjustment <= cfg.maxGisAdjustment ==>
      cfg.minGisAdjustment <= adjustment
      <= cfg.minGisAdjustment + 0.9 * (cfg.maxGisAdjustment - cfg.minGisAdjustment)
  {
    var span := cfg.maxGisAdjustment - cfg.minGisAdjustment;
    var step := (digit as real / 10.0) * span;
    StepsWithinSpan(digit, span);
    step + cfg.minGisAdjustment
  }

  /** Nine tenths is the largest share of a non-negative span a digit reaches. */
  lemma StepsWithinSpan(digit: nat, span: real)
    requires digit <= 9
    ensures span >= 0.0 ==> 0.0 <= (digit as real / 10.0) * span <= 0.9 * span
  {
    if span >= 0.0 {
      ScaleBetween(digit as real / 10.0, 0.9, span);
    }
  }

  /** Scaling a non-negative amount by a factor no larger than `hi` gives at most `hi` times it. */
  lemma ScaleBetween(t: real, hi: real, span: real)
    requires 0.0 <= t <= hi && span >= 0.0
    ensures 0.0 <= t * span <= hi * span
  {
  }

  /** Adds the location adjustment when it is enabled and the car has an address. The last
      postal-code character must then be a digit: anything else fails, with no fallback. */
  function AdjustRateByLocation(cfg: Config, baseRate: real, car: Cars.Car): (r: Result<real>)
    requires Cars.LocationValid(car)
    ensures !cfg.enableGisAdjustment || car.location.None? ==> r == Ok(baseRate)
    ensures r.Err? <==>
      cfg.enableGisAdjustment && car.location.Some?
      && Digits.DigitValue(Addresses.LastPostalChar(car.location.value)).None?
    ensures r.Err? ==> r.error == PostalDigitInvalid(Addresses.LastPostalChar(car.location.value))
    ensures r.Ok? && cfg.enableGisAdjustment && car.location.Some? ==>
      var k := Digits.DigitValue(Addresses.LastPostalChar(car.location.value));
      k.Some? && r.value == baseRate + LocationAdjustment(cfg, k.value)
  {
    if !cfg.enableGisAdjustment || car.location.None? then Ok(baseRate)
    else
      var last := Addresses.LastPostalChar(car.location.value);
      match Digits.DigitValue(last)
      case None => Err(PostalDigitInvalid(last))
      case Some(k) => Ok(baseRate + LocationAdjustment(cfg, k))
  }

  /** The five amounts in closed form for a given applied rate: the reference the
      engine's step-by-step computation is proved against. */
  function ReferenceQuote(cfg: Config, car: Cars.Car, deductiblePercentage: real, brokerFee: real, appliedRate: real): Premiums.Premium {
    var coverage := car.value * cfg.defaultCoveragePercentage;
    Premiums.Premium(
      appliedRate := appliedRate,
      basePremium := car.value * appliedRate,
      deductibleValue := coverage * deductiblePercentage,
      policyLimit := coverage * (1.0 - deductiblePercentage),
      calculatedPremium := car.value * appliedRate * (1.0 - deductiblePercentage) + brokerFee)
  }

  /** Premium construction applied to a candidate premium's five amounts. */
  function Assemble(p: Premiums.Premium): Result<Premiums.Premium> {
    Premiums.NewPremium(p.appliedRate, p.basePremium, p.deductibleValue, p.policyLimit, p.calculatedPremium)
  }

  /** Prices `car` in `currentYear`. The deductible percentage is checked first, the broker fee
      next, and only then is anything computed; the location step and premium construction
      are the only other ways to fail. */
  function CalculatePremium(cfg: Config, currentYear: int, car: Cars.Car, deductiblePercentage: real, brokerFee: real): (r: Result<Premiums.Premium>)
    requires Usable(cfg)
    requires Cars.LocationValid(car)
    ensures r == Err(DeductibleOutOfRange) <==> deductiblePercentage < 0.0 || deductiblePercentage > 1.0
    ensures r == Err(BrokerFeeNegative) <==> 0.0 <= deductiblePercentage <= 1.0 && brokerFee < 0.0
    ensures 0.0 <= deductiblePercentage <= 1.0 && brokerFee >= 0.0 ==>
      match AdjustRateByLocation(cfg, BaseRate(cfg, car, currentYear), car)
      case Err(e) => r == Err(e)
      case Ok(rate) => r == Assemble(ReferenceQuote(cfg, car, deductiblePercentage, brokerFee, rate))
    ensures r.Ok? ==> Premiums.Valid(r.value)
  {
    if deductiblePercentage < 0.0 || deductiblePercentage > 1.0 then Err(DeductibleOutOfRange)
    else if brokerFee < 0.0 then Err(BrokerFeeNegative)
    else
      var ageRate := AgeRate(cfg, car, currentYear);
      var valueRate := ValueRate(cfg, car);
      var baseRate := ageRate + valueRate;
      var appliedRate :- AdjustRateByLocation(cfg, baseRate, car);
      Assemble(StepwiseQuote(cfg, car, deductiblePercentage, brokerFee, appliedRate))
  }

  /** The five amounts as the engine computes them for an applied rate: the deductible discount
      is taken off the base premium and the deductible value off the policy limit. They are the
      closed-form amounts. */
  function StepwiseQuote(cfg: Config, car: Cars.Car, deductiblePercentage: real, brokerFee: real, appliedRate: real): (p: Premiums.Premium)
    ensures p == ReferenceQuote(cfg, car, deductiblePercentage, brokerFee, appliedRate)
  {
    var basePremium := car.value * appliedRate;
    var deductibleDiscount := basePremium * deductiblePercentage;
    var calculatedPremium := basePremium - deductibleDiscount + brokerFee;
    var basePolicyLimit := car.value * cfg.defaultCoveragePercentage;
    var deductibleValue := basePolicyLimit * deductiblePercentage;
    var policyLimit := basePolicyLimit - deductibleValue;
    DiscountFactors(basePremium, deductiblePercentage);
    DiscountFactors(basePolicyLimit, deductiblePercentage);
    var reference := ReferenceQuote(cfg, car, deductiblePercentage, brokerFee, appliedRate);
    assert reference.policyLimit == policyLimit;
    assert reference.calculatedPremium == calculatedPremium;
    Premiums.Premium(appliedRate, basePremium, deductibleValue, policyLimit, calculatedPremium)
  }

  /** Taking a share off an amount leaves the complementary share. */
  lemma DiscountFactors(amount: real, share: real)
    ensures amount - amount * share == amount * (1.0 - share)
  {
  }
}
