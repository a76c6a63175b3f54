/** The request and response shapes at the service boundary, and the
    conditions under which the request schema accepts a payload. The schema
    checks year, value, deductible share and broker fee; it does not check that
    make, model or any address field is non-empty. */
module Dtos {
  import opened Results
  import Cars
  import Addresses

  datatype AddressDto = AddressDto(city: string, state: string, postalCode: string, street: Option<string>)

  datatype CarDto = CarDto(make: string, model: string, year: int, value: real, location: Option<AddressDto>)

  datatype PremiumRequest = PremiumRequest(car: CarDto, deductiblePercentage: real, brokerFee: real)

  /** The response: the request's car echoed back with four of the premium's amounts. */
  datatype PremiumResponse = PremiumResponse(
    car: CarDto,
    appliedRate: real,
    policyLimit: real,
    calculatedPremium: real,
    deductibleValue: real)

  /** The year validator, with the current year passed in. */
  predicate YearAccepted(year: int, currentYear: int) {
    !(year < Cars.MinYear || year > Cars.MaxYear(currentYear))
  }

  /** The value validator. */
  predicate ValueAccepted(value: real) {
    !(value <= 0.0)
  }

  predicate CarAccepted(car: CarDto, currentYear: int) {
    YearAccepted(car.year, currentYear) && ValueAccepted(car.value)
  }

  /** The field bound on the deductible share: greater than 0 and at most 1. */
  predicate DeductibleBoundAccepted(d: real) {
    0.0 < d <= 1.0
  }

  /** The field validator on the deductible share, which also admits 0. */
  predicate DeductibleValidatorAccepted(d: real) {
    !(d < 0.0 || d > 1.0)
  }

  /** The field bound on the broker fee. */
  predicate BrokerFeeBoundAccepted(fee: real) {
    fee >= 0.0
  }

  /** The field validator on the broker fee. */
  predicate BrokerFeeValidatorAccepted(fee: real) {
    !(fee < 0.0)
  }

  /** A request passes the schema when its car and both policy parameters pass every bound and
      validator: together they admit exactly the car years and values the car itself admits, a
      deductible share in (0, 1] and a non-negative fee, and nothing about the names. */
  function RequestAccepted(req: PremiumRequest, currentYear: int): (ok: bool)
    ensures ok <==>
      && Cars.MinYear <= req.car.year <= Cars.MaxYear(currentYear) && req.car.value > 0.0
      && 0.0 < req.deductiblePercentage <= 1.0 && req.brokerFee >= 0.0
  {
    && CarAccepted(req.car, currentYear)
    && DeductibleBoundAccepted(req.deductiblePercentage)
    && DeductibleValidatorAccepted(req.deductiblePercentage)
    && BrokerFeeBoundAccepted(req.brokerFee)
    && BrokerFeeValidatorAccepted(req.brokerFee)
  }

  /** The schema's year range is the one the car enforces: for a car whose other fields pass,
      construction succeeds exactly when the schema accepts the year. */
  lemma YearRangeMatchesCar(make: string, model: string, year: int, value: real,
                            location: Option<Addresses.Address>, currentYear: int)
    requires make != [] && model != [] && value > 0.0
    ensures Cars.NewCar(make, model, year, value, location, currentYear).Ok? <==> YearAccepted(year, currentYear)
  {
  }

  /** The deductible validator is implied by the field bound, and a share of 0 is the one
      value the validator admits that the bound turns away. */
  lemma DeductibleValidatorRedundant(d: real)
    ensures DeductibleBoundAccepted(d) ==> DeductibleValidatorAccepted(d)
    ensures DeductibleValidatorAccepted(d) && !DeductibleBoundAccepted(d) <==> d == 0.0
  {
  }

  /** Every accepted request carries a deductible share in [0, 1] and a non-negative fee. */
  lemma AcceptedPolicyParameters(req: PremiumRequest, currentYear: int)
    requires RequestAccepted(req, currentYear)
    ensures 0.0 < req.deductiblePercentage <= 1.0 && req.brokerFee >= 0.0
  {
  }

  /** The schema accepts an empty make, model, city, state and postal code. */
  lemma EmptyNamesAccepted(currentYear: int)
    requires currentYear >= Cars.MinYear
    ensures RequestAccepted(
      PremiumRequest(CarDto("", "", currentYear, 1.0, Some(AddressDto("", "", "", None))), 0.5, 0.0),
      currentYear)
  {
  }
}
