/** The quote service: turns a request into a car, prices it with the rating
    engine using the request's deductible share and broker fee, and answers
    with the request's car and four of the premium's amounts. Every error of the
    address, the car and the engine reaches the caller unchanged. */
module QuoteService {
  import opened Results
  import opened Settings
  import Addresses
  import Cars
  import Calculator
  import opened Dtos
  import CalculatorProperties

  /** The address as built from its request shape: every field copied verbatim, or the first
      empty field reported in the order city, state, postal code. */
  function ToAddress(dto: AddressDto): (r: Result<Addresses.Address>)
    ensures r.Ok? <==> dto.city != [] && dto.state != [] && dto.postalCode != []
    ensures dto.city == [] ==> r == Err(CityEmpty)
    ensures dto.city != [] && dto.state == [] ==> r == Err(StateEmpty)
    ensures dto.city != [] && dto.state != [] && dto.postalCode == [] ==> r == Err(PostalCodeEmpty)
    ensures r.Ok? ==>
      && r.value.city == dto.city && r.value.state == dto.state
      && r.value.postalCode == dto.postalCode && r.value.street == dto.street
  {
    Addresses.AddressChecksInOrder(dto.city, dto.state, dto.postalCode, dto.street);
    Addresses.NewAddress(dto.city, dto.state, dto.postalCode, dto.street)
  }

  /** The car as built from its request shape. The address is built first, so its errors
      come before any error of the car itself. */
  function DtoToCar(dto: CarDto, currentYear: int): (r: Result<Cars.Car>)
    ensures dto.location.Some? && ToAddress(dto.location.value).Err? ==>
      r == Err(ToAddress(dto.location.value).error)
    ensures (dto.location.None? || ToAddress(dto.location.value).Ok?) && r.Err? ==>
      Cars.NewCar(dto.make, dto.model, dto.year, dto.value, None, currentYear).Err? &&
      r.error == Cars.NewCar(dto.make, dto.model, dto.year, dto.value, None, currentYear).error
    ensures r.Ok? <==>
      && (dto.location.Some? ==> ToAddress(dto.location.value).Ok?)
      && dto.make != [] && dto.model != []
      && Cars.MinYear <= dto.year <= Cars.MaxYear(currentYear) && dto.value > 0.0
    ensures r.Ok? ==>
      && r.value.make == dto.make && r.value.model == dto.model
      && r.value.year == dto.year && r.value.value == dto.value
    ensures r.Ok? ==> (r.value.location.None? <==> dto.location.None?)
    ensures r.Ok? && dto.location.Some? ==> r.value.location == Some(ToAddress(dto.location.value).value)
    ensures r.Ok? ==> Cars.Valid(r.value, currentYear) && Cars.LocationValid(r.value)
  {
    var location :-
      match dto.location
      case None => Ok(None)
      case Some(loc) =>
        var a :- ToAddress(loc);
        Ok(Some(a));
    Cars.NewCar(dto.make, dto.model, dto.year, dto.value, location, currentYear)
  }

  /** Quotes a request in `currentYear`: the engine runs once on the converted car with the
      request's deductible share and broker fee. */
  function CalculateQuote(cfg: Config, currentYear: int, req: PremiumRequest): (r: Result<PremiumResponse>)
    requires Usable(cfg)
    ensures DtoToCar(req.car, currentYear).Err? ==> r == Err(DtoToCar(req.car, currentYear).error)
    ensures DtoToCar(req.car, currentYear).Ok? ==>
      var p := Calculator.CalculatePremium(cfg, currentYear, DtoToCar(req.car, currentYear).value,
                                           req.deductiblePercentage, req.brokerFee);
      && (p.Err? ==> r == Err(p.error))
      && (p.Ok? ==>
            && r.Ok? && r.value.appliedRate == p.value.appliedRate
            && r.value.policyLimit == p.value.policyLimit
            && r.value.calculatedPremium == p.value.calculatedPremium
            && r.value.deductibleValue == p.value.deductibleValue)
    ensures r.Ok? ==> r.value.car == req.car
    ensures r.Ok? ==>
      && r.value.appliedRate >= 0.0 && r.value.policyLimit >= 0.0
      && r.value.calculatedPremium >= 0.0 && r.value.deductibleValue >= 0.0
  {
    var car :- DtoToCar(req.car, currentYear);
    var premium :- Calculator.CalculatePremium(cfg, currentYear, car, req.deductiblePercentage, req.brokerFee);
    Ok(PremiumResponse(
      car := req.car,
      appliedRate := premium.appliedRate,
      policyLimit := premium.policyLimit,
      calculatedPremium := premium.calculatedPremium,
      deductibleValue := premium.deductibleValue))
  }

  /** A request the schema accepts never fails on its deductible share or broker fee. */
  lemma AcceptedRequestPassesPolicyChecks(cfg: Config, currentYear: int, req: PremiumRequest)
    requires Usable(cfg) && RequestAccepted(req, currentYear)
    ensures CalculateQuote(cfg, currentYear, req) != Err(DeductibleOutOfRange)
    ensures CalculateQuote(cfg, currentYear, req) != Err(BrokerFeeNegative)
  {
    AcceptedPolicyParameters(req, currentYear);
  }

  /** A request the schema accepts can still fail when the car is built: an empty make is
      reported, and only after an empty city is. */
  lemma AcceptedRequestCanFailInDomain(cfg: Config, currentYear: int)
    requires Usable(cfg) && currentYear >= Cars.MinYear
    ensures var withAddress :=
      PremiumRequest(CarDto("", "", currentYear, 1.0, Some(AddressDto("", "", "", None))), 0.5, 0.0);
      RequestAccepted(withAddress, currentYear)
      && CalculateQuote(cfg, currentYear, withAddress) == Err(CityEmpty)
    ensures var noAddress := PremiumRequest(CarDto("", "", currentYear, 1.0, None), 0.5, 0.0);
      RequestAccepted(noAddress, currentYear)
      && CalculateQuote(cfg, currentYear, noAddress) == Err(MakeEmpty)
  {
    Addresses.AddressChecksInOrder("", "", "", None);
    Cars.CarChecksInOrder("", "", currentYear, 1.0, None, currentYear);
  }

  /** With the defaults, a request for a next-year car worth 5000 passes the schema but fails
      because its applied rate is negative. */
  lemma AcceptedNextYearCarRejected(currentYear: int)
    requires currentYear >= Cars.MinYear
    ensures var req := PremiumRequest(CarDto("Toyota", "Corolla", currentYear + 1, 5000.0, None), 0.1, 0.0);
      RequestAccepted(req, currentYear)
      && CalculateQuote(Default, currentYear, req) == Err(AppliedRateNegative)
  {
    CalculatorProperties.NextYearCheapCarFails(currentYear);
  }
}
