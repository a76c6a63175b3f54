# Car-insurance premium simulator: the rating engine in Dafny

This project models the rating engine of a car-insurance premium simulator,
together with the validation rules around it.

- **Car.** Make, model, year and value are checked once, in a fixed order.
  The optional registration address is carried without checks. The age is
  computed from the year in which it is asked for.
- **Address.** City, state and postal code must be non-empty. The street is
  free.
- **Premium.** The five amounts must all be non-negative. They are checked
  in a fixed order.
- **Rating configuration.** Seven knobs with defaults, passed to the engine
  as an immutable `Settings.Config` record.
- **Premium calculator.** Age rate plus value rate gives the base rate. An
  optional adjustment from the last postal-code digit gives the applied rate.
  The engine then computes the base premium, the deductible discount, the
  final premium, the deductible value and the policy limit.
- **GIS risk factor.** Maps the last postal-code digit to [-1, 1], with a
  silent 0.0 fallback.
- **Request schema.** Acceptance predicates for the year, value, deductible
  share and broker fee.
- **Quote service.** Converts the request into a car, prices it, and answers
  with the request's car and four of the premium's amounts.

Amounts and rates are `real`. The current year is an explicit parameter
everywhere the source reads the clock. Every `ValueError` of the domain is a
`Results.ValidationError` variant, returned through `Results.Result`.

Each constructor fails on the first violated check. That rule is defined
once, as `Results.FirstViolation` over a sequence of `Check`s, and every
constructor's ordering lemma is derived from it. In the model, address,
car and premium are immutable datatypes with structural equality.

Files, one module each: `results.dfy` (Results), `settings.dfy` (Settings),
`digits.dfy` (Digits), `address.dfy` (Addresses), `car.dfy` (Cars),
`premium.dfy` (Premiums), `premium_calculator.dfy` (Calculator),
`premium_calculator_properties.dfy` (CalculatorProperties),
`gis_service.dfy` (Gis), `car_dto.dfy` (Dtos), `premium_service.dfy`
(QuoteService).

## Model

| member | source | states |
|---|---|---|
| Results.FirstViolation | src/domain/value_objects/premium.py:12-22 | no error exactly when every check holds; otherwise the error of a failing check before which every check holds |
| Results.FirstViolationAt | src/domain/entities/car.py:19-26 | a check that fails after all earlier checks hold is the one reported |
| Digits.DigitValue | src/domain/services/premium_calculator.py:21 | a character reads as a digit exactly when it is '0'..'9'; the digit is at most 9 and spells the character back |
| Addresses.NewAddress | src/domain/value_objects/address.py:12-18 | construction succeeds iff city, state and postal code are all non-empty, and yields exactly the given fields |
| Addresses.AddressChecksInOrder | src/domain/value_objects/address.py:13-18 | only the first empty field is reported, in the order city, state, postal code |
| Addresses.StreetUnconstrained | src/domain/value_objects/address.py:10 | the street never decides whether an address is valid |
| Addresses.LastPostalChar | src/domain/value_objects/address.py:17-18 | a valid address always has a last postal-code character, so reading it is always defined; the postal code is the rest of it followed by that character |
| Cars.NewCar | src/domain/entities/car.py:16-26 | construction succeeds iff make and model are non-empty, 1900 <= year <= currentYear+1 and value > 0; the car holds exactly the given fields |
| Cars.CarChecksInOrder | src/domain/entities/car.py:19-26 | only the first violation is reported, in the order make, model, year (naming currentYear+1), value |
| Cars.AnyLocationAccepted | src/domain/entities/car.py:14-26 | the registration location never decides whether a car is valid |
| Cars.Age | src/domain/entities/car.py:28-29 | a valid car's age lies in [-1, currentYear-1900]; a next-year car has age -1 |
| Cars.AgeGrowsWithTime | src/domain/entities/car.py:28-29 | the age is taken in the year it is asked for, so it grows by the years elapsed since construction and stays >= -1 |
| Premiums.NewPremium | src/domain/value_objects/premium.py:12-22 | construction succeeds iff all five amounts are >= 0, and yields exactly those amounts |
| Premiums.PremiumChecksInOrder | src/domain/value_objects/premium.py:13-22 | only the first negative amount is reported, in the order applied rate, base premium, deductible value, policy limit, calculated premium |
| Calculator.AgeRate | src/domain/services/premium_calculator.py:7-9 | the age rate is non-negative for a non-negative per-year rate and a car no newer than the current year, and zero for a car of this year |
| Calculator.ValueRate | src/domain/services/premium_calculator.py:11-13 | the value rate is non-negative for a positive bracket, a non-negative rate and a positive value |
| Calculator.AdjustRateByLocation | src/domain/services/premium_calculator.py:15-27 | the base rate is unchanged when the adjustment is off or there is no address; with the adjustment on, it fails exactly when the last postal-code character is no digit (naming it) and otherwise adds the adjustment for that digit |
| Calculator.LocationAdjustment | src/domain/services/premium_calculator.py:22-24 | the adjustment for digit 0 is the minimum, and for any digit it lies between the minimum and nine tenths of the way to the maximum when MIN <= MAX |
| Calculator.StepwiseQuote | src/domain/services/premium_calculator.py:43-51 | the amounts computed step by step, discount subtracted from the base premium and deductible value from the policy limit, equal the closed-form amounts |
| Calculator.CalculatePremium | src/domain/services/premium_calculator.py:29-59 | the deductible error is reported iff the share is outside [0,1], checked first; the broker-fee error iff the share is in range and the fee negative; otherwise a location failure propagates, or the result is premium construction applied to the closed-form amounts; any premium returned is valid |
| CalculatorProperties.QuoteIdentities | src/domain/services/premium_calculator.py:43-51 | base = value*rate; final = base*(1-d)+fee; deductible value = value*coverage*d; limit = value*coverage*(1-d); deductible value + limit = value*coverage |
| CalculatorProperties.UnadjustedRateIsBaseRate | src/domain/services/premium_calculator.py:37-41 | with the adjustment off or no address, the applied rate is exactly age*ageRate + (value/bracket)*valueRate |
| CalculatorProperties.DeductibleBoundaries | src/domain/services/premium_calculator.py:45-51 | d=0 gives deductible value 0 and final premium base+fee; d=1 gives policy limit 0 and final premium equal to the fee |
| CalculatorProperties.NonDigitPostalCodeFails | src/domain/services/premium_calculator.py:19-21 | with the adjustment on, a non-digit last postal-code character fails the calculation, with no zero fallback |
| CalculatorProperties.DigitPostalCodeAdjusts | src/domain/services/premium_calculator.py:19-25 | with the adjustment on and last digit k, the applied rate is base + (k/10)*(MAX-MIN) + MIN |
| CalculatorProperties.LocationAdjustmentRange | src/domain/services/premium_calculator.py:22-24 | when MAX > MIN, no digit's adjustment reaches MAX: the top digit stops a tenth of the span short |
| CalculatorProperties.DefaultAdjustmentSteps | src/config/settings.py:12-13 | with the default bounds the adjustment is -0.02 + 0.004*k, within [-0.02, 0.016] |
| CalculatorProperties.DefaultAppliedRateIsBaseRate | src/config/settings.py:11 | the adjustment is off by default, so the default applied rate is the base rate |
| CalculatorProperties.DefaultCoveragePolicyLimit | src/config/settings.py:9 | the default coverage of 1.0 gives policy limit = value*(1-d) |
| CalculatorProperties.BasePremiumNeverFirstError | src/domain/value_objects/premium.py:13-16 | for a car of positive value the engine never reports a negative base premium, because the applied rate is checked first |
| CalculatorProperties.OrdinaryInputsSucceed | src/domain/services/premium_calculator.py:37-59 | non-negative rates and coverage, a positive bracket, age >= 0, no adjustment and valid d and fee always give a premium |
| CalculatorProperties.ReferenceQuoteValid | src/domain/services/premium_calculator.py:43-51 | the closed-form amounts are all non-negative for non-negative rate, value, coverage and fee and d in [0,1] |
| CalculatorProperties.BaseRateMonotoneInAge | src/domain/services/premium_calculator.py:7-9 | with a non-negative per-year rate, an older car of the same description has a base rate at least as high |
| CalculatorProperties.AppliedRateMonotoneInAge | src/domain/services/premium_calculator.py:7-9 | with a non-negative per-year rate, an older car of the same description never gets a lower applied rate |
| CalculatorProperties.BasePremiumMonotoneInValue | src/domain/services/premium_calculator.py:43 | at a fixed non-negative rate, a more valuable car never gets a lower base premium |
| CalculatorProperties.WorkedExample | tests/unit/domain/test_premium_calculator.py:32-60 | a 10-year-old car worth 100000 with no address, d=0.1 and fee 50 gives age rate 10*0.005, value rate 10*0.005, and rate 0.10, base 10000, deductible value 10000, limit 90000, final 9050 |
| CalculatorProperties.NextYearCheapCarFails | src/domain/entities/car.py:23-29 | a next-year car worth 5000 is valid with age -1, but its applied rate is negative and pricing fails with the applied-rate error |
| Gis.DigitRisk | src/infrastructure/gis/gis_service.py:10-11 | the factor for a digit lies in [-1, 1] and is never 0.0 |
| Gis.RiskFactor | src/infrastructure/gis/gis_service.py:5-13 | no address, an empty postal code or a non-digit last character give 0.0 without failing; last digit k gives (k-4.5)/4.5 |
| Gis.ReadsSameCharacterAsEngine | src/infrastructure/gis/gis_service.py:10-13 | for a valid address the risk factor reads the same last postal-code character as the rating engine: 0.0 when it is no digit, the digit's factor otherwise |
| Gis.ZeroMeansNoDigit | src/infrastructure/gis/gis_service.py:11-13 | the factor is 0.0 exactly when there is no address or no readable last digit |
| Gis.DigitRiskEndpoints | src/infrastructure/gis/gis_service.py:11 | digit 0 maps to -1.0 and digit 9 to 1.0 |
| Gis.DigitRiskStrictlyIncreasing | src/infrastructure/gis/gis_service.py:11 | a larger last digit gives a strictly larger factor |
| Dtos.RequestAccepted | src/application/dtos/car_dto.py:32-78 | the schema accepts a request iff 1900 <= year <= currentYear+1, value > 0, 0 < d <= 1 and fee >= 0; nothing about the names or the address |
| Dtos.YearRangeMatchesCar | src/application/dtos/car_dto.py:32-37 | for a car whose make, model and value pass, construction succeeds exactly when the schema accepts the year |
| Dtos.DeductibleValidatorRedundant | src/application/dtos/car_dto.py:65-72 | the field bound implies the validator; 0 is the one share the validator admits and the bound rejects |
| Dtos.AcceptedPolicyParameters | src/application/dtos/car_dto.py:63-78 | an accepted request has 0 < d <= 1 and fee >= 0 |
| Dtos.EmptyNamesAccepted | src/application/dtos/car_dto.py:7-30 | the schema accepts an empty make, model, city, state and postal code |
| QuoteService.ToAddress | src/application/services/premium_service.py:15-22 | the address is built iff city, state and postal code are non-empty, copying all four fields verbatim; otherwise the error names the first empty field, in the order city, state, postal code |
| QuoteService.DtoToCar | src/application/services/premium_service.py:13-30 | address errors come first; when the address is built or absent, any error is exactly the one car construction reports; the car is built iff the address and car checks pass; make, model, year, value are kept; the address is absent iff the request's is, and otherwise is its verbatim copy |
| QuoteService.CalculateQuote | src/application/services/premium_service.py:32-54 | car errors and engine errors propagate unchanged; otherwise the engine result for the request's d and fee gives the four response amounts, the car is echoed, and all four amounts are >= 0 |
| QuoteService.AcceptedRequestPassesPolicyChecks | src/domain/services/premium_calculator.py:32-35 | a request the schema accepts never fails on the deductible share or the broker fee |
| QuoteService.AcceptedRequestCanFailInDomain | src/application/services/premium_service.py:13-30 | an accepted request can still fail, with the empty-city error before the empty-make error |
| QuoteService.AcceptedNextYearCarRejected | src/application/dtos/car_dto.py:32-43 | with the defaults, an accepted request for a next-year car worth 5000 fails with the applied-rate error |

## Left out

- Persistence is not modelled. This covers `src/infrastructure/database/repository.py`, `src/infrastructure/database/models.py` and the schema migration. They are I/O over libraries outside this model, with generated ids and timestamps.
- The HTTP layer is not modelled (`src/presentation/main.py`, `src/presentation/api/routes/premium_routes.py`). It maps a `ValueError` to a 400 response, which is boundary plumbing.
- The calculated-premium event is not modelled. The service builds it with a random id and a wall-clock timestamp, then discards it, so it has no effect on the result.
- `src/application/dtos/premium_dto.py` is kept only as the shape of `Dtos.PremiumResponse`. Its `ge=0` bounds repeat the premium's own checks, which `QuoteService.CalculateQuote` states as an ensures.
- IEEE floating point is not modelled: amounts are exact reals. A NaN value would pass the source's `value <= 0` check; no such value exists here.
- The clock is not modelled: the current year is a parameter. The source reads it separately at car construction, in `get_age` and in the year validator; the model takes one year per call, except `Cars.AgeGrowsWithTime`, which relates two years.
- Only '0'..'9' count as digits. The source's `int()` also accepts other Unicode decimal digits.
- Settings loading from the environment or `.env` is not modelled, nor the `API_HOST`, `API_PORT` and `DEBUG` knobs.
- Calculator.ValueRate: requires a non-zero value bracket (`Settings.Usable`), as do the functions that call it. Overrides are not checked, and the source would raise a division-by-zero error.
- The request schema is modelled only as acceptance predicates. Pydantic's error messages, its collection of all field errors and its type coercion are not modelled.
- The source's car is a plain, non-frozen dataclass, so its fields can be reassigned after validation. The model has no such mutation. The engine's functions take any `Cars.Car` whose address, if present, is valid, so a car whose make, model, year or value changed after construction is still covered.
- Calculator.CalculatePremium: requires `Cars.LocationValid`, as do `Calculator.AdjustRateByLocation` and the lemmas about the engine. This requires stands for the guarantee of the address constructor, which rejects an empty postal code. It drops the engine's `IndexError` path, which Python reaches only when the car holds an address object that did not go through that constructor, whether it was given at construction or assigned later: the car does not check the type of its location.
- Python truthiness of the address objects is modelled as "present". Neither the address dataclass nor the request model defines a falsy state.
