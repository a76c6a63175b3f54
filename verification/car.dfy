/** The insured car: make, model, year and value checked once at
    construction, an optional registration address, and an age computed from
    the year in which it is asked for. */
module Cars {
  import opened Results
  import Addresses

  datatype Car = Car(make: string, model: string, year: int, value: real, location: Option<Addresses.Address>)

  const MinYear: int := 1900

  /** The latest model year accepted in `currentYear`. */
  function MaxYear(currentYear: int): int {
    currentYear + 1
  }

  predicate Valid(car: Car, currentYear: int) {
    car.make != [] && car.model != [] && MinYear <= car.year <= MaxYear(currentYear) && car.value > 0.0
  }

  /** What the type of the location promises: an address present is one that was validly built. */
  predicate LocationValid(car: Car) {
    car.location.Some? ==> Addresses.Valid(car.location.value)
  }

  /** The checks of construction, in the order they are made. */
  function Checks(make: string, model: string, year: int, value: real, currentYear: int): seq<Check> {
    [ Check(make != [], MakeEmpty),
      Check(model != [], ModelEmpty),
      Check(!(year < MinYear || year > MaxYear(currentYear)), YearOutOfRange(MaxYear(currentYear))),
      Check(!(value <= 0.0), ValueNotPositive) ]
  }

  /** Builds a car in `currentYear` or reports the first violated check; the location is carried as given. */
  function NewCar(make: string, model: string, year: int, value: real, location: Option<Addresses.Address>, currentYear: int): (r: Result<Car>)
    ensures r.Ok? <==> make != [] && model != [] && MinYear <= year <= MaxYear(currentYear) && value > 0.0
    ensures r.Ok? ==> r.value == Car(make, model, year, value, location) && Valid(r.value, currentYear)
  {
    var checks := Checks(make, model, year, value, currentYear);
    assert (forall i :: 0 <= i < |checks| ==> checks[i].holds)
      <==> checks[0].holds && checks[1].holds && checks[2].holds && checks[3].holds;
    Validated(checks, Car(make, model, year, value, location))
  }

  /** Only the first violation is reported, in the order make, model, year, value. */
  lemma CarChecksInOrder(make: string, model: string, year: int, value: real, location: Option<Addresses.Address>, currentYear: int)
    ensures make == [] ==> NewCar(make, model, year, value, location, currentYear) == Err(MakeEmpty)
    ensures make != [] && model == [] ==> NewCar(make, model, year, value, location, currentYear) == Err(ModelEmpty)
    ensures make != [] && model != [] && (year < MinYear || year > MaxYear(currentYear)) ==>
      NewCar(make, model, year, value, location, currentYear) == Err(YearOutOfRange(MaxYear(currentYear)))
    ensures make != [] && model != [] && MinYear <= year <= MaxYear(currentYear) && value <= 0.0 ==>
      NewCar(make, model, year, value, location, currentYear) == Err(ValueNotPositive)
  {
    var checks := Checks(make, model, year, value, currentYear);
    var car := Car(make, model, year, value, location);
    if make == [] {
      ValidatedFailsAt(checks, 0, car);
    } else if model == [] {
      ValidatedFailsAt(checks, 1, car);
    } else if year < MinYear || year > MaxYear(currentYear) {
      ValidatedFailsAt(checks, 2, car);
    } else if value <= 0.0 {
      ValidatedFailsAt(checks, 3, car);
    }
  }

  /** The registration location is not validated by the car: any address value is accepted. */
  lemma AnyLocationAccepted(make: string, model: string, year: int, value: real,
                            l1: Option<Addresses.Address>, l2: Option<Addresses.Address>, currentYear: int)
    ensures NewCar(make, model, year, value, l1, currentYear).Ok? <==> NewCar(make, model, year, value, l2, currentYear).Ok?
  {
  }

  /** The age in `currentYear`, the year in which it is asked for rather than the year of construction. */
  function Age(car: Car, currentYear: int): (age: int)
    ensures Valid(car, currentYear) ==> -1 <= age <= currentYear - MinYear
    ensures car.year == MaxYear(currentYear) ==> age == -1
  {
    currentYear - car.year
  }

  /** A car built in one year is at least one year less new in every later year. */
  lemma AgeGrowsWithTime(car: Car, builtIn: int, askedIn: int)
    requires Valid(car, builtIn) && builtIn <= askedIn
    ensures Age(car, askedIn) == Age(car, builtIn) + (askedIn - builtIn) >= -1
  {
  }
}
