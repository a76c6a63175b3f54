/** The registration address: an immutable value object whose city, state and
    postal code must be non-empty; the street is optional and unconstrained. */
module Addresses {
  import opened Results

  datatype Address = Address(city: string, state: string, postalCode: string, street: Option<string>)

  predicate Valid(a: Address) {
    a.city != [] && a.state != [] && a.postalCode != []
  }

  /** The checks of construction, in the order they are made. */
  function Checks(city: string, state: string, postalCode: string): seq<Check> {
    [ Check(city != [], CityEmpty),
      Check(state != [], StateEmpty),
      Check(postalCode != [], PostalCodeEmpty) ]
  }

  /** Builds a valid address or reports the first empty field. */
  function NewAddress(city: string, state: string, postalCode: string, street: Option<string>): (r: Result<Address>)
    ensures r.Ok? <==> city != [] && state != [] && postalCode != []
    ensures r.Ok? ==> r.value == Address(city, state, postalCode, street) && Valid(r.value)
  {
    var checks := Checks(city, state, postalCode);
    assert (forall i :: 0 <= i < |checks| ==> checks[i].holds) <==> checks[0].holds && checks[1].holds && checks[2].holds;
    Validated(checks, Address(city, state, postalCode, street))
  }

  /** Only the first empty field is reported, in the order city, state, postal code. */
  lemma AddressChecksInOrder(city: string, state: string, postalCode: string, street: Option<string>)
    ensures city == [] ==> NewAddress(city, state, postalCode, street) == Err(CityEmpty)
    ensures city != [] && state == [] ==> NewAddress(city, state, postalCode, street) == Err(StateEmpty)
    ensures city != [] && state != [] && postalCode == [] ==> NewAddress(city, state, postalCode, street) == Err(PostalCodeEmpty)
  {
    var checks := Checks(city, state, postalCode);
    var a := Address(city, state, postalCode, street);
    if city == [] {
      ValidatedFailsAt(checks, 0, a);
    } else if state == [] {
      ValidatedFailsAt(checks, 1, a);
    } else if postalCode == [] {
      ValidatedFailsAt(checks, 2, a);
    }
  }

  /** The street never decides validity. */
  lemma StreetUnconstrained(city: string, state: string, postalCode: string, s1: Option<string>, s2: Option<string>)
    ensures NewAddress(city, state, postalCode, s1).Ok? <==> NewAddress(city, state, postalCode, s2).Ok?
  {
  }

  /** A valid address always has a last postal-code character to read: the postal code is
      the rest of it followed by that character. */
  function LastPostalChar(a: Address): (c: char)
    requires Valid(a)
    ensures a.postalCode == a.postalCode[..|a.postalCode| - 1] + [c]
  {
    a.postalCode[|a.postalCode| - 1]
  }
}
