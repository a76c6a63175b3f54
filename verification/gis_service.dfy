/** The location risk factor: a placeholder heuristic that reads the last
    postal-code character as a digit and maps it onto [-1, 1], falling back to
    0.0 for a missing address or an unreadable postal code instead of failing. */
module Gis {
  import opened Results
  import Addresses
  import Digits

  /** The factor for a postal code ending in digit `k`, centred on 4.5. */
  function DigitRisk(k: nat): (f: real)
    requires k <= 9
    ensures -1.0 <= f <= 1.0
    ensures f != 0.0
  {
    (k as real - 4.5) / 4.5
  }

  /** The risk factor of an optional address. The address is not assumed valid: an empty
      postal code falls back to 0.0 like a non-digit last character does. */
  function RiskFactor(address: Option<Addresses.Address>): (f: real)
    ensures -1.0 <= f <= 1.0
    ensures address.None? ==> f == 0.0
    ensures address.Some? && address.value.postalCode == [] ==> f == 0.0
    ensures address.Some? && address.value.postalCode != [] ==>
      var k := Digits.DigitValue(address.value.postalCode[|address.value.postalCode| - 1]);
      (k.None? ==> f == 0.0) && (k.Some? ==> f == DigitRisk(k.value))
  {
    if address.None? then 0.0
    else
      var code := address.value.postalCode;
      if |code| == 0 then 0.0
      else
        match Digits.DigitValue(code[|code| - 1])
        case None => 0.0
        case Some(k) => DigitRisk(k)
  }

  /** For a valid address the risk factor reads the same last postal-code character as the
      rating engine's location adjustment: no digit gives 0.0, digit k gives its factor. */
  lemma ReadsSameCharacterAsEngine(a: Addresses.Address)
    requires Addresses.Valid(a)
    ensures Digits.DigitValue(Addresses.LastPostalChar(a)).None? ==> RiskFactor(Some(a)) == 0.0
    ensures Digits.DigitValue(Addresses.LastPostalChar(a)).Some? ==>
      RiskFactor(Some(a)) == DigitRisk(Digits.DigitValue(Addresses.LastPostalChar(a)).value)
  {
  }

  /** 0.0 is the factor exactly when there is no address or no readable last digit: no
      digit maps to it. */
  lemma ZeroMeansNoDigit(address: Option<Addresses.Address>)
    ensures RiskFactor(address) == 0.0 <==>
      address.None? || address.value.postalCode == []
      || Digits.DigitValue(address.value.postalCode[|address.value.postalCode| - 1]).None?
  {
  }

  /** Digit 0 gives the lowest factor, -1.0, and digit 9 the highest, 1.0. */
  lemma DigitRiskEndpoints()
    ensures DigitRisk(0) == -1.0 && DigitRisk(9) == 1.0
  {
  }

  /** A larger last digit always gives a larger factor. */
  lemma DigitRiskStrictlyIncreasing(j: nat, k: nat)
    requires j < k <= 9
    ensures DigitRisk(j) < DigitRisk(k)
  {
  }
}
