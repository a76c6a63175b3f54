/** Reading one character as a decimal digit, as `int(c)` does for a single
    character: only '0'..'9' are digits here. */
module Digits {
  import opened Results

  function DigitValue(c: char): (r: Option<nat>)
    ensures r.Some? <==> '0' <= c <= '9'
    ensures r.Some? ==> r.value <= 9 && c == (('0' as int) + r.value) as char
  {
    if '0' <= c <= '9' then Some((c as int - '0' as int) as nat) else None
  }

  /** Every digit value is read back from the character that spells it. */
  lemma DigitRoundTrip(k: nat)
    requires k <= 9
    ensures DigitValue((('0' as int) + k) as char) == Some(k)
  {
  }
}
