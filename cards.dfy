/** Card issuance for an account: a 16-digit card number drawn digit by digit
    from a random source, and an expiry of (current month, two-digit year + 3).
    The random source and the clock are parameters here. */
module Cards {
  import opened Numerals

  /** The calendar date the clock reports (datetime years start at 1). */
  datatype Date = Date(year: nat, month: nat)

  /** A card expiry as the account stores it: (month, two-digit year). */
  datatype Expiry = Expiry(month: nat, year: nat)

  datatype Card = Card(number: string, expiry: Expiry)

  /** The number of card digits the account draws. */
  const CardDigits := 16

  predicate AreDigitDraws(draws: seq<int>) {
    forall i :: 0 <= i < |draws| ==> 0 <= draws[i] < 10
  }

  /** ''.join(str(d) for d in draws): one numeral character per drawn digit, in order. */
  function CardNumber(draws: seq<int>): (number: string)
    requires AreDigitDraws(draws)
    ensures |number| == |draws| && IsDigits(number)
    ensures forall i :: 0 <= i < |draws| ==> DigitValue(number[i]) == draws[i]
  {
    if draws == [] then "" else DecimalString(draws[0]) + CardNumber(draws[1..])
  }

  /** The expiry written the way the account computes it: the year three years on,
      rendered as a numeral, cut to its last two characters and read back. */
  function CardExpiry(today: Date): (e: Expiry)
    ensures e.month == today.month
    ensures e.year == (today.year + 3) % 100
  {
    var yearText := LastTwo(DecimalString(today.year + 3));
    LastTwoDigits(today.year + 3);
    Expiry(today.month, DecimalValue(yearText))
  }
}
