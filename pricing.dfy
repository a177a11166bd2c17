/** Registration price of a domain name, in wei (1 MATIC = 10^18 wei). */
module Pricing {

  /** 0.5 MATIC: three-character names. */
  const TierA: nat := 500_000_000_000_000_000
  /** 0.3 MATIC: four-character names. */
  const TierB: nat := 300_000_000_000_000_000
  /** 0.1 MATIC: names of five characters or more. */
  const TierC: nat := 100_000_000_000_000_000

  /** The value attached to the `register` call. Only the length of the name matters;
      the minting flow evaluates it only once the name is known to be at least
      three characters long. */
  function Price(name: string): (wei: nat)
    ensures wei == TierA || wei == TierB || wei == TierC
  {
    if |name| == 3 then TierA else if |name| == 4 then TierB else TierC
  }

  /** The three tiers, for every name that passes validation. */
  lemma PriceTiers(name: string)
    requires |name| >= 3
    ensures |name| == 3 ==> Price(name) == TierA
    ensures |name| == 4 ==> Price(name) == TierB
    ensures |name| >= 5 ==> Price(name) == TierC
  {
  }

  /** Names of equal length cost the same, and a longer valid name never costs more;
      moving to a later tier costs strictly less. */
  lemma PriceMonotone(a: string, b: string)
    requires 3 <= |a| <= |b|
    ensures |a| == |b| ==> Price(a) == Price(b)
    ensures Price(b) <= Price(a)
    ensures |a| < |b| && |a| <= 4 ==> Price(b) < Price(a)
  {
  }
}
