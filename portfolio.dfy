/** The `portfolioSize` banner: how large the fetched portfolio is. */
module Portfolio {

  /** No banner, "Large Stock Portfolio", or "Very Large Stock Portfolio". */
  datatype SizeTier = NoBanner | Large | VeryLarge

  /** The smallest portfolio that gets the "Large" banner. */
  const LargeThreshold: nat := 100

  /** The smallest portfolio that gets the "Very Large" banner. */
  const VeryLargeThreshold: nat := 200

  /** The banner for a portfolio of `length` records. */
  function PortfolioSize(length: nat): (tier: SizeTier)
    ensures tier == Large <==> 100 <= length < 200
    ensures tier == VeryLarge <==> 200 <= length
    ensures tier == NoBanner <==> length < 100
  {
    if LargeThreshold <= length < VeryLargeThreshold then Large
    else if length >= VeryLargeThreshold then VeryLarge
    else NoBanner
  }

  /** Banners ordered by size. */
  function Rank(tier: SizeTier): nat
  {
    match tier
    case NoBanner => 0
    case Large => 1
    case VeryLarge => 2
  }

  /** A larger portfolio never gets a smaller banner. */
  lemma PortfolioSizeMonotonic(m: nat, n: nat)
    requires m <= n
    ensures Rank(PortfolioSize(m)) <= Rank(PortfolioSize(n))
  {
  }

  /** The banner at each side of both boundaries. */
  lemma PortfolioSizeBoundaries()
    ensures PortfolioSize(0) == NoBanner && PortfolioSize(99) == NoBanner
    ensures PortfolioSize(100) == Large && PortfolioSize(150) == Large && PortfolioSize(199) == Large
    ensures PortfolioSize(200) == VeryLarge && PortfolioSize(1000) == VeryLarge
  {
  }
}
