/**
 * The stock records shown by the component and the comparator `sortByTimestamp`
 * that orders two of them newest first.
 */
module Quotes {
  import opened Wrappers

  /** A point in time as `Date.parse` returns it: milliseconds, or `None` for `NaN`. */
  type Instant = Option<int>

  /** The `rates.timestamp` string together with the instant it parses to. */
  datatype Timestamp = Timestamp(text: string, instant: Instant)

  /** The `stock` object of one record: descriptive strings only. */
  datatype Stock = Stock(name: string, symbol: string, industry: string, sector: string)

  /** The `rates` object: buy and sell prices are displayed only, never computed with. */
  datatype Rates = Rates(buy: real, sell: real, timestamp: Timestamp)

  /** One element of `stockData`. */
  datatype StockQuote = StockQuote(stockID: int, stock: Stock, rates: Rates)

  /** The parsed instant of a record's timestamp. */
  function InstantOf(q: StockQuote): Instant
  {
    q.rates.timestamp.instant
  }

  /** JavaScript's `x > y` on two numbers, where any comparison with `NaN` is false. */
  predicate After(x: Instant, y: Instant)
  {
    x.Some? && y.Some? && x.value > y.value
  }

  /** JavaScript's `x < y` on two numbers, where any comparison with `NaN` is false. */
  predicate Before(x: Instant, y: Instant)
  {
    x.Some? && y.Some? && x.value < y.value
  }

  /**
   * The comparator `sortByTimestamp(stockA, stockB)`: negative when A is newer,
   * positive when A is older, zero otherwise, so that a sort puts the newest first.
   */
  function SortByTimestamp(stockA: StockQuote, stockB: StockQuote): (comparison: int)
    ensures comparison in {-1, 0, 1}
    ensures comparison == -1 <==>
      InstantOf(stockA).Some? && InstantOf(stockB).Some? && InstantOf(stockA).value > InstantOf(stockB).value
    ensures comparison == 1 <==>
      InstantOf(stockA).Some? && InstantOf(stockB).Some? && InstantOf(stockA).value < InstantOf(stockB).value
    ensures InstantOf(stockA).None? || InstantOf(stockB).None? ==> comparison == 0
  {
    var stockADate := InstantOf(stockA);
    var stockBDate := InstantOf(stockB);
    if After(stockADate, stockBDate) then -1
    else if Before(stockADate, stockBDate) then 1
    else 0
  }

  /** Swapping the arguments negates the comparison. */
  lemma SortByTimestampAntisymmetric(a: StockQuote, b: StockQuote)
    ensures SortByTimestamp(a, b) == -SortByTimestamp(b, a)
  {
  }

  /** Every record ties with itself, even one whose timestamp does not parse. */
  lemma SortByTimestampReflexive(a: StockQuote)
    ensures SortByTimestamp(a, a) == 0
  {
  }

  /** A record whose timestamp does not parse ties with every record. */
  lemma MalformedTiesWithAll(a: StockQuote, b: StockQuote)
    requires InstantOf(a).None?
    ensures SortByTimestamp(a, b) == 0 && SortByTimestamp(b, a) == 0
  {
  }

  /** Whether every record's timestamp parses. */
  predicate AllParse(s: seq<StockQuote>)
  {
    forall i :: 0 <= i < |s| ==> InstantOf(s[i]).Some?
  }

  /**
   * On records whose timestamps parse, "not after in the sort order" is transitive,
   * so the comparator is a total preorder there.
   */
  lemma SortByTimestampTransitive(a: StockQuote, b: StockQuote, c: StockQuote)
    requires InstantOf(a).Some? && InstantOf(b).Some? && InstantOf(c).Some?
    requires SortByTimestamp(a, b) <= 0 && SortByTimestamp(b, c) <= 0
    ensures SortByTimestamp(a, c) <= 0
    ensures InstantOf(c).value <= InstantOf(a).value
  {
  }

  /** A record with the given parsed instant and otherwise empty payload. */
  function QuoteAt(id: int, instant: Instant): (q: StockQuote)
    ensures q.stockID == id && InstantOf(q) == instant
  {
    StockQuote(id, Stock("", "", "", ""), Rates(0.0, 0.0, Timestamp("", instant)))
  }

  /**
   * Once a timestamp fails to parse, ties are no longer transitive: both ends
   * tie with the malformed record, yet one is strictly newer than the other.
   */
  lemma MalformedBreaksTransitivity()
    ensures var older, bad, newer := QuoteAt(1, Some(1)), QuoteAt(2, None), QuoteAt(3, Some(2));
      SortByTimestamp(older, bad) == 0 && SortByTimestamp(bad, newer) == 0 &&
      SortByTimestamp(older, newer) == 1
  {
  }
}
