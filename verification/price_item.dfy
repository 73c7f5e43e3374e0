/**
 * The aggregated quote entity: a symbol, its latest price and the price observed
 * just before it, with the up/down/flat direction derived from the two.
 */
module Domain {
  import opened Wrappers

  /** Which way the latest price moved against the previous one. */
  datatype PriceDirection = Up | Down | Flat

  /** One row of the snapshot. `previousPrice` is `None` for a symbol's first observation. */
  datatype PriceItem = PriceItem(symbol: string, price: real, previousPrice: Option<real>)
  {
    /** The derived direction: total, and exactly one of the three cases applies. */
    function Direction(): (d: PriceDirection)
      ensures d == Up <==> previousPrice.Some? && price > previousPrice.value
      ensures d == Down <==> previousPrice.Some? && price < previousPrice.value
      ensures d == Flat <==> previousPrice.None? || price == previousPrice.value
    {
      match previousPrice
      case None => Flat
      case Some(prev) =>
        if price > prev then Up
        else if price < prev then Down
        else Flat
    }
  }

  /** An item built from symbol and price only: `previousPrice` takes its default, null. */
  function FirstObservation(symbol: string, price: real): (item: PriceItem)
    ensures item.symbol == symbol && item.price == price && item.previousPrice == None
    ensures item.Direction() == Flat
  {
    PriceItem(symbol, price, None)
  }

  /** The three non-null cases, as the item's getter orders them. */
  lemma DirectionAgainstPrevious(symbol: string, price: real, prev: real)
    ensures price > prev ==> PriceItem(symbol, price, Some(prev)).Direction() == Up
    ensures price < prev ==> PriceItem(symbol, price, Some(prev)).Direction() == Down
    ensures price == prev ==> PriceItem(symbol, price, Some(prev)).Direction() == Flat
  {
  }
}
