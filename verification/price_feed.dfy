/**
 * The synthetic feed on the sender side of the socket: every instrument of a
 * fixed universe starts at a price drawn from [50, 300), and each tick moves
 * one chosen instrument by a delta drawn from [-3, 3), never below a floor of
 * 1.0, stores the new price in place and emits it. The random choices are
 * parameters here; the pacing delay and the wait for the socket are not modelled.
 */
module PriceFeed {
  import opened Wrappers
  import opened WireCodec

  /** The fixed instrument universe, in the order the data source lists it. */
  const Universe: seq<string> := [
    "AAPL", "GOOG", "TSLA", "AMZN", "MSFT",
    "NVDA", "META", "NFLX", "ORCL", "ADBE",
    "INTC", "CSCO", "IBM", "CRM", "PYPL"
  ]

  const InitialLow: real := 50.0
  const InitialHigh: real := 300.0
  const DeltaLow: real := -3.0
  const DeltaHigh: real := 3.0
  const Floor: real := 1.0

  ghost function UniverseSet(): set<string>
  {
    set i | 0 <= i < |Universe| :: Universe[i]
  }

  /** No instrument is listed twice. */
  lemma UniverseDistinct()
    ensures forall i, j :: 0 <= i < j < |Universe| ==> Universe[i] != Universe[j]
  {
  }

  /** No instrument name holds the wire separator, so every frame the feed writes round-trips. */
  lemma UniverseHasNoSeparator()
    ensures forall i :: 0 <= i < |Universe| ==> Separator !in Universe[i]
  {
  }

  /**
   * Every frame the feed writes for an instrument of the universe comes back
   * from the listener as that instrument at the written price.
   */
  lemma FeedFrameRoundTrip(pick: nat, price: Decimal)
    requires pick < |Universe|
    ensures Decode(Encode(Universe[pick], price)) == Some(PriceUpdate(Universe[pick], Value(price)))
  {
    UniverseHasNoSeparator();
  }

  /** One random-walk move: the current price plus the delta, raised to the floor when below it. */
  function Walk(current: real, delta: real): (r: real)
    ensures r >= Floor && r >= current + delta
    ensures r == current + delta || r == Floor
  {
    if current + delta < Floor then Floor else current + delta
  }

  /** The generator's price table after one tick on `symbol`. */
  function Tick(prices: map<string, real>, symbol: string, delta: real): (r: map<string, real>)
    requires symbol in prices
    ensures r.Keys == prices.Keys
    ensures r[symbol] == Walk(prices[symbol], delta)
    ensures forall s :: s in prices && s != symbol ==> r[s] == prices[s]
  {
    prices[symbol := Walk(prices[symbol], delta)]
  }

  /** The price table after a run of ticks, the i-th on instrument `picks[i]` with delta `deltas[i]`. */
  function Ticks(prices: map<string, real>, picks: seq<nat>, deltas: seq<real>): (r: map<string, real>)
    requires |picks| == |deltas|
    requires prices.Keys == UniverseSet()
    requires forall i :: 0 <= i < |picks| ==> picks[i] < |Universe|
    ensures r.Keys == UniverseSet()
  {
    if picks == [] then prices
    else
      var n := |picks| - 1;
      Tick(Ticks(prices, picks[..n], deltas[..n]), Universe[picks[n]], deltas[n])
  }

  /** No run of ticks ever takes a price below the floor once every price starts at or above it. */
  lemma {:induction false} TicksKeepFloor(prices: map<string, real>, picks: seq<nat>, deltas: seq<real>)
    requires |picks| == |deltas|
    requires prices.Keys == UniverseSet()
    requires forall i :: 0 <= i < |picks| ==> picks[i] < |Universe|
    requires forall s :: s in prices ==> prices[s] >= Floor
    ensures forall s :: s in Ticks(prices, picks, deltas) ==> Ticks(prices, picks, deltas)[s] >= Floor
  {
    if picks != [] {
      var n := |picks| - 1;
      TicksKeepFloor(prices, picks[..n], deltas[..n]);
    }
  }

  /** An instrument that is never picked keeps its price through the whole run. */
  lemma {:induction false} TicksKeepUnpicked(prices: map<string, real>, picks: seq<nat>, deltas: seq<real>, s: string)
    requires |picks| == |deltas|
    requires prices.Keys == UniverseSet()
    requires forall i :: 0 <= i < |picks| ==> picks[i] < |Universe|
    requires s in prices
    requires forall i :: 0 <= i < |picks| ==> Universe[picks[i]] != s
    ensures Ticks(prices, picks, deltas)[s] == prices[s]
  {
    if picks != [] {
      var n := |picks| - 1;
      TicksKeepUnpicked(prices, picks[..n], deltas[..n], s);
    }
  }

  /** The updates a run of ticks emits: one per tick, the picked instrument at its new price. */
  function Emitted(prices: map<string, real>, picks: seq<nat>, deltas: seq<real>): (sent: seq<PriceUpdate>)
    requires |picks| == |deltas|
    requires prices.Keys == UniverseSet()
    requires forall i :: 0 <= i < |picks| ==> picks[i] < |Universe|
    ensures |sent| == |picks|
  {
    if picks == [] then []
    else
      var n := |picks| - 1;
      var symbol := Universe[picks[n]];
      Emitted(prices, picks[..n], deltas[..n]) + [PriceUpdate(symbol, Ticks(prices, picks, deltas)[symbol])]
  }

  /**
   * Every emitted update names the instrument picked for its tick and carries
   * a price at or above the floor, given prices that start at or above it.
   */
  lemma {:induction false} EmittedAboveFloor(prices: map<string, real>, picks: seq<nat>, deltas: seq<real>)
    requires |picks| == |deltas|
    requires prices.Keys == UniverseSet()
    requires forall i :: 0 <= i < |picks| ==> picks[i] < |Universe|
    requires forall s :: s in prices ==> prices[s] >= Floor
    ensures forall i :: 0 <= i < |picks| ==>
      Emitted(prices, picks, deltas)[i].symbol == Universe[picks[i]]
      && Emitted(prices, picks, deltas)[i].price >= Floor
  {
    if picks != [] {
      var n := |picks| - 1;
      EmittedAboveFloor(prices, picks[..n], deltas[..n]);
      TicksKeepFloor(prices, picks, deltas);
    }
  }

  /** The generator state: the running price of every instrument, updated in place. */
  class Generator {
    var prices: map<string, real>

    ghost predicate Valid()
      reads this
    {
      && prices.Keys == UniverseSet()
      && forall s :: s in prices ==> prices[s] >= Floor
    }

    /** Every instrument gets its own initial price, one draw from [50, 300) each. */
    constructor (initial: seq<real>)
      requires |initial| == |Universe|
      requires forall i :: 0 <= i < |initial| ==> InitialLow <= initial[i] < InitialHigh
      ensures Valid()
      ensures forall i :: 0 <= i < |Universe| ==> prices[Universe[i]] == initial[i]
      ensures forall s :: s in prices ==> InitialLow <= prices[s] < InitialHigh
    {
      UniverseDistinct();
      var table: map<string, real> := map[];
      var i := 0;
      while i < |Universe|
        invariant 0 <= i <= |Universe|
        invariant table.Keys == set j | 0 <= j < i :: Universe[j]
        invariant forall j :: 0 <= j < i ==> table[Universe[j]] == initial[j]
        invariant forall s :: s in table ==> InitialLow <= table[s] < InitialHigh
      {
        table := table[Universe[i] := initial[i]];
        i := i + 1;
      }
      prices := table;
    }

    /**
     * One tick: the instrument `Universe[pick]` moves by `delta` (clamped to the
     * floor), only its entry changes, and the emitted update carries exactly
     * that instrument and its new price. Whatever decimal text the price is
     * printed as, the frame written for it decodes back to this update.
     */
    method Step(pick: nat, delta: real) returns (sent: PriceUpdate)
      requires Valid()
      requires pick < |Universe|
      requires DeltaLow <= delta < DeltaHigh
      modifies this
      ensures Valid()
      ensures prices == Tick(old(prices), Universe[pick], delta)
      ensures sent == PriceUpdate(Universe[pick], prices[Universe[pick]])
      ensures forall shown: Decimal :: Value(shown) == sent.price ==> Decode(Encode(sent.symbol, shown)) == Some(sent)
    {
      var symbol := Universe[pick];
      var current := prices[symbol];
      var newPrice := if current + delta < Floor then Floor else current + delta;
      prices := prices[symbol := newPrice];
      sent := PriceUpdate(symbol, newPrice);
      forall shown: Decimal | Value(shown) == sent.price
        ensures Decode(Encode(sent.symbol, shown)) == Some(sent)
      {
        FeedFrameRoundTrip(pick, shown);
      }
    }

    /**
     * The sender loop over a finite run of ticks: the i-th tick picks
     * `Universe[picks[i]]` and applies `deltas[i]`; one update is emitted per
     * tick, in tick order.
     */
    method Run(picks: seq<nat>, deltas: seq<real>) returns (sent: seq<PriceUpdate>)
      requires Valid()
      requires |picks| == |deltas|
      requires forall i :: 0 <= i < |picks| ==> picks[i] < |Universe| && DeltaLow <= deltas[i] < DeltaHigh
      modifies this
      ensures Valid()
      ensures prices == Ticks(old(prices), picks, deltas)
      ensures sent == Emitted(old(prices), picks, deltas)
    {
      ghost var start := prices;
      sent := [];
      var k := 0;
      while k < |picks|
        invariant 0 <= k <= |picks|
        invariant Valid()
        invariant prices == Ticks(start, picks[..k], deltas[..k])
        invariant sent == Emitted(start, picks[..k], deltas[..k])
      {
        var u := Step(picks[k], deltas[k]);
        assert picks[..k + 1][..k] == picks[..k] && deltas[..k + 1][..k] == deltas[..k];
        sent := sent + [u];
        k := k + 1;
      }
      assert picks[..k] == picks && deltas[..k] == deltas;
    }
  }
}
