/**
 * The screen's controller. Start and Stop clicks open and cancel one
 * collection of the snapshot stream; every snapshot the collection receives is
 * presented as its items sorted by price, highest first; a stream failure turns
 * the flags off and shows the failure's message. The launched coroutine is
 * replaced by explicit calls: OnSnapshot for each snapshot it collects,
 * OnError for the failure its `catch` sees, and OnComplete for a normal end of
 * the stream.
 */
module ViewModel {
  import opened Wrappers
  import opened Domain
  import opened UiState
  import opened WireCodec
  import opened Repository

  // ---------------------------------------------------------------------------
  // Presenting a snapshot: a stable sort by price, descending
  // ---------------------------------------------------------------------------

  ghost predicate NonIncreasing(s: seq<PriceItem>)
  {
    forall i, j :: 0 <= i < j < |s| ==> s[i].price >= s[j].price
  }

  /** The items of `s` whose price is `p`, in their order in `s`. */
  function AtPrice(s: seq<PriceItem>, p: real): seq<PriceItem>
  {
    if s == [] then [] else (if s[0].price == p then [s[0]] else []) + AtPrice(s[1..], p)
  }

  lemma AtPriceCons(x: PriceItem, s: seq<PriceItem>, p: real)
    ensures AtPrice([x] + s, p) == (if x.price == p then [x] else []) + AtPrice(s, p)
  {
    assert ([x] + s)[1..] == s;
  }

  /**
   * Puts `x` in front of the first item that is strictly cheaper than it (or at
   * the end): the result holds `x` and the items of `sorted`, nothing else.
   */
  function InsertByPrice(x: PriceItem, sorted: seq<PriceItem>): (r: seq<PriceItem>)
    ensures multiset(r) == multiset([x] + sorted)
  {
    if sorted == [] || x.price >= sorted[0].price then
      [x] + sorted
    else
      var rest := InsertByPrice(x, sorted[1..]);
      assert sorted == [sorted[0]] + sorted[1..];
      [sorted[0]] + rest
  }

  /** Inserting into a list sorted by price, highest first, keeps it sorted. */
  lemma {:induction false} InsertSorted(x: PriceItem, sorted: seq<PriceItem>)
    requires NonIncreasing(sorted)
    ensures NonIncreasing(InsertByPrice(x, sorted))
  {
    if sorted == [] || x.price >= sorted[0].price {
      ConsSorted(x, sorted);
    } else {
      var head, tail := sorted[0], sorted[1..];
      assert sorted == [head] + tail;
      assert NonIncreasing(tail) by {
        forall i, j | 0 <= i < j < |tail| ensures tail[i].price >= tail[j].price {
          assert tail[i] == sorted[i + 1] && tail[j] == sorted[j + 1];
        }
      }
      InsertSorted(x, tail);
      InsertBehindSorted(x, head, InsertByPrice(x, tail), tail);
    }
  }

  /**
   * Inserting into a sorted list puts `x` before every item of its own price,
   * so the items of each price keep the order they have in `[x] + sorted`.
   */
  lemma {:induction false} InsertStable(x: PriceItem, sorted: seq<PriceItem>, p: real)
    ensures AtPrice(InsertByPrice(x, sorted), p) == AtPrice([x] + sorted, p)
  {
    if !(sorted == [] || x.price >= sorted[0].price) {
      var head, tail := sorted[0], sorted[1..];
      assert sorted == [head] + tail;
      InsertStable(x, tail, p);
      InsertBehindStable(x, head, InsertByPrice(x, tail), tail, p);
    }
  }

  /** An item no cheaper than the head of a sorted list can go in front of it. */
  lemma ConsSorted(x: PriceItem, sorted: seq<PriceItem>)
    requires NonIncreasing(sorted)
    requires sorted == [] || x.price >= sorted[0].price
    ensures NonIncreasing([x] + sorted)
  {
    var r := [x] + sorted;
    forall i, j | 0 <= i < j < |r| ensures r[i].price >= r[j].price {
      assert r[j] == sorted[j - 1];
      if i > 0 {
        assert r[i] == sorted[i - 1];
      } else if j > 1 {
        assert sorted[0].price >= sorted[j - 1].price;
      }
    }
  }

  /** Putting `head` in front of the insertion into the tail keeps the list sorted. */
  lemma InsertBehindSorted(x: PriceItem, head: PriceItem, rest: seq<PriceItem>, tail: seq<PriceItem>)
    requires x.price < head.price
    requires NonIncreasing([head] + tail)
    requires multiset(rest) == multiset([x] + tail) && NonIncreasing(rest)
    ensures NonIncreasing([head] + rest)
  {
    forall y | y in rest ensures y.price <= head.price {
      assert y in multiset([x] + tail);
      if y != x {
        var k :| 0 <= k < |tail| && tail[k] == y;
        assert ([head] + tail)[k + 1] == y && ([head] + tail)[0] == head;
      }
    }
    forall i, j | 0 <= i < j < |[head] + rest| ensures ([head] + rest)[i].price >= ([head] + rest)[j].price {
      if i > 0 {
        assert ([head] + rest)[i] == rest[i - 1];
      }
      assert ([head] + rest)[j] == rest[j - 1];
      assert rest[j - 1] in rest;
    }
  }

  /** ... and keeps the items of price `p` in the order `x`, then the tail's. */
  lemma InsertBehindStable(x: PriceItem, head: PriceItem, rest: seq<PriceItem>, tail: seq<PriceItem>, p: real)
    requires x.price < head.price
    requires AtPrice(rest, p) == AtPrice([x] + tail, p)
    ensures AtPrice([head] + rest, p) == AtPrice([x] + ([head] + tail), p)
  {
    var same := AtPrice(tail, p);
    AtPriceCons(head, rest, p);
    AtPriceCons(x, tail, p);
    AtPriceCons(x, [head] + tail, p);
    AtPriceCons(head, tail, p);
    if head.price == p {
      assert AtPrice([head] + rest, p) == [head] + same;
      assert AtPrice([x] + ([head] + tail), p) == [head] + same;
    } else if x.price == p {
      assert AtPrice([head] + rest, p) == [x] + same;
      assert AtPrice([x] + ([head] + tail), p) == [x] + same;
    } else {
      assert AtPrice([head] + rest, p) == same;
      assert AtPrice([x] + ([head] + tail), p) == same;
    }
  }

  /**
   * `sortedByDescending { it.price }`: the same items, highest price first,
   * and items of equal price in the order they had (a stable sort).
   */
  function SortByPriceDescending(items: seq<PriceItem>): (r: seq<PriceItem>)
    ensures multiset(r) == multiset(items)
    ensures NonIncreasing(r)
    ensures forall p :: AtPrice(r, p) == AtPrice(items, p)
  {
    if items == [] then []
    else
      var sortedRest := SortByPriceDescending(items[1..]);
      var r := InsertByPrice(items[0], sortedRest);
      assert items == [items[0]] + items[1..];
      InsertSorted(items[0], sortedRest);
      assert forall p :: AtPrice(r, p) == AtPrice(items, p) by {
        forall p ensures AtPrice(r, p) == AtPrice(items, p) {
          InsertStable(items[0], sortedRest, p);
          AtPriceCons(items[0], sortedRest, p);
          AtPriceCons(items[0], items[1..], p);
        }
      }
      r
  }

  /** The snapshot the unit test emits: AAPL at 100, GOOG at 200, TSLA at 150, inserted in that order. */
  function TestSnapshot(): (s: Snapshot)
    ensures s.Valid()
  {
    Snapshot(["AAPL", "GOOG", "TSLA"], map[
      "AAPL" := PriceItem("AAPL", 100.0, None),
      "GOOG" := PriceItem("GOOG", 200.0, None),
      "TSLA" := PriceItem("TSLA", 150.0, None)])
  }

  /** Its items in iteration order are AAPL, GOOG, TSLA. */
  lemma TestSnapshotValues()
    ensures TestSnapshot().Values() == [
      PriceItem("AAPL", 100.0, None), PriceItem("GOOG", 200.0, None), PriceItem("TSLA", 150.0, None)]
  {
  }

  lemma SortTestTail()
    ensures SortByPriceDescending([PriceItem("GOOG", 200.0, None), PriceItem("TSLA", 150.0, None)])
         == [PriceItem("GOOG", 200.0, None), PriceItem("TSLA", 150.0, None)]
  {
    var goog, tsla := PriceItem("GOOG", 200.0, None), PriceItem("TSLA", 150.0, None);
    assert [goog, tsla][1..] == [tsla] && [tsla][1..] == [];
    assert SortByPriceDescending([tsla]) == InsertByPrice(tsla, []) == [tsla];
    assert InsertByPrice(goog, [tsla]) == [goog, tsla];
  }

  /** Sorting them gives GOOG (200), TSLA (150), AAPL (100). */
  lemma SortTestItems()
    ensures SortByPriceDescending([
      PriceItem("AAPL", 100.0, None), PriceItem("GOOG", 200.0, None), PriceItem("TSLA", 150.0, None)]) == [
      PriceItem("GOOG", 200.0, None), PriceItem("TSLA", 150.0, None), PriceItem("AAPL", 100.0, None)]
  {
    var aapl, goog, tsla := PriceItem("AAPL", 100.0, None), PriceItem("GOOG", 200.0, None), PriceItem("TSLA", 150.0, None);
    assert [aapl, goog, tsla][1..] == [goog, tsla];
    SortTestTail();
    assert [goog, tsla][1..] == [tsla] && [tsla][1..] == [];
    assert InsertByPrice(aapl, []) == [aapl];
    assert InsertByPrice(aapl, [tsla]) == [tsla, aapl];
    assert InsertByPrice(aapl, [goog, tsla]) == [goog, tsla, aapl];
  }

  /** The unit test's snapshot is presented as GOOG, TSLA, AAPL. */
  lemma TestSnapshotOrder()
    ensures SortByPriceDescending(TestSnapshot().Values()) == [
      PriceItem("GOOG", 200.0, None), PriceItem("TSLA", 150.0, None), PriceItem("AAPL", 100.0, None)]
  {
    TestSnapshotValues();
    SortTestItems();
  }

  // ---------------------------------------------------------------------------
  // The controller as a state machine
  // ---------------------------------------------------------------------------

  /** The two clicks the screen sends. */
  datatype PriceUiEvent = StartClicked | StopClicked

  /**
   * The controller's whole state: the published UI record, whether a stream
   * job reference is held, and whether that job is still collecting. The
   * collection stops when Stop cancels it, after its `catch` has handled a
   * failure, and when the stream ends normally; the reference itself is only
   * dropped by Stop.
   */
  datatype Controller = Controller(ui: PriceUiState, jobActive: bool, collecting: bool)

  /**
   * The two flags always agree; a running collection shows them on; and they
   * are only on while a job reference is held. They can stay on after the
   * collection has ended normally, since no handler runs then.
   */
  ghost predicate Consistent(c: Controller)
  {
    && c.ui.isConnected == c.ui.isStreaming
    && (c.collecting ==> c.ui.isConnected)
    && (c.ui.isConnected ==> c.jobActive)
  }

  /** A new view model: the default UI state, no job, nothing collecting. */
  function Init(): (c: Controller)
    ensures Consistent(c) && c.ui == Initial()
    ensures !c.ui.isConnected && !c.ui.isStreaming && !c.jobActive && !c.collecting
  {
    Controller(Initial(), false, false)
  }

  /** Start: ignored while a job reference is held; otherwise flags on, error cleared, a new collection. */
  function Start(c: Controller): (r: Controller)
    ensures Consistent(c) ==> Consistent(r)
  {
    if c.jobActive then c
    else Controller(c.ui.(isConnected := true, isStreaming := true, errorMessage := None), true, true)
  }

  /** Stop: cancel the job if any, drop the reference, flags off; prices and error stay. */
  function Stop(c: Controller): (r: Controller)
    ensures Consistent(c) ==> Consistent(r)
  {
    Controller(c.ui.(isStreaming := false, isConnected := false), false, false)
  }

  /** A collected snapshot replaces the presented list; nothing arrives once the collection has ended. */
  function Present(c: Controller, snap: Snapshot): (r: Controller)
    requires snap.Valid()
    ensures Consistent(c) ==> Consistent(r)
  {
    if c.collecting then c.(ui := c.ui.(prices := SortByPriceDescending(snap.Values()))) else c
  }

  /** The `catch` handler: flags off and the failure's message (which may be null) shown. */
  function Fail(c: Controller, message: Option<string>): (r: Controller)
    ensures Consistent(c) ==> Consistent(r)
  {
    if c.collecting then
      Controller(c.ui.(isConnected := false, isStreaming := false, errorMessage := message), c.jobActive, false)
    else c
  }

  /**
   * The stream ends normally (the server closed the socket): the collection
   * is over, and no handler touches the UI state or the job reference.
   */
  function Complete(c: Controller): (r: Controller)
    ensures Consistent(c) ==> Consistent(r)
  {
    c.(collecting := false)
  }

  /** `onEvent`: a click dispatched to Start or Stop. */
  function Handle(c: Controller, e: PriceUiEvent): (r: Controller)
    ensures Consistent(c) ==> Consistent(r)
  {
    match e
    case StartClicked => Start(c)
    case StopClicked => Stop(c)
  }

  /** Start without a job: connected and streaming, error cleared, prices untouched, a job held. */
  lemma StartWithoutJob(c: Controller)
    requires !c.jobActive
    ensures Start(c).ui.isConnected && Start(c).ui.isStreaming
    ensures Start(c).ui.errorMessage == None && Start(c).ui.prices == c.ui.prices
    ensures Start(c).jobActive && Start(c).collecting
  {
  }

  /** At most one stream: Start with a job reference held changes nothing. */
  lemma StartWithJobIgnored(c: Controller)
    requires c.jobActive
    ensures Start(c) == c
  {
  }

  /** Stop drops the job and turns both flags off, keeping prices and the error message. */
  lemma StopKeepsPricesAndError(c: Controller)
    ensures !Stop(c).jobActive && !Stop(c).collecting
    ensures !Stop(c).ui.isConnected && !Stop(c).ui.isStreaming
    ensures Stop(c).ui.prices == c.ui.prices && Stop(c).ui.errorMessage == c.ui.errorMessage
  {
  }

  /** Stop before any Start leaves the controller as it was created. */
  lemma StopBeforeStart()
    ensures Stop(Init()) == Init()
  {
  }

  /**
   * A collected snapshot changes only the presented list, which becomes its
   * items, highest price first, ties in the snapshot's order.
   */
  lemma PresentSortsSnapshot(c: Controller, snap: Snapshot)
    requires c.collecting && snap.Valid()
    ensures Present(c, snap).jobActive == c.jobActive && Present(c, snap).collecting
    ensures Present(c, snap).ui.isConnected == c.ui.isConnected
    ensures Present(c, snap).ui.isStreaming == c.ui.isStreaming
    ensures Present(c, snap).ui.errorMessage == c.ui.errorMessage
    ensures multiset(Present(c, snap).ui.prices) == multiset(snap.Values())
    ensures NonIncreasing(Present(c, snap).ui.prices)
    ensures forall p :: AtPrice(Present(c, snap).ui.prices, p) == AtPrice(snap.Values(), p)
  {
  }

  /** After Stop no snapshot reaches the screen any more. */
  lemma NoSnapshotAfterStop(c: Controller, snap: Snapshot)
    requires snap.Valid()
    ensures Present(Stop(c), snap) == Stop(c)
  {
  }

  /** A failure while collecting: flags off, its message shown, prices kept, the job reference kept. */
  lemma FailShowsMessage(c: Controller, message: Option<string>)
    requires c.collecting
    ensures !Fail(c, message).ui.isConnected && !Fail(c, message).ui.isStreaming
    ensures Fail(c, message).ui.errorMessage == message
    ensures Fail(c, message).ui.prices == c.ui.prices
    ensures Fail(c, message).jobActive == c.jobActive && !Fail(c, message).collecting
  {
  }

  /** Start clicked `n` times in a row. */
  function StartRepeatedly(c: Controller, n: nat): Controller
    decreases n
  {
    if n == 0 then c else StartRepeatedly(Start(c), n - 1)
  }

  /**
   * After a failure the job reference is still held, so no number of Start
   * clicks restarts the stream; a Stop first makes the next Start work again.
   */
  lemma {:induction false} StartIgnoredAfterFailure(c: Controller, message: Option<string>, n: nat)
    requires Consistent(c) && c.collecting
    ensures StartRepeatedly(Fail(c, message), n) == Fail(c, message)
    ensures !StartRepeatedly(Fail(c, message), n).ui.isStreaming
    ensures Start(Stop(Fail(c, message))).ui.isStreaming
  {
    if n > 0 {
      StartIgnoredAfterFailure(c, message, n - 1);
    }
  }

  /**
   * After a normal end of the stream the flags stay on and the job reference
   * stays held: no later snapshot or failure reaches the screen, Start clicks
   * change nothing, and only Stop followed by Start streams again.
   */
  lemma {:induction false} StartIgnoredAfterCompletion(c: Controller, snap: Snapshot, message: Option<string>, n: nat)
    requires Consistent(c) && c.collecting && snap.Valid()
    ensures Complete(c).ui == c.ui && Complete(c).ui.isStreaming && Complete(c).jobActive
    ensures Present(Complete(c), snap) == Complete(c) && Fail(Complete(c), message) == Complete(c)
    ensures StartRepeatedly(Complete(c), n) == Complete(c)
    ensures Start(Stop(Complete(c))).ui.isStreaming
  {
    if n > 0 {
      StartIgnoredAfterCompletion(c, snap, message, n - 1);
    }
  }

  /** The controller after presenting a run of snapshots, in order. */
  function PresentAll(c: Controller, snaps: seq<Snapshot>): Controller
    requires forall i :: 0 <= i < |snaps| ==> snaps[i].Valid()
  {
    if snaps == [] then c
    else
      var n := |snaps| - 1;
      Present(PresentAll(c, snaps[..n]), snaps[n])
  }

  /**
   * Collecting a repository stream: the first snapshot is the empty one, so
   * Start followed by the first snapshot clears the list kept from an earlier
   * run; after the whole stream the list is the latest snapshot's items sorted
   * by price, and the flags are still on.
   */
  lemma {:induction false} PresentStream(c: Controller, us: seq<PriceUpdate>)
    requires c.collecting
    ensures Present(c, Scan(us)[0]).ui.prices == []
    ensures PresentAll(c, Scan(us)) == c.(ui := c.ui.(prices := SortByPriceDescending(Latest(us).Values())))
  {
    var snaps := Scan(us);
    assert snaps[0].Values() == [];
    var n := |us|;
    assert snaps[n] == Latest(us);
    if us == [] {
      assert snaps[..0] == [];
    } else {
      var m := n - 1;
      PresentStream(c, us[..m]);
      assert Scan(us[..m]) == snaps[..n];
      var before := PresentAll(c, snaps[..n]);
      assert PresentAll(c, snaps) == Present(before, snaps[n]);
    }
  }

  // ---------------------------------------------------------------------------
  // The view model object
  // ---------------------------------------------------------------------------

  /**
   * The view model: the state flow's current value and the stream job. Each
   * method is one handler and moves the whole state as the matching transition.
   */
  class PriceViewModel {
    var state: PriceUiState
    var jobActive: bool
    var collecting: bool

    function Model(): Controller
      reads this
    {
      Controller(state, jobActive, collecting)
    }

    ghost predicate Valid()
      reads this
    {
      Consistent(Model())
    }

    constructor ()
      ensures Model() == Init() && Valid()
    {
      state := Initial();
      jobActive := false;
      collecting := false;
    }

    method OnEvent(event: PriceUiEvent)
      requires Valid()
      modifies this
      ensures Valid()
      ensures Model() == Handle(old(Model()), event)
    {
      match event
      case StartClicked => StartStream();
      case StopClicked => StopStream();
    }

    method StartStream()
      requires Valid()
      modifies this
      ensures Valid()
      ensures Model() == Start(old(Model()))
    {
      if jobActive {
        return;
      }
      state := state.(isConnected := true, isStreaming := true, errorMessage := None);
      jobActive := true;
      collecting := true;
    }

    method StopStream()
      requires Valid()
      modifies this
      ensures Valid()
      ensures Model() == Stop(old(Model()))
    {
      jobActive := false;
      collecting := false;
      state := state.(isStreaming := false, isConnected := false);
    }

    /** The `collectLatest` handler for one collected snapshot. */
    method OnSnapshot(snap: Snapshot)
      requires Valid() && snap.Valid()
      modifies this
      ensures Valid()
      ensures Model() == Present(old(Model()), snap)
    {
      if collecting {
        state := state.(prices := SortByPriceDescending(snap.Values()));
      }
    }

    /** The normal end of the stream: the collection stops and nothing on screen changes. */
    method OnComplete()
      requires Valid()
      modifies this
      ensures Valid()
      ensures Model() == Complete(old(Model()))
    {
      collecting := false;
    }

    /** The `catch` handler for a failure of the stream, with the failure's message. */
    method OnError(message: Option<string>)
      requires Valid()
      modifies this
      ensures Valid()
      ensures Model() == Fail(old(Model()), message)
    {
      if collecting {
        state := state.(isConnected := false, isStreaming := false, errorMessage := message);
        collecting := false;
      }
    }
  }
}
