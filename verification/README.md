# Price tracker: a Dafny model of the live-price pipeline

The price tracker is a small Android app. A data source sends random
`SYMBOL;PRICE` text frames through an echo WebSocket. It reads the echoed
frames back and decodes them into price updates. A repository folds the
updates into a keyed snapshot `symbol -> PriceItem`, where each item keeps the
price its symbol had before. A view model shows every snapshot as a list sorted
by price, highest first. Start and Stop buttons drive it, and the flags and an
error message are published in one UI state record.

This project models each step of that chain and proves properties about it:

- `price_item.dfy` (module `Domain`): the `PriceItem` record and its
  `Up`/`Down`/`Flat` direction.
- `ui_state.dfy` (module `UiState`): the UI state record and its defaults.
- `wire_codec.dfy` (module `WireCodec`): the frame codec.
  - `Split` behaves like Kotlin's `split(";")`.
  - `ParseNumber` parses a decimal number.
  - `Encode` and `Decode` build and read frames.
  - A concrete decimal type `Decimal` has a `Format` whose output `ParseNumber`
    reads back exactly, so the round trip is proved rather than assumed.
- `price_feed.dfy` (module `PriceFeed`): the sender-side generator.
  - It is a class whose price table is updated in place.
  - Its random choices (the instrument picked, the delta, the initial prices)
    are parameters with the source's ranges as preconditions.
- `repository.dfy` (module `Repository`): the `scan` fold of updates into
  snapshots. A snapshot is an insertion-ordered map (`order` plus `items`),
  because Kotlin's `acc + (k to v)` keeps insertion order. That order is what
  the view model's stable sort sees for equal prices.
- `view_model.dfy` (module `ViewModel`): the controller.
  - A stable descending sort, specified as a permutation, non-increasing in
    price, with the items of each price in their original order.
  - A pure transition system `Controller`.
  - The class `PriceViewModel`, whose handler methods update its fields as
    those transitions do.
  - The launched coroutine is replaced by explicit calls: `OnSnapshot` for each
    collected snapshot, `OnError` for the failure the `catch` sees, and
    `OnComplete` for a normal end of the stream.
  - The field `collecting` records whether the launched collection still runs.
    It is false after Stop cancels it, after the `catch` handler has run, and
    after the stream has ended normally. In that last case the on-screen flags
    stay on and the job reference stays held, because no handler runs.
- `wrappers.dfy`: `Option`.

Prices are exact `real` numbers.

The model follows the code on these points, where a reader might expect
otherwise:

- `Decode` splits on every `;`, so `"A;1;2"` is dropped.
- `Decode` accepts an empty symbol: `";100"` gives an update for `""`.
- After a stream failure, the stream job reference is kept. Start is then
  ignored until Stop has been pressed.
- A stream that ends normally changes no view-model state. The flags stay on,
  and Start stays ignored until Stop has been pressed.

## Model

| member | source | states |
|---|---|---|
| Domain.PriceItem.Direction | app/src/main/java/com/example/pricetracker/domain/model/PriceItem.kt:8-14 | Up exactly when a previous price exists and the price is above it; Down exactly when it exists and the price is below it; Flat exactly when there is none or the two are equal |
| Domain.FirstObservation | app/src/main/java/com/example/pricetracker/domain/model/PriceItem.kt:3-10 | an item built from symbol and price only keeps them, has no previous price (the default null) and is Flat |
| Domain.DirectionAgainstPrevious | app/src/main/java/com/example/pricetracker/domain/model/PriceItem.kt:9-14 | with a previous price, a higher price is Up, a lower one Down, an equal one Flat |
| UiState.Initial | app/src/main/java/com/example/pricetracker/ui/PriceUiState.kt:5-10 | the default state is not connected, not streaming, no prices, no error message |
| WireCodec.Split | app/src/main/java/com/example/pricetracker/data/websocket/PriceWebSocketDataSource.kt:73 | splitting gives one more part than there are separators, no part holds a separator, and joining the parts with `;` gives back the text |
| WireCodec.SplitNoSeparator | app/src/main/java/com/example/pricetracker/data/websocket/PriceWebSocketDataSource.kt:73 | text without `;` splits into itself alone |
| WireCodec.SplitJoin | app/src/main/java/com/example/pricetracker/data/websocket/PriceWebSocketDataSource.kt:73 | splitting the `;`-join of separator-free parts gives back those parts |
| WireCodec.ParseNumber | app/src/main/java/com/example/pricetracker/data/websocket/PriceWebSocketDataSource.kt:76 | a parsed number comes from non-empty text made only of digits, `.`, `+` and `-` |
| WireCodec.Format | app/src/main/java/com/example/pricetracker/data/websocket/PriceWebSocketDataSource.kt:61 | the printed price reads back through the number parser as exactly the decimal's value, and never contains the `;` separator |
| WireCodec.Encode | app/src/main/java/com/example/pricetracker/data/websocket/PriceWebSocketDataSource.kt:61 | the frame `symbol;price` decodes back to the symbol and the price's value whenever the symbol has no `;` |
| WireCodec.Decode | app/src/main/java/com/example/pricetracker/data/websocket/PriceWebSocketDataSource.kt:71-81 | a decoded frame has exactly one `;`, and its symbol is exactly the text before it |
| WireCodec.DecodeNeedsOneSeparator | app/src/main/java/com/example/pricetracker/data/websocket/PriceWebSocketDataSource.kt:73-74 | a frame with no `;` or with two or more is dropped |
| WireCodec.DecodeOneSeparator | app/src/main/java/com/example/pricetracker/data/websocket/PriceWebSocketDataSource.kt:73-78 | a frame with one `;` gives the text before it as symbol exactly when the text after it parses, with that parsed price |
| WireCodec.DecodeEmptySymbol | app/src/main/java/com/example/pricetracker/data/websocket/PriceWebSocketDataSource.kt:73-78 | `";100"` is accepted as the empty symbol at 100 |
| WireCodec.DecodeEmptyPrice | app/src/main/java/com/example/pricetracker/data/websocket/PriceWebSocketDataSource.kt:76-77 | `"AAPL;"` is dropped |
| WireCodec.DecodeNotANumber | app/src/main/java/com/example/pricetracker/data/websocket/PriceWebSocketDataSource.kt:76-77 | `"AAPL;notanumber"` is dropped |
| WireCodec.DecodeWrongPartCount | app/src/main/java/com/example/pricetracker/data/websocket/PriceWebSocketDataSource.kt:73-74 | `"AAPL"` and `"AAPL;1;2"` are dropped |
| WireCodec.Received | app/src/main/java/com/example/pricetracker/data/websocket/PriceWebSocketDataSource.kt:71-81 | the listener forwards at most one update per frame |
| WireCodec.EchoRoundTrip | app/src/main/java/com/example/pricetracker/data/websocket/PriceWebSocketDataSource.kt:60-81 | echoing a run of encoded quotes with `;`-free symbols delivers exactly their updates, in order, none dropped |
| PriceFeed.UniverseDistinct | app/src/main/java/com/example/pricetracker/data/websocket/PriceWebSocketDataSource.kt:21-25 | the fifteen instruments are pairwise distinct |
| PriceFeed.UniverseHasNoSeparator | app/src/main/java/com/example/pricetracker/data/websocket/PriceWebSocketDataSource.kt:21-25 | no instrument name contains `;` |
| PriceFeed.FeedFrameRoundTrip | app/src/main/java/com/example/pricetracker/data/websocket/PriceWebSocketDataSource.kt:61-78 | every frame the feed writes for an instrument decodes to that instrument at the written price |
| PriceFeed.Walk | app/src/main/java/com/example/pricetracker/data/websocket/PriceWebSocketDataSource.kt:57 | the new price is the old price plus the delta, or the floor 1.0 when that sum is below it; it is never below either |
| PriceFeed.Tick | app/src/main/java/com/example/pricetracker/data/websocket/PriceWebSocketDataSource.kt:54-58 | one tick keeps the key set, walks the picked instrument and leaves every other price as it was |
| PriceFeed.Ticks | app/src/main/java/com/example/pricetracker/data/websocket/PriceWebSocketDataSource.kt:51-58 | a run of ticks keeps the key set equal to the instrument universe |
| PriceFeed.TicksKeepFloor | app/src/main/java/com/example/pricetracker/data/websocket/PriceWebSocketDataSource.kt:51-58 | prices that start at or above 1.0 stay there through any run of ticks |
| PriceFeed.TicksKeepUnpicked | app/src/main/java/com/example/pricetracker/data/websocket/PriceWebSocketDataSource.kt:54-58 | an instrument never picked keeps its price through the run |
| PriceFeed.Emitted | app/src/main/java/com/example/pricetracker/data/websocket/PriceWebSocketDataSource.kt:51-62 | one update is emitted per tick |
| PriceFeed.EmittedAboveFloor | app/src/main/java/com/example/pricetracker/data/websocket/PriceWebSocketDataSource.kt:51-62 | the i-th emitted update names the i-th picked instrument and carries a price of at least 1.0 |
| PriceFeed.Generator.constructor | app/src/main/java/com/example/pricetracker/data/websocket/PriceWebSocketDataSource.kt:49 | every instrument of the universe gets its own initial draw, each in [50, 300) |
| PriceFeed.Generator.Step | app/src/main/java/com/example/pricetracker/data/websocket/PriceWebSocketDataSource.kt:54-62 | the table becomes one tick of the old one (only the picked entry changes, clamped to 1.0), prices stay at or above 1.0, the update sent is the picked instrument at its new price, and the frame written for it decodes back to that update whatever decimal text shows the price |
| PriceFeed.Generator.Run | app/src/main/java/com/example/pricetracker/data/websocket/PriceWebSocketDataSource.kt:51-63 | the sender loop leaves the table as the run of ticks makes it and sends exactly the run's updates, in tick order |
| Repository.Snapshot.Values | app/src/main/java/com/example/pricetracker/ui/PriceViewModel.kt:45 | the values list one item per key, in insertion order |
| Repository.Empty | app/src/main/java/com/example/pricetracker/data/repository/PriceRepositoryImpl.kt:15 | the scan starts from the empty map |
| Repository.Fold | app/src/main/java/com/example/pricetracker/data/repository/PriceRepositoryImpl.kt:15-23 | the keys grow by the update's symbol only; its entry has the update's symbol and price and, as previous price, the old entry's price or null; every other entry is unchanged; a new key goes last and a replaced key keeps its place |
| Repository.FoldDirection | app/src/main/java/com/example/pricetracker/data/repository/PriceRepositoryImpl.kt:16-21 | the new item is Flat on a symbol's first update, and otherwise Up or Down exactly when the price rose or fell |
| Repository.Scan | app/src/main/java/com/example/pricetracker/data/repository/PriceRepositoryImpl.kt:13-23 | the stream is the empty snapshot followed by one snapshot per update, each the fold of the one before, the last one the latest snapshot |
| Repository.Latest | app/src/main/java/com/example/pricetracker/data/repository/PriceRepositoryImpl.kt:15-23 | the accumulator after the whole run is a valid snapshot (its contents are stated by LatestItem and LatestKeys) |
| Repository.ScanExtends | app/src/main/java/com/example/pricetracker/data/repository/PriceRepositoryImpl.kt:22 | a further update leaves every earlier snapshot as it was |
| Repository.FoldItem | app/src/main/java/com/example/pricetracker/data/repository/PriceRepositoryImpl.kt:16-22 | one fold step keeps a symbol's item equal to its last price, with the price before that as previous price |
| Repository.LatestItem | app/src/main/java/com/example/pricetracker/data/repository/PriceRepositoryImpl.kt:15-23 | after any run a symbol is present exactly when some update carried it; its item holds its last price, and as previous price the one before that, or null if it was seen once |
| Repository.LatestKeys | app/src/main/java/com/example/pricetracker/data/repository/PriceRepositoryImpl.kt:22 | the latest snapshot's keys are the symbols seen, so its size is the number of distinct symbols |
| Repository.PreviousPriceTracked | app/src/test/java/com/example/pricetracker/PriceViewModelTest.kt:79-102 | s at 100 then s at 110 gives an item at 110 with previous price 100 |
| ViewModel.SortByPriceDescending | app/src/main/java/com/example/pricetracker/ui/PriceViewModel.kt:44-46 | the list is a permutation of the values, non-increasing in price, with items of equal price in their original order |
| ViewModel.TestSnapshotOrder | app/src/test/java/com/example/pricetracker/PriceViewModelTest.kt:55-76 | {AAPL:100, GOOG:200, TSLA:150} is shown as GOOG, TSLA, AAPL |
| ViewModel.Init | app/src/main/java/com/example/pricetracker/ui/PriceViewModel.kt:19-22 | a fresh controller shows the default UI state, holds no job and keeps the flag invariant |
| ViewModel.Start | app/src/main/java/com/example/pricetracker/ui/PriceViewModel.kt:31-42 | Start keeps the flag invariant: both flags agree, are on while collecting and only on while a job is held (its effect is stated by StartWithoutJob and StartWithJobIgnored) |
| ViewModel.Stop | app/src/main/java/com/example/pricetracker/ui/PriceViewModel.kt:62-71 | Stop keeps the flag invariant (its effect is stated by StopKeepsPricesAndError) |
| ViewModel.Present | app/src/main/java/com/example/pricetracker/ui/PriceViewModel.kt:44-58 | presenting a snapshot keeps the flag invariant (its effect is stated by PresentSortsSnapshot) |
| ViewModel.Fail | app/src/main/java/com/example/pricetracker/ui/PriceViewModel.kt:47-55 | the `catch` handler keeps the flag invariant (its effect is stated by FailShowsMessage) |
| ViewModel.Complete | app/src/main/java/com/example/pricetracker/ui/PriceViewModel.kt:42-58 | a normal end of the stream keeps the flag invariant, with the flags possibly left on (its effect is stated by StartIgnoredAfterCompletion) |
| ViewModel.Handle | app/src/main/java/com/example/pricetracker/ui/PriceViewModel.kt:24-29 | a click keeps the flag invariant |
| ViewModel.StartWithoutJob | app/src/main/java/com/example/pricetracker/ui/PriceViewModel.kt:31-42 | Start with no job sets connected and streaming, clears the error, keeps the prices and holds a job |
| ViewModel.StartWithJobIgnored | app/src/main/java/com/example/pricetracker/ui/PriceViewModel.kt:32 | Start while a job is held changes nothing |
| ViewModel.StopKeepsPricesAndError | app/src/main/java/com/example/pricetracker/ui/PriceViewModel.kt:62-71 | Stop drops the job and turns both flags off, keeping the prices and the error message |
| ViewModel.StopBeforeStart | app/src/main/java/com/example/pricetracker/ui/PriceViewModel.kt:63 | Stop on a fresh view model leaves it as it was |
| ViewModel.PresentSortsSnapshot | app/src/main/java/com/example/pricetracker/ui/PriceViewModel.kt:44-58 | a collected snapshot changes only the prices, which become its values as a permutation, non-increasing, stable for equal prices |
| ViewModel.NoSnapshotAfterStop | app/src/main/java/com/example/pricetracker/ui/PriceViewModel.kt:62-71 | once stopped, a late snapshot changes nothing |
| ViewModel.FailShowsMessage | app/src/main/java/com/example/pricetracker/ui/PriceViewModel.kt:47-55 | a failure turns both flags off and shows its message; the prices and the job reference stay |
| ViewModel.StartIgnoredAfterFailure | app/src/main/java/com/example/pricetracker/ui/PriceViewModel.kt:32-71 | after a failure any number of Start clicks change nothing, while Stop then Start streams again |
| ViewModel.StartIgnoredAfterCompletion | app/src/main/java/com/example/pricetracker/ui/PriceViewModel.kt:32-71 | after a normal end of the stream the UI state is unchanged with both flags on and the job held; no later snapshot or failure changes anything, Start clicks change nothing, and Stop then Start streams again |
| ViewModel.PresentStream | app/src/main/java/com/example/pricetracker/ui/PriceViewModel.kt:42-58 | collecting a repository stream first clears the list, and at the end shows the latest snapshot sorted, flags unchanged |
| ViewModel.PriceViewModel.constructor | app/src/main/java/com/example/pricetracker/ui/PriceViewModel.kt:19-22 | a new view model holds the default UI state and no job |
| ViewModel.PriceViewModel.OnEvent | app/src/main/java/com/example/pricetracker/ui/PriceViewModel.kt:24-29 | a click moves the state as Start or Stop does, keeping the flags consistent |
| ViewModel.PriceViewModel.StartStream | app/src/main/java/com/example/pricetracker/ui/PriceViewModel.kt:31-42 | the new state is the Start transition of the old one |
| ViewModel.PriceViewModel.StopStream | app/src/main/java/com/example/pricetracker/ui/PriceViewModel.kt:62-71 | the new state is the Stop transition of the old one |
| ViewModel.PriceViewModel.OnSnapshot | app/src/main/java/com/example/pricetracker/ui/PriceViewModel.kt:56-58 | the new state presents the snapshot sorted if the collection runs, and is unchanged otherwise |
| ViewModel.PriceViewModel.OnComplete | app/src/main/java/com/example/pricetracker/ui/PriceViewModel.kt:42-58 | the new state is the normal-completion transition of the old one |
| ViewModel.PriceViewModel.OnError | app/src/main/java/com/example/pricetracker/ui/PriceViewModel.kt:47-55 | the new state is the failure transition of the old one |

## Left out

- Double arithmetic: prices are exact reals. Rounding, NaN and Infinity are not modelled.
- ParseNumber: accepts only `[+-]?` followed by digits with an optional `.` and fraction digits, or by `.` and fraction digits. That is a subset of Kotlin's `toDoubleOrNull`. Exponents, hexadecimal, `NaN`/`Infinity`, `f`/`d` suffixes and surrounding whitespace are not accepted.
- PriceFeed.Generator.Step: returns the update, not the frame text. The source prints the price with Kotlin's `Double.toString`; Step's contract shows that the frame for any `Decimal` rendering of the price decodes back to the update, but renderings `Format` cannot write (such as exponent notation for values of 10^7 and above) are not covered.
- OkHttp I/O is left out: the connection, `newWebSocket`, the `onOpen`/`onFailure`/`onClosing`/`onClosed` callbacks, `awaitClose` and `ws.close`.
- Binary frames are not modelled separately. They are decoded as UTF-8 and passed to the same text parser.
- Timing is left out: the sender's 50 ms readiness poll, its 2 s pacing delay and `isActive` cancellation. `Generator.Run` takes a finite run of ticks.
- Coroutine concurrency is replaced by sequential handler calls: `callbackFlow`, `viewModelScope.launch`, `collectLatest` cancelling a slow handler, and `trySend` dropping on a full buffer.
- Randomness (`Random.nextDouble`, `symbols.random()`) becomes parameters. The ranges are preconditions.
- The private `update` extension is inlined as field assignment.
- PriceScreen, the theme, MainActivity and the view-model factory are UI and wiring with no logic to prove.
