# SSE price dispatcher: a verified model

This project models the logic of the SSE price dispatcher. The server keeps a
base price per currency pair and lets clients switch pricing per pair on and
off. It publishes fresh quotes for the switched-on pairs to every subscribed
user over Server-Sent Events, and counts connections and sends. The browser
ticker folds the stream into per-pair state and reconnects with exponential
backoff.

The files and what they hold:

- `wrappers.dfy`: the `Option` and `Result` datatypes.
- `java_strings.dfy`: Java's `String.split(",")`. It drops trailing empty strings, so `",".split(",")` is the empty array. It also has `indexOf`.
- `decimals.dfy`: the `BigDecimal(String)` constructor as a partial parser (`None` is `NumberFormatException`), `BigDecimal.toString`, and `Integer.toString`.
- `metrics.dfy`: `CustomHttp2Metrics` with its two `AtomicInteger` counters, wrapping at the ends of the 32-bit range.
- `price.dfy`: the mutable `Price` record and its `toString`.
- `dispatcher.dfy`: `BaseDispatcher`, the user → emitter registry, its callbacks and `sendPriceUpdate`. A ghost trace of subscriptions and callbacks ties the registry and the connection counter together.
- `pricer.dfy`: `Pricer`, covering:
  - `loadCurrencyPairs`;
  - the `activePairs` switches and the bulk switches;
  - the gate in `generateAndNotifyPrice`;
  - `updatePrice`.
- `controller.dfy`: the server `SseController`, covering:
  - its construction;
  - `readCcyPairsFromCsv`;
  - the pricing endpoints and their response texts.
- `ticker.dfy`: the client `PriceTicker`, covering:
  - `handleMessage`, `handleOpen` and `handleError` on explicit component state;
  - the reconnect rule and its delays;
  - `highlightChangedDigits` on formatted price strings;
  - `rowData`.

Modelling choices:

- Files are given as their lines.
- The clock, the random bid and ask, and the set of emitters whose `send` throws an `IOException` are parameters.
- Emitter callbacks are methods that the environment calls.
- The scheduler is modelled as the list `scheduled` of every price handed to it. A generation runs when its caller passes the scheduled `Price` to `GenerateAndNotifyPrice`.

## Model

Source paths below are relative to the repository root.

| member | source | states |
|---|---|---|
| JavaStrings.IndexOf | ss-dispatcher-server/src/main/java/ssedispatcher/controller/SseController.java:98 | the position of the first separator, or the length when there is none; `IndexOfIsFirst` proves no separator stands before it |
| JavaStrings.Pieces | ss-dispatcher-server/src/main/java/ssedispatcher/controller/Pricer.java:48 | the line cut at every separator, at least one piece; `JoinPieces` proves that rejoining them gives back the line |
| JavaStrings.Split | ss-dispatcher-server/src/main/java/ssedispatcher/controller/Pricer.java:48 | `String.split` with a one-character separator: the line itself when there is no separator, otherwise the pieces without trailing empty ones; `SplitKeepsLeadingPieces`, `SplitFirst` and `SplitEmptyIff` state its properties |
| JavaStrings.Before | ss-dispatcher-server/src/main/java/ssedispatcher/controller/SseController.java:98 | the text before the first comma: a comma-free prefix of the line, followed by a comma unless it is the whole line |
| JavaStrings.JoinPieces | ss-dispatcher-server/src/main/java/ssedispatcher/controller/Pricer.java:48 | the pieces between separators rejoined with the separator give back the line |
| JavaStrings.DropTrailingEmpty | ss-dispatcher-server/src/main/java/ssedispatcher/controller/Pricer.java:48 | the kept pieces are a prefix ending in a non-empty piece, and every dropped piece is empty |
| JavaStrings.SplitKeepsLeadingPieces | ss-dispatcher-server/src/main/java/ssedispatcher/controller/Pricer.java:48 | `split` keeps a prefix of the pieces and drops only empty trailing ones; a line without a comma splits into itself |
| JavaStrings.SplitFirst | ss-dispatcher-server/src/main/java/ssedispatcher/controller/SseController.java:98 | when the split is not empty, its first field is the text before the first comma |
| JavaStrings.SplitEmptyIff | ss-dispatcher-server/src/main/java/ssedispatcher/controller/SseController.java:98 | the split is the empty array exactly when the line is non-empty and made of commas only |
| Decimals.IntText | ss-dispatcher-server/src/main/java/ssedispatcher/metrics/CustomHttp2Metrics.java:38-39 | `Integer.toString`: a minus before the text of the magnitude for a negative number; `NatText` states the magnitude's text |
| Decimals.ParseDecimal | ss-dispatcher-server/src/main/java/ssedispatcher/controller/Pricer.java:50 | `new BigDecimal(String)`: an optional sign, a significand with at most one point, an optional exponent, and `None` where Java throws `NumberFormatException`; `ParseDecimalText` and `ParseDecimalSign` state its properties |
| Decimals.DecimalText | ss-dispatcher-server/src/main/java/ssedispatcher/controller/Price.java:55-56 | `BigDecimal.toString`: plain notation or scientific notation by the adjusted exponent; `ParseDecimalText` proves the parser reads it back, `DecimalTextChars` bounds its characters |
| Decimals.NatText | ss-dispatcher-server/src/main/java/ssedispatcher/metrics/CustomHttp2Metrics.java:38 | the decimal text of a counter is a digit string without leading zeros whose value is the number |
| Decimals.ParseDecimalText | ss-dispatcher-server/src/main/java/ssedispatcher/controller/Pricer.java:50 | `new BigDecimal(d.toString())` gives back `d`, unscaled value and scale alike |
| Decimals.ParseDecimalSign | ss-dispatcher-server/src/main/java/ssedispatcher/controller/Pricer.java:50 | a leading minus negates the unscaled value and keeps the scale |
| Decimals.DecimalTextChars | ss-dispatcher-server/src/main/java/ssedispatcher/controller/Price.java:55-56 | the text of a `BigDecimal` is made of digits, sign, point and exponent characters only, so it never holds a comma |
| Metrics.Inc32 | ss-dispatcher-server/src/main/java/ssedispatcher/metrics/CustomHttp2Metrics.java:14 | `incrementAndGet` on a 32-bit value: one more, and the largest value goes to the smallest; `StepsWrap` and `CounterEdges` state this |
| Metrics.Dec32 | ss-dispatcher-server/src/main/java/ssedispatcher/metrics/CustomHttp2Metrics.java:18 | `decrementAndGet` on a 32-bit value: one less, and the smallest value goes to the largest; `IncDecInverse` proves it undoes `Inc32` |
| Metrics.Wrap32 | ss-dispatcher-server/src/main/java/ssedispatcher/metrics/CustomHttp2Metrics.java:10-11 | the wrapped value is a 32-bit integer, and a 32-bit integer wraps to itself |
| Metrics.StepsWrap | ss-dispatcher-server/src/main/java/ssedispatcher/metrics/CustomHttp2Metrics.java:13-27 | `incrementAndGet` and `decrementAndGet` are +1 and −1 modulo 2^32 and stay in range |
| Metrics.IncDecInverse | ss-dispatcher-server/src/main/java/ssedispatcher/metrics/CustomHttp2Metrics.java:13-27 | an increment followed by the matching decrement restores the value, and the other way round, even across the wrap |
| Metrics.CounterEdges | ss-dispatcher-server/src/main/java/ssedispatcher/metrics/CustomHttp2Metrics.java:17-19 | there is no floor: decrementing 0 gives −1; the largest value increments to the smallest and the smallest decrements to the largest |
| Metrics.CountedIsWrappedNet | ss-dispatcher-server/src/main/java/ssedispatcher/metrics/CustomHttp2Metrics.java:13-27 | any run of increments and decrements leaves the start plus the net count, wrapped to 32 bits, whatever the order |
| Metrics.CustomHttp2Metrics.constructor | ss-dispatcher-server/src/main/java/ssedispatcher/metrics/CustomHttp2Metrics.java:10-11 | both counters start at 0 |
| Metrics.CustomHttp2Metrics.IncrementConnections | ss-dispatcher-server/src/main/java/ssedispatcher/metrics/CustomHttp2Metrics.java:13-15 | the connection counter steps up by one, with wrap; the stream counter is unchanged |
| Metrics.CustomHttp2Metrics.DecrementConnections | ss-dispatcher-server/src/main/java/ssedispatcher/metrics/CustomHttp2Metrics.java:17-19 | the connection counter steps down by one, with wrap; the stream counter is unchanged |
| Metrics.CustomHttp2Metrics.IncrementStreams | ss-dispatcher-server/src/main/java/ssedispatcher/metrics/CustomHttp2Metrics.java:21-23 | the stream counter steps up by one, with wrap; the connection counter is unchanged |
| Metrics.CustomHttp2Metrics.DecrementStreams | ss-dispatcher-server/src/main/java/ssedispatcher/metrics/CustomHttp2Metrics.java:25-27 | the stream counter steps down by one, with wrap; the connection counter is unchanged |
| Metrics.CustomHttp2Metrics.GetActiveConnections | ss-dispatcher-server/src/main/java/ssedispatcher/metrics/CustomHttp2Metrics.java:29-31 | returns the connection counter, a 32-bit value, and changes nothing |
| Metrics.CustomHttp2Metrics.GetActiveStreams | ss-dispatcher-server/src/main/java/ssedispatcher/metrics/CustomHttp2Metrics.java:33-35 | returns the stream counter, a 32-bit value, and changes nothing |
| Metrics.CustomHttp2Metrics.PrintMetrics | ss-dispatcher-server/src/main/java/ssedispatcher/metrics/CustomHttp2Metrics.java:37-40 | the two log lines, connections then streams, each ending in the decimal text of its counter; no counter changes |
| Prices.PriceText | ss-dispatcher-server/src/main/java/ssedispatcher/controller/Price.java:53-59 | the `Price{bid=…, ask=…, ccyPair='…', timestamp=…}` text; `PriceTextNumbers` proves that bid and ask can be read back from it |
| Prices.PairAndTime | ss-dispatcher-server/src/main/java/ssedispatcher/controller/Price.java:57-59 | the text after the ask starts with a comma |
| Prices.PriceTextNumbers | ss-dispatcher-server/src/main/java/ssedispatcher/controller/Price.java:53-59 | the bid and the ask can be read back from the `toString` text whatever the pair and time |
| Prices.Price.constructor | ss-dispatcher-server/src/main/java/ssedispatcher/controller/Price.java:12-17 | the four fields are stored exactly as given |
| Prices.Price.GetBid | ss-dispatcher-server/src/main/java/ssedispatcher/controller/Price.java:20-22 | returns the bid and modifies nothing |
| Prices.Price.SetBid | ss-dispatcher-server/src/main/java/ssedispatcher/controller/Price.java:24-26 | sets the bid; the other three fields are unchanged |
| Prices.Price.GetAsk | ss-dispatcher-server/src/main/java/ssedispatcher/controller/Price.java:28-30 | returns the ask and modifies nothing |
| Prices.Price.SetAsk | ss-dispatcher-server/src/main/java/ssedispatcher/controller/Price.java:32-34 | sets the ask; the other three fields are unchanged |
| Prices.Price.GetCcyPair | ss-dispatcher-server/src/main/java/ssedispatcher/controller/Price.java:36-38 | returns the pair and modifies nothing |
| Prices.Price.SetCcyPair | ss-dispatcher-server/src/main/java/ssedispatcher/controller/Price.java:40-42 | sets the pair; the other three fields are unchanged |
| Prices.Price.GetTimestamp | ss-dispatcher-server/src/main/java/ssedispatcher/controller/Price.java:44-46 | returns the timestamp and modifies nothing |
| Prices.Price.SetTimestamp | ss-dispatcher-server/src/main/java/ssedispatcher/controller/Price.java:48-50 | sets the timestamp; the other three fields are unchanged |
| Prices.Price.ToString | ss-dispatcher-server/src/main/java/ssedispatcher/controller/Price.java:53-59 | `Price{bid=…, ask=…, ccyPair='…', timestamp=…}` with the fields in declaration order, and the bid and ask it names are the object's own |
| Dispatcher.Registered | ss-dispatcher-server/src/main/java/ssedispatcher/controller/BaseDispatcher.java:28-58 | the users the registry holds after a trace of subscriptions and callbacks; `RegisteredIffLastSubscribed` characterises it |
| Dispatcher.OpenCount | ss-dispatcher-server/src/main/java/ssedispatcher/controller/BaseDispatcher.java:28-58 | the emitters created minus the callbacks fired in a trace; `ConnectionsAreOpenCount` ties the connection counter to it |
| Dispatcher.RegisteredIffLastSubscribed | ss-dispatcher-server/src/main/java/ssedispatcher/controller/BaseDispatcher.java:28-58 | removal is by user id: a user is registered exactly when the last event about that user is a subscription |
| Dispatcher.LateCallbackRemovesNewer | ss-dispatcher-server/src/main/java/ssedispatcher/controller/BaseDispatcher.java:28-58 | an example trace, not a general property: subscribing twice and then getting one callback from the replaced emitter leaves no user registered but one connection counted, because callbacks remove by user id |
| Dispatcher.OpenCountAppend | ss-dispatcher-server/src/main/java/ssedispatcher/controller/BaseDispatcher.java:28-58 | a subscription adds its user and one connection; a callback removes its user and one connection |
| Dispatcher.ConnectionsAreOpenCount | ss-dispatcher-server/src/main/java/ssedispatcher/controller/BaseDispatcher.java:28-58 | the connection counter is the starting value plus emitters created minus callbacks fired, wrapped to 32 bits |
| Dispatcher.FailedAmong | ss-dispatcher-server/src/main/java/ssedispatcher/controller/BaseDispatcher.java:60-72 | the users whose send fails are among the users sent to |
| Dispatcher.BaseDispatcher.constructor | ss-dispatcher-server/src/main/java/ssedispatcher/controller/BaseDispatcher.java:21-26 | an empty registry over the given metrics |
| Dispatcher.BaseDispatcher.CreateEmitter | ss-dispatcher-server/src/main/java/ssedispatcher/controller/BaseDispatcher.java:28-40 | the user is mapped to a new emitter with the 300-second timeout, replacing any earlier entry; one more connection is counted and the stream counter is unchanged |
| Dispatcher.BaseDispatcher.Release | ss-dispatcher-server/src/main/java/ssedispatcher/controller/BaseDispatcher.java:42-58 | the user's entry is removed, whichever emitter it holds, and one connection less is counted |
| Dispatcher.BaseDispatcher.HandleEmitterCompletion | ss-dispatcher-server/src/main/java/ssedispatcher/controller/BaseDispatcher.java:42-46 | removes the user's entry and counts one connection less |
| Dispatcher.BaseDispatcher.HandleEmitterTimeout | ss-dispatcher-server/src/main/java/ssedispatcher/controller/BaseDispatcher.java:48-52 | removes the user's entry and counts one connection less |
| Dispatcher.BaseDispatcher.HandleEmitterError | ss-dispatcher-server/src/main/java/ssedispatcher/controller/BaseDispatcher.java:54-58 | removes the user's entry and counts one connection less |
| Dispatcher.BaseDispatcher.SendTo | ss-dispatcher-server/src/main/java/ssedispatcher/controller/BaseDispatcher.java:62-70 | a stream is counted; if the send fails it is uncounted again and the emitter is completed with the error |
| Dispatcher.BaseDispatcher.SendToEach | ss-dispatcher-server/src/main/java/ssedispatcher/controller/BaseDispatcher.java:60-72 | over every registered user: net streams counted are the users whose send succeeds, and exactly the failing users' emitters are completed with an error |
| Dispatcher.BaseDispatcher.SendPriceUpdate | ss-dispatcher-server/src/main/java/ssedispatcher/controller/BaseDispatcher.java:60-72 | streams grow by the number of successful sends (wrapped); the failing emitters are completed with an error; the registry and the connection counter are unchanged |
| Pricing.Fields | ss-dispatcher-server/src/main/java/ssedispatcher/controller/Pricer.java:48 | the fields of a CSV line, `line.split(",")` |
| Pricing.IsPairLine | ss-dispatcher-server/src/main/java/ssedispatcher/controller/Pricer.java:49 | a line that is loaded has exactly two fields |
| Pricing.Pairs | ss-dispatcher-server/src/main/java/ssedispatcher/controller/Pricer.java:42-55 | the loaded map of a file, or the number text that failed to parse; `PairsKeys`, `PairsLastWins` and `PairsErrIff` state its properties |
| Pricing.SetAll | ss-dispatcher-server/src/main/java/ssedispatcher/controller/Pricer.java:84-94 | the switch map with every given key set to one value; `SetAllEffect` states which entries change |
| Pricing.PairsKeys | ss-dispatcher-server/src/main/java/ssedispatcher/controller/Pricer.java:47-52 | a pair is loaded exactly when some line with exactly two fields names it |
| Pricing.PairsLastWins | ss-dispatcher-server/src/main/java/ssedispatcher/controller/Pricer.java:47-52 | a pair's base price is the number on the last two-field line naming it |
| Pricing.PairsErrIff | ss-dispatcher-server/src/main/java/ssedispatcher/controller/Pricer.java:47-52 | loading fails exactly when some two-field line has a second field that `new BigDecimal` rejects |
| Pricing.FirstErrorStays | ss-dispatcher-server/src/main/java/ssedispatcher/controller/Pricer.java:47-52 | once loading has failed, the remaining lines do not change the outcome |
| Pricing.LoadCurrencyPairs | ss-dispatcher-server/src/main/java/ssedispatcher/controller/Pricer.java:42-55 | the loop computes the load specification (`Pairs`): puts for the two-field lines in order, skips the others, and stops at the first bad number |
| Pricing.SetAllEffect | ss-dispatcher-server/src/main/java/ssedispatcher/controller/Pricer.java:84-94 | a bulk switch sets every configured pair and leaves every other entry, present or absent, as it was |
| Pricing.OnePricePerPair | ss-dispatcher-server/src/main/java/ssedispatcher/controller/Pricer.java:36-38 | as many prices as pairs, covering all pairs, means exactly one price per pair |
| Pricing.ElementsCard | ss-dispatcher-server/src/main/java/ssedispatcher/controller/Pricer.java:36-38 | a list has at most as many distinct entries as entries, and as many only when none repeats |
| Pricing.Pricer.Create | ss-dispatcher-server/src/main/java/ssedispatcher/controller/Pricer.java:32-40 | construction fails exactly when the load fails; otherwise it holds the loaded base prices, one zero price per pair, no switches, nothing scheduled and no dispatcher |
| Pricing.Pricer.constructor | ss-dispatcher-server/src/main/java/ssedispatcher/controller/Pricer.java:32-40 | stores the base prices and prices; `activePairs` starts empty |
| Pricing.Pricer.InitialPrices | ss-dispatcher-server/src/main/java/ssedispatcher/controller/Pricer.java:36-38 | new prices of zero bid and zero ask stamped now, one per pair, and their pairs are exactly the configured ones |
| Pricing.Pricer.SetBaseDispatcher | ss-dispatcher-server/src/main/java/ssedispatcher/controller/Pricer.java:57-59 | stores the dispatcher and nothing else |
| Pricing.Pricer.StartPriceGeneration | ss-dispatcher-server/src/main/java/ssedispatcher/controller/Pricer.java:69-73 | one generation is scheduled per initial price, in list order |
| Pricing.Pricer.StartPricing | ss-dispatcher-server/src/main/java/ssedispatcher/controller/Pricer.java:75-78 | switches any pair on, configured or not, and schedules a new zero price of that pair |
| Pricing.Pricer.PausePricing | ss-dispatcher-server/src/main/java/ssedispatcher/controller/Pricer.java:80-82 | switches the pair off and changes nothing else |
| Pricing.Pricer.StartAllPricing | ss-dispatcher-server/src/main/java/ssedispatcher/controller/Pricer.java:84-88 | every configured pair on, other entries kept, and one new zero price scheduled per configured pair after the earlier ones |
| Pricing.KeyList | ss-dispatcher-server/src/main/java/ssedispatcher/controller/Pricer.java:85 | lists every key of the set exactly once: as many entries as keys, and exactly the keys |
| Pricing.Pricer.StartEach | ss-dispatcher-server/src/main/java/ssedispatcher/controller/Pricer.java:85-87 | `startPricing` on each listed pair in turn: the listed pairs on, and one new zero price per listed pair, in list order, after the earlier ones |
| Pricing.Pricer.PauseAllPricing | ss-dispatcher-server/src/main/java/ssedispatcher/controller/Pricer.java:90-94 | every configured pair off, other entries kept, nothing scheduled |
| Pricing.Pricer.GetPricingState | ss-dispatcher-server/src/main/java/ssedispatcher/controller/Pricer.java:96-98 | returns the switches as a value, which no caller can change |
| Pricing.Pricer.UpdatePrice | ss-dispatcher-server/src/main/java/ssedispatcher/controller/Pricer.java:136-140 | sets bid, ask and timestamp; the pair is unchanged |
| Pricing.Pricer.GenerateAndNotifyPrice | ss-dispatcher-server/src/main/java/ssedispatcher/controller/Pricer.java:105-122 | stops, changing nothing, unless the switch is exactly true. Fails, changing nothing, for an unconfigured pair. Otherwise it updates the price, sends it through the dispatcher with the send bookkeeping, and reschedules the same price. The dispatcher keeps its registry, its trace and its next id, and the connection counter is unchanged |
| Controller.StartedText | ss-dispatcher-server/src/main/java/ssedispatcher/controller/SseController.java:62 | the answer "Started pricing for " followed by the pair; `ResponsesNamePair` proves it names the pair |
| Controller.PausedText | ss-dispatcher-server/src/main/java/ssedispatcher/controller/SseController.java:69 | the answer "Paused pricing for " followed by the pair; `ResponsesNamePair` proves it differs from the start answer |
| Controller.CcyPairList | ss-dispatcher-server/src/main/java/ssedispatcher/controller/SseController.java:91-102 | on success, one entry per line; on failure, the index of a line |
| Controller.ReadCcyPairsFromCsv | ss-dispatcher-server/src/main/java/ssedispatcher/controller/SseController.java:91-102 | the loop computes the listing specification (`CcyPairList`) and stops at the first line without a first field |
| Controller.ListErrorStays | ss-dispatcher-server/src/main/java/ssedispatcher/controller/SseController.java:97-99 | once a line has failed the listing, later lines do not change the error |
| Controller.CcyPairListEntries | ss-dispatcher-server/src/main/java/ssedispatcher/controller/SseController.java:97-99 | one entry per line, in file order. Each entry is the text before the first comma: the whole line without a comma, "" for an empty line |
| Controller.CcyPairListErr | ss-dispatcher-server/src/main/java/ssedispatcher/controller/SseController.java:97-99 | the listing fails exactly when some line is made of commas only, and reports the first such line |
| Controller.LoadedPairsAreListed | ss-dispatcher-server/src/main/java/ssedispatcher/controller/SseController.java:98 | every pair the pricer loads from the file is on the pair list read from the same file |
| Controller.SingleFieldListedNotLoaded | ss-dispatcher-server/src/main/java/ssedispatcher/controller/SseController.java:98 | a line without a comma is listed whole but skipped by the pricer, so the list can name unpriced pairs |
| Controller.CommasOnlySkippedButFatal | ss-dispatcher-server/src/main/java/ssedispatcher/controller/SseController.java:98 | a comma-only line is skipped by the pricer but fails the whole listing |
| Controller.ResponsesNamePair | ss-dispatcher-server/src/main/java/ssedispatcher/controller/SseController.java:58-70 | the single-pair answers end in the pair, differ between start and pause, and determine the pair |
| Controller.SseController.Create | ss-dispatcher-server/src/main/java/ssedispatcher/controller/SseController.java:31-38 | construction fails exactly when the pricer's load fails. Otherwise the pricer holds the loaded base prices and one zero-bid, zero-ask price per configured pair stamped now, with no switches on. It sends through a new dispatcher over the shared metrics, which has an empty registry, an empty trace and no emitter completed with an error. One generation is scheduled per initial price, and the metrics are unchanged |
| Controller.SseController.Assemble | ss-dispatcher-server/src/main/java/ssedispatcher/controller/SseController.java:35-36 | the new dispatcher is wired into the controller over the shared metrics, with an empty registry, an empty trace and no emitter completed with an error; the pricer's initial prices are appended to its schedule |
| Controller.SseController.constructor | ss-dispatcher-server/src/main/java/ssedispatcher/controller/SseController.java:31-38 | stores the metrics, dispatcher, pricer and file lines |
| Controller.SseController.StreamSse | ss-dispatcher-server/src/main/java/ssedispatcher/controller/SseController.java:40-43 | registers a new emitter with the 300-second timeout and the next id for the user, replacing any older one, and records the subscription in the trace. The connection counter goes up by one with 32-bit wrap; the stream counter and the set of emitters completed with an error are kept |
| Controller.SseController.GetCcyPairs | ss-dispatcher-server/src/main/java/ssedispatcher/controller/SseController.java:53-56 | the pair list read from the file |
| Controller.SseController.StartPricing | ss-dispatcher-server/src/main/java/ssedispatcher/controller/SseController.java:58-63 | switches the pair on through the pricer, appends one fresh zero-bid, zero-ask price of that pair stamped now to the schedule, and answers "Started pricing for " + pair |
| Controller.SseController.PausePricing | ss-dispatcher-server/src/main/java/ssedispatcher/controller/SseController.java:65-70 | switches the pair off through the pricer and answers "Paused pricing for " + pair |
| Controller.SseController.StartAll | ss-dispatcher-server/src/main/java/ssedispatcher/controller/SseController.java:72-77 | all configured pairs on, other entries kept. The earlier schedule is kept, and one fresh zero price stamped now is appended per configured pair. The answer is the fixed text |
| Controller.SseController.PauseAll | ss-dispatcher-server/src/main/java/ssedispatcher/controller/SseController.java:79-84 | all configured pairs off, and the fixed answer |
| Controller.SseController.PricingState | ss-dispatcher-server/src/main/java/ssedispatcher/controller/SseController.java:86-89 | the pricer's copy of the switches |
| Ticker.PairKey | sse-dispatcher-client-ui/sse-price-ticker/src/ticker/PriceTicker.js:89-102 | the property key the `ccyPair` field becomes, "undefined" when it is missing |
| Ticker.ErrorText | sse-dispatcher-client-ui/sse-price-ticker/src/ticker/PriceTicker.js:126-131 | the first message `handleError` shows: the JSON `message` when truthy, the fixed failure text otherwise, or that text with `String(err)` when parsing throws |
| Ticker.PushCapped | sse-dispatcher-client-ui/sse-price-ticker/src/ticker/PriceTicker.js:106-116 | `push` then one `shift` when over ten; `PushCappedShape` and `PushCappedWindow` state its properties |
| Ticker.Window | sse-dispatcher-client-ui/sse-price-ticker/src/ticker/PriceTicker.js:106-116 | the window is the last ten quotes of a run, or the whole run when it is shorter |
| Ticker.PushCappedShape | sse-dispatcher-client-ui/sse-price-ticker/src/ticker/PriceTicker.js:106-116 | one push on a capped history keeps at most ten entries, puts the newest last, and shifts off at most the oldest |
| Ticker.PushCappedWindow | sse-dispatcher-client-ui/sse-price-ticker/src/ticker/PriceTicker.js:106-116 | push-and-shift on the window of a run is the window of the longer run, so the history is always the last ten quotes |
| Ticker.QuoteKeepsConsistent | sse-dispatcher-client-ui/sse-price-ticker/src/ticker/PriceTicker.js:91-116 | the updates for one quote keep current price, previous price and history in step with the quotes received per pair |
| Ticker.RetryDelay | sse-dispatcher-client-ui/sse-price-ticker/src/ticker/PriceTicker.js:138 | `2^attempts` times the base delay; `RetryDelays` gives its values |
| Ticker.Decide | sse-dispatcher-client-ui/sse-price-ticker/src/ticker/PriceTicker.js:136-146 | retry with the delay and the next attempt count while allowed and under the limit, else give up; `DecideRule` states it both ways |
| Ticker.DecideRule | sse-dispatcher-client-ui/sse-price-ticker/src/ticker/PriceTicker.js:136-146 | a retry happens exactly while reconnecting is allowed and fewer than five attempts were made. It waits 2^attempts × 1000 ms, each wait doubles the one before, and the attempt count never passes five |
| Ticker.RetryDelays | sse-dispatcher-client-ui/sse-price-ticker/src/ticker/config.js:16-17 | the successive waits are 1, 2, 4, 8 and 16 seconds |
| Ticker.TotalWaitClosed | sse-dispatcher-client-ui/sse-price-ticker/src/ticker/PriceTicker.js:136-141 | from `a` attempts on, the remaining retries wait 1000 × (2^5 − 2^a) ms in all |
| Ticker.SizeAt | sse-dispatcher-client-ui/sse-price-ticker/src/ticker/PriceTicker.js:271-275 | the font size of a digit by its distance from the end; `HighlightSizes` characterises it |
| Ticker.ColorAt | sse-dispatcher-client-ui/sse-price-ticker/src/ticker/PriceTicker.js:277-279 | the colour of a digit against the previous text's digit at its place; `SpanColors` characterises it |
| Ticker.Highlight | sse-dispatcher-client-ui/sse-price-ticker/src/ticker/PriceTicker.js:263-285 | the cell of `highlightChangedDigits`: the raw value without a previous one, else one span per digit, reversed on request; `HighlightSpans` and `HighlightWithoutPrevious` state it |
| Ticker.HighlightSpans | sse-dispatcher-client-ui/sse-price-ticker/src/ticker/PriceTicker.js:263-285 | with a previous value, one span per character of the current text, spelling it forwards or, with `reverse`, backwards |
| Ticker.SpanColors | sse-dispatcher-client-ui/sse-price-ticker/src/ticker/PriceTicker.js:277-279 | uncoloured exactly when the previous text has the same character there. Green exactly when it has a smaller one. Red otherwise, a shorter previous text included |
| Ticker.HighlightSizes | sse-dispatcher-client-ui/sse-price-ticker/src/ticker/PriceTicker.js:271-275 | the last digit alone is small, and the two before it alone are large |
| Ticker.HighlightWithoutPrevious | sse-dispatcher-client-ui/sse-price-ticker/src/ticker/PriceTicker.js:264 | a falsy previous value leaves the current value as it came |
| Ticker.RowData | sse-dispatcher-client-ui/sse-price-ticker/src/ticker/PriceTicker.js:320-324 | one grid row per listed pair; `RowDataRows` states its contents |
| Ticker.RowDataRows | sse-dispatcher-client-ui/sse-price-ticker/src/ticker/PriceTicker.js:320-324 | one row per listed pair, in list order, with the stored bid and ask, or 0 where there is none |
| Ticker.PriceTicker.constructor | sse-dispatcher-client-ui/sse-price-ticker/src/ticker/PriceTicker.js:56-71 | the initial state: no prices, no history, no ticks, an empty error, no attempts |
| Ticker.PriceTicker.SetDontReconnect | sse-dispatcher-client-ui/sse-price-ticker/src/ticker/PriceTicker.js:466 | sets the checkbox state only |
| Ticker.PriceTicker.CreateEventSource | sse-dispatcher-client-ui/sse-price-ticker/src/ticker/PriceTicker.js:148-155 | a stream handle is held |
| Ticker.PriceTicker.HandleOpen | sse-dispatcher-client-ui/sse-price-ticker/src/ticker/PriceTicker.js:75-81 | opens the connection, restarts the start time, and zeroes ticks and attempts; not reconnecting |
| Ticker.PriceTicker.HandleMessage | sse-dispatcher-client-ui/sse-price-ticker/src/ticker/PriceTicker.js:83-123 | a quote for pair p becomes p's price, p's old price (undefined fields at first) its previous price, and is pushed onto p's capped history; one more tick; other pairs untouched. An error payload only sets the error text; an unparsable one changes nothing |
| Ticker.PriceTicker.HandleError | sse-dispatcher-client-ui/sse-price-ticker/src/ticker/PriceTicker.js:125-146 | shows the error, closes and clears the handle, then retries under the rule with its delay and next attempt count, or gives up with "Maximum reconnection attempts reached." and not reconnecting. Without a handle the close throws after the connection is marked closed |
| Ticker.PriceTicker.Reconnect | sse-dispatcher-client-ui/sse-price-ticker/src/ticker/PriceTicker.js:140-141 | after the wait: the attempt count the retry chose, and a new stream |

## Left out

- I/O: reading the CSV resource, logging, and the network. File contents are given as lines, and log lines become return values (`PrintMetrics`) or are dropped.
- Timers and scheduling. The executor, the random delay of `scheduleNextPriceGeneration`, the browser's `delay` and the per-minute metrics printing are not modelled as time. A generation or a reconnect runs when its caller invokes the corresponding method.
- Randomness and floating point:
  - `calculateBid` and `calculateAsk` and their rounding to four places become the bid and ask parameters of `GenerateAndNotifyPrice`;
  - `toFixed(4)` becomes the pre-formatted strings given to `Highlight`;
  - `ticksPerSecond` is not modelled.
- The clock: `LocalDateTime.now()` and `Date.now()` are parameters. A `LocalDateTime` is kept as its printed text. One reading per call stands for the separate readings the Java code takes per price: in the constructor's stream and in each `startPricing` of `startAllPricing`. `updatePrice` overwrites the stamp before any send, so the difference cannot be observed.
- Concurrency. `ConcurrentHashMap` and `AtomicInteger` are modelled sequentially, and each callback and send is one atomic step.
- Subscribers: `addSubscriber`, `removeSubscriber` and `notifySubscribers` are not modelled, since no subscriber is ever registered.
- The pricer–dispatcher link. Dafny modules cannot import each other in a cycle, so the `BaseDispatcher` constructor does not call `setBaseDispatcher` itself. `SseController.Create` makes that call right after building the dispatcher, which gives the same wiring.
- Emitter transport. What is sent (`SseEmitter.send` of the price) is not modelled: only whether each send throws an `IOException`. A non-IO exception, such as sending on an already completed emitter, is not modelled.
- `loginUser` (a random token), `CustomThreadFactory`, and everything in the client besides the handlers and the two helpers: the JSX, the grid columns, the charts, the axios calls and the load-test loop.
- React semantics. Handlers read the current component state rather than the state captured when the stream was created. The history array shared between renders (the `push`/`shift` on it) is modelled as a value.
- The browser's `EventSource` automatic reconnection is not modelled.
- Dispatcher.BaseDispatcher.SendPriceUpdate: does not fix the order in which users are sent to, because `ConcurrentHashMap.forEach` promises none. Its contract states the totals that hold for every order rather than the per-user sequence of counter values.
- Ticker.PriceTicker.Reconnect: takes the next attempt count as an argument. `HandleError`'s `Retry` decision supplies it as the old count plus one, but the model does not force the caller to pass that value.
- Decimals.ParseDecimal: accepts only the ASCII digits 0-9, where Java's `BigDecimal(String)` accepts every character `Character.isDigit` accepts. It also accepts any exponent and scale, where Java throws `NumberFormatException` once the exponent or the resulting scale leaves the `int` range. The CSV files hold plain ASCII numbers of ordinary size.
- Ticker.Highlight: a `Raw` cell stands for the unformatted number being returned as it came. The model does not carry that number.
