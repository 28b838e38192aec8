# NerdMiner monitor and display core, modelled in Dafny

This project models the telemetry and presentation core of the NerdMiner
firmware (`src/monitor.cpp` and `src/drivers/displays/display.cpp`) and
proves properties of it:

- **Refresh pipeline.** `FetchPipeline.Monitor` is a bounded FIFO of
  `HttpRequest {type, url, timestamp}` (capacity `HTTP_QUEUE_SIZE = 10`), the
  four refresh timers `mGlobalUpdate`, `mHeightUpdate`, `mBTCUpdate` and
  `mPoolUpdate`, and the shared cache `gData`, `pData`, `current_block` and
  `bitcoin_price`. Its methods are `queueHttpRequest`, the four getters, the
  five response processors and one iteration of the fetch worker. The worker
  is run as a single step, without concurrency. The response processors and
  the routing are pure functions in `Processors`.
- **Hashrate estimator.** `Hashrate.HashrateMeter` holds the statics of
  `getCurrentHashRate`: a 10-sample window, the running sum, the 8-bit
  recalculation counter, the three skipped start-up samples, the peak and the
  sticky display scale.
- **Pure helpers.** `MonitorMath` holds the halving progress, the
  time-of-day split, the uptime split, the pool API lookup table and the
  wallet trim.
- **Display state machine.** `DisplayControl.Display` holds the globals
  `lastActivityTime`, `lastActiveScreen` and `isScreensaverActive`. It also
  holds the bound driver, as a record of its cyclic-screen index and count
  plus counters of the driver's `alternateScreenState`,
  `alternateScreenRotation` and `initDisplay` calls.
- **Support modules.** `Unsigned` holds the 32-bit `unsigned long`
  arithmetic, including `millis()` wrap-around. `ArduinoText` holds the
  Arduino `String` operations the code relies on (`indexOf`, `substring`,
  `trim`) and the `%u` conversion. `Json` is an abstract view of ArduinoJson
  documents.

Each class method is specified by a function on the old state, which is
`State()`, `Cached()`, `Marks()` or the queue. The properties are proved as
lemmas about those functions.

Inputs of each call:

- `millis()` is a `now` parameter in 0 .. 2^32 - 1.
- `WiFi.status() == WL_CONNECTED` is a `wifi` flag.
- The HTTP result is a status code, a body and the parsed document. The
  parsed document is `None` when ArduinoJson reports an error.
- Configuration is a parameter: the refresh intervals, the wallet, the pool
  address and port, and the `SCREEN_FEES_ENABLE` and `SCREEN_WORKERS_ENABLE`
  build flags.
- The endpoint URLs and the initial `gData` and `pData` come from
  `monitor.h`, which is not part of this model. They are constructor
  parameters.
- `HALVING_BLOCKS` is taken as Bitcoin's 210000.

Behaviour of the code worth knowing, each stated by the model as written:

- A due getter with WiFi sets its timer to `now` even when
  `queueHttpRequest` returned false, because the result is ignored
  (src/monitor.cpp:328-331, `RefreshWithFullQueue`).
- The non-200 branch of the fetch worker only logs
  (src/monitor.cpp:239-241), so no cache field changes
  (`FailedPoolFetchKeepsPoolData`).
- `queueHttpRequest` enqueues any URL, whatever its length
  (src/monitor.cpp:253-266), and the fetch worker reads the body without
  any check of free memory (src/monitor.cpp:211-214).
- `ScreensaverTimeout * 60 * 1000` is computed in `unsigned long` and wraps
  modulo 2^32 (src/drivers/displays/display.cpp:185).
- A wallet that starts with '.' is used whole, because the trim tests
  `indexOf(".") > 0` (src/monitor.cpp:621).

## Model

| member | source | states |
|---|---|---|
| `Unsigned.Wrap` | src/monitor.cpp:576 | conversion to `unsigned long` is the identity in range, subtracts or adds 2^32 one wrap away, and in general differs from the input by a multiple of 2^32 |
| `Unsigned.Minus` | src/monitor.cpp:323 | `a - b` on `unsigned long` is the plain difference when `b <= a`, and `2^32 + a - b` after the clock wrapped |
| `ArduinoText.IndexOf` | src/monitor.cpp:621 | `indexOf` returns -1 exactly when the character is absent; otherwise it returns a position holding it with no earlier occurrence |
| `ArduinoText.Substring` | src/monitor.cpp:87 | `substring(left, right)` is the slice when the bounds are in order and in range, and the swapped slice when they are reversed; it is never longer than the string |
| `ArduinoText.Trim` | src/monitor.cpp:122-123 | `trim` gives the slice after the leading whitespace, with only whitespace dropped on either side and no whitespace at either end |
| `ArduinoText.DecimalRoundTrip` | src/monitor.cpp:373 | the digits printed by `%u` read back as the same number |
| `ArduinoText.DecimalTextLength` | src/monitor.cpp:372-373 | a number below 10^k prints in at most k digits, so a 32-bit price fits the 16-byte buffer |
| `Json.Truncate` | src/monitor.cpp:109 | converting a number to an integer truncates toward zero, by less than 1 |
| `Json.AsInt` | src/monitor.cpp:164 | `as<int>()` yields a 32-bit value: an in-range number is truncated toward zero, an out-of-range number gives 0, and non-numbers are fixed at 0 (see Left out) |
| `Json.AsUInt` | src/monitor.cpp:141 | the unsigned conversion of a number in 0 .. 2^32 - 1 is its truncation, any other number gives 0, and non-numbers are fixed at 0 (see Left out) |
| `MonitorMath.HalvingProgress` | src/monitor.cpp:575-577 | even with `unsigned long` wrap-around, `remainingBlocks` is `H - b mod H`, which lies in 1..H, and the percentage is `(b mod H)*100/H`, which lies in 0..99 |
| `MonitorMath.HalvingAt700000` | src/monitor.cpp:576-577 | block 700000 leaves 140000 blocks, at 33 percent |
| `MonitorMath.TimeOfDayRecombines` | src/monitor.cpp:397-399 | hours < 24, minutes < 60 and seconds < 60, and `h*3600 + m*60 + s == t mod 86400` |
| `MonitorMath.UptimeRecombines` | src/monitor.cpp:504-510 | hours < 24, minutes and seconds < 60, and `days*86400 + h*3600 + m*60 + s` is the uptime |
| `MonitorMath.PoolApiUrl` | src/monitor.cpp:583-612 | "public-pool.io" and "pool.nerdminers.org" win on any port; port 2018 gives `http://addr:2019/api/client/`; the two known 3333 pools map to their APIs; every other address and port pair gives the public default, including those two pools on other ports; a base ending in '/' stays so |
| `MonitorMath.TrimWallet` | src/monitor.cpp:620-621 | the trimmed wallet is a prefix of the wallet; it is cut just before the first '.' unless the wallet starts with '.' (`indexOf > 0`); it is unchanged when there is no dot and when the wallet starts with '.'; it contains a '.' exactly when the wallet starts with one |
| `Processors.HashrateText` | src/monitor.cpp:86-87 | the global hashrate text is the formatted value without its last 21 characters |
| `Processors.DifficultyTextShape` | src/monitor.cpp:89-93 | the difficulty is the text less 13 characters, with a '.' before the last two and "T" appended; at 14 characters the unsigned `length() - 2` leaves one character and nothing after the point |
| `Processors.GlobalDataAfter` | src/monitor.cpp:74-97 | a parse error writes nothing; fees are never written; a missing hashrate keeps `globalHash`; a document with neither key keeps everything |
| `Processors.DifficultyFromHashrateText` | src/monitor.cpp:84-93 | without "currentDifficulty" the difficulty is formatted from the hashrate's text, which the shared buffer carries over |
| `Processors.FeesAfter` | src/monitor.cpp:99-119 | a parse error writes nothing; each fee key that is absent keeps its field; a present `halfHourFee` is written as `as<int>()`; in a fees-screen build each present fee of the other four is written the same way; without one those four stay; hashrate and difficulty are untouched |
| `Processors.PriceAfter` | src/monitor.cpp:130-146 | the price changes only when the document parsed and has `bitcoin.usd`, and then becomes its unsigned conversion |
| `Processors.TotalHashRate` | src/monitor.cpp:166-170 | the summing loop yields the workers' total hash rate |
| `Processors.WorkersHashRateAppend` | src/monitor.cpp:166-170 | the total over a split worker list is the sum of the two parts' totals |
| `Processors.PoolDataAfter` | src/monitor.cpp:148-187 | a parse error writes nothing; `workersHash` is always overwritten with the workers' sum, which is 0 without workers; a present `workersCount` is written as `as<int>()` and a present `bestDifficulty` as the suffix text of its `as<double>()`; each absent one keeps its field |
| `Processors.ProcessorFor` | src/monitor.cpp:217-237 | a processor is picked only for the kind it serves; global data goes to the hashrate processor on `getGlobalHash`, to fees on `getFees`, and to nothing otherwise |
| `Processors.Apply` | src/monitor.cpp:74-187 | each processor writes only its own cache field; all but the block-height one write nothing on a parse error; the block height stores the trimmed body unvalidated |
| `Processors.Served` | src/monitor.cpp:202-241 | without WiFi, without HTTP 200, or with no processor, nothing is written; otherwise exactly the picked processor runs |
| `Processors.MalformedPriceKeepsPrice` | src/monitor.cpp:130-136 | a malformed BTC-price body leaves the whole cache unchanged |
| `Processors.FailedPoolFetchKeepsPoolData` | src/monitor.cpp:239-241 | a non-200 pool fetch leaves the pool data as it was |
| `FetchPipeline.Offered` | src/monitor.cpp:253-266 | an enqueue adds one request exactly when fewer than 10 are queued; the new request goes at the tail; old entries stay in order; the queue never exceeds 10 |
| `FetchPipeline.OfferAllOne` | src/monitor.cpp:344 | offering one request is one enqueue attempt |
| `FetchPipeline.OfferAllTwo` | src/monitor.cpp:328-329 | offering the hashrate and then the fees request is two enqueue attempts, in that order |
| `FetchPipeline.OfferAllBounded` | src/monitor.cpp:328-329 | any run of enqueue attempts keeps the queue within 10 and the old entries in order at the front, and grows the queue by at most the number offered |
| `FetchPipeline.Refresh` | src/monitor.cpp:323-331 | not due, or no WiFi: nothing changes; due with WiFi: every request is offered to the queue in order, and the mark becomes `now` |
| `FetchPipeline.OfferAllWithRoom` | src/monitor.cpp:328-329 | when the queue has room for all of them, the offered requests are appended at the tail, in order |
| `FetchPipeline.RefreshWithRoom` | src/monitor.cpp:323-331 | a due refresh with WiFi and room in the queue appends its requests at the tail, in order, and sets the mark to `now` |
| `FetchPipeline.RefreshWithFullQueue` | src/monitor.cpp:328-331 | with a full queue, a due refresh drops its requests and still advances the mark |
| `FetchPipeline.AtMostOneRefreshPerInterval` | src/monitor.cpp:339-346 | after a refresh at a nonzero time, any call within the interval (on the wrapping clock) changes nothing |
| `FetchPipeline.RefreshKeepsQueue` | src/monitor.cpp:323-331 | a refresh keeps the queue within 10 and never reorders what it held |
| `FetchPipeline.PoolRequestUrl` | src/monitor.cpp:620-629 | the URL starts with the resolved pool API base in a workers-screen build and with the public default otherwise; the rest is a prefix of the wallet; that rest contains a '.' exactly when the wallet starts with one, and is the whole wallet when the wallet has no dot or starts with '.'; otherwise the wallet is cut exactly at a '.' |
| `FetchPipeline.PriceText` | src/monitor.cpp:372-374 | the price text is '$' then digits without a leading zero that read back as the cached price, at most 15 characters |
| `FetchPipeline.Monitor.constructor` | src/monitor.cpp:40-44 | the queue is empty, the timers are 0, the block is "793261", the price is 0, and the pool API URL is resolved in a workers-screen build |
| `FetchPipeline.Monitor.QueueHttpRequest` | src/monitor.cpp:253-266 | returns true exactly when the queue had room; the queue becomes `Offered(old queue, request)`; nothing else changes |
| `FetchPipeline.Monitor.UpdateGlobalData` | src/monitor.cpp:321-333 | queue and mark follow `Refresh` with the hashrate and fees requests; other timers and the cache are unchanged |
| `FetchPipeline.Monitor.GetBlockHeight` | src/monitor.cpp:337-351 | queue and mark follow `Refresh`; returns the cached `current_block` |
| `FetchPipeline.Monitor.GetBTCprice` | src/monitor.cpp:355-375 | queue and mark follow `Refresh`; returns `PriceText` of the cached price, with or without WiFi |
| `FetchPipeline.Monitor.GetPoolData` | src/monitor.cpp:614-639 | queue and mark follow `Refresh` with `PoolRequestUrl`; returns the cached `pData` |
| `FetchPipeline.Monitor.ProcessGlobalDataResponse` | src/monitor.cpp:74-97 | only `gData` changes, to `GlobalDataAfter` |
| `FetchPipeline.Monitor.ProcessFeesResponse` | src/monitor.cpp:99-119 | only `gData` changes, to `FeesAfter` |
| `FetchPipeline.Monitor.ProcessBlockHeightResponse` | src/monitor.cpp:121-128 | only `current_block` changes, to the trimmed body |
| `FetchPipeline.Monitor.ProcessBTCPriceResponse` | src/monitor.cpp:130-146 | only `bitcoin_price` changes, to `PriceAfter` |
| `FetchPipeline.Monitor.ProcessPoolDataResponse` | src/monitor.cpp:148-187 | only `pData` changes, to `PoolDataAfter`, with the sum computed by the loop |
| `FetchPipeline.Monitor.FetcherStep` | src/monitor.cpp:191-249 | with an empty queue nothing happens; otherwise the head is dequeued and the cache becomes `Served`; timers are never touched |
| `Hashrate.ScaleFor` | src/monitor.cpp:475-482 | a peak above 999.9 gives 9MH, and a peak above 99.9 gives at least 999KH |
| `Hashrate.ScaleForMonotone` | src/monitor.cpp:475-482 | a higher peak never calls for a lower scale |
| `Hashrate.SumAppend` | src/monitor.cpp:450-451 | adding a sample to the window adds it to the sum |
| `Hashrate.Sample` | src/monitor.cpp:448 | the instantaneous rate is non-negative |
| `Hashrate.Slide` | src/monitor.cpp:450-456 | the window keeps the most recent samples, at most 10 and at least 1, evicting the oldest first |
| `Hashrate.Average` | src/monitor.cpp:466-468 | the returned average is never negative |
| `Hashrate.AverageBetween` | src/monitor.cpp:466 | with non-negative samples, the average lies between the smallest and the largest sample |
| `Hashrate.SlideConstantSuffix` | src/monitor.cpp:450-456 | after n samples of a constant, the window's last `min(n, size)` entries hold it |
| `Hashrate.ConstantStreamConverges` | src/monitor.cpp:446-468 | a constant stream fills the window within 10 samples, and the average is then that constant |
| `Hashrate.Resum` | src/monitor.cpp:458-464 | the re-summing loop yields the window's sum |
| `Hashrate.HashrateMeter.constructor` | src/monitor.cpp:438-444 | the window is empty, the sum is 0, 3 samples are to skip, the peak is 0 and the scale is 99KH |
| `Hashrate.HashrateMeter.CurrentHashRate` | src/monitor.cpp:446-494 | the window slides, and the running sum stays equal to its sum, so the 256th-call recompute changes nothing; returns `Average`; during the skipped samples peak and scale stay put; afterwards the peak follows the average upward and the scale never decreases |
| `DisplayControl.InitDisplayStep` | src/drivers/displays/display.cpp:75-80 | init clears the screensaver and sets the activity time to now, keeping the index valid |
| `DisplayControl.UpdateActivityStep` | src/drivers/displays/display.cpp:163-166 | an activity update keeps the index valid |
| `DisplayControl.Wake` | src/drivers/displays/display.cpp:203-212 | after a wake the screensaver is off and the restored index is valid |
| `DisplayControl.AlternateStateStep` | src/drivers/displays/display.cpp:83-94 | a power toggle keeps the index valid |
| `DisplayControl.AlternateRotationStep` | src/drivers/displays/display.cpp:97-108 | a rotation keeps the index valid |
| `DisplayControl.ResetStep` | src/drivers/displays/display.cpp:123-126 | a reset to the first screen keeps the index valid |
| `DisplayControl.NextScreenStep` | src/drivers/displays/display.cpp:129-142 | advancing while inactive stays below the screen count, and every outcome keeps the index valid |
| `DisplayControl.CheckScreensaverStep` | src/drivers/displays/display.cpp:169-200 | the inactivity check keeps the index valid, including the remembered one |
| `DisplayControl.CheckScreensaverGuards` | src/drivers/displays/display.cpp:173-181 | with timeout 0, or with the screensaver already on, the check changes nothing |
| `DisplayControl.CheckScreensaverClockWrap` | src/drivers/displays/display.cpp:187-191 | after `millis()` went backwards, the check only sets the activity time to now |
| `DisplayControl.CheckScreensaverActivation` | src/drivers/displays/display.cpp:183-199 | it activates exactly when `now - last >= timeout*60000`; activating saves the index as `uint8_t`, sets active and toggles the driver once; otherwise nothing changes |
| `DisplayControl.UserActionWhileActive` | src/drivers/displays/display.cpp:85-89 | while active, next-screen, toggle and rotation each only note activity and wake: one toggle, no rotation, and the remembered index |
| `DisplayControl.UserActionWhileInactive` | src/drivers/displays/display.cpp:91-141 | while inactive, next-screen advances modulo the count, toggle toggles once and rotation rotates once; each notes activity |
| `DisplayControl.ActivateThenWakeRestores` | src/drivers/displays/display.cpp:193-211 | for an index below 256, which survives the `uint8_t` save, blank then wake restores the index shown at blank time, with two toggles in all; this holds for an explicit wake and for a wake by any of the three user actions (next screen, toggle, rotation) |
| `DisplayControl.WakeWhenInactiveIsNoOp` | src/drivers/displays/display.cpp:205-207 | a wake with the screensaver off changes nothing |
| `DisplayControl.ResetTouchesOnlyIndex` | src/drivers/displays/display.cpp:123-126 | a reset sets the current screen to 0 and changes nothing else; the remembered screen stays, so a wake after a reset during the screensaver restores it |
| `DisplayControl.Display.constructor` | src/drivers/displays/display.cpp:69-72 | the globals start at 0, 0 and false, and the bound driver has a valid index |
| `DisplayControl.Display.InitDisplay` | src/drivers/displays/display.cpp:75-80 | the state becomes `InitDisplayStep` of the old state |
| `DisplayControl.Display.UpdateActivityTime` | src/drivers/displays/display.cpp:163-166 | the state becomes `UpdateActivityStep` of the old state |
| `DisplayControl.Display.WakeFromScreensaver` | src/drivers/displays/display.cpp:203-212 | the state becomes `Wake` of the old state |
| `DisplayControl.Display.AlternateScreenState` | src/drivers/displays/display.cpp:83-94 | the state becomes `AlternateStateStep` of the old state |
| `DisplayControl.Display.AlternateScreenRotation` | src/drivers/displays/display.cpp:97-108 | the state becomes `AlternateRotationStep` of the old state |
| `DisplayControl.Display.ResetToFirstScreen` | src/drivers/displays/display.cpp:123-126 | the state becomes `ResetStep` of the old state |
| `DisplayControl.Display.SwitchToNextScreen` | src/drivers/displays/display.cpp:129-142 | the state becomes `NextScreenStep` of the old state |
| `DisplayControl.Display.DrawCurrentScreen` | src/drivers/displays/display.cpp:145-148 | the screen drawn is the current index, and it is below the screen count |
| `DisplayControl.Display.CheckScreensaver` | src/drivers/displays/display.cpp:169-200 | the state becomes `CheckScreensaverStep` of the old state |

## Left out

- FreeRTOS task, queue and mutex primitives (`setup_monitor`'s creation and its failure paths): the worker is one sequential step, the queue a sequence, and cache writes are not interleaved with readers.
- The byte-wise copy of the `HttpRequest` (which holds a `String` object) through `xQueueSend`/`xQueueReceive`: the request is treated as a value.
- `HTTPClient` (`begin`, the 10-second timeout, `GET`, `getString`, `end`) and the 100 ms delay after each request: the status code, body and parsed document are inputs.
- ArduinoJson deserialisation and the pool filter: the parsed document is an input.
- `Json.AsInt`: does not model ArduinoJson's coercion of a string holding a number or of a boolean (true gives 1); every non-number is fixed at 0.
- `Json.AsUInt`: does not model ArduinoJson's coercion of a string holding a number or of a boolean; every non-number is fixed at 0.
- `Json.AsDouble`: does not model the same string and boolean coercions; every non-number is fixed at 0.
- `String(float)` and `suffix_string`: abstract functions in `Formatters`, with float-to-text formatting not modelled. The `float` accumulator of the pool sum and `as<float>()` narrowing are real arithmetic.
- The `String(avg, 2)`, `String(avg, 1)` and `(int)avg` formatting in `getCurrentHashRate`: the meter returns the average and the scale instead.
- `Hashrate.HashrateMeter.CurrentHashRate`: does not model IEEE `double` arithmetic (rounding drift of the running sum, infinity for `mElapsed == 0`), because samples are real numbers; it requires `mElapsed > 0`.
- `MonitorMath.UptimeSplit`: `days` is unbounded rather than a 32-bit `int`, which differs only after 2^31 days of uptime.
- `String::toInt` of the block height before the halving arithmetic: the height is taken as an `unsigned long`.
- NTP (`timeClient.update`, `getEpochTime`), the elapsed-time extrapolation of `getTime`, `getDate`'s `localtime`, and the `"%02d:%02d"` formatting: foreign client and C library code.
- `temperatureRead()`, `Serial` logging, and the assembly of `mining_data`, `clock_data`, `clock_data_t` and `coin_data` beyond the arithmetic above.
- `millis()` is one `now` per getter call; the source reads it twice, in the condition and when setting the mark.
- Display driver selection by the preprocessor, `drawLoadingScreen`, `drawSetupScreen`, `animateCurrentScreen`, `doLedStuff` and all drawing: the driver is a record of index, count and call counters.
- `switchToPreviousScreen` and `getScreensaverActive`: declared in `display.h` with no definition in the modelled sources.
