# openalgo-chart core, modelled in Dafny

This project models the data and session logic under the openalgo-chart trading chart (JavaScript):

- **Feed sessions.** `src/services/openalgo.js` and `src/services/binance.js` each build a managed
  WebSocket. The OpenAlgo one authenticates with an API key, answers pings and replays its
  subscriptions after every successful authentication. Both reconnect after an unclean close with
  capped exponential backoff (1 s, 2 s, 4 s, 8 s, 10 s; at most five times in a row). Each socket
  is a class whose methods are its events. The shared reconnect policy is a pure state machine
  (`Reconnect`) that the lemmas reason about.
- **Message and history transforms.** These turn quote, kline and mini-ticker frames and history
  rows into candles and watchlist rows. They are pure functions whose contracts give the filter
  conditions and every field of the output.
- **Process-wide state.** `connectionStatus.js` is a status broadcaster with a listener set.
  `timeService.js` is a clock-offset holder that syncs against a time authority. Both are classes
  over the module variables.
- **Drawing templates.** `TemplateManager.js` keeps a name → template dictionary. Its six built-in
  templates cannot be deleted, updated or overwritten by an import. It also keeps a favourites list
  with a toggle.
- **Indicators.** SMA, EMA, slow stochastic, coloured volume, VWAP and Heikin-Ashi. Each is an
  imperative method proved equal to a specification function, and the lemmas are stated about
  that function. They cover:
  - output length and time alignment;
  - the value of every output point;
  - behaviour on constant input;
  - causality: appending candles never changes earlier output.

Prices, volumes and times are `real`. A value that `parseFloat` could turn into NaN or a
non-finite number is an `Option<real>`.

These are inputs to the model rather than modelled code:

- the transport (`new WebSocket`, `send`);
- timers;
- `fetch`;
- `localStorage`;
- `Date.now()`.

The readings the code takes from them (ready state, parsed frames, response status and body,
clock readings, stored values) are parameters, or fields that the methods update.

## Model

| member | source | states |
|---|---|---|
| Reconnect.Delay | src/services/openalgo.js:159 | the reconnect delay is min(1000·2^attempts, 10000) ms: between 1000 and 10000, either the uncapped value or the cap, never above the uncapped value |
| Reconnect.Step | src/services/openalgo.js:154-164 | a retry is scheduled exactly for an unclean close, with no close() called and fewer than 5 attempts; its delay is Delay(attempts) and the count grows by one; other closes change nothing; an open resets the count; close() sets the manual flag; the count never exceeds 5 |
| Reconnect.BackoffSchedule | src/services/binance.js:26-33 | k unclean closes in a row starting at attempt a schedule Delay(a), Delay(a+1), … while a+i < 5, and nothing after that |
| Reconnect.FreshSessionDelays | src/services/openalgo.js:158-162 | from a fresh session, six unclean closes schedule 1000, 2000, 4000, 8000 and 10000 ms, then nothing |
| Reconnect.ManualCloseIsFinal | src/services/openalgo.js:156 | once the manual-close flag is set, no event sequence schedules a reconnect and the flag stays set |
| Reconnect.RetriesBoundedWithoutOpen | src/services/binance.js:28-30 | with no open in between, a session schedules at most 5 − attempts reconnects |
| Reconnect.OpenRestoresBudget | src/services/binance.js:18-20 | after a successful open, five unclean closes are all retried again, whatever came before |
| Reconnect.NoReconnectAfterClose | src/services/binance.js:38-40 | corrected behaviour: after close(), no retry timer reconnects, whatever events follow |
| OpenAlgo.TrimsToEmpty | src/services/openalgo.js:19 | `s.trim() === ''` holds iff every character is ECMAScript white space or a line terminator |
| OpenAlgo.CheckAuth | src/services/openalgo.js:14-30 | logged in iff a stored key exists and contains a non-white-space character; a missing key or a storage error gives false |
| OpenAlgo.ApiKey | src/services/openalgo.js:35-37 | the stored key, or the empty string when there is none |
| OpenAlgo.AuthenticatedUserHasKey | src/services/openalgo.js:14-37 | a user who passes checkAuth authenticates sockets with a non-blank key |
| OpenAlgo.ConvertInterval | src/services/openalgo.js:44-54 | 1d and D map to D, 1w and W to W, 1M and M to M; every other interval is passed through unchanged |
| OpenAlgo.ConvertIntervalIdempotent | src/services/openalgo.js:44-54 | converting an interval twice gives the same result as converting it once |
| OpenAlgo.Classify | src/services/openalgo.js:119-144 | dispatch order: a ping is answered and goes no further; any of the three acknowledgement spellings is an auth success; type 'error' and a failed 'auth' are dropped; a frame is forwarded iff its type is none of ping/auth/error/authenticated and its status is not 'authenticated' |
| OpenAlgo.MarketDataIsForwarded | src/services/openalgo.js:141-143 | a market_data frame reaches the consumer unless its status field reads 'authenticated' |
| OpenAlgo.ExchangeOrDefault | src/services/openalgo.js:79 | `sub.exchange \|\| 'NSE'`: the exchange when it is non-empty, otherwise NSE; never empty |
| OpenAlgo.SubscribeFrames | src/services/openalgo.js:75-84 | one subscribe frame per subscription, in registration order, with the exchange defaulted and the configured mode |
| OpenAlgo.FeedSocket.constructor | src/services/openalgo.js:62-70 | a new session has no manual close, 0 attempts, is unauthenticated and has sent nothing; the socket is connecting unless construction threw |
| OpenAlgo.FeedSocket.Connect | src/services/openalgo.js:87-96 | authentication is dropped; a new connecting socket, or the old socket kept when construction throws; attempts and the sent log are unchanged |
| OpenAlgo.FeedSocket.OnOpen | src/services/openalgo.js:98-109 | the socket is open, attempts are reset to 0, and exactly one authenticate frame with the API key is sent |
| OpenAlgo.FeedSocket.SendSubscriptions | src/services/openalgo.js:72-85 | sends SubscribeFrames, in order, iff the socket is open and authenticated; otherwise sends nothing |
| OpenAlgo.FeedSocket.OnMessage | src/services/openalgo.js:111-148 | an unparseable frame changes nothing; a ping sends exactly one pong and is not forwarded; an ack sets authenticated and sends the subscriptions; an auth failure is dropped; everything else is forwarded unchanged; the socket and reconnect state are untouched |
| OpenAlgo.FeedSocket.OnClose | src/services/openalgo.js:154-164 | the socket is closed and authentication dropped; the reconnect state and the returned delay are those of Reconnect.Step for the close |
| OpenAlgo.FeedSocket.Close | src/services/openalgo.js:170-175 | the manual flag is set first; the socket's own close is invoked iff it is OPEN or CONNECTING |
| OpenAlgo.FeedSocket.RetryTimerFired | src/services/openalgo.js:162 | corrected behaviour: a firing retry timer connects iff close() has not been called; otherwise nothing changes |
| OpenAlgo.FeedSocket.ReadyState | src/services/openalgo.js:176-178 | CLOSED when no socket object exists, otherwise the socket's ready state |
| OpenAlgo.FeedSocket.IsAuthenticated | src/services/openalgo.js:179-181 | the handle reports the authentication flag that an auth acknowledgement sets and a close or reconnect clears |
| OpenAlgo.ReconnectAndResubscribe | src/services/openalgo.js:98-133 | after a successful reconnect and ack, the log gains the auth frame followed by every subscription in order, and attempts are 0 |
| OpenAlgo.CloseDuringBackoff | src/services/openalgo.js:154-175 | as written: with close() called while a retry is pending, the timer's connect still yields a live, authenticated, re-subscribed feed |
| OpenAlgo.CloseDuringBackoffGuarded | src/services/openalgo.js:154-175 | with the guarded timer, the same sequence leaves the feed closed and unauthenticated, and sends nothing |
| OpenAlgo.Or | src/services/openalgo.js:390-392 | `x \|\| fallback` on a numeric field: the value when it is present and non-zero, else the fallback |
| OpenAlgo.LastTradedPrice | src/services/openalgo.js:431 | `ltp \|\| last_price \|\| 0`: ltp when present and non-zero, else last_price when present and non-zero, else 0 |
| OpenAlgo.TickToCandle | src/services/openalgo.js:363-397 | a candle is emitted iff the frame is market_data for the subscribed symbol with ltp > 0; close = ltp; time = floor(server ms / 1000) + 19800, or the local clock when there is no timestamp; open, high and low fall back to ltp |
| OpenAlgo.NormalizeSymbols | src/services/openalgo.js:410-418 | None for an empty list; otherwise one subscription per entry, in order; a bare name gets NSE, and a listed symbol keeps its exchange, or gets NSE when that is missing or empty |
| OpenAlgo.ReferencePrice | src/services/openalgo.js:435-440 | the cached previous close for the symbol and defaulted exchange when it is non-zero, else the open when non-zero, else the last traded price |
| OpenAlgo.QuoteToWatch | src/services/openalgo.js:427-450 | a row is emitted iff the frame is market_data with a symbol and ltp > 0; chg = ltp − reference (cached previous close, else open, else ltp); chgP is the percentage, or 0 for a non-positive reference; open falls back to the reference |
| OpenAlgo.NoReferenceNoChange | src/services/openalgo.js:439-442 | with no cached previous close and no open, a quote shows zero change and zero percent |
| OpenAlgo.RowSeconds | src/services/openalgo.js:247-255 | a numeric timestamp gets +19800 s; a date string gets its parsed milliseconds / 1000 + 19800, or none (NaN) when it does not parse; a row without either gets time 0 |
| OpenAlgo.RowToCandle | src/services/openalgo.js:257-266 | a row becomes a candle iff its time is positive and its four prices are finite; the candle's time is the row's IST seconds and the prices are carried over |
| OpenAlgo.GetKlines | src/services/openalgo.js:227-275 | 401 redirects to login and gives no candles; every other failure, and a body without a data array, gives none; otherwise the valid rows become candles |
| OpenAlgo.KlinesKeepValidRowsInOrder | src/services/openalgo.js:243-266 | the history keeps exactly the valid rows, in response order, and every candle has a positive time |
| Binance.FeedSocket.constructor | src/services/binance.js:1-16 | a new session has no manual close and 0 attempts; the socket is connecting unless construction threw |
| Binance.FeedSocket.Connect | src/services/binance.js:7-16 | a new connecting socket, or the old one kept when construction throws; the reconnect state is unchanged |
| Binance.FeedSocket.OnOpen | src/services/binance.js:18-20 | the socket is open and attempts are reset to 0 |
| Binance.FeedSocket.OnClose | src/services/binance.js:26-33 | the socket is closed; the reconnect state and the returned delay are those of Reconnect.Step, so a clean close never schedules a retry |
| Binance.FeedSocket.Close | src/services/binance.js:38-44 | the manual flag is set; the socket's own close is invoked iff it is OPEN or CONNECTING |
| Binance.FeedSocket.RetryTimerFired | src/services/binance.js:31 | corrected behaviour: a firing retry timer connects iff close() has not been called |
| Binance.FeedSocket.ReadyState | src/services/binance.js:45-47 | CLOSED when no socket object exists, otherwise the socket's ready state |
| Binance.ConstructionFailure | src/services/binance.js:9-14 | a handle whose first socket could not be constructed reports CLOSED and has no retry pending |
| Binance.CloseDuringBackoff | src/services/binance.js:26-44 | as written: with close() called while a retry is pending, the timer's connect reopens the stream |
| Binance.CloseDuringBackoffGuarded | src/services/binance.js:26-44 | with the guarded timer, the same sequence leaves the stream closed |
| Binance.KlineToCandle | src/services/binance.js:98-111 | one candle per frame that carries `k`, with time = k.t / 1000 and the four prices; nothing for other frames |
| Binance.MiniTickerToWatch | src/services/binance.js:124-137 | one row per frame with data: last = c, open = o, chg = c − o; chgP·o = chg·100 whenever o ≠ 0 |
| Binance.LowerAscii | src/services/binance.js:122 | toLowerCase on ASCII symbols: same length, upper-case letters lowered, all else unchanged |
| Binance.MiniTickerStreams | src/services/binance.js:119-122 | None for an empty symbol list; otherwise one `<symbol with A-Z lowered>@miniTicker` stream per symbol, in order |
| Binance.RowToCandle | src/services/binance.js:63-71 | a row becomes a candle iff its four prices are finite; time = open time / 1000 |
| Binance.GetKlines | src/services/binance.js:54-77 | every failed request and every non-array body gives []; otherwise the rows with finite prices become candles |
| Binance.KlinesKeepFiniteRowsInOrder | src/services/binance.js:60-71 | the history keeps exactly the rows with finite prices, in input order |
| Series.VolumeOrZero | src/utils/indicators/volume.js:17 | `candle.volume \|\| 0`: the volume, or 0 when it is absent |
| Series.Smoothed | src/utils/indicators/stochastic.js:36-52 | a moving average over m points has max(0, n − m + 1) outputs |
| Series.KeepSome | src/services/binance.js:63-71 | map-then-filter never yields more elements than it is given |
| Series.SmoothedAt | src/utils/indicators/stochastic.js:36-42 | output q of a moving average over m points is the mean of the m values ending at q + m − 1, at that point's time |
| Series.KeepSomeSelects | src/services/binance.js:63-71 | a map followed by a filter keeps exactly the elements that pass, in input order |
| ConnectionStatus.Added | src/services/connectionStatus.js:39 | `listeners.add`: the callback is registered, no other member is added, and the set stays free of duplicates |
| ConnectionStatus.AddedTwiceRegistersOnce | src/services/connectionStatus.js:16 | subscribing the same callback twice leaves a single registration |
| ConnectionStatus.RemovedDropsOnly | src/services/connectionStatus.js:44 | `listeners.delete` removes exactly that callback and keeps the set free of duplicates |
| ConnectionStatus.RemovedAbsent | src/services/connectionStatus.js:44 | deleting a callback that is not registered changes nothing |
| ConnectionStatus.BroadcastReachesEachOnce | src/services/connectionStatus.js:29 | a broadcast calls every registered listener exactly once with the new status, and no one else |
| ConnectionStatus.StatusBroadcaster.constructor | src/services/connectionStatus.js:15-16 | the initial status is DISCONNECTED, with no listeners |
| ConnectionStatus.StatusBroadcaster.Status | src/services/connectionStatus.js:21 | getConnectionStatus returns the stored status, which SetStatus sets and Subscribe delivers |
| ConnectionStatus.StatusBroadcaster.SetStatus | src/services/connectionStatus.js:26-31 | the status becomes s; listeners are notified in set order iff s differs from the old status; the same value notifies no one |
| ConnectionStatus.StatusBroadcaster.Subscribe | src/services/connectionStatus.js:38-42 | the callback is registered and called at once, exactly once, with the current status |
| ConnectionStatus.StatusBroadcaster.Unsubscribe | src/services/connectionStatus.js:43-45 | the callback is removed; the status and the other listeners are untouched |
| ConnectionStatus.SetTwice | src/services/connectionStatus.js:26-31 | setting the same status twice notifies each listener at most once |
| ConnectionStatus.UnsubscribeThenChange | src/services/connectionStatus.js:43-46 | after unsubscribing, a later change delivers nothing to that callback; every other listener stays registered and receives exactly one delivery if the status changed, none otherwise |
| TimeService.AfterSync | src/services/timeService.js:53-80 | a failure of any kind changes nothing; a success sets synced and the sync time, and the corrected clock at the moment of computation equals nstt + round trip / 2 |
| TimeService.HalfRoundTrip | src/services/timeService.js:60-67 | a 200 ms round trip is compensated by 100 ms |
| TimeService.SyncedIsMonotone | src/services/timeService.js:69 | the synced flag never goes back to false |
| TimeService.LastSuccessDecides | src/services/timeService.js:53-80 | after any sequence of attempts, the stored state is the one the last successful attempt computed, or the initial state when none succeeded |
| TimeService.ResyncAfterSuccess | src/services/timeService.js:111-113 | right after a success, a resync is due exactly 60 s after the sync stamp; a failure never moves that moment |
| TimeService.ClockSync.constructor | src/services/timeService.js:28-32 | offset 0, sync time 0, not syncing, not synced, no interval |
| TimeService.ClockSync.BeginSync | src/services/timeService.js:40-41 | while a sync is in flight, returns the synced flag and changes nothing; otherwise marks a sync in flight |
| TimeService.ClockSync.FinishSync | src/services/timeService.js:43-80 | stores AfterSync of the outcome, clears the in-flight flag whatever happened, and returns true iff the response was accepted |
| TimeService.ClockSync.SyncNow | src/services/timeService.js:39-81 | a whole sync: the in-flight guard, then FinishSync |
| TimeService.ClockSync.AccurateUtc | src/services/timeService.js:92-96 | now / 1000 + offset; before any success, exactly the local clock |
| TimeService.ClockSync.AccurateIst | src/services/timeService.js:103-106 | the corrected UTC seconds plus exactly 19800 |
| TimeService.ClockSync.IsSynced | src/services/timeService.js:86 | getIsSynced reports the synced flag of the clock state, which only a successful sync sets |
| TimeService.ClockSync.TimeOffset | src/services/timeService.js:118 | getTimeOffset reports the offset of the clock state, fixed by the last successful sync |
| TimeService.ClockSync.ShouldResync | src/services/timeService.js:111-113 | true iff now − lastSyncTime ≥ 60000 ms |
| TimeService.ClockSync.Init | src/services/timeService.js:123-137 | a no-op when an interval is registered; otherwise one sync and the interval is registered |
| TimeService.ClockSync.Destroy | src/services/timeService.js:142-147 | the interval is cleared; clearInterval is called iff one was registered |
| TimeService.StartStopTwice | src/services/timeService.js:123-147 | after two inits the registered interval is the first one's; the first destroy clears it and the second clears nothing |
| Templates.Defaults | src/utils/TemplateManager.js:35-108 | the six built-in templates, each stored under its own name and marked default |
| Templates.BuiltInFor | src/utils/TemplateManager.js:35-108 | each built-in template is marked default, carries its own name and has no creation stamp |
| Templates.LoadTemplates | src/utils/TemplateManager.js:26-32 | the stored object when it parses to an object, otherwise the built-in templates, all default |
| Templates.Merge | src/utils/TemplateManager.js:141-145 | each of the eight fields given in the update replaces the stored one (isDefault included, so an update can mark a custom entry default), the others are kept, and updatedAt is stamped |
| Templates.MergeNothingOnlyStamps | src/utils/TemplateManager.js:141-145 | an empty update only changes updatedAt |
| Templates.ImportEntry | src/utils/TemplateManager.js:210-219 | an element with name, tool and options is stored under its name as custom with importedAt set, unless a default holds that name; anything else changes nothing |
| Templates.FirstMissing | src/utils/TemplateManager.js:209-210 | the position of the first null element, where reading its name throws, or None |
| Templates.ImportKeepsDefaults | src/utils/TemplateManager.js:212-213 | an import never replaces or removes a default template |
| Templates.ImportWritesCustom | src/utils/TemplateManager.js:209-221 | every entry an import writes is custom, stamped and stored under its own name; new names come only from well-formed elements |
| Templates.IndexOf | src/utils/TemplateManager.js:240 | the first position of the name, or −1 iff it is absent |
| Templates.Toggled | src/utils/TemplateManager.js:240-246 | appends an absent name; for a present one removes its first occurrence and keeps the names before and after it in order |
| Templates.ToggleTwiceRestores | src/utils/TemplateManager.js:238-250 | toggling an absent name twice gives back the original list |
| Templates.ToggleFlips | src/utils/TemplateManager.js:238-250 | on a list without repetitions, a toggle flips membership of the name, keeps the list free of repetitions, and touches no other name |
| Templates.SpliceDropsOnly | src/utils/TemplateManager.js:245 | splicing position i out of a list without repetitions drops exactly the element there and keeps the list free of repetitions |
| Templates.AppendFreshDistinct | src/utils/TemplateManager.js:244 | pushing a name the list lacks keeps it free of repetitions |
| Templates.TemplateManager.constructor | src/utils/TemplateManager.js:21-23 | the dictionary is what loadTemplates returns |
| Templates.TemplateManager.Persist | src/utils/TemplateManager.js:185-187 | the stored copy becomes the current dictionary |
| Templates.TemplateManager.SaveTemplate | src/utils/TemplateManager.js:111-124 | the returned id is "custom_" + the time stamp; the name maps to a custom template with the given fields, overwriting any entry; other names are unchanged; the result is persisted |
| Templates.TemplateManager.DeleteTemplate | src/utils/TemplateManager.js:127-135 | returns true and removes the name iff it exists and is custom; otherwise nothing changes |
| Templates.TemplateManager.UpdateTemplate | src/utils/TemplateManager.js:138-150 | merges the update over the entry iff it exists and is custom; otherwise nothing changes; other names are never touched |
| Templates.TemplateManager.GetTemplate | src/utils/TemplateManager.js:153-155 | the template stored under the name, or none |
| Templates.TemplateManager.AllTemplates | src/utils/TemplateManager.js:158-160 | every stored entry, which is exactly the custom entries together with the default ones |
| Templates.TemplateManager.CustomTemplates | src/utils/TemplateManager.js:163-165 | exactly the entries that are not default |
| Templates.TemplateManager.DefaultTemplates | src/utils/TemplateManager.js:168-170 | exactly the entries that are default |
| Templates.CustomAndDefaultPartition | src/utils/TemplateManager.js:158-170 | custom and default templates are disjoint and together make up all templates |
| Templates.TemplateManager.ApplyTemplate | src/utils/TemplateManager.js:173-182 | the tool and options of an existing template, else null |
| Templates.TemplateManager.ImportTemplates | src/utils/TemplateManager.js:204-229 | non-array or unparseable input returns false and changes nothing; an array is imported element by element and persisted, returning true; a null element stops the import with false, keeping the earlier elements unpersisted |
| Templates.TemplateManager.ToggleFavorite | src/utils/TemplateManager.js:238-250 | the toggled favourites list is stored and returned |
| Templates.TemplateManager.GetFavorites | src/utils/TemplateManager.js:232-235 | the stored favourites list, or [] when it is absent, unparseable or not an array |
| Templates.ProtectedDefaults | src/utils/TemplateManager.js:127-150 | delete, update and import never lose or alter a built-in template, whatever their arguments |
| Sma.CalculateSma | src/utils/indicators/sma.js:9-26 | [] for a non-positive period; otherwise one point per complete window, at the time of its last candle, valued at the mean of its closes |
| Sma.SmaAt | src/utils/indicators/sma.js:15-24 | there are n − period + 1 outputs; output k has the time of candle k + period − 1 and the mean of closes k … k + period − 1 |
| Sma.SmaOfPeriodOne | src/utils/indicators/sma.js:19-23 | with period 1 the output is the close series itself |
| Sma.SmaOfConstant | src/utils/indicators/sma.js:19-23 | if every close is c, every output is c |
| Sma.SmaIsCausal | src/utils/indicators/sma.js:15-24 | appending candles never changes an output already computed |
| Ema.Alpha | src/utils/indicators/ema.js:15 | the smoothing factor 2 / (period + 1) lies in (0, 1] |
| Ema.EmaLine | src/utils/indicators/ema.js:23-29 | n − period + 1 points; point i has the time of candle i + period − 1 |
| Ema.SumOfFirst | src/utils/indicators/ema.js:18-21 | the seeding loop adds exactly the closes of the first period candles |
| Ema.CalculateEma | src/utils/indicators/ema.js:9-32 | [] when n < period or period ≤ 0; otherwise the first value is the mean of the first period closes and each later one is (close − prev)·k + prev |
| Ema.EmaOfConstant | src/utils/indicators/ema.js:18-30 | if every close is c, every EMA value is c |
| Ema.EmaWithinRange | src/utils/indicators/ema.js:18-30 | each EMA value lies within any bounds that the closes up to it respect |
| Ema.EmaIsCausal | src/utils/indicators/ema.js:25-30 | appending candles never changes an EMA value already computed |
| Stochastic.WindowHigh | src/utils/indicators/stochastic.js:22-28 | bounds every high of the look-back window from above |
| Stochastic.WindowLow | src/utils/indicators/stochastic.js:22-28 | bounds every low of the look-back window from below |
| Stochastic.WindowAttained | src/utils/indicators/stochastic.js:25-28 | the window's highest high and lowest low are attained by candles in the window |
| Stochastic.WindowRange | src/utils/indicators/stochastic.js:22-28 | the scan returns the window's highest high and lowest low |
| Stochastic.RawKLine | src/utils/indicators/stochastic.js:21-33 | one raw %K point per complete window, at the window's last candle |
| Stochastic.RawKPhase | src/utils/indicators/stochastic.js:21-33 | the raw %K loop computes RawKLine |
| Stochastic.MovingAverage | src/utils/indicators/stochastic.js:36-51 | the smoothing loops compute the moving average of their input line |
| Stochastic.CalculateStochastic | src/utils/indicators/stochastic.js:11-57 | empty lines when n < kPeriod + dPeriod + smooth − 2 or kPeriod ≤ 0; a TypeError when a smoothing length is not positive; otherwise %K trimmed by dPeriod − 1 and %D |
| Stochastic.LinesAligned | src/utils/indicators/stochastic.js:54-56 | both lines have length n − kPeriod − smooth − dPeriod + 3, agree in time point for point, and end at the last candle |
| Stochastic.LinesAreMeans | src/utils/indicators/stochastic.js:36-51 | each %K value is the mean of smooth consecutive raw %K values; each %D value is the mean of dPeriod consecutive %K values |
| Stochastic.RawKIsPercent | src/utils/indicators/stochastic.js:30-31 | raw %K lies in [0, 100] when the candle's close lies within its own low and high |
| Stochastic.FlatWindowIsFifty | src/utils/indicators/stochastic.js:30-31 | a flat window gives exactly 50 |
| Volume.CalculateVolume | src/utils/indicators/volume.js:10-20 | [] for empty input; one bar per candle with its time and its volume (0 when absent); up colour iff close ≥ open, else down colour |
| Volume.VolumeOfAppend | src/utils/indicators/volume.js:15-19 | the bars of a concatenation are the concatenation of the bars |
| Vwap.Absorb | src/utils/indicators/vwap.js:35-51 | with daily reset the remembered day becomes the candle's day; without it, the sums grow by TP·volume and volume |
| Vwap.Accumulate | src/utils/indicators/vwap.js:35-51 | the loop body for a candle with volume moves the running sums and day exactly as Absorb does |
| Vwap.VwapLine | src/utils/indicators/vwap.js:22-57 | one point per candle, with times preserved |
| Vwap.VwapStep | src/utils/indicators/vwap.js:22-57 | one more candle adds one point to the line and moves the state only when the candle has volume |
| Vwap.CalculateVwap | src/utils/indicators/vwap.js:12-60 | the loop computes VwapLine; [] for empty input |
| Vwap.VwapIsCausal | src/utils/indicators/vwap.js:22-57 | the line of a prefix is the prefix of the line |
| Vwap.VwapAt | src/utils/indicators/vwap.js:27-31 | a zero-volume candle repeats the previous value (its own typical price when first) and leaves sums and day unchanged; a candle with volume gets the average of the state after it |
| Vwap.NoResetIsCumulative | src/utils/indicators/vwap.js:47-51 | without daily reset the state holds the plain sums over the whole series |
| Vwap.NoResetValue | src/utils/indicators/vwap.js:47-56 | without daily reset, a candle with volume gets ΣTP·vol / Σvol over the candles up to it |
| Vwap.NoDayMeansStart | src/utils/indicators/vwap.js:35-44 | with daily reset, a state with no remembered day has seen no candle with volume |
| Vwap.SessionSums | src/utils/indicators/vwap.js:35-44 | with daily reset, the sums restart at a candle whose day differs from the remembered one and hold exactly that session's candles |
| ChartUtils.Max3 | src/utils/chartUtils.js:21 | Math.max of three: an upper bound that is one of them |
| ChartUtils.Min3 | src/utils/chartUtils.js:22 | Math.min of three: a lower bound that is one of them |
| ChartUtils.HaLine | src/utils/chartUtils.js:4-34 | one Heikin-Ashi candle per input candle, with times preserved |
| ChartUtils.HaStep | src/utils/chartUtils.js:16-33 | one more input candle adds one HA candle, computed from the last one so far |
| ChartUtils.CalculateHeikinAshi | src/utils/chartUtils.js:1-37 | the loop computes HaLine; [] for empty input |
| ChartUtils.HaAt | src/utils/chartUtils.js:7-33 | candle 0 has open (o+c)/2, close (o+h+l+c)/4 and the raw high and low; candle i has open = midpoint of the previous HA body |
| ChartUtils.HaIsCausal | src/utils/chartUtils.js:16-34 | the series of a prefix is the prefix of the series |
| ChartUtils.HaEnvelope | src/utils/chartUtils.js:21-22 | from candle 1 on, high ≥ max(open, close, raw high) and low ≤ min(open, close, raw low) |
| ChartUtils.HaWellFormed | src/utils/chartUtils.js:7-34 | if the first input candle is well formed, every HA candle is |
| ChartUtils.HaCloseIsMean | src/utils/chartUtils.js:19 | every HA close is the OHLC mean of its own candle |

## Left out

- The transport itself is not modelled: opening, sending and receiving sockets, `fetch` and abort signals, `setTimeout`/`setInterval`, `localStorage`, and the login redirect. Their observable effects are inputs (ready state, parsed frame, response) or fields (sent log, stored copy).
- Console logging is not modelled.
- The binance `attachHandlers` callback and the `onerror` handlers only log or install the handlers modelled as KlineToCandle and MiniTickerToWatch.
- Interleaving is not modelled. Events are method calls in sequence. `initTimeService` is modelled as if its awaited sync settled before anything else; a second call arriving during that await is not.
- The connection-status service is not wired to the feeds: no code in these files calls `setConnectionStatus`.
- Several openalgo.js operations are thin fetch wrappers and are not modelled: `getTickerPrice`, `searchSymbols` and `getIntervals`. The same holds for binance.js `getTickerPrice` and the URL and date-range building in both `getKlines`.
- The previous-close cache `window._prevCloseCache` is a map parameter of OpenAlgo.QuoteToWatch. Its filling by `getTickerPrice` is left out.
- OpenAlgo.QuoteToWatch: the cache is keyed by the pair (symbol, exchange), not by the joined string `symbol:exchange`. Pairs whose joined strings collide, such as ("A:B", "C") and ("A", "B:C"), share one entry in the source but not in the model.
- Binance.LowerAscii: symbols are taken to be ASCII. Only 'A'..'Z' are lowered, and the Unicode case mapping of `toLowerCase` for other letters is not modelled.
- Templates.TemplateManager.DeleteTemplate, Templates.TemplateManager.UpdateTemplate, Templates.TemplateManager.GetTemplate and Templates.TemplateManager.ApplyTemplate: names inherited from `Object.prototype` (e.g. "constructor", "toString") are not modelled. The source finds them through `this.templates[name]`: delete persists and returns true, update creates an own entry, get returns a function, and apply returns an undefined tool with empty options. The model treats such a name as absent.
- OpenAlgo.GetKlines and Binance.GetKlines: a null row in the response body is not modelled. The source throws reading `d.timestamp` or `d[0]`, and its catch returns [] for the whole response; the row types cannot express a null row.
- Binance.MiniTickerStreams: the stream names it builds are lower-case only for ASCII symbols, for the reason on the Binance.LowerAscii line.
- Date parsing is not modelled. A date-string history row carries the millisecond value `new Date(…)` would give, or None when it does not parse.
- VWAP's local-time `toDateString` day key is an uninterpreted function `dayOf`.
- OpenAlgo.TickToCandle: `Date.now()` is a parameter.
- IEEE-754 behaviour is not modelled: rounding, NaN and Infinity. Values are reals; a value that would be NaN or non-finite is None.
  - Binance.MiniTickerToWatch returns no percentage where the source divides by a zero open.
  - Binance.KlineToCandle assumes the kline fields parse to numbers. The source passes NaN through.
- JavaScript type confusion is not modelled: calling an indicator with a non-array (all of them return []), a non-integer period, or frames whose fields have unexpected types.
- OpenAlgo.ConvertInterval: names inherited from `Object.prototype` (e.g. "constructor") are looked up on the mapping object in the source; the model passes them through.
- Templates.LoadTemplates: a stored array counts as an object in the source. The model takes the parsed dictionary, and special keys such as `__proto__` are not modelled.
- Templates.TemplateManager.AllTemplates and the other listing readers return maps. The enumeration order of `Object.values` is not modelled.
- Templates.ImportEntry: imported elements are read into the Template record, so fields outside it are dropped. The copy of `options` (a spread) is a value copy in the model.
- `TemplateManager.exportTemplates` is not modelled: it builds a download link in the DOM.
- `safeSetItem` failures are not modelled: a persist that throws is caught in the source and here always succeeds.
- The template ids and ISO time stamps from `Date.now()` are string parameters.
- Templates.TemplateManager.SaveTemplate does not default `icon` to the pin emoji; the caller passes the icon.
- The `useConnectionStatus` React hook is not modelled.
- Stochastic.WindowRange starts from the newest candle instead of from −Infinity/Infinity. The extremes are the same.

## Findings

| source | as written | input that shows it | evidently intended | confidence | as-written member | corrected member |
|---|---|---|---|---|---|---|
| src/services/openalgo.js:162 | `close()` sets `manualClose` but does not cancel a reconnect timer that `onclose` has already scheduled; the timer calls `connect()` without checking the flag | the socket drops uncleanly, so a retry is scheduled in 1000 ms; the consumer calls `close()` before the timer fires; the timer opens a new socket, which authenticates and re-subscribes | once `close()` is called, the feed stays closed and no pending retry reconnects | high; not executed | OpenAlgo.CloseDuringBackoff | OpenAlgo.FeedSocket.RetryTimerFired |
| src/services/binance.js:31 | the same: the pending `setTimeout(connect, delay)` ignores `manualClose`, and since the flag stays set, a later drop of the revived stream is never retried | unclean close, then `close()` while the 1000 ms retry waits; the timer reopens the stream | once `close()` is called, the stream stays closed | high; not executed | Binance.CloseDuringBackoff | Binance.FeedSocket.RetryTimerFired |
