# Honma-Munehisa: a Dafny model of the bot's core

Honma-Munehisa is a Telegram bot written in Python (`honma.py`). This project models two of its parts.

**The candlestick scan (`/1`, `/2`).**
- It downloads one year of daily bars for each of up to 50 ranked tickers.
- It classifies every bar of the last week as a hammer, a bullish engulfing or a piercing line. Every pattern also needs a 20/50-day moving-average downtrend.
- A piercing line is suppressed on a date the ticker already has as engulfing.
- It renders the three lists as a Korean report with one line per ticker. Each line holds dates formatted `YYYY. MM. DD`.

**The volume watch (`/monitor SYMBOL`).**
- Starting a watch records the symbol's highest 5-minute volume of the last hour.
- A scheduler then polls the day's 5-minute volumes once a minute. Each tick takes one of four decisions:
  - outside 23:30–05:00 it stops every watch;
  - if the last closed bar has fallen to 30% of the maximum or less, it stops this watch;
  - if the bar sets a new high, it raises the maximum;
  - otherwise it stays quiet.
- `stop_job` stops one watch and `stop_all_jobs` stops all of them.

The project has one module per file:

- `Wrappers` (`wrappers.dfy`): `Option`.
- `Dates` (`dates.dfy`):
  - calendar dates and their order;
  - the `strftime("%Y. %m. %d")` rendering;
  - a parser that inverts that rendering.
- `Candles` (`candles.dfy`):
  - `calculate_sma` (a missing mean is `None`, like pandas' NaN);
  - `is_downtrend`, `is_hammer`, `is_engulfing` and `is_piercing_line`.
- `PatternScan` (`scan.dfy`):
  - the three dicts, modelled as insertion-ordered tables;
  - the accumulation loop of `fin`, written as a method and specified by a fold;
  - what the loop records.
- `ScanReport` (`report.dfy`): `format_candle_patterns` as a method, `fin` after the symbol list is known, and the layout of the report.
- `Volumes` (`volume.dfy`): the tiers of `format_volume` and the maximum of a `Volume` column.
- `VolumeWatch` (`watch.dfy`):
  - the registry class `Registry`, whose fields are the module-level `jobs_dict` and `max_volume_dict`, the set of running schedulers, and `nextHandle`, a counter that makes each new scheduler token fresh;
  - its methods for starting a watch, one polling tick, `stop_job` and `stop_all_jobs`.

The registry invariant `Registry.Valid` says four things:
- the watched symbols are exactly the keys of the maximum dict;
- no symbol is watched by two chats;
- every registered watch owns a scheduler bound to its own chat and symbol;
- the running schedulers are exactly those of registered watches.

Two behaviours of the code that are easy to miss:
- **Duplicate check.** `start_volume_tracking` looks for an existing watch by symbol alone, in `max_volume_dict` (honma.py:51). A second chat cannot watch a symbol another chat already watches.
- **Empty chat entries.** `stop_job` deletes the symbol's entry but leaves the chat's entry in `jobs_dict`, even when it becomes empty (honma.py:128-134). Only `stop_all_jobs` deletes empty chat entries.

## Verifying

From this directory:

```
dafny verify --resource-limit 2000000 --verification-time-limit 0 wrappers.dfy dates.dfy candles.dfy scan.dfy report.dfy volume.dfy watch.dfy
```

Plain `dafny verify *.dfy` verifies the same files with Dafny's default limits.

## Model

| member | source | states |
|---|---|---|
| Candles.Sma | honma.py:194-196 | the rolling mean at `index` is defined exactly when the window is full (`window <= index + 1`) |
| Candles.IsDownTrend | honma.py:198-203 | the short mean is below the long mean only when both windows are full; the body is the reference definition, characterised by `DownTrendCrossMultiplied` |
| Candles.TrendGate | honma.py:225-228 | the shared `index >= 5` guard before the 20/50 trend: it passes only at index 5 or later with at least 50 closes (`DownTrendNeedsLongWindow`) |
| Candles.RatioAtMost | honma.py:220-222 | `num / den <= bound` with numpy's division by zero: cross-multiplied for a positive or negative denominator, and true for a zero denominator only when the numerator is negative (+inf, NaN and -inf compare false, false, true) |
| Candles.IsHammer | honma.py:205-230 | a hammer has open different from close, a non-zero range, a lower wick below the body, and passes the trend gate; characterised further by `HammerNeedsBody` and `PatternsNeedDownTrend` |
| Candles.IsEngulfing | honma.py:232-257 | an engulfing bar has index at least 1, passes the trend gate, and its body covers the previous bearish body (`open < prev.close < prev.open < close`) |
| Candles.IsPiercingLine | honma.py:259-287 | a piercing line has index at least 1, passes the trend gate, follows a bearish bar, opens below that bar's close and closes above it; `EngulfingIsPiercing` shows every engulfing bar passes it |
| Candles.SmaWithinWindow | honma.py:194-196 | a defined rolling mean lies between the smallest and largest close of its window |
| Candles.DownTrendCrossMultiplied | honma.py:198-203 | the short mean is below the long mean iff both windows are full and `sum_short * long < sum_long * short`; a missing mean never compares true |
| Candles.DownTrendNeedsLongWindow | honma.py:225-228 | with windows 20/50, the trend test and the `index >= 5` gate are false at every index below 49 |
| Candles.PatternsNeedDownTrend | honma.py:205-287 | hammer, engulfing and piercing line are all rejected below index 5 or wherever there is no 20/50 downtrend |
| Candles.PatternsAtFirstBar | honma.py:232-234 | engulfing and piercing line are false at index 0, which has no previous bar |
| Candles.HammerNeedsBody | honma.py:205-230 | a bar with open equal to close, or a well-formed bar with high equal to low, is never a hammer |
| Candles.EngulfingIsPiercing | honma.py:232-287 | every bar that passes the engulfing test also passes the piercing-line test |
| Dates.BeforeIsStrictTotalOrder | honma.py:322 | the date order used for the one-week cutoff is a strict total order, and `>=` is equality or being later |
| Dates.FormatDate | honma.py:346 | the rendering of a date is 12 characters, with `". "` at offsets 4 and 8 |
| Dates.ParseFormatDate | honma.py:346 | parsing a rendered date gives back the date |
| Dates.FormatParseDate | honma.py:346 | a string that parses to a valid date is exactly that date's rendering |
| Dates.FormatDateInjective | honma.py:346 | distinct dates render as distinct strings |
| PatternScan.Append | honma.py:324-326 | appending a date changes only that ticker's list, by the date at its end; a new ticker becomes the last key |
| PatternScan.AppendWellFormed | honma.py:324-326 | appending keeps every list non-empty and every key unique |
| PatternScan.KeyIffDates | honma.py:324-326 | in a well-formed dict, a ticker is a key exactly when it has at least one date |
| PatternScan.ScanBar | honma.py:320-338 | one iteration of the inner loop; the body is the reference definition, characterised by `ScanBarLookup` |
| PatternScan.ScanAll | honma.py:317-338 | the whole scan as a fold over tickers and bars; the body is the reference definition, which `Scan` is proved to compute and `ScanAllLookup` characterises |
| PatternScan.Scan | honma.py:311-338 | the nested loop over the first 50 tickers and bars 1.. fills the three dicts exactly as the fold `ScanAll` does |
| PatternScan.ScanAllWellFormed | honma.py:311-338 | for any input, each of the three dicts has unique keys and no empty list |
| PatternScan.PatternDatesFromBars | honma.py:320-338 | every listed date is the date of a reported bar with index at least 1, on or after the cutoff |
| PatternScan.PatternDatesChronological | honma.py:320-338 | for a chronological download each list's dates strictly increase |
| PatternScan.PatternDatesBeforeBar | honma.py:320-338 | for a chronological download, dates listed from earlier bars precede every later bar's date |
| PatternScan.ScanBarLookup | honma.py:321-338 | when the ticker does not already hold the bar's date as engulfing, one bar appends its date to exactly the patterns it is reported under, for its own ticker only |
| PatternScan.ScanSeriesLookup | honma.py:320-338 | for a chronological download of a ticker with no engulfing dates yet, scanning the download extends only that ticker's lists, by exactly its reported dates |
| PatternScan.ScanAllLookup | honma.py:317-338 | for distinct tickers and chronological downloads, each scanned ticker's list is exactly the dates of its reported bars (piercing lines that are also engulfing are excluded), and tickers past the 50th or never listed have none |
| PatternScan.PatternDatesDisjoint | honma.py:327-338 | on a chronological download no date is both engulfing and piercing line |
| PatternScan.EngulfingPiercingDisjoint | honma.py:332-338 | in the finished scan, no ticker has a date in both its engulfing and its piercing-line lists |
| ScanReport.AppendSection | honma.py:343-359 | one section of the report: the header, then exactly one entry line per key of the dict, in key order, after the lines already there |
| ScanReport.FormatCandlePatterns | honma.py:340-362 | the text is the newline join of the three headers, each followed by one `"TICKER: dates"` line per key, in key order |
| ScanReport.Fin | honma.py:311-366 | the report text is the rendering of the fold of the scan over the first 50 tickers |
| ScanReport.EntryLine | honma.py:347 | one `"TICKER: dates"` line; the body is the reference definition, characterised by `EntryLineLayout` and `EntryLineDates` |
| ScanReport.EntryLineLayout | honma.py:347 | a line is the ticker and `": "`, then 13 characters per date less one |
| ScanReport.ReportLayout | honma.py:340-362 | the report has `3 + keys` lines: the headers at fixed positions, with each dict's entry lines right after its header |
| ScanReport.JoinFieldsLength | honma.py:346-347 | n twelve-character fields joined by spaces make `13n - 1` characters |
| ScanReport.JoinFieldsAt | honma.py:346-347 | the k-th field of such a join sits at offset `13k` |
| ScanReport.DatesTextLayout | honma.py:346-347 | the k-th rendered date of a line sits at offset `13k` of its date text |
| ScanReport.EntryLineDates | honma.py:345-347 | every date on an entry line parses back, from its fixed offset, to the listed date |
| Volumes.VolumeScale | honma.py:37-43 | the tier is units exactly below 1 000; a scaled volume reaches its tier's divisor (10^6 or 10^3), and outside millions it stays below 1 000 times that divisor |
| Volumes.Suffix | honma.py:39-43 | `M` and `K` are one character, and only the unscaled `str(volume)` tier has no suffix |
| Volumes.ScaleMantissa | honma.py:37-43 | the exact quotient of a positive volume by its tier's divisor (`Divisor`: 10^6, 10^3, or 1 for `str(volume)`) is at least 1, and below 1000 outside millions; this is the quotient before `.2f` rounding |
| Volumes.ScaleMonotone | honma.py:37-43 | a larger volume never gets a smaller unit |
| Volumes.MaxVolume | honma.py:62 | the maximum of a non-empty `Volume` column is one of its values and bounds all of them |
| Volumes.StartScenario | honma.py:60-63 | volumes 100, 150, 200, 120, 90 give a maximum of 200, printed without a unit |
| VolumeWatch.InMonitoringHours | honma.py:93 | the window `23:30 <= now or now <= 05:00` equals being at most five and a half hours past 23:30 on the clock face |
| VolumeWatch.LastClosed | honma.py:88 | `iloc[-2]`, the second-to-last bar's volume; the body is the reference definition, used by `Registry.Tick` |
| VolumeWatch.Decide | honma.py:93-115 | stop everything exactly outside the window; stopping this watch means `last <= 0.3 * max`; raising the maximum means the volume exceeds it and 30% of it; staying quiet means the volume lies in `(0.3 * max, max]` |
| VolumeWatch.RemoveWatch | honma.py:128-131 | deleting one watch removes exactly its symbol and its scheduler, and keeps single ownership and scheduler binding |
| VolumeWatch.DropEmptyChat | honma.py:145-147 | deleting an empty chat entry changes no symbol and no scheduler |
| VolumeWatch.AddWatch | honma.py:76-82 | registering an unwatched symbol with a scheduler bound to it adds exactly that symbol and a scheduler that was not yet running |
| VolumeWatch.StartKeepsConsistent | honma.py:49-82 | a successful start keeps the registry invariant |
| VolumeWatch.StopKeepsConsistent | honma.py:128-134 | stopping a registered watch and dropping its maximum keeps the registry invariant |
| VolumeWatch.Registry.constructor | honma.py:35-46 | the empty registry satisfies the invariant |
| VolumeWatch.Registry.Start | honma.py:49-82 | already watched iff the symbol has a maximum (any chat); not found iff not watched and the download is empty; otherwise records the maximum, registers the watch under the chat with a fresh running scheduler, and reports the maximum and its unit; the invariant is kept |
| VolumeWatch.Registry.StopJob | honma.py:128-134 | removes the watch and shuts down its scheduler if registered, always drops the symbol's maximum, and keeps the chat entry; the invariant is kept unless another chat watches the symbol |
| VolumeWatch.Registry.StopAll | honma.py:136-150 | afterwards no watch, no chat entry, no maximum and no running scheduler remain |
| VolumeWatch.Registry.Tick | honma.py:85-115 | an empty download changes nothing; a single bar fails on `iloc[-2]`; otherwise the decision on the last closed bar stops all watches, stops this watch, raises the maximum or changes nothing; a surviving watch's maximum never decreases and becomes the larger of old and new |
| VolumeWatch.SurvivingTick | honma.py:93-115 | a watch survives a tick only inside the window and above 30% of its maximum, and the maximum is raised iff the volume exceeds it |
| VolumeWatch.CollapseIsThirtyPercent | honma.py:101 | the integer test `10 * last <= 3 * max` is `last <= 0.3 * max` over exact numbers |
| VolumeWatch.TickScenarios | honma.py:93-115 | a collapse to 25% stops the watch, 600 against 500 raises the maximum, a noon tick stops everything, and both ends of 23:30–05:00 are inside the window while one microsecond beyond is outside |

## Left out

- **Telegram I/O.**
  - Every `send_message` and `reply_text` is left out. The notification a start or tick sends is the `StartOutcome` or `TickOutcome` tag; the message texts are not modelled.
  - `number_command`, `monitor_command`, `echo` and `main` are left out. `monitor_command`'s time-window check and its upper-casing of the symbol are not part of this model.
- **Web scraping in `fin`.** The page fetch and the parsing of the ranked symbols are left out. The symbol list is a parameter, and so is each ticker's yfinance download (`downloads[k]`). An empty download is an empty series.
- **Downloads in the volume watch.** The one-hour and one-day downloads are parameters, reduced to their `Volume` columns. Volumes are integers.
- **Clock.** `datetime.now()` is a parameter: the cutoff date in `Fin` and the time of day in `Tick`. The cutoff is taken as a date; computing "one week ago" is not modelled.
- **Schedulers.** An APScheduler instance is an opaque `Handle` token, and shutting it down removes it from `running`. The once-a-minute timer and the `wait=False` flag are not modelled.
- **Concurrency.** Ticks and commands are atomic steps. The interleaving at each `await` is not modelled, such as a start that sends its message before it writes the maximum.
- **Floating point.**
  - Prices and means are exact reals.
  - Division by zero follows numpy (`RatioAtMost`).
  - NaN prices in a download are not modelled.
  - The `.2f` text of `format_volume` is not modelled; only the tier, the divisor and the suffix are. Rounding to two decimals can carry into the next thousand, so a volume just below a million (999 999, say) prints as `1000.00K`, and ties round on the binary value of the quotient.
- **Calendar.**
  - A calendar date is any year 1..9999, month 1..12 and day 1..31; month lengths are not checked.
  - A download is assumed to be in strictly increasing date order (`Chronological`). This assumption is used only by the lemmas that characterise the lists.
- **Scan characterisation assumption.** PatternScan.ScanAllLookup and PatternScan.EngulfingPiercingDisjoint assume that the scanned tickers are distinct. With a repeated ticker the code appends both downloads' dates to one list, and the fold `ScanAll` still describes that exactly.
- VolumeWatch.Registry.Tick: requires that the watch is registered. A scheduler that has been shut down runs no more ticks, so a tick for a stopped watch (and the `get(symbol, 0)` default it would use) is not modelled.
- VolumeWatch.Registry.StopJob: does not promise the registry invariant when another chat watches the symbol. The code then drops that other watch's maximum while its job keeps running. The only caller, a tick, always passes the watch's own chat.
