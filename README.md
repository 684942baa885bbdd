# IssLocationStream, modelled in Dafny

`IssLocationStream` is a Node.js readable stream that polls a REST endpoint for the
position of a satellite (by default the ISS, NORAD catalog number 25544) and pushes one
item per poll. It works like this:

- Construction resolves the satellite id against a whitelist. It replaces a missing or
  too-small polling interval with the default, and keeps only the supported options.
- `_read` arms a timer for `max(interval - lag, 0)` milliseconds, where `lag` is the
  round-trip time of the previous request. `pause` clears that timer.
- When the timer fires, `getDataFromSource` counts the request and fetches.
- A fetched body is parsed and its error fields are normalised. If the
  `calculateChange` option is on, it is augmented with per-second latitude and longitude
  change relative to the previous good record, and then it is pushed.

The model has five modules:

- `Json` (json.dfy): JavaScript field values, their truthiness, `||`, and numeric reads.
- `Settings` (settings.dfy): the `ilsDefaults` constants, `getSatId`, the interval check,
  `setOptions` (an imperative loop proved against `FilteredOptions`) and `adjustForLag`.
- `Errors` (errors.dfy): `handleError` and the error test used by `calculateChange`.
- `Delta` (delta.dfy): the delta rule of `calculateChange` as functions.
- `LocationStream` (stream.dfy): the class `IssLocationStream`. Its fields are those of
  the source (`lag`, `reqs`, `resps`, `startReq`, `timer`, `previousObj`, `opts`, ...).
  It adds the sequence of pushed items, a log of cleared timers, and ghost counters of
  pending and settled requests. `Valid()` ties these together: `reqs` is the number of
  pending plus settled requests, `resps` is at most the settled ones, exactly one item is
  pushed per settled request, and the baseline never carries an error indicator.
  The module `StreamScenario` at the end of stream.dfy replays the unit tests' poll round
  as a client of the class.

`getDataFromSource` is split in two methods:

- `Issue(now)` is its synchronous part, run when the timer fires.
- `Resolve(result, parse, now)` is the promise continuation. `result` is the fetch
  outcome (body text or transport error object), `parse` stands in for `JSON.parse`,
  and `now` stands in for `Date.now()`.

Behaviour of the code that is easy to misread:

- `handleError` builds exactly `{error, message}`.
- `calculateChange` divides by the elapsed time as it is. Equal timestamps give NaN or
  Infinity deltas (`Delta.Rate`).
- A payload normalised by `handleError` (with `errno` or `status`) still increments
  `resps` and still updates `lag`. A parse failure does neither.
- Across the equator the code takes the transverse path when it is below 180.
  `Delta.LatDiffIsShorterPath` proves that this is the shorter of the two paths,
  because the two paths add up to 360 there.
- `Delta.ValidLatitudesUsePlainDifference` proves that for latitudes within [-90, 90]
  the transverse path is never taken.

## Model

| member | source | states |
|---|---|---|
| `Settings.IndexOf` | lib/IssLocationStream.js:64 | `indexOf` returns -1 exactly when the element is absent; otherwise it returns an index holding the element with no earlier occurrence |
| `Settings.GetSatId` | lib/IssLocationStream.js:63-67 | a non-empty id on the whitelist is kept; an absent, unlisted or empty id resolves to `DEFAULT_SAT_ID` |
| `Settings.ShippedSatIdIsAlwaysDefault` | lib/IssLocationStream.js:15-23 | with the shipped whitelist `['25544']`, every id resolves to `'25544'` |
| `Settings.ResolveInterval` | lib/IssLocationStream.js:46 | the interval is kept iff it is given, truthy and at least `INTERVAL_MIN`; otherwise it is `DEFAULT_INTERVAL`, so the result is never below the floor |
| `Settings.FilteredOptions` | lib/IssLocationStream.js:74-84 | the keys of the result are exactly the keys of `opts` listed in `supportedOpts`; each value is the truthiness of the input value |
| `Settings.SetOptions` | lib/IssLocationStream.js:74-84 | the `for...in` loop builds exactly `FilteredOptions(supportedOpts, opts)` |
| `Settings.FilteredOptionsIdempotent` | lib/IssLocationStream.js:74-84 | filtering the filtered options, written back as booleans, gives the same options |
| `Settings.AdjustForLag` | lib/IssLocationStream.js:108-110 | the wait is the larger of `interval - lag` and 0: never negative, and at most `interval` when the lag is non-negative |
| `Errors.HandleError` | lib/IssLocationStream.js:174-185 | with a truthy `errno` or `status`, the result has exactly the keys `error` and `message`; `error` is the truthy `errno`, else `status`; `message` is `code`, else `description`, else `'no message provided'`; any other payload is returned unchanged |
| `Errors.HandleErrorIdempotent` | lib/IssLocationStream.js:174-185 | a normalised record has no `errno` or `status`, so normalising twice is normalising once |
| `Errors.HandleErrorKeepsErrorClass` | lib/IssLocationStream.js:174-185 | a payload has an `error`/`errno`/`status` indicator after normalisation iff it had one before |
| `Delta.LatDiff` | lib/IssLocationStream.js:151-162 | on one side of the equator the latitude distance is the absolute difference; it never exceeds the absolute difference, and it is non-negative for latitudes within [-180, 180] |
| `Delta.LatDiffIsShorterPath` | lib/IssLocationStream.js:158-161 | across the equator the two paths sum to 360, and the `< 180` test selects the shorter one |
| `Delta.ValidLatitudesUsePlainDifference` | lib/IssLocationStream.js:151-161 | for latitudes in [-90, 90] the latitude distance is the absolute difference |
| `Delta.LatDiffNegativeOutOfRange` | lib/IssLocationStream.js:159-161 | for out-of-range latitudes (200 and -200) the transverse path yields a negative distance |
| `Delta.Rate` | lib/IssLocationStream.js:165-166 | the quotient is a finite number iff both operands are numbers and the elapsed time is non-zero, and then rate times time equals the distance; over a zero time the result is never 0: a zero distance gives NaN and any other distance gives Infinity |
| `Delta.Augment` | lib/IssLocationStream.js:164-166 | augmenting adds exactly the two delta keys and leaves every other field of the response as it was |
| `Delta.AugmentRates` | lib/IssLocationStream.js:145-166 | with numeric fields and distinct timestamps, the deltas are the latitude distance and the absolute longitude difference, each divided by the elapsed time |
| `Delta.Changed` | lib/IssLocationStream.js:138-172 | an error-indicated response, or any response without a baseline, is returned unchanged; a non-error response with a baseline is `Augment(baseline, response)`, so it gains exactly the two delta fields; no other field is lost or altered |
| `Delta.BaselineNeverAnError` | lib/IssLocationStream.js:140-170 | the stored baseline is only ever replaced by a record without error indicators |
| `Delta.CalculateChangeExample` | test/IssLocationStream.test.js:245-267 | baseline (5, lon 23, lat 99) then (8, lon -1, lat -3) gives latitude delta 34 and longitude delta 8 |
| `LocationStream.IssLocationStream.constructor` | lib/IssLocationStream.js:37-56 | satellite, interval and options are the normalised inputs; `lag`, `reqs` and `resps` start at 0; no timer, not paused, no baseline, nothing pushed |
| `LocationStream.IssLocationStream.Pause` | lib/IssLocationStream.js:116-120 | the armed timer, if there is one, is cleared (logged once); the stream is paused afterwards in every case |
| `LocationStream.IssLocationStream.Read` | lib/IssLocationStream.js:126-130 | when not paused, a new timer is armed with delay `AdjustForLag(interval, lag)`; when paused nothing changes |
| `LocationStream.IssLocationStream.CalculateChange` | lib/IssLocationStream.js:138-172 | the result is `Changed(old baseline, response)`; the baseline becomes the result unless the response is error-indicated, in which case it is untouched |
| `LocationStream.IssLocationStream.Issue` | lib/IssLocationStream.js:191-193 | `reqs` grows by exactly one and `startReq` becomes the current time |
| `LocationStream.IssLocationStream.Resolve` | lib/IssLocationStream.js:195-211 | exactly one item is appended. On a parsed body: `resps` grows by one and `lag` is `now - startReq`; the pushed item is the normalised payload, passed through `calculateChange` when the option is on. On a parse failure, the pushed item is the error string. On a rejection, it is the normalised error. In both failure cases the counters, the lag and the baseline are unchanged |

## Left out

- The HTTPS fetcher (lib/SatLoc.js) is not part of this model: its outcome is the
  `FetchResult` parameter of `Resolve`. The URL it builds from the satellite id is not modelled.
- Node's `stream.Readable` machinery (object mode, buffering, `isPaused`, `resume`, the
  end-of-stream meaning of pushing `null`) is reduced to a `paused` flag and a sequence
  of pushed items. There is no `resume` operation.
- `setTimeout`/`clearTimeout` become timer tokens with their delay. A timer firing is an
  explicit call to `Issue`, and the asynchronous order of events is not modelled.
- `Date.now()` and `JSON.parse` are parameters. Only parses that yield a plain object are
  modelled; parse results of any other kind (`null`, numbers, strings, booleans, arrays)
  are not.
- Floating point: coordinates and timestamps are reals, and intervals and times are
  integers. Rounding is not modelled. A non-number operand in the delta arithmetic
  counts as NaN: JavaScript's coercion of `null`, booleans and numeric strings to
  numbers is not modelled, and neither are infinite operands.
- Field values are primitives only. Nested objects and arrays inside a payload or an
  error object are not modelled.
- The options object is a map of string keys. An absent options object is passed as the
  empty map, and inherited enumerable properties seen by `for...in` are not modelled.
- Aliasing: the source mutates the response object in place. The same object is then
  both the pushed item and `previousObj`. The model uses values, so a consumer mutating a
  pushed item, which would also change the baseline, is not captured.
- When several requests are in flight, `Resolve` measures the lag from the latest
  `startReq`, which is what the single shared field does in the source. The model does
  not pair a resolution with its own request.
- Tests that replace `props`, `interval` or `lag` on an instance are not modelled; the
  class keeps `props` and `interval` fixed after construction.
