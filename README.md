# ab: a verified model of the load generator's core

`ab` is a command-line load generator (a single Rust file, `src/main.rs`).
It sends N work units to one endpoint. A work unit is an HTTP request or a
WebSocket session. The units are split over C concurrent workers. One
aggregator receives every result and keeps the statistics. This project
models the deterministic core of that program in Dafny and proves its
properties:

- **Header parsing** (`Headers`): `parse_header` splits a `Key:Value`
  argument at its first colon and trims both halves. `main` then inserts
  the pairs into a map, so the last value given for a key wins.
- **Request classification** (`Requests`): the HTTP method is decoded
  case-insensitively against seven names. The outcome of the network
  becomes a `RequestResult`: success, optional status code, optional error
  text, duration.
- **Work partition** (`Partition`): worker `i` gets `N / C` units, plus one
  if `i < N % C`. Workers with a zero share are not spawned. N = 0 or C = 0
  stops the run first.
- **Aggregation** (`Aggregation`): the receive loop is a fold over the
  received results. It updates the success and failure counters, the
  latency samples (clamped to at least 1 ms), the error-text tally (with
  the fallback key `未知错误`) and the status-code tally. The class
  `Aggregator` is the state that loop updates in place.
- **The run** (`LoadTest`): preparing the configuration, the worker loop,
  the join loop that counts each failed task as one more failure,
  `total_requests_executed` and the sorted status-code list.

The helper module `Text` models the parts of Rust's string API that the
core uses: `trim`, `to_uppercase` and the decimal form of a status code.
`Wrappers` holds `Option` and `Result`.

Network outcomes and elapsed times are inputs of the model. An HTTP call
is a function from the request that was built to its outcome (a response
status or a transport error), plus the time elapsed. Each WebSocket
library call (URL parse, connect, send) is given by its outcome and its
duration. Durations are natural numbers of nanoseconds, like Rust's
`Duration`. The histogram sample is `as_millis()`, which truncates.

Points of the code's behaviour that the model keeps as written:

- `main` creates the result channel with `mpsc::channel(cli.concurrency * 2)` (line 214) before it checks either count. Tokio's bounded channel panics when its capacity is 0. So C = 0 panics at line 214, whatever N is, and the zero-concurrency message at lines 233-236 is never printed. `LoadTest.Prepare` returns `ChannelCapacityPanic` for C = 0 and proves it never returns the zero-concurrency error.
- `total_requests_executed` is the number of results received plus the number of failed joins (lines 340-348). A task that fails after sending some of its results therefore changes the total. `EveryUnitCounted` proves the total is N when every worker delivers its share and every join succeeds.
- The HTTP duration is read as soon as the status is known (line 115). The response body is drained afterwards (line 117).
- `make_websocket_request` takes no timeout; only the HTTP client has one (lines 210-212).
- When no hold duration is set, the WebSocket duration is read after the close (lines 188-190). With a hold duration it is read after the sleep (line 177) and before the close (lines 178-179).

## Model

| member | source | states |
|---|---|---|
| `Text.TrimStart` | src/main.rs:59 | the result is a suffix of the input, everything cut off is white space, and it does not start with white space |
| `Text.TrimEnd` | src/main.rs:59 | the result is a prefix of the input, everything cut off is white space, and it does not end with white space |
| `Text.Trim` | src/main.rs:59 | the result has no white space at either end, uses only characters of the input, and leaves an already trimmed string unchanged |
| `Text.TrimStripsOnlyWhitespace` | src/main.rs:59 | `trim` keeps a contiguous part of the input and removes only white space on either side of it |
| `Text.UpperChar` | src/main.rs:83 | an ASCII lower-case letter becomes its upper-case letter, other ASCII characters are kept, and every character yields at least one character |
| `Text.ToUpper` | src/main.rs:83 | upper-casing never shortens a string |
| `Text.ToUpperAscii` | src/main.rs:83 | on an ASCII string, upper-casing keeps the length and works letter by letter |
| `Text.ThreeDigits` | src/main.rs:123 | a status code prints as exactly three decimal digits, the first not zero, whose value is the code |
| `Text.ThreeDigitsInjective` | src/main.rs:123 | different codes print differently |
| `Headers.FirstColon` | src/main.rs:57 | the index found is the first colon, or the end of the string when there is none |
| `Headers.InvalidHeaderMessage` | src/main.rs:61 | the error text has the fixed prefix and then quotes the rejected argument verbatim |
| `Headers.ParseHeader` | src/main.rs:56-63 | parsing succeeds exactly when the argument has a colon; the pair is the trimmed text before the first colon and the trimmed rest, so the key holds no colon while the value may; otherwise the error text quotes the argument |
| `Headers.ParseHeaderRoundTrip` | src/main.rs:56-63 | a trimmed key without a colon, a colon, and a trimmed value parse back to that key and value |
| `Headers.BuildHeaderMap` | src/main.rs:216-219 | the map's keys are exactly the keys given, and a key given more than once keeps the value of its last occurrence |
| `Requests.IsSuccess` | src/main.rs:114 | a status is a success exactly when it is in the 2xx class, that is when its first digit is 2 |
| `Requests.DecodeMethod` | src/main.rs:83-99 | a method is recognised exactly when its upper case is one of the seven names, and then it is that method |
| `Requests.DecodeMethodIgnoresCase` | src/main.rs:83-90 | every spelling of a method name in upper- or lower-case ASCII letters decodes to that method |
| `Requests.StatusErrorMessage` | src/main.rs:123 | the error text is `HTTP Status: ` followed by the three digits of the status, from which the status can be read back |
| `Requests.StatusErrorMessageInjective` | src/main.rs:123 | two different error statuses get two different error texts, so the error tally keeps them apart |
| `Requests.MakeHttpRequest` | src/main.rs:75-133 | an unknown method fails at once with no status code and the method in the error text; a response always yields its status and succeeds exactly when it is 2xx, with an error text for the status otherwise; a transport error fails with its message and no status; every result has an error text exactly when it failed |
| `Requests.UnsupportedMethodSendsNothing` | src/main.rs:91-101 | with an unknown method the network is not consulted: the result is the same whatever it would have answered |
| `Requests.MakeWebSocketRequest` | src/main.rs:136-204 | never a status code; success exactly when the URL parses, the connection opens and the optional single send succeeds; a failure carries the error text of the first failing step; a held session lasts at least its hold time |
| `Requests.NoMessageNoSend` | src/main.rs:160-173 | without a message nothing is sent, so the send's outcome cannot change the result |
| `Partition.Share` | src/main.rs:256-269 | each share is the base share `N / C` or one more, and among the C workers a share is zero exactly for the indices at or past N |
| `Partition.ShareFair` | src/main.rs:256-269 | shares never grow with the worker index and any two differ by at most one |
| `Partition.ShareSumClosed` | src/main.rs:256-269 | the first k shares add up to `k * (N / C) + min(k, N % C)` |
| `Partition.SharesSumToTotal` | src/main.rs:256-269 | the C shares add up to N |
| `Partition.SpawnedExactly` | src/main.rs:259-273 | the spawned workers are exactly workers `0..min(N, C)`, each with its share of at least one unit, and together they run all the shares |
| `Partition.Distribute` | src/main.rs:229-273 | N = 0 is reported first, then C = 0, and nothing is spawned; otherwise `min(N, C)` workers are spawned in index order, each with at least one unit, with shares differing by at most one and summing to N |
| `Aggregation.LatencySample` | src/main.rs:317-321 | the sample is the duration truncated to whole milliseconds, or 1 for a sub-millisecond duration, so it is never 0 |
| `Aggregation.Bump` | src/main.rs:329 | `entry(k).or_insert(0) += 1` adds the key if it is missing, adds one to its count, and leaves every other count unchanged |
| `Aggregation.ErrorKey` | src/main.rs:328-332 | a failure without an error text is tallied under `未知错误`; a failure produced by either executor always has a text and is tallied under it |
| `Aggregation.CountStatus` | src/main.rs:323-325 | a result without a status code leaves the status tally unchanged; one with a code adds one to that code and changes no other entry |
| `Aggregation.Step` | src/main.rs:313-338 | one pass of the receive loop increments exactly one counter, adds a non-zero sample for a success only, bumps the error tally for a failure only, and counts the status code whenever there is one |
| `Aggregation.Fold` | src/main.rs:313-338 | after the receive loop the two counters add up to the number of results received |
| `Aggregation.FoldCounts` | src/main.rs:313-327 | the success counter counts the successful results, and the two counters add up to the number of results received |
| `Aggregation.FoldLatencies` | src/main.rs:314-321 | there is one sample per successful result and none per failure, each the clamped duration, and no sample is 0 |
| `Aggregation.FoldErrorTally` | src/main.rs:326-332 | each failure adds one under its error text, or under `未知错误` when it has none; a key is present exactly when some failure had it |
| `Aggregation.FoldErrorSum` | src/main.rs:326-332 | the counts of the error tally add up to the number of failed results received |
| `Aggregation.FoldStatusTally` | src/main.rs:322-336 | the status tally counts every result that carries a status code, whether it succeeded or failed |
| `Aggregation.StepCommutes` | src/main.rs:313-338 | two results received in either order leave the same state |
| `Aggregation.FoldOrderIndependent` | src/main.rs:313-338 | the counters, the samples and both tallies depend only on the multiset of results received, not on their arrival order |
| `Aggregation.Aggregator.constructor` | src/main.rs:307-311 | the aggregator starts with zero counters, no samples and empty tallies |
| `Aggregation.Aggregator.Record` | src/main.rs:313-338 | one pass of the receive loop updates the state exactly as one step of the fold |
| `Aggregation.Aggregator.RecordJoinFailure` | src/main.rs:340-345 | a failed join adds one failure and changes nothing else |
| `LoadTest.IsWebSocket` | src/main.rs:221 | the WebSocket mode is chosen when the method upper-cases to `WS`, which is never also one of the seven HTTP methods |
| `LoadTest.Prepare` | src/main.rs:214-273 | C = 0 panics when the channel is created, before any check, so the zero-concurrency error is never returned; with C > 0, zero requests stop the run with that error; otherwise the configuration carries the arguments, the header map with last-writer-wins, the protocol chosen by `to_uppercase() == "WS"`, and the spawned workers of the partition |
| `LoadTest.Execute` | src/main.rs:276-300 | every work unit's result has an error text exactly when it failed; WebSocket results have no status code; under an unknown HTTP method every unit fails without a status |
| `LoadTest.Worker` | src/main.rs:275-301 | a worker runs its share of units one after another and sends one result per unit, in order |
| `LoadTest.InsertSorted` | src/main.rs:378-379 | inserting a new code into an ascending list keeps it ascending and adds exactly that code |
| `LoadTest.SortedStatusCodes` | src/main.rs:378-379 | the listed codes are exactly the keys of the status tally, ascending and without repetition |
| `LoadTest.Summarize` | src/main.rs:307-348 | each received result counts once as a success or a failure, each failed join as one more failure with no sample and no tally entry; the total is the number of results received plus the failed joins; the error tally sums to the failures received; the status codes are listed ascending |
| `LoadTest.EveryUnitCounted` | src/main.rs:340-348 | when every spawned worker delivers its whole share and every join succeeds, the total is N and the statistics are those of the workers' results in any interleaving |

## Left out

- Command-line parsing with clap (the `Cli` struct, lines 14-53). Only `parse_header` is modelled.
- The network and its libraries: reqwest's client, `send` and `bytes`, `Url::parse`, `connect_async`, the WebSocket `send` and `close`. Their outcomes and durations are inputs of the model.
- The HTTP client timeout (lines 210-212) belongs to the client and shows up only as a possible transport error.
- Header names or values that reqwest refuses show up, as in the code, as a transport error from `send`.
- The tokio tasks, the `mpsc` channel and `handle.await` are concurrency. Worker output is a sequence, the received results are any interleaving of those sequences, and join outcomes are an input.
- Partition.Distribute: its C = 0 branch models the check at lines 233-236 as written. The program never reaches that check, because line 214 panics first when C = 0; `LoadTest.Prepare` models that panic and never calls `Distribute` with C = 0.
- LoadTest.Prepare: models the line-214 panic only by its cause, a zero capacity. Other channel behaviour is not modelled, and neither is the `usize` overflow of `cli.concurrency * 2`, which needs more than 2^63 workers.
- A failed `tx.send` (lines 283-285 and 296-298) only prints. It cannot happen while the receive loop runs, so every result sent is received.
- `Instant` and `tokio::time::sleep` are the clock. Each library call's duration, and how far the hold sleep overran, are inputs.
- Histogram mean, min, max and percentiles (lines 362-370) come from a foreign library, and the mean is a float. The histogram is modelled as the multiset of its samples. `record(...).unwrap()` is assumed to succeed.
- The requests-per-second figure (lines 356-360) is floating-point arithmetic.
- All report printing (lines 238-251 and 350-390).
- Aggregation.FoldCounts: `successful_requests` and `failed_requests` (lines 308-309) have no type annotation, so Rust makes them `i32`. After 2^31 - 1 increments (lines 315, 327 and 343) they overflow: a debug build panics and a release build wraps. The model counts with unbounded naturals, so its equalities hold only for runs with fewer than 2^31 results.
- LoadTest.Summarize: same `i32` limit; the counters and `total_requests_executed` (line 348) are exact only below 2^31 - 1.
- LoadTest.EveryUnitCounted: same `i32` limit; "the total is N" holds only for N below 2^31.
- Aggregation.LatencySample: the `as u64` cast of `as_millis()` would truncate a duration of more than 2^64 ms. The model omits that cast because no run lasts that long.
- Requests.StatusErrorMessage: the `Display` text of a status code is its three digits followed by a reason phrase from the http crate. The model keeps only the three digits.
- Text.UpperChar: covers ASCII letters and the non-ASCII characters whose upper case consists only of ASCII letters (ı, ſ, ß and the Latin ligatures U+FB00-U+FB06). Every other character is kept as it is. Its real upper case contains a non-ASCII character anyway, so this does not change which strings decode to a method or to `WS`.
- `actual_requests_count` (lines 223-227) is `requests` in both branches, so the model uses `requests` directly.
