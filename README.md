# Maintenance anomaly detection: the dashboard buffer and the API gate, in Dafny

This project models the stateful core of the maintenance anomaly-detection
service and proves properties of it. It has two halves.

**The dashboard client** (`static/js/ws_client.js`). Two Chart.js line charts
share six parallel arrays: the value chart's labels, data and point colours,
and the score chart's labels, data and point colours.
- `pushPoint` appends one point to all six arrays. Its label is the last label + 1, or 0 on an empty chart. The score point is red iff the score is above the threshold. Once there are more than 200 points, the oldest entry of every array is shifted out.
- `setBulk` replaces everything with one point per value. Labels are 0..n-1. Each value is the selected channel of its row, falling back to channel 0. Each score is read by index. The values are then smoothed by the trailing moving average `applySmoothing` when smoothing is on.
- The socket `onmessage` handler picks a bulk reset, a one-point append or nothing.
- The threshold handler recolours the stored scores.
- The save handler stores a snapshot of the two data arrays. The load, channel-change and upload handlers call `setBulk`.
- The channel-change handler passes the score chart's own data array to `setBulk`, which empties it before reading it. So after a channel change every score is `undefined` and painted neutral.

**The server** (`src/maintainance_anomaly_detection/main.py` and `middleware.py`).
- `_check_api_key` compares the `x-api-key` header with the configured key. The `api_key` query parameter is used only when the header is missing or empty.
- The in-memory fixed-window rate limiter counts calls per `key:now // WINDOW` entry and admits while the count is at most `RATE_LIMIT_MAX`.
- `analyze` checks in the order 400 (no values or scores), 401 (bad key), 429 (over quota). It then reports the indices of scores above mean + 2·std: how many there are and the first five.
- `APIMiddleware.dispatch` protects paths starting with `/analyze`.
- The websocket loop keeps the newest 200 numeric frames.

Each module is one concern:

| file | module | models |
|---|---|---|
| js_value.dfy | JsValue | JavaScript numbers and `undefined`, the threshold field's two readings, point colours |
| smoothing.dfy | Smoothing | `applySmoothing` and its reference definition |
| upload.dfy | Upload | `trim`, `split`, `slice(1)` of the upload handler |
| messages.dfy | Messages | the decision rule of `onmessage` |
| charts.dfy | Charts | the six arrays as a value (`Series`) and as a class updated in place (`ChartState`) |
| http.dfy | Http | request fields and Python truthiness |
| rate_limit.dfy | RateLimit | the in-memory `_rate_limit` (the same code in both server files) |
| anomaly_report.dfy | AnomalyReport | the anomaly indices and the report |
| api_gate.dfy | ApiGate | `_check_api_key` and the error order of `analyze` |
| middleware.dfy | Middleware | `APIMiddleware.dispatch` |
| stream_window.dfy | StreamWindow | the websocket numeric buffer |

Code that updates state in place is modelled as classes with `modifies`
clauses:
- the six chart arrays: `Charts.ChartState`;
- the limiter dictionary: `RateLimit.Limiter`;
- the middleware: `Middleware.APIMiddleware`.

Each of their methods is proved equal to a pure function of the old state,
and the lemmas are about those functions. The moving average and the
websocket loop are methods with loops, proved against reference functions.

Time, the page's controls and the machine-learning model are parameters:
- `now`;
- `Controls` (channel, threshold field, smoothing checkbox and window);
- `detect`, `thresholdOf` and `number`.

## Model

| member | source | states |
|---|---|---|
| JsValue.ThresholdReadings | static/js/ws_client.js:177-181 | the insertion reading (`value \|\| '1.0'`, line 20) and the edit reading (line 180) agree except on a blank field, where insertion uses 1.0 and an edit paints every score neutral |
| Smoothing.Smoothed | static/js/ws_client.js:144-154 | the smoothed series has one entry per input entry |
| Smoothing.ApplySmoothing | static/js/ws_client.js:144-154 | the loop's output is the reference moving average: entry i is the mean of entries max(0, i - w + 1)..i (non-numbers count 0); a window ≤ 1 returns the input |
| Smoothing.SmoothingKeepsConstant | static/js/ws_client.js:144-154 | smoothing a constant series returns it unchanged, for every window |
| Smoothing.SmoothingStaysInRange | static/js/ws_client.js:147-152 | every smoothed point of numbers in [lo, hi] is a number in [lo, hi] |
| Smoothing.SmoothedFirstPoint | static/js/ws_client.js:148-150 | with a window > 1 the first output is the first input: the window shrinks at the start, with no padding |
| Upload.Split | static/js/ws_client.js:124 | `split` never returns an empty list |
| Upload.SplitJoin | static/js/ws_client.js:124 | joining the pieces of a split gives the text back, and no piece contains the separator |
| Upload.JoinSplit | static/js/ws_client.js:124 | splitting a join of separator-free pieces gives the pieces back |
| Upload.TrimStart | static/js/ws_client.js:124 | the result is a suffix of the text that starts with a non-space, and everything removed before it is white space |
| Upload.TrimEnd | static/js/ws_client.js:124 | the result is a prefix of the text that ends with a non-space, and everything removed after it is white space |
| Upload.UploadRows | static/js/ws_client.js:124 | there is one row per line of the trimmed text except the first |
| Upload.UploadDropsFirstLine | static/js/ws_client.js:124 | the trimmed text is its first line (which holds no newline) followed, when there are rows, by a newline and the rows rejoined: exactly the first line is dropped, with no header detection |
| Upload.RowIsLine | static/js/ws_client.js:124 | row i is the comma split of line i + 1: its fields hold no comma and rejoin to that line |
| Messages.Zeros | static/js/ws_client.js:87 | `Array(n).fill(0)` has n entries, all 0 |
| Messages.Classify | static/js/ws_client.js:80-96 | values and scores: bulk reset; values with scores undefined: reset with zero scores; scores without (truthy) values: append value 0 with the last score; values with a null score, no fields, or a parse failure: no change |
| Charts.Range | static/js/ws_client.js:49 | the labels lo..hi-1 number max(0, hi - lo) |
| Charts.PushKeepsFifo | static/js/ws_client.js:13-31 | a push keeps the six arrays aligned; appends the label last + 1 (0 when empty), the value, the score and its colour; drops exactly the oldest entry of each array once the length passes 200, so the length stays ≤ 200 |
| Charts.PushAllLabels | static/js/ws_client.js:13-29 | n pushes onto an empty chart leave the labels max(0, n - 200)..n-1 |
| Charts.PushAllKeepsNewest | static/js/ws_client.js:13-29 | n pushes onto an empty chart keep the newest min(n, 200) (value, score) pairs in arrival order |
| Charts.PushAllColours | static/js/ws_client.js:19-22 | when every push uses one threshold, each stored score is red iff it is above it |
| Charts.BulkReplaces | static/js/ws_client.js:33-66 | `setBulk` discards the old contents: one point per value with no 200 cap, labels 0..n-1 on both charts, score i at point i (undefined past the end), red iff above the threshold, each value the selected channel of its row or channel 0, smoothed when smoothing is on |
| Charts.BulkIgnoresExtraScores | static/js/ws_client.js:48-58 | scores beyond the last value are never read |
| Charts.PickScalar | static/js/ws_client.js:50-52 | a scalar row gives back the scalar whatever channel is selected |
| Charts.RecolourOnlyColours | static/js/ws_client.js:177-183 | a threshold edit changes no label and no data, keeps the arrays aligned, and colours every stored score against the new threshold |
| Charts.ReceiveScoresOnly | static/js/ws_client.js:88-96 | a scores-only frame appends exactly one point (value 0, the last score) with eviction at 200; a frame with neither field, or one that does not parse, changes nothing |
| Charts.ReceiveKeepsAligned | static/js/ws_client.js:80-96 | every frame leaves the six arrays aligned |
| Charts.SessionRoundTrip | static/js/ws_client.js:157-167 | with smoothing off, loading a saved snapshot restores the same values and scores, relabelled 0..n-1 and recoloured, whatever the channel |
| Charts.UploadCells | static/js/ws_client.js:124 | the upload yields one row of cells per line after the first |
| Charts.UploadPlotsLinesAfterFirst | static/js/ws_client.js:121-126 | an upload of n + 1 lines whose response has scores plots n aligned points labelled 0..n-1 |
| Charts.ChartState.constructor | static/js/ws_client.js:7-9 | both charts start empty |
| Charts.ChartState.PushPoint | static/js/ws_client.js:13-31 | the arrays become `Pushed` of the old arrays with the insertion threshold, still aligned |
| Charts.ChartState.SetBulk | static/js/ws_client.js:33-66 | the fill loop, then the smoothing, produce exactly `Bulk(values, scores, controls)` |
| Charts.ChartState.OnMessage | static/js/ws_client.js:80-97 | the arrays become what the frame's classification dictates, still aligned |
| Charts.ChartState.OnThresholdEdit | static/js/ws_client.js:177-183 | only the score colours change, recomputed with `parseFloat(value)` (no 1.0 fallback) |
| Charts.ChartState.SaveSession | static/js/ws_client.js:157-161 | the snapshot holds the value and score data, equally long |
| Charts.ChartState.LoadSession | static/js/ws_client.js:162-167 | no saved session changes nothing; otherwise the arrays become the bulk load of the wrapped saved values |
| Charts.ChartState.OnChannelChange | static/js/ws_client.js:170-174 | the arrays become the bulk load of the wrapped current values against an empty score array, the array `setBulk` has emptied when it reads the scores |
| Charts.ChannelChangeDropsScores | static/js/ws_client.js:170-174 | after a channel change the values survive (relabelled 0..n-1, smoothed when smoothing is on) and every score is `undefined` and neutral |
| Charts.ChartState.OnUpload | static/js/ws_client.js:121-126 | a response with scores replaces the arrays with the bulk load of the rows; otherwise nothing changes |
| RateLimit.FloorDiv | src/maintainance_anomaly_detection/main.py:55 | `now // RATE_LIMIT_WINDOW` is the floor of the quotient, for positive and negative windows alike |
| RateLimit.Bump | src/maintainance_anomaly_detection/main.py:57 | one more hit on the call's entry; every other entry is unchanged |
| RateLimit.Replay | src/maintainance_anomaly_detection/main.py:55-58 | a run of calls answers each call once |
| RateLimit.ReplayCounts | src/maintainance_anomaly_detection/main.py:55-58 | after a run every counter has grown by the number of calls on its entry, and by nothing else |
| RateLimit.ReplayAdmits | src/maintainance_anomaly_detection/main.py:55-58 | call i is admitted iff its entry's earlier count plus the calls on it up to i is at most max; other clients and windows do not matter |
| RateLimit.OneWindowAdmitsFirstMax | src/maintainance_anomaly_detection/main.py:55-58 | within one window a fresh client's first max calls are admitted and every later one refused |
| RateLimit.AdmitsWithinRoom | src/maintainance_anomaly_detection/main.py:55-58 | whatever the interleaving of clients, an entry admits at most the quota it had left |
| RateLimit.DefaultConfiguration | src/maintainance_anomaly_detection/main.py:18-19 | with the defaults of 60 calls per 60 seconds, a fresh client calling within one minute gets its first 60 calls admitted and every later one refused |
| RateLimit.Limiter.constructor | src/maintainance_anomaly_detection/main.py:52-53 | the dictionary starts empty |
| RateLimit.Limiter.Allow | src/maintainance_anomaly_detection/main.py:39-58 | the call's entry goes up by one and the answer is whether it is now at most max |
| AnomalyReport.AnomalyIndices | src/maintainance_anomaly_detection/main.py:131 | the indices are exactly those whose score is above the threshold, in strictly increasing order |
| AnomalyReport.CountIsAnomalySetSize | src/maintainance_anomaly_detection/main.py:138 | the reported count is the number of distinct anomalous timesteps |
| AnomalyReport.SummaryIsFaithful | src/maintainance_anomaly_detection/main.py:131-140 | "no significant anomalies" iff no score is above the threshold; otherwise the count is right and the prominent indices are the first min(count, 5) anomalies in order, every omitted anomaly later than all of them |
| ApiGate.CheckApiKeyMeaning | src/maintainance_anomaly_detection/main.py:31-37 | with no key configured everything passes; otherwise a request passes iff its non-empty header equals the key, or its header is missing or empty and its query parameter equals the key; a wrong header is never rescued by the query |
| ApiGate.AuthorisedCallersShareOneCounter | src/maintainance_anomaly_detection/main.py:116 | with a non-empty key configured, every authorised caller is counted under the key itself |
| ApiGate.ErrorPrecedence | src/maintainance_anomaly_detection/main.py:108-140 | 400 comes before the key check and 401 before counting, and neither touches the counters; a counted call bumps only its own entry and is a 429 iff that entry was already at max; given scores are summarised as sent; a model failure is a 400 that was already counted |
| ApiGate.Analyze | src/maintainance_anomaly_detection/main.py:102-140 | the reply and the limiter's new dictionary are those of `Analyzed` |
| Middleware.ProtectedMeansPrefix | src/maintainance_anomaly_detection/middleware.py:27-32 | a path is protected iff it starts with "/analyze", so "/analyzer" is protected too |
| Middleware.GateCases | src/maintainance_anomaly_detection/middleware.py:29-41 | unprotected paths are forwarded and not counted; a bad key is a 401 that is not counted; otherwise the client's entry goes up by one, and the request is forwarded iff it was below max, else it is a 429 |
| Middleware.AgreesWithEndpointCheck | src/maintainance_anomaly_detection/middleware.py:33-36 | for a non-empty key the middleware's check and `_check_api_key` agree; an empty key disables the middleware's check but not the endpoint's |
| Middleware.QueryKeyNotCounted | src/maintainance_anomaly_detection/middleware.py:38 | without a header the client is counted by host (or "anon"), whatever its query key |
| Middleware.DispatchAll | src/maintainance_anomaly_detection/middleware.py:29-41 | a run answers each request once |
| Middleware.DispatchAllCharges | src/maintainance_anomaly_detection/middleware.py:29-60 | the dictionary after a run is what the limiter makes of the protected, authorised requests alone |
| Middleware.CountersAfterRun | src/maintainance_anomaly_detection/middleware.py:29-60 | each counter ends at its start plus the number of charged requests on it |
| Middleware.ForwardedAreAdmitted | src/maintainance_anomaly_detection/middleware.py:29-60 | the protected requests forwarded on an entry are exactly the limiter's admissions on it |
| Middleware.ForwardsWithinQuota | src/maintainance_anomaly_detection/middleware.py:38-60 | per client and window, the middleware forwards at most the quota left: at most max from an empty dictionary |
| Middleware.APIMiddleware.constructor | src/maintainance_anomaly_detection/middleware.py:55-56 | the middleware starts with an empty dictionary of its own |
| Middleware.APIMiddleware.Dispatch | src/maintainance_anomaly_detection/middleware.py:29-41 | the outcome and the limiter's new dictionary are those of `Gate` |
| StreamWindow.Recent | src/maintainance_anomaly_detection/main.py:193-194 | the trimmed list is the newest min(len, 200) entries, in order |
| StreamWindow.Ingest | src/maintainance_anomaly_detection/main.py:191-194 | appending then trimming gives the newest 200 of the old buffer plus the new value |
| StreamWindow.IngestBounds | src/maintainance_anomaly_detection/main.py:191-194 | after a numeric frame the buffer is non-empty, at most 200 long and ends with the new value |
| StreamWindow.RecentStep | src/maintainance_anomaly_detection/main.py:192-194 | trimming after every append is trimming the whole history once |
| StreamWindow.Numbers | src/maintainance_anomaly_detection/main.py:181-200 | there are no more numbers than frames |
| StreamWindow.Serve | src/maintainance_anomaly_detection/main.py:175-200 | after any mix of table, numeric and unparsable frames the buffer is the newest 200 numbers received |

## Left out

- Chart.js and the DOM: rendering, `chart.update()`, rebuilding the channel selector, alerts, the analyze button, the smoothing-window tooltip. The channel index, threshold field, smoothing checkbox and window are inputs (`Controls`). Because `setBulk` rebuilds the selector before reading it, the channel is in practice 0 on that path.
- NaN: `Number()` of a non-numeric field, and `parseInt` of a non-numeric label or window, are not modelled. Numbers are reals and the threshold field is blank, numeric or not numeric. `undefined` (reading past an array's end) is modelled.
- Charts.SessionRoundTrip: the JSON round trip through `localStorage` is not modelled. Saving turns `undefined` into `null`, and a malformed stored session is not validated.
- Socket connect and close, the send button and `JSON.parse` failures are left out; a parse failure is the `Unparsable` message. The send button only refuses while disconnected, and a CSV upload always drops its first line with no header detection; the model follows this code.
- The upload's `Number` conversion of each field is the parameter `number`. The `/predict` request is not modelled; its response's `scores` field is an input.
- The dashboard's message model knows absent, falsy and array fields only. A truthy field that is not an array, such as `{"values": 5}`, is not modelled. At ws_client.js:85 that would call `setBulk` with a value that has no `length`, so the fill loop would not run and the charts would be emptied.
- Charts.ChartState.OnChannelChange: the two arrays are shared by reference in the source. The model passes `setBulk` the emptied score array, which is its value at the moment it is read, rather than modelling shared references.
- RateLimit.SlotOf, RateLimit.Limiter.Allow, ApiGate.Analyzed and Middleware.Gate require `RATE_LIMIT_WINDOW` to be non-zero. With a window of 0, every counted request raises `ZeroDivisionError` at main.py:55 or middleware.py:57 (an HTTP 500); that error outcome is not modelled. Negative windows are modelled with Python's floor division.
- Redis: the Redis-backed limiter, and its silent fall back to the in-memory dictionary when Redis fails, are not modelled. Only the in-memory store is modelled, and its entries never expire (neither does the source's).
- `time.time()` is the parameter `now`.
- Float arithmetic is not modelled. `mean + 2 * std` is the parameter `thresholdOf`, and scores are reals.
- ApiGate.Analyze: the model's scoring (`detect_anomalies`, the LSTM autoencoder, pandas and torch) is the parameter `detect`, which returns `None` where it raises. Non-list payload fields are not modelled.
- The OpenAI summary appended to the report (main.py:142-161) is not modelled: it is a network call whose failure falls back to the rule-based text. The report is modelled as its data (count and prominent indices), not its formatted text.
- The websocket key check (`close(1008)`) and the CSV branch of the websocket loop are not modelled. Whether a frame is read as a table, a number or neither is an input (`Frame`), because that depends on pandas. Only the numeric buffer is modelled.
- `APIMiddleware` is never added to the application in main.py. It is modelled on its own, with its own limiter, `RATE_LIMIT_*` and key.
- The other endpoints (`/`, `/health`, `/datasets`, `/predict`), training, data loading and the model classes are outside this core.
