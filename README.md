# speedtest-monitor: a Dafny model of target selection, aggregation and alerting

speedtest-monitor measures download speed, upload speed and latency against
one or more speedtest.net servers. It publishes the latest result and posts
Slack alerts when a speed drops below a configured floor. This project models
the sequential core of that loop and proves properties about it:

- **Target selection** (`Speedtest.FindServer`). The discovered server list
  is filtered by the requested numeric ids, and the first server is the
  fallback. Ids are read with `strconv.Atoi`, so a malformed id reads as 0.
- **Ordering by distance** (`Len`, `Less`, `Swap` of the sort interface).
- **The measurement slots** (`Speedtest.StartTest`). The targets are an
  `array<Server>` whose measurement fields are overwritten in place. The probe
  results are a parameter.
- **Aggregation** (`Speedtest.ShowResult`). The slots are reduced into the
  `LatestResult` object: one server is passed through and several are
  averaged. The plausibility check (`Speedtest.CheckResult`) then raises its
  warning.
- **The Slack outbox** (`Slack.SlackClient`). A list of attachments that
  `AddMessage` and `AddAlert` append to and `SendMessages` drains.
- **The threshold rule** (`Monitor.TestNow`, from `testNow` in main.go) and
  the `--timeout` option (`Monitor.Options.SetTimeout`).

Speeds are exact reals in Mbit/s, and latencies are whole nanoseconds (Go's
`time.Duration`). Strings built with `fmt.Sprintf`/`fmt.Sprint` are kept as
the call: the format and the operands (module `Fmt`). This means the model can
state which label, which unit and which number a text carries. The digit
rendering itself is left out.

The plausibility check in the code looks at each server's own
download/upload ratio, never at the averaged result, and the model follows
it. The code never de-duplicates alerts: every cycle that misses a threshold
queues a fresh alert.

## Model

| member | source | states |
|---|---|---|
| `Speedtest.LatestResult.constructor` | main.go:34 | the snapshot starts as Go's zero value: speeds 0, every text empty |
| `Speedtest.Swap` | app/speedtest/server.go:23-25 | positions i and j are exchanged, every other slot is unchanged, and the slots stay a permutation of the old ones |
| `Speedtest.LessIsStrictOrder` | app/speedtest/server.go:28-30 | Less is irreflexive, asymmetric and transitive; servers incomparable under Less are equally far |
| `Speedtest.SortedByLessIsNondecreasing` | app/speedtest/server.go:28-30 | once no neighbour is Less than its predecessor (what sorting with Less leaves), distance is nondecreasing over every pair of positions |
| `Speedtest.Atoi` | app/speedtest/server.go:98 | an id reads as a value within int64, and anything that is not a signed decimal numeral reads as 0 |
| `Speedtest.AtoiInvertsDecimal` | app/speedtest/server.go:98 | reading back the decimal numeral of any int64 value, negative ones included, gives that value |
| `Speedtest.FindServer` | app/speedtest/server.go:93-110 | the selection is never empty; it is the matches for the requested ids when there are any, and exactly the first listed server otherwise |
| `Speedtest.MatchesForConcat` | app/speedtest/server.go:97-103 | within one requested id the matches keep list order |
| `Speedtest.MatchesConcat` | app/speedtest/server.go:96-104 | the matches follow requested-id order: selecting for two id lists one after the other is selecting for their concatenation |
| `Speedtest.MatchesForCount` | app/speedtest/server.go:97-103 | a server matches an id as often as it is listed when its id reads as that id, and never otherwise |
| `Speedtest.MatchesCount` | app/speedtest/server.go:96-104 | one entry per (requested id, matching server) pair: a server appears (times listed) × (times its id was requested) times, so duplicate ids duplicate entries |
| `Speedtest.MatchesMembership` | app/speedtest/server.go:96-104 | a server is selected iff it is listed and its id is among the requested ones |
| `Speedtest.StartTest` | app/speedtest/server.go:133-143 | every slot keeps its identity fields (url, id, name, distance, ...) and receives exactly its own probe's download, upload and latency |
| `Speedtest.MeanWithinBounds` | app/speedtest/server.go:158-167 | the published average lies between any bounds that hold for every server, so equal measurements average to themselves |
| `Speedtest.MeanOfOne` | app/speedtest/server.go:148-153 | on a single server the mean is that server's value, so the pass-through branch publishes what averaging would |
| `Speedtest.AsWrittenLatencyAvgMisreports` | app/speedtest/server.go:168 | as written, two servers at 1 ms each are reported as 1000000 "ms" under the "Upload Avg" label; corrected, as 1 ms |
| `Speedtest.LatencyAvgShowsMillis` | app/speedtest/server.go:168 | corrected: when all servers answer in p ns, the published latency text shows p/10^6 under "ms" |
| `Speedtest.ShowResult` | app/speedtest/server.go:146-177 | one server: its download and upload are published verbatim, latency as its duration. Several: the means of download and upload. Either way the published speeds are the means, the texts carry them, the timestamp is the clock reading, the slots are not modified, and the warning is raised iff some server is implausible (after publishing) |
| `Speedtest.CheckResult` | app/speedtest/server.go:179-190 | the flag is set iff some server has download·100 < upload or download > upload·100; the one-server branch agrees with the loop |
| `Speedtest.ImplausibleIsSkewedRatio` | app/speedtest/server.go:183-187 | for positive rates the check flags exactly a ratio above 100 in either direction |
| `Speedtest.ImplausibleExamples` | app/speedtest/server.go:183-187 | the check is symmetric in download and upload, never flags an all-zero server, flags 100 vs 0.5 and passes 100 vs 2 |
| `Speedtest.TestNow` | app/speedtest/server.go:127-130 | a cycle measures every slot and then publishes those measurements |
| `Slack.NewAttachment` | app/slack/slack.go:44-57 | fallback and text are the message, author is the app name, and the colour is the alert colour iff the message is an alert (the info colour otherwise) |
| `Slack.SlackClient.NewSlackClient` | app/slack/slack.go:35-41 | endpoint and app name come from the configuration and the outbox starts empty |
| `Slack.SlackClient.AddMessage` | app/slack/slack.go:60-62 | exactly one info attachment is appended and earlier entries are unchanged |
| `Slack.SlackClient.AddAlert` | app/slack/slack.go:65-67 | exactly one alert attachment is appended and earlier entries are unchanged |
| `Slack.SlackClient.SendMessages` | app/slack/slack.go:71-76 | the posted body is "Message from <app>" with the outbox as it stood before the call, and the outbox is empty afterwards whatever the post does |
| `Monitor.Options.constructor` | main.go:31 | the timeout starts at its default of 10 |
| `Monitor.Options.SetTimeout` | main.go:21-25 | a non-zero `--timeout` replaces the timeout; zero leaves it as it was |
| `Monitor.ThresholdAlerts` | main.go:140-145 | exactly one alert per missed floor (none, one or two), all coloured as alerts and attributed to the app |
| `Monitor.AlertIffBelowThreshold` | main.go:140-145 | a download alert iff download < its floor, and an upload alert iff upload < its floor (both strict, so equality raises nothing). The download alert comes first, and each alert carries the rendered speed and the floor it missed |
| `Monitor.ThresholdExamples` | main.go:140-145 | floors 50/10: (40, 20) raises only the download alert, (60, 5) only the upload alert, (60, 20) and (50, 10) nothing |
| `Monitor.TestNow` | main.go:137-150 | measures and publishes. With no Slack endpoint, nothing is queued or sent. Otherwise the alerts are appended after what was already queued; the whole outbox is sent iff it is non-empty and is left empty |

## Findings

| source | as written | input that shows it | evidently intended | confidence | as-written member | corrected member |
|---|---|---|---|---|---|---|
| app/speedtest/server.go:168 | with several servers, the latency text is `Sprintf("Upload Avg: %5.2f ms", avgPing/n)`, where `avgPing` sums `time.Duration` values, which are nanoseconds | two servers with a 1 ms ping each: the text reads `Upload Avg: 1000000.00 ms` | a latency label, with the mean converted to milliseconds (`Latency Avg: 1.00 ms`) | high; not executed | `Speedtest.AsWrittenLatencyAvgMisreports` | `Speedtest.LatencyAvgShowsMillis` |

`Speedtest.ShowResult` publishes the corrected text (`LatencyAvgText`), as
stated under "Left out". The as-written text is kept as
`AsWrittenLatencyAvgText`.

## Left out

- Discovery: the HTTP fetch and XML decoding of the server list, the user's location lookup, and the distance trigonometry. `distance` is a given real.
- `sort.Sort` itself is Go's library code. Only its outcome is related to `Less`, by `SortedByLessIsNondecreasing`.
- The probes (`pingTest`, `downloadTest`, `uploadTest`) are not part of this model. Their results are the `probes` parameter of `StartTest`.
- The clock: `LastQuery` is the `now` parameter.
- Number rendering: `%5.2f`, `%v` and `Duration.String` are kept as the format and its operands, not as characters.
- Logging, including `Show`, the per-server log lines, and the plausibility warning. The warning is the `warned` result of `ShowResult`.
- IEEE floating point: speeds are exact reals, so NaN, infinities and rounding are not modelled.
- Speedtest.ShowResult: requires at least one server. On an empty slice the code divides 0 by 0 and publishes NaN, which reals cannot express. The only target set comes from `FindServer`, which is proved non-empty.
- Speedtest.ShowResult: with several servers, the published latency text is the corrected `LatencyAvgText` ("Latency Avg", milliseconds), not the "Upload Avg" text in nanoseconds that server.go:168 builds; see Findings.
- Speedtest.FindServer: requires a non-empty server list. On an empty list the code panics indexing `l.Servers[0]`.
- Speedtest.Atoi: every malformed id reads as 0. Go's `strconv` agrees for a malformed id except one whose leading digits exceed the uint64 range and are followed by a non-digit (such as 99999999999999999999x), which it saturates to the int64 bound.
- The poller loop, the HTTP listener, signal handling, and graceful and forced shutdown. These are goroutines and timers, as is the unsynchronised sharing of `LatestResult` and the targets between the poller and the handlers.
- Monitor.TestNow: `go sc.SendMessages()` runs concurrently in the code. The model performs the send at that point, synchronously.
- Slack.SlackClient.SendMessages: the JSON marshalling, the POST and the response handling are not performed. The request is returned instead. In the code, a failed POST dereferences a nil response at slack.go:77 and the panic ends the whole process (the send runs as `go sc.SendMessages()` at main.go:147), after line 76 has already emptied the outbox.
- Speedtest.Len: it is the slice's length, which the sort interface requires; no property beyond that is stated.
- The HTTP handlers, the router and configuration loading. `Configuration` is taken as given.
