# The gateway's stateful engines, in Dafny

The gateway forwards chat requests to language-model servers. Between the client and the servers
stand a handful of small engines that keep state: live statistics, rate limits, circuit breakers,
quarantines, a streaming rewriter. This project models those engines with the branches, constants
and edge cases of the code and proves what they keep over every run and every way a stream can be
cut into pieces. `dafny verify dfyconfig.toml` checks it.

| file | models |
|---|---|
| `Text.dfy`, `Wrappers.dfy` | `str.find`, `str.strip` and optional values |
| `ThinkTags.dfy` | the incremental parser that separates `<think>` text |
| `StreamLines.dfy`, `ThinkingStream.dfy`, `PassThrough.dfy`, `LineRules.dfy`, `AnswerText.dfy`, `StreamWrapper.dfy`, `RunEndings.dfy` | line reassembly, the two paths of the streaming wrapper, what each line comes to, the answer text the client gets, and how a run ends |
| `LiveStore.dfy`, `StatsStore.dfy`, `Requests.dfy` | the live store and the request tracker: specification functions, and the two objects proved against them |
| `LiveGauges.dfy`, `OpenGauges.dfy`, `TrackerCalls.dfy`, `WrapperGauges.dfy`, `LiveRing.dfy`, `LiveWindows.dfy`, `SnapshotRows.dfy`, `MinuteRollups.dfy`, `RollupRuns.dfy` | what the gauges, under the calls of many requests, the 60-slot rings, the snapshot and the minute rollups mean over whole runs |
| `TokenRecords.dfy`, `RateLimits.dfy`, `RateBounds.dfy`, `RedisConcurrency.dfy` | the in-process limiter and the Redis concurrency counter |
| `CircuitBreakers.dfy`, `UrlFallback.dfy`, `ChainFallback.dfy` | circuit breaker, URL and retry loop, quarantine and chain fallback |
| `PromLabels.dfy`, `LabelGrammar.dfy` | the agent's label printer against the gateway's label parser, and what that parser makes of any text |
| `DataUrls.dfy`, `RequestTranslation.dfy`, `TranslationRules.dfy` | Anthropic and OpenAI request translation: the round trip, and each direction field by field |
| `JsonHealer.dfy` | repair of truncated JSON |

Code that changes state is a class or a method with loops, proved equal to a specification
function; the theorems are about those functions. Time is a parameter of every operation and never
goes back. Upstream servers, the JSON library, failures of recording, cancellations, and what other
requests do to the shared breaker and quarantines while one waits are oracles over which every
statement is universal.

## Where the code does not do what its text promises

Each of these is a lemma: about a concrete run, about all runs, or an if-and-only-if that also says
exactly when the promise holds.

- The gauges are exact in every run in which no retarget moves a tracker that has bytes in flight;
  otherwise the old key is left with bytes that no tracker accounts for
  (`LiveGauges.GaugesExact`, `BytesAreStranded`, `EarlyBytesBreakGauges`). Any number of streaming
  wrappers, interleaved in any way, never cause this: each speaks of the first token before any
  bytes (`WrapperGauges.WrappersKeepGaugesExact`).
- A retarget in a later second, or after a minute bucket was drained, counts the request twice
  (`LiveRing.RetargetConserves`, `LateRetargetCountsTwice`, `MinuteRollups.RetargetConserves`); over
  a whole run the rollups count each request once if and only if no retarget finds its old minute
  bucket empty (`RollupRuns.RequestsCountedOnce`).
- A snapshot leaves out a key whose only trace in the last minute is a failed finish: the listing
  condition looks at dispatched requests and gauges (`SnapshotRows.SnapshotLists`,
  `LateFailureNotShown`).
- `feed("")` is called as a flush but releases nothing: the outputs cover the whole stream if and
  only if nothing is withheld (`ThinkTags.FlushIsLossless`).
- Answer text goes to the client with its think tags when its delta carries reasoning too, when no
  space follows the colon of its `data` line, when the client's format is unknown, when no newline
  ends its event, and when it is in any choice but the first. `AnswerText.DeliveredIsParsed` says
  that it goes right if and only if none of this happens; `BothFieldsGoRaw`, `UnspacedGoesRaw`,
  `UnknownFormatGoesRaw`, `TailGoesRaw` and `FurtherChoiceGoesRaw` are the five inputs.
- Even then the client's answer falls short of what stands outside the tags by what the parser
  withholds at the end, such as a final `<` (`AnswerText.AnswerIsOutside`).
- Metrics are recorded once per request in every outcome, but the completion callback is not called
  after an upstream error, nor when recording raises; and when recording metrics raises, the wrapper
  leaves the tracker open (`StreamWrapper.OncePerRequest`, `StreamWithTelemetry`).
- When a line of a rewritten stream raises, the other lines of its chunk are lost, so what the
  client gets depends on the network's cut (`ThinkingStream.SentIsCutFree`). On the forwarding path
  the exception is swallowed and the rest of the chunk is not scanned
  (`PassThrough.ScansAreCutFree`).
- Redis release is DECR and then DELETE. With an INCR between them two workers hold one slot
  (`RedisConcurrency.ReleaseRaceBreaksLimit`); every run is exact if and only if each DELETE finds
  the counter at zero (`ProtocolExact`).
- With retries on, a server that exhausts them with 5xx replies has its failures recorded and then
  a success. The turn ends with the circuit closed (`UrlFallback.AnyStatusResets`), though it may
  have opened on the way, exactly when the failures reach the threshold there (`TripsMidTurn`,
  `TripsAlone`, `FiveRepliesTrip`).
- A URL listed twice gets its attempts twice: the bound is per turn
  (`UrlFallback.AttemptsPerUrl`, `ListedTwiceSentTwice`).
- The quarantine of an hour after a 401 or 403 never comes to use: these answers are served
  (`ChainFallback.RestsByCode`).
- A failed flush loses the rows it drained (`MinuteRollups.TablePlusPendingIsLog`).
- A tool or a tool choice without a name comes back from a round trip with a null name
  (`RequestTranslation.RoundTrip`, `NamelessToolGainsNull`).
- The media type of a data URL loses every `data:` in it, not only the scheme, and data that holds
  `;base64,` makes the image vanish; `DataUrls.DataUrlRoundTrip` says exactly which images survive.
- Tokens recorded after use are not held to the limit: after an accepted peek any amount can go over
  it (`RateBounds.PeeksOvershoot`). A window holds at most the limit less one and what was used
  since the last accepted peek (`SinceAccepted`).
- Token amounts above the limit are told to come back in 60 s and are then refused again, for ever
  (`RateBounds.OversizeNeverPasses`).

## Model

| member | source | states |
|---|---|---|
| `ThinkTags.ThinkTagParser.Feed` | src/llm_gateway/translation/think_tag_parser.py:10-68 | The index loop leaves the state and yields the two texts of the recursive leftmost-tag splitter |
| `ThinkTags.ThinkTagParser.MatchPartial` | src/llm_gateway/translation/think_tag_parser.py:33-43 | The scan of the listed partial tags finds the longest proper prefix of the awaited tag that ends the text |
| `ThinkTags.FeedSplit` | src/llm_gateway/translation/think_tag_parser.py:10-68 | From any reachable state, feeding `a` then `b` is feeding `a + b`: same mode, buffer and joined outputs |
| `ThinkTags.ChunkingDoesNotMatter` | src/llm_gateway/translation/think_tag_parser.py:10-68 | Every chunking of a text gives the one-shot state and outputs |
| `ThinkTags.NothingLost` | src/llm_gateway/translation/think_tag_parser.py:24-68 | The input is the texts between consumed tags plus the withheld buffer, cut at each leftmost awaited tag; the outputs are the texts of the two modes |
| `ThinkTags.DivisionUnique` | src/llm_gateway/translation/think_tag_parser.py:24-68 | That division is unique, so it pins both outputs down |
| `ThinkTags.ReachableWithholds` | src/llm_gateway/translation/think_tag_parser.py:33-43 | The buffer is always a proper prefix of the awaited tag |
| `ThinkTags.FlushIsLossless` | src/llm_gateway/telemetry/streaming.py:444-450 | The final `feed("")` changes nothing; the outputs divide the whole stream if and only if the buffer is empty |
| `ThinkTags.ReleasedIsStanding` | src/llm_gateway/translation/think_tag_parser.py:24-68 | What the parser releases in a mode, with what it withholds, is the text that a plain recursive cut at the tags puts in that mode |
| `StreamLines.CutIs` | src/llm_gateway/telemetry/streaming.py:322-323 | Splitting at newlines and keeping the last piece is the only division into newline-free lines |
| `StreamLines.CutSplit` | src/llm_gateway/telemetry/streaming.py:322-323 | Two chunks give the lines of the first, then those of its left-over with the second |
| `ThinkingStream.ChunkingInvisible` | src/llm_gateway/telemetry/streaming.py:320-433 | For every cut of a text: same scanned lines, parser state, texts and failure; the same output if no line fails, else a beginning of it |
| `ThinkingStream.SentIsCutFree` | src/llm_gateway/telemetry/streaming.py:405-410 | The output is the same for all cuts if and only if every complete line can be scanned and rewritten, or the lines before the first that cannot are Anthropic deltas of which the parser releases no answer text |
| `ThinkingStream.FailsOnUnreadable` | src/llm_gateway/telemetry/streaming.py:324-403 | Reading fails exactly when the scan or the rewriting of some line raises |
| `LineRules.NextLine` | src/llm_gateway/telemetry/streaming.py:324-403 | One complete line more, told by its JSON alone: the stream fails, the line is rewritten with what the tag parser releases, or it goes on as it came with its reasoning kept; reader and output in full |
| `LineRules.FailsOnBreaking` | src/llm_gateway/telemetry/streaming.py:324-434 | A whole stream fails exactly when the scan of some line finds JSON that is no object, or a `data: ` line other than the end mark holds null for a known format, such JSON, or a first choice or delta of the wrong shape |
| `LineRules.GoesAsItCame` | src/llm_gateway/telemetry/streaming.py:327-403 | The end mark, lines that are no `data: ` line, and payloads that are not JSON reach the client as the same line and change nothing else |
| `LineRules.EndMarkGoesOn` | src/llm_gateway/telemetry/streaming.py:327-331 | So the ordinary last line `data: [DONE]` goes on as it came |
| `LineRules.ScanSpares` | src/llm_gateway/telemetry/streaming.py:123-126 | The usage scan breaks on no end mark, no blank line and no line without a JSON mark |
| `LineRules.LastLineGoesOn` | src/llm_gateway/telemetry/streaming.py:426-434 | An unfinished last line follows the complete ones as it came |
| `AnswerText.DeliveredIsParsed` | src/llm_gateway/telemetry/streaming.py:320-450 | Over a whole stream, last line included, reasoning reaches the client as it is and answer text as the tag parser releases it, delta by delta, if and only if no delta has both reasoning and text, lacks the space after its colon, stands in an unfinished last line or goes to a client of unknown format, and no further choice has text |
| `AnswerText.AnswerIsOneShot` | src/llm_gateway/telemetry/streaming.py:320-450 | Under that condition the client's answer text, and the kept content, is what the parser releases for all deltas joined; the thinking of an OpenAI client is structured reasoning and thinking text interleaved line by line, and without reasoning is the parser's for all deltas joined |
| `AnswerText.AnswerIsOutside` | src/llm_gateway/telemetry/streaming.py:444-450 | The client's answer text and what is withheld make up what stands outside the think tags of all deltas joined; the text alone does if and only if the stream ends inside a tag pair or with nothing withheld; the same of an OpenAI client's thinking when none of it is structured |
| `AnswerText.GotIsReleased` | src/llm_gateway/telemetry/streaming.py:333-404 | Without that condition, the texts of the complete lines are still the parsed ones if and only if the parser would let each bypassing text through as it is |
| `AnswerText.BothFieldsGoRaw` | src/llm_gateway/telemetry/streaming.py:344-348 | A delta with reasoning and tagged text is sent with its tags |
| `AnswerText.UnspacedGoesRaw` | src/llm_gateway/telemetry/streaming.py:327-403 | So is a delta on a line without a space after the colon |
| `AnswerText.UnknownFormatGoesRaw` | src/llm_gateway/telemetry/streaming.py:337-398 | So is any delta when neither format is known to be the client's |
| `AnswerText.TailGoesRaw` | src/llm_gateway/telemetry/streaming.py:428-434 | So is an event that no newline ends |
| `AnswerText.FurtherChoiceGoesRaw` | src/llm_gateway/telemetry/streaming.py:337-366 | So is the text of a further choice, in an event whose first choice is rewritten |
| `PassThrough.BytesUntouched` | src/llm_gateway/telemetry/streaming.py:412-424 | Without rewriting, the client is sent exactly the upstream chunks and the stream never fails |
| `PassThrough.ScansAreCutFree` | src/llm_gateway/telemetry/streaming.py:415-422 | The scanned lines are the same for all cuts if and only if no readable line follows one that raises |
| `LineRules.ChunkScans` | src/llm_gateway/telemetry/streaming.py:412-424 | Of a chunk of complete lines the forwarding path scans those before the first that breaks the scan |
| `LineRules.RestScans` | src/llm_gateway/telemetry/streaming.py:435-442 | The unfinished last line is scanned unless it is blank or breaks the scan |
| `StreamWrapper.Wrapper.ScanLine` | src/llm_gateway/telemetry/streaming.py:123-138 | A line is taken in, or raises when its JSON is not an object |
| `StreamWrapper.Wrapper.Feed` | src/llm_gateway/telemetry/streaming.py:351-355 | What the parser releases is appended to the kept texts |
| `StreamWrapper.Wrapper.Normalise` | src/llm_gateway/telemetry/streaming.py:333-401 | The OpenAI and Anthropic branches classify a payload as passed on, fed and rewritten, or raising |
| `StreamWrapper.Wrapper.OnLine` | src/llm_gateway/telemetry/streaming.py:324-403 | One line moves the reader as the specification of a line says |
| `StreamWrapper.Wrapper.OnLines` | src/llm_gateway/telemetry/streaming.py:324-403 | The loop over a chunk's lines stops at the first failure and equals the fold over the lines |
| `StreamWrapper.Wrapper.ScanLines` | src/llm_gateway/telemetry/streaming.py:416-422 | The forwarding scan takes in the lines before the first that raises, and swallows the exception |
| `StreamWrapper.Wrapper.OnChunk` | src/llm_gateway/telemetry/streaming.py:317-424 | One chunk, on either path: new buffers, texts and what is sent |
| `StreamWrapper.Wrapper.OnEnd` | src/llm_gateway/telemetry/streaming.py:426-450 | The final unfinished line: sent unchanged after its scan, or only scanned |
| `StreamWrapper.Observe` | src/llm_gateway/telemetry/streaming.py:306-315 | The tracker is told of its first token before the bytes; table and tracker move by exactly these calls, and nothing of it is finished |
| `StreamWrapper.OnArrival` | src/llm_gateway/telemetry/streaming.py:305-424 | One chunk: first token and bytes to the tracker, then exactly what the chunk makes of the stream is sent |
| `StreamWrapper.Body` | src/llm_gateway/telemetry/streaming.py:304-450 | The streaming loop ends as the chunks, the path and the disturbance decide; the ledger gains the sent pieces and nothing else; the tracker and the key table move by exactly the calls of the chunks that arrived |
| `StreamWrapper.Ledger.TrackDone` | src/llm_gateway/telemetry/streaming.py:266-272 | One finish is put on the ledger; exactly one share, with the reported tokens and outcome, reaches the tracker's minute bucket |
| `StreamWrapper.Record` | src/llm_gateway/telemetry/streaming.py:253-272 | The ledger gains one metrics record and, unless recording metrics raises, one tracker finish, with these figures |
| `StreamWrapper.Finalise` | src/llm_gateway/telemetry/streaming.py:452-478 | In each outcome, also when recording raises or the callback is cancelled, the ledger gains one metrics record, at most one finish and at most one callback, never two |
| `StreamWrapper.StreamWithTelemetry` | src/llm_gateway/telemetry/streaming.py:304-478 | The ledger of every run is the pieces sent, then metrics once, the tracker's finish once unless metrics raise, then the callback once on a normal end or an earlier cancellation when recording does not raise, and never on an upstream error; nothing else. Each act says what happened, with the run's own prompt, completion and outcome, in that order. Tracker, key table and minute bucket have moved by exactly the run's calls |
| `StreamWrapper.OncePerRequest` | src/llm_gateway/telemetry/streaming.py:452-478 | Over the whole ledger: metrics once in every outcome; the callback once, or not at all exactly when the stream failed or recording raised; the finish once, or not at all exactly when recording metrics raised |
| `StreamWrapper.RunIsTruthful` | src/llm_gateway/telemetry/streaming.py:253-302 | Over the acts of a whole run: success is recorded just for a normal end with upstream content, cancellation just when cancelled, with the run's usage each time; the callback is given prompt, then completion; output comes before metrics, metrics before the finish, the finish before the callback |
| `RunEndings.HowRunsEnd` | src/llm_gateway/telemetry/streaming.py:304-478 | For every disturbance at every wait: how the run ends, with which chunks taken in |
| `StreamWrapper.CalmIsWhole` | src/llm_gateway/telemetry/streaming.py:304-456 | An undisturbed rewriting run reads and sends what the text alone decides and ends normally exactly when nothing fails |
| `StreamWrapper.CalmForwards` | src/llm_gateway/telemetry/streaming.py:412-456 | An undisturbed forwarding run ends normally with exactly the upstream chunks sent |
| `StreamWrapper.DisturbedIsPrefix` | src/llm_gateway/telemetry/streaming.py:304-478 | Any disturbance leaves the client with a beginning of the undisturbed output |
| `StatsStore.LiveStats.Resolve` | src/llm_gateway/observability/store.py:152-157 | The key itself when known or when its server has fewer than 200 keys, else the server's overflow key |
| `StatsStore.LiveStats.DropIdle` | src/llm_gateway/observability/store.py:159-163 | Exactly the keys idle for more than 120 s with nothing open go |
| `StatsStore.LiveStats.StateOf` | src/llm_gateway/observability/store.py:165-176 | Look-up, or eviction, resolution and creation; then marked active |
| `StatsStore.LiveStats.Count` | src/llm_gateway/observability/store.py:178-184 | Adding to the second's bucket, reset first when its slot holds another second |
| `StatsStore.LiveStats.Dispatch` | src/llm_gateway/observability/store.py:196-205 | New key table and minute buckets after a dispatch |
| `StatsStore.LiveStats.Retarget` | src/llm_gateway/observability/store.py:207-225 | New key table and minute buckets after a retarget, clamps included |
| `StatsStore.LiveStats.FirstToken` | src/llm_gateway/observability/store.py:227-232 | New key table after a first token |
| `StatsStore.LiveStats.Finish` | src/llm_gateway/observability/store.py:234-303 | New key table after a finish; the minute bucket gains exactly the request's share |
| `StatsStore.LiveStats.AddInflightBytes` | src/llm_gateway/observability/store.py:305-308 | New key table after a change of buffered bytes |
| `StatsStore.LiveStats.DrainMinuteRollups` | src/llm_gateway/observability/store.py:385-389 | All minute buckets are handed over and none is left |
| `StatsStore.WindowSum` | src/llm_gateway/observability/store.py:186-193 | The walk over the ring sums exactly the buckets of the last `span` seconds |
| `StatsStore.History` | src/llm_gateway/observability/store.py:412-458 | Sixty points, each its own second's bucket or zero, that add up to the summary totals whenever no bucket stands in a wrong slot or the future, as in every run |
| `StatsStore.Snapshot` | src/llm_gateway/observability/store.py:478-513 | Idle keys go; a row for each other key with requests in the last minute or anything open |
| `StatsStore.ListedIsKept` | src/llm_gateway/observability/store.py:481-496 | Eviction before listing never hides a row |
| `StatsStore.FlushTelemetryRollups` | src/llm_gateway/observability/collect/poller.py:350-404 | The drained rows are added into the table in one transaction, or, when any statement fails, are gone |
| `SnapshotRows.SnapshotLists` | src/llm_gateway/observability/store.py:481-496 | After any guarded run a key has a row if and only if the log counts a request for it in the last minute or a request is open on it |
| `SnapshotRows.LateFailureNotShown` | src/llm_gateway/observability/store.py:494-496 | A run after which a key holds an error of the last minute and has no row |
| `Requests.TrackDispatch` | src/llm_gateway/observability/collect/requests.py:119-131 | A fresh tracker under the resolved key, and the store one dispatch further |
| `Requests.RequestTracker.Retarget` | src/llm_gateway/observability/collect/requests.py:45-53 | Moves store, key and minute buckets only while waiting and only to a different resolved key |
| `Requests.RequestTracker.FirstToken` | src/llm_gateway/observability/collect/requests.py:55-59 | The first call moves the request from waiting to generating; later calls do nothing |
| `Requests.RequestTracker.SetInflightBytes` | src/llm_gateway/observability/collect/requests.py:61-67 | The store moves by the difference to what was reported before |
| `Requests.RequestTracker.Measure` | src/llm_gateway/observability/collect/requests.py:89-97 | Times as measured, with a positive reported generating time and a reported duration taking precedence |
| `Requests.RequestTracker.Finish` | src/llm_gateway/observability/collect/requests.py:69-116 | The first call closes the request, takes its bytes back and returns the timing; later calls return nothing and change nothing |
| `Requests.FinishOpenTracker` | src/llm_gateway/observability/collect/requests.py:134-138 | Closes an open tracker as cancelled; a no-op on a finished one |
| `Requests.TimesAddUp` | src/llm_gateway/observability/collect/requests.py:89-97 | Waiting time plus generating time is the duration that the minute bucket receives, and neither is negative |
| `Requests.ShareOfRequest` | src/llm_gateway/observability/collect/requests.py:73-112 | What a finish adds to the minute bucket, in all columns: the report's outcome and tokens; waiting as measured; generating and duration as reported, or else as measured |
| `Requests.AbandonedIsNoError` | src/llm_gateway/observability/collect/requests.py:134-138 | The safety net adds time only: no error, no token |
| `LiveGauges.StepExact` | src/llm_gateway/observability/store.py:196-308 | Each step keeps every gauge equal to the sum over open trackers holding the key, if and only if it is not a retarget with bytes in flight |
| `LiveGauges.ClampsNeverFire` | src/llm_gateway/observability/store.py:214-308 | With exact gauges every step equals the step without any `max(0, …)` on the gauges |
| `LiveGauges.GaugesExact` | src/llm_gateway/observability/store.py:196-308 | In any run over any number of trackers all gauges are exact in every state if and only if every retarget is guarded; the run is then clamp-free |
| `LiveGauges.StreamingIsGuarded` | src/llm_gateway/telemetry/streaming.py:306-315 | Runs that report bytes of open requests only after the first token are guarded |
| `LiveGauges.OpenKeyPresent` | src/llm_gateway/observability/store.py:159-163 | The key of an open tracker is never evicted |
| `LiveGauges.BytesAreStranded` | src/llm_gateway/observability/collect/requests.py:45-53 | An unguarded retarget leaves the old key with exactly the tracker's bytes too many |
| `LiveGauges.EarlyBytesBreakGauges` | src/llm_gateway/observability/collect/requests.py:45-67 | A concrete run with inexact gauges |
| `LiveGauges.FinishIsFinal` | src/llm_gateway/observability/collect/requests.py:86-88 | No step on a finished tracker changes anything |
| `LiveGauges.KeysBounded` | src/llm_gateway/observability/store.py:152-157 | In every run from an empty store each server keeps at most 200 keys whose model is not "other" |
| `LiveGauges.ResolveMeans` | src/llm_gateway/observability/store.py:152-157 | A key is its own until its server has 200, then the one with model "other" |
| `OpenGauges.GaugesCountOpen` | src/llm_gateway/observability/store.py:196-308 | In every run, guarded or not, a key shows as waiting and generating the number of its open requests without and with a first token; the key of an open request is in the table |
| `OpenGauges.BytesCountOpen` | src/llm_gateway/observability/store.py:305-308 | In guarded runs it shows the bytes of its open requests |
| `TrackerCalls.ToldIsRun` | src/llm_gateway/observability/collect/requests.py:55-112 | One request's calls to its tracker are a run of the world of all trackers that moves its own tracker and the key table only |
| `TrackerCalls.OrderedRunsAreExact` | src/llm_gateway/observability/store.py:196-308 | In any interleaving of requests, retargets and snapshots from an empty store the gauges are exact throughout if no request begins with a report of bytes |
| `WrapperGauges.RunIsStreamed` | src/llm_gateway/telemetry/streaming.py:305-315 | Whatever disturbs a run of the wrapper, its tracker hears of the first token, then of bytes, then at most of the end |
| `WrapperGauges.StreamCallsAre` | src/llm_gateway/telemetry/streaming.py:305-315 | The tracker hears of the first token once and then, after each chunk, of the number of all bytes so far |
| `WrapperGauges.StreamRemembers` | src/llm_gateway/observability/collect/requests.py:55-69 | and remembers when the first chunk came and those bytes |
| `WrapperGauges.RunCallsEnd` | src/llm_gateway/telemetry/streaming.py:266-272 | At the end it hears of a failure just when the run neither ended well nor was cancelled, with the completion tokens |
| `WrapperGauges.WrappersKeepGaugesExact` | src/llm_gateway/telemetry/streaming.py:305-315 | With any number of requests behind wrappers, or not streaming, interleaved in any way, every gauge is exact in every state |
| `WrapperGauges.OneRunKeepsExact` | src/llm_gateway/telemetry/streaming.py:304-478 | The table and tracker that a run of the wrapper leaves keep an exact world exact |
| `LiveRing.RingRefinesLog` | src/llm_gateway/observability/store.py:178-193 | After any run and at any later time, window sums over at most 60 s are those of the full event log, evicted keys included |
| `LiveWindows.WindowsCountEvents` | src/llm_gateway/observability/store.py:196-308 | Told over the events: a window of at most 60 s counts the failed first ends of its key's requests, the positive tokens these ends report, and the requests that came to the key less those that left its current bucket |
| `LiveWindows.PointsCountEvents` | src/llm_gateway/observability/store.py:396-452 | The j-th of the sixty points counts what happened in the j-th of the last sixty seconds |
| `LiveWindows.RowsCountEvents` | src/llm_gateway/observability/store.py:478-513 | A snapshot row shows the numbers of open waiting and generating requests, what happened in the last 10 and 60 s, and in guarded runs the bytes in flight |
| `LiveRing.EvictionInvisible` | src/llm_gateway/observability/store.py:159-163 | Eviction never changes a window sum |
| `LiveRing.SeriesAddsUp` | src/llm_gateway/observability/store.py:420-448 | Per-second points add up to the window sum, for any stretch of seconds |
| `LiveRing.HistoryAddsUp` | src/llm_gateway/observability/store.py:396-468 | After any run the 60 points of a key add up to its one-minute totals |
| `LiveRing.RetargetConserves` | src/llm_gateway/observability/store.py:213-219 | A retarget conserves the two keys' window requests if and only if the old key's current bucket holds one |
| `LiveRing.LateRetargetCountsTwice` | src/llm_gateway/observability/store.py:213-219 | A concrete run in which one request counts as two |
| `MinuteRollups.ShareMeans` | src/llm_gateway/observability/store.py:272-303 | Each column of a share by the figures: errors, tokens, waiting in ms, speed times generating time giving the tokens, the gap as reported or spread over that time, the duration as given or made up; counts 1 just when there is a sum |
| `MinuteRollups.StepConserves` | src/llm_gateway/observability/collect/poller.py:354-396 | An update, drain, commit or failure changes what is held or lost for a key by what it counts and nothing else |
| `MinuteRollups.NothingLost` | src/llm_gateway/observability/collect/poller.py:354-396 | In every run table, batches on their way, pending buckets and lost rows add up to what was held at first and everything counted |
| `MinuteRollups.TablePlusPendingIsLog` | src/llm_gateway/observability/collect/poller.py:354-396 | With no batch under way, table plus pending buckets is the log of updates per minute, server and model if and only if no failed flush took rows of it; what is missing is exactly those rows |
| `MinuteRollups.RetargetConserves` | src/llm_gateway/observability/store.py:221-225 | A move between minute buckets conserves requests if and only if the old one holds one |
| `MinuteRollups.FlushRows` | src/llm_gateway/observability/collect/poller.py:358-396 | The loop of additive upserts adds each drained row to its table row exactly once, or, when a statement fails, leaves the table as it was |
| `RollupRuns.EffectsAreTheTrackers` | src/llm_gateway/observability/store.py:196-303 | In a run, tracker steps move the minute buckets exactly as the tracker's methods promise |
| `RollupRuns.ClosedOnce` | src/llm_gateway/observability/collect/requests.py:86-88 | A request adds its share exactly when it is finished at the end of a run and was not at its beginning |
| `RollupRuns.ClosesMeans` | src/llm_gateway/observability/collect/requests.py:73-112 | That share goes to the bucket of its minute, server and model, and counts the report and the times |
| `RollupRuns.FinishesAreHeld` | src/llm_gateway/observability/collect/poller.py:354-396 | In every run of trackers, drains, commits and failures all columns but the request count grow by exactly the shares of the closed requests, each once |
| `RollupRuns.RequestsAreHeld` | src/llm_gateway/observability/store.py:196-233 | In every run the request count held and lost for a key grows by the dispatches and moves into it, less the moves out of it that found a request in its bucket |
| `RollupRuns.RequestsCountedOnce` | src/llm_gateway/observability/store.py:196-233 | Over all keys, from an empty store, it is the dispatches plus the moves whose old minute bucket held no request; each request is counted once if and only if there is no such move |
| `RollupRuns.TableIsFinishedRequests` | src/llm_gateway/observability/collect/poller.py:354-396 | From an empty store, those columns of table and pending buckets are the shares of the finished requests if and only if no failed flush took any |
| `RateLimits.LocalRateLimiter.CheckRateLimit` | src/llm_gateway/rate_limit.py:53-72 | Answer and state of the token bucket, clean-up included |
| `RateLimits.LocalRateLimiter.CheckTokenLimit` | src/llm_gateway/rate_limit.py:100-144 | Answer and state of the sliding window for consuming and peeking checks |
| `RateLimits.LocalRateLimiter.FreedAfter` | src/llm_gateway/rate_limit.py:121-127 | The loop over records computes the retry scan |
| `RateLimits.LocalRateLimiter.RecordTokens` | src/llm_gateway/rate_limit.py:146-154 | Records tokens already used |
| `RateLimits.LocalRateLimiter.CleanupStaleBuckets` | src/llm_gateway/rate_limit.py:30-51 | At most once a minute, drops buckets older than 300 s and prunes records older than 60 s |
| `RateLimits.LocalRateLimiter.DropStaleBuckets` | src/llm_gateway/rate_limit.py:34-37 | Exactly the buckets touched before the cutoff go |
| `RateLimits.LocalRateLimiter.PruneRecords` | src/llm_gateway/rate_limit.py:39-49 | Each key keeps exactly its live records, and keys without any go |
| `RateLimits.LocalRateLimiter.AcquireConcurrency` | src/llm_gateway/rate_limit.py:74-90 | A slot is taken if and only if fewer than the limit are, and no other key changes |
| `RateLimits.LocalRateLimiter.ReleaseConcurrency` | src/llm_gateway/rate_limit.py:92-98 | A slot is given back, never below zero; an idle key is forgotten |
| `RateLimits.ForgettingIsUnobservable` | src/llm_gateway/rate_limit.py:30-51 | Every call sequence, with limits that may change, is answered as by a limiter that never deletes anything |
| `RateLimits.FreshForgettingIsUnobservable` | src/llm_gateway/rate_limit.py:30-51 | The same from a fresh limiter |
| `RateBounds.AdmissionBound` | src/llm_gateway/rate_limit.py:53-72 | Requests admitted for a key in any interval are at most L + L·length/60 |
| `RateBounds.BucketsInRange` | src/llm_gateway/rate_limit.py:59-70 | A bucket always holds between zero and L tokens |
| `RateBounds.RequestRetryExact` | src/llm_gateway/rate_limit.py:66-72 | A refused request passes again from exactly the named time on, which is at most a minute away |
| `RateBounds.PruningLosesNothing` | src/llm_gateway/rate_limit.py:111-116 | The pruned records are the full log of charges of the last 60 s |
| `RateBounds.WindowBound` | src/llm_gateway/rate_limit.py:100-155 | In every run the tokens counted in any 60 s window exceed the limit by no more than those in it that were recorded as already used; without these, what consuming checks accept stays within the limit |
| `RateBounds.SinceAccepted` | src/llm_gateway/rate_limit.py:118-155 | After an accepted check, consuming or peeking, every window that ends at its time or later counts at most the limit, less what the check asked room for (one token for a peek), and what was counted from that check on |
| `RateBounds.TokenCheckExact` | src/llm_gateway/rate_limit.py:100-144 | After any run a check is let through exactly when the tokens counted for its key in the last 60 s leave room for what it asks, one token for a peek; without a limit always |
| `RateBounds.PeeksOvershoot` | src/llm_gateway/rate_limit.py:134-155 | That bound is reached: after one accepted peek, any amount can be recorded |
| `RateBounds.RetryTimeExact` | src/llm_gateway/rate_limit.py:118-144 | The same check passes after the retry time and fails before it, unless the 1 s floor applied; for consuming and peeking checks |
| `RateBounds.OversizeNeverPasses` | src/llm_gateway/rate_limit.py:118-128 | An amount above the limit is refused in every state with 60 s |
| `TokenRecords.RetryFindsRecord` | src/llm_gateway/rate_limit.py:121-127 | If the records can free enough, the scan stops at the first one that does: the default is not returned |
| `TokenRecords.RetryFallsThrough` | src/llm_gateway/rate_limit.py:121-127 | Otherwise the default 60 s is returned |
| `TokenRecords.RetryExact` | src/llm_gateway/rate_limit.py:118-144 | Over any ordered records the retry time is sound and tight |
| `RedisConcurrency.RedisRateLimiter.AcquireConcurrency` | src/llm_gateway/rate_limit.py:216-233 | INCR and, above the limit, DECR: acquired if and only if the counter was below the limit |
| `RedisConcurrency.RedisRateLimiter.ReleaseConcurrency` | src/llm_gateway/rate_limit.py:239-249 | DECR and, at zero or below, DELETE |
| `RedisConcurrency.StepExact` | src/llm_gateway/rate_limit.py:224-249 | Each single command keeps counter = holders + failures not yet taken back; DELETE just when the counter is zero; holders stay within the limit |
| `RedisConcurrency.ProtocolExact` | src/llm_gateway/rate_limit.py:224-249 | For any interleaving of any number of workers the counter is exact throughout if and only if every DELETE finds zero; then the limit is kept |
| `RedisConcurrency.AtomicReleaseSafe` | src/llm_gateway/rate_limit.py:224-249 | With release as one step the counter is exact and the limit kept in every run |
| `RedisConcurrency.ReleaseRaceBreaksLimit` | src/llm_gateway/rate_limit.py:245-249 | Five commands of two workers after which both hold the one slot |
| `CircuitBreakers.CircuitBreaker.IsOpen` | src/llm_gateway/proxy_helpers.py:40-47 | Open if and only if at least 5 failures followed the last success and the last is at most 30 s old |
| `CircuitBreakers.CircuitBreaker.RecordSuccess` | src/llm_gateway/proxy_helpers.py:49-52 | Appends a success to the history the entries stand for |
| `CircuitBreakers.CircuitBreaker.RecordFailure` | src/llm_gateway/proxy_helpers.py:54-60 | Appends a failure to it |
| `CircuitBreakers.BreakerIsHistory` | src/llm_gateway/proxy_helpers.py:28-60 | After any calls `failures` is the trailing count, "closed" means below 5, "half_open" that the last failure is over 30 s old |
| `CircuitBreakers.OpenIsTripped` | src/llm_gateway/proxy_helpers.py:40-47 | `is_open` is a function of the history alone |
| `CircuitBreakers.OpenForThirtySeconds` | src/llm_gateway/proxy_helpers.py:28-60 | After a failure the circuit is open exactly when at least four preceded it without a success, and for just 30 s |
| `UrlFallback.RecordAttempt` | src/llm_gateway/proxy_helpers.py:646-681 | The breaker calls of one attempt, after those of other requests meanwhile, and when it settles the turn |
| `UrlFallback.AttemptUrl` | src/llm_gateway/proxy_helpers.py:643-681 | At most 3 attempts (1 without retry), each earlier one retriable; the settling one decides the reply |
| `UrlFallback.TakeTurn` | src/llm_gateway/proxy_helpers.py:630-681 | A URL is attempted if and only if its circuit is not open when its turn comes |
| `UrlFallback.TryBackendWithFallback` | src/llm_gateway/proxy_helpers.py:610-683 | URLs in order, only those whose circuit is not open when their turn comes, other requests' calls counted in; attempts bounded per turn; the reply is the first settled turn's, else the last error's |
| `UrlFallback.ReplyUnique` | src/llm_gateway/proxy_helpers.py:630-683 | That account determines reply and turns |
| `UrlFallback.AttemptsByOutcome` | src/llm_gateway/proxy_helpers.py:643-681 | By the outcome alone: a connection error is a failure and ends the turn only when no attempt is left; with retries a status of 500 or more is a failure each time and ends it only at the third; any other status ends it with one success; the last outcome is the reply or leads on |
| `UrlFallback.SentAtMostPerListing` | src/llm_gateway/proxy_helpers.py:630-681 | In every account a URL is sent at most its attempts (3, or 1 without retry) for each time it is listed |
| `UrlFallback.AttemptsPerUrl` | src/llm_gateway/proxy_helpers.py:630-681 | A URL is sent at most its attempts in every world and after every history if and only if it is listed at most once |
| `UrlFallback.AnyStatusResets` | src/llm_gateway/proxy_helpers.py:657-670 | Any status that settles a turn, 5xx included, ends it with the URL's failures cleared, whatever other requests do |
| `UrlFallback.TripsMidTurn` | src/llm_gateway/proxy_helpers.py:643-681 | A turn opens the circuit on the way if and only if some attempt of it fails when four failures in a row are counted by then, other requests' reports included as they come |
| `UrlFallback.TripsAlone` | src/llm_gateway/proxy_helpers.py:657-670 | When no other request reports on the URL meanwhile and a status settles the turn, that is so if and only if it records a failure and the failures before and in it reach 5 |
| `UrlFallback.FiveRepliesTrip` | src/llm_gateway/proxy_helpers.py:657-670 | Two failures before and three 5xx replies: tripped in the turn, not after it |
| `UrlFallback.ListedTwiceSentTwice` | src/llm_gateway/proxy_helpers.py:630-643 | A URL listed twice is sent twice the attempts |
| `ChainFallback.ModelQuarantine.QuarantineModel` | src/llm_gateway/proxy_helpers.py:697-707 | Puts a named pair in force until now plus the duration |
| `ChainFallback.ModelQuarantine.IsModelQuarantined` | src/llm_gateway/proxy_helpers.py:709-719 | True if and only if the pair's last quarantine is unexpired; dropping expired entries is invisible |
| `ChainFallback.ModelQuarantine.ClearModelQuarantine` | src/llm_gateway/proxy_helpers.py:737-739 | The pair is no longer in force |
| `ChainFallback.VisitTarget` | src/llm_gateway/proxy_helpers.py:825-858 | A target is skipped if and only if it is unknown or quarantined when reached, else contacted, and quarantined on a bad answer |
| `ChainFallback.TryChain` | src/llm_gateway/proxy_helpers.py:824-862 | The first target that exists, is not quarantined and answers outside 429, 500, 502, 503, 504 serves; else the exception of the last target that raised one, or 502 |
| `ChainFallback.TryWithCrossProviderFallback` | src/llm_gateway/proxy_helpers.py:770-862 | Primary first unless quarantined with a chain; then the chain, with every quarantine call accounted for, other requests' during the awaits included |
| `ChainFallback.ChainByCodes` | src/llm_gateway/proxy_helpers.py:824-862 | By the codes: a contacted target that answers anything but 429, 500, 502, 503, 504 serves and is the last; any other leads on |
| `ChainFallback.RestsByCode` | src/llm_gateway/proxy_helpers.py:846-857 | A failed target rests 300 s after 429, 60 s after 503, 30 s after 500, 502, 504 or an exception, under "*" without a model; nothing else quarantines it |
| `ChainFallback.PrimaryRestsByCode` | src/llm_gateway/proxy_helpers.py:792-816 | The same of the primary, which without a chain is quarantined only by an exception |
| `ChainFallback.FailedTargetRests` | src/llm_gateway/proxy_helpers.py:824-857 | A target that was contacted and failed is skipped wherever the chain names it again within 30 s of the failure, whatever other targets do in between, and other requests that neither clear its quarantine nor set one for less than 30 s |
| `ChainFallback.FailedPrimaryRests` | src/llm_gateway/proxy_helpers.py:786-857 | So is a chain target that is the failed primary with its model |
| `ChainFallback.VisitsKeep` | src/llm_gateway/proxy_helpers.py:850-857 | No later visit, nor a quarantine of "*", nor another request, shortens a quarantine below a bound that their own calls respect |
| `ChainFallback.VisitsUnique` | src/llm_gateway/proxy_helpers.py:825-858 | Chain, backends, quarantines, upstream and other requests determine the visits |
| `ChainFallback.ResultUnique` | src/llm_gateway/proxy_helpers.py:824-862 | and the result |
| `PromLabels.EscIsPerCharacter` | agent/llm_gpu_agent/app.py:68-69 | The three successive replaces are one escape per character |
| `PromLabels.LabelsRoundTrip` | agent/llm_gpu_agent/app.py:81-83 | Parsing a printed label set anywhere in a line yields the labels and exactly the text after the brace, for arbitrary values |
| `PromLabels.AsMapHolds` | src/llm_gateway/observability/collect/promtext.py:65 | With distinct keys the map holds exactly the listed labels |
| `PromLabels.KeySurvives` | src/llm_gateway/observability/collect/promtext.py:40-66 | A label survives printing and parsing if and only if its key is well formed |
| `LabelGrammar.OutcomeIsWritten` | src/llm_gateway/observability/collect/promtext.py:35-67 | Any text after the brace is labels as written and then what ends them; the parser returns the labels meant, with blanks, commas and escapes undone, and the text after the brace, or the error that the ending says |
| `PromLabels.ReadQuoted` | src/llm_gateway/observability/collect/promtext.py:55-62 | The loop over a quoted value: text with escapes undone, and the index of the closing quote |
| `PromLabels.ParseLabel` | src/llm_gateway/observability/collect/promtext.py:40-66 | One round: an outcome or error, or one more label and the next index |
| `PromLabels.ParseLabels` | src/llm_gateway/observability/collect/promtext.py:35-67 | The index loop computes the recursive reading, errors included |
| `RequestTranslation.RoundTrip` | src/llm_gateway/translation/anthropic_to_openai.py:8-92 | Anthropic to OpenAI and back is the identity if and only if the request is complete |
| `RequestTranslation.MessagesSurvive` | src/llm_gateway/translation/openai_to_anthropic.py:26-62 | Messages come back unchanged if and only if each is by a user or assistant with a string or good blocks |
| `RequestTranslation.ToolsSurvive` | src/llm_gateway/translation/openai_to_anthropic.py:70-81 | Tools come back unchanged if and only if each has a name (which may be null), a description and a schema |
| `RequestTranslation.NamelessToolGainsNull` | src/llm_gateway/translation/anthropic_to_openai.py:66-74 | A tool without a name comes back with a null one |
| `TranslationRules.ForwardMeans` | src/llm_gateway/translation/anthropic_to_openai.py:8-92 | Anthropic to OpenAI for every request, field by field: defaults, the system text first with its parts one on each line, every message in place with the blocks that are kept, tools, and choices |
| `TranslationRules.BackwardMeans` | src/llm_gateway/translation/openai_to_anthropic.py:8-96 | OpenAI to Anthropic likewise: all system messages joined in order, other roles as users, parts that hold no image left out, the order of the token limits, function tools, and choices |
| `RequestTranslation.SystemBack` | src/llm_gateway/translation/openai_to_anthropic.py:30-31 | Only the system prompt comes back as system text |
| `RequestTranslation.TranslateToOpenAI` | src/llm_gateway/translation/anthropic_to_openai.py:8-92 | The loops compute the translation |
| `RequestTranslation.TranslateBlocks` | src/llm_gateway/translation/anthropic_to_openai.py:41-56 | The block loop of one message |
| `RequestTranslation.TranslateToAnthropic` | src/llm_gateway/translation/openai_to_anthropic.py:8-96 | The loops compute the translation back |
| `RequestTranslation.TranslateParts` | src/llm_gateway/translation/openai_to_anthropic.py:39-59 | The part loop of one message, images that do not parse left out |
| `RequestTranslation.SplitMessages` | src/llm_gateway/translation/openai_to_anthropic.py:26-62 | System texts apart, all other messages in order |
| `RequestTranslation.TranslateTools` | src/llm_gateway/translation/openai_to_anthropic.py:70-81 | The tool loop |
| `DataUrls.DataUrlRoundTrip` | src/llm_gateway/translation/openai_to_anthropic.py:46-59 | A built data URL splits back into its image if and only if type and data are clean |
| `DataUrls.SplitBuilt` | src/llm_gateway/translation/openai_to_anthropic.py:48 | The split finds the two parts exactly when neither holds the separator |
| `DataUrls.ParseMeans` | src/llm_gateway/translation/openai_to_anthropic.py:46-59 | Any URL holds an image exactly when it begins with `data:image/` and has one separator; the media type is what precedes it without the scheme |
| `DataUrls.RemoveAllMeans` | src/llm_gateway/translation/openai_to_anthropic.py:49 | without it wherever it stands |
| `JsonHealer.RepairBalances` | src/llm_gateway/services/json_healer.py:35-76 | The repair of a prefix of a properly bracketed text is properly bracketed if and only if the prefix does not end mid-escape |
| `JsonHealer.RepairAppends` | src/llm_gateway/services/json_healer.py:65-76 | It adds a quote if a string is open, then exactly the closers of the open brackets |
| `JsonHealer.ClosersMatch` | src/llm_gateway/services/json_healer.py:70-74 | One matching closer per open bracket, in reverse order |
| `JsonHealer.CompleteUntouched` | src/llm_gateway/services/json_healer.py:35-76 | A complete text is only stripped and loses a dangling comma |
| `JsonHealer.RepairTruncatedJson` | src/llm_gateway/services/json_healer.py:35-76 | The character loop and the closing loop compute the repair |
| `JsonHealer.Advance` | src/llm_gateway/services/json_healer.py:45-63 | One character of the scan |

## Left out

- StatsStore.LiveStats.Finish: per-second decode speeds, time-to-first-token samples and the estimated flag of a bucket are not in the model; nothing else reads them but percentiles and means.
- StatsStore.Snapshot: rows are a map, not a list sorted by key, and figures are before rounding and division.
- StatsStore.History: medians, percentiles and the list over all keys are not modelled.
- StatsStore.LiveStats.StateOf: key states and buckets are values in a map, so two threads that hold the same mutable state object are not distinguished; each store operation is one step under the lock with one clock reading.
- Requests.TrackDispatch: resolving and dispatching are one step here; in the source another thread may come in between.
- LiveGauges.ClampsNeverFire: speaks of the gauges; the clamp on the old bucket's request count can fire, as the retarget lemmas say.
- MinuteRollups.TablePlusPendingIsLog: server type, medians, and the sampled columns (`sample_concurrency`, `record_server_scrape`) of a rollup row are not modelled.
- RateBounds.RetryTimeExact: retry times are exact reals, before rounding to one decimal.
- RateBounds.AdmissionBound: exact real arithmetic, no floating-point rounding.
- RedisConcurrency.RedisRateLimiter.AcquireConcurrency: the one-hour expiry, connection errors and the switch to the local limiter are not modelled; nor are the Redis request and token windows.
- StreamWrapper.StreamWithTelemetry: figures are computed by an oracle that does not raise; there is at most one disturbance before finalisation; no other request touches this tracker, and the store changes through it alone while the run lasts (interleaved requests are in `WrapperGauges.WrappersKeepGaugesExact`, call by call); what span attributes hold, the safety net after the response, closing of connections and the web framework are not modelled.
- AnswerText.DeliveredIsParsed: the client ends lines at LF or CRLF and takes each `data` line as one event; a byte order mark, lines that a lone CR ends and events whose data spans several lines are not modelled, nor is text outside deltas (whole messages, the text a content block starts with), nor the other fields of a delta, which rewriting drops.
- ThinkingStream.ChunkingInvisible: text is what the incremental UTF-8 decoder yields; decoding itself, and JSON parsing and printing, are oracles. A rewritten event is its payload and new texts.
- StreamWrapper.Wrapper.ScanLine: usage figures and delta counts are functions of the scanned lines and are not spelled out.
- PromLabels.LabelsRoundTrip: stripping knows ASCII whitespace and the Latin-1 spaces only; metric names, values and the line loop around the label set are not modelled.
- RequestTranslation.RoundTrip: `tool_use` and `tool_result` blocks and unknown fields, which the translators drop, explicit nulls other than tool names and descriptions, and the conversion of a non-string system prompt by `str` beyond lists are not modelled.
- JsonHealer.RepairBalances: proper bracketing only; the healed text need not be JSON. Markdown extraction and the comma regex over the whole text are not modelled.
- ChainFallback.TryWithCrossProviderFallback: a contact of a backend is one oracle answer, its URL loop is `UrlFallback`; other requests act between the steps of this one, not within one. The list of active quarantines is not modelled.
- ChainFallback.FailedTargetRests: other requests are taken to keep to what the code does: it never clears a quarantine, and 30 s is its shortest.
- UrlFallback.TryBackendWithFallback: other requests act while this one waits, not within a step; latency figures, webhooks, the length of backoff pauses and logging are not modelled; building a request never raises.
- `translate_stream` of both translators, routers, persistence, metrics export, prices, dashboards and guardrails, which hold no state of this kind or only regular expressions.
