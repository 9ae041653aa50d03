# Delivery platform: models and proofs

This project models the parts of the delivery platform whose guarantees hold over whole runs, and proves those
guarantees in Dafny 4.11. `dafny verify dfyconfig.toml` checks everything.

Where the source changes objects step by step, the model is a class whose methods follow the source and are proved
against a specification function. The guarantees over runs are lemmas about state machines whose steps are those
functions. Where a promised property does not hold of the code, the property is stated with the exact condition
under which it does, as an if-and-only-if, and a concrete run shows the failure.

| Area | Files | What the system promises |
|---|---|---|
| RabbitMQ retry consumer | `RabbitConsumer`, `RabbitBroker`, `RabbitBounds`, `RabbitRefusals` | nothing is lost or given up early, redelivery is bounded, draining ends |
| Kafka consumer | `KafkaConsumer`, `KafkaRuns` | a committed offset was handled or recorded |
| Rate limiter | `RateLimiter`, `RateRuns` | no window over the limit, same decisions as the full history |
| Circuit breaker | `CircuitBreaker`, `BreakerRuns`, `BreakerOpenings` | quiet while open, few attempts in an outage |
| Resumable upload | `AdvancedUploader`, `UploadRuns`, `UploadStart`, `UploadWorkers`, `Slicing` | a completed upload is the file; a resumed one sends what is missing |
| Avatar upload pool | `UploadPool`, `Slicing` | each part once, with its own tag; progress ends at the file size |
| Resumable download | `ResumableDownload` | a saved download is the file, after at most five fetches |
| Snowflake identifiers | `Snowflake` | positive, increasing, unique, and parsed back |
| Driver ranking | `Dispatch` | the k best candidates, in order |

`Wrappers` holds the `Option` type and `Totals` sums over sequences.

## How the environment is modelled

- RabbitMQ: a work queue (in any delivery order), channels with their unacknowledged deliveries, and a FIFO of
  commands per channel, as section 4.7 of the AMQP 0-9-1 specification has it. Losing a channel drops the commands
  that have not executed and requeues what is unacknowledged, so it stands for a crash at any point. An error from a
  republish may come before or after the message left.
- Kafka: one partition log, a read position, and a committed offset. A commit either takes effect or does not, a
  restart goes back to the committed offset, and it can fall between any two steps or between two handler calls.
- Redis: a sorted set whose pipeline executes in one piece, with a deadline. go-redis sends EXPIRE in whole seconds
  (a positive duration below one second becomes one second, a longer one is truncated, and one that is not positive
  deletes the key). A call carries the time of its own process; the store sets and checks deadlines by its own time when
  the pipeline executes, which is ahead of the carried time by at most a lag. The key can be gone from its deadline on.
  Calls execute in the order of the times they carry.
- Time is a number that never decreases. Sleeping and jitter only let time pass.
- Object storage tags a part with a digest of its content, taken to be free of collisions. The backend's list of
  missing parts names at least every part the store does not hold when it answers. It may give up an expired session at
  any time, and the store then drops the parts of that session.
- Resumable upload: one uploader for a file at a time. A new one, on a new page or on the same one, takes over only from
  one whose workers have stopped; a cancel of the old one may still be going on. Reads and writes of the record in
  browser storage can fail.
- HTTP: a reply has a status, a Content-Length that may be absent, a complete length from Content-Range that may be
  absent, and a body that arrives in chunks and may break off. An honest origin follows sections 14.2, 14.4 and
  15.3.7 of RFC 9110.

## What the proofs found

- Poison messages and exhausted retries on the five `*.dlq.queue` queues disappear: these queues have no dead-letter
  exchange. Every other queue that is not a stream loses nothing (`RabbitBroker.NoLossOnWorkQueues`).
- A retry limit above 2^31 - 1 lets the int32 retry header wrap to a negative count, which stops the consumer and leaves
  its delivery unsettled. Draining ends with every message handled or dead-lettered exactly for smaller limits on queues
  that dead-letter (`RabbitBounds.DrainsCleanIff`, `RabbitBounds.WrapRun`).
- The limiter's window is kept only if it is at most one second or a whole number of seconds, by a store that executes
  each call at the time the call carries. Otherwise the key expires before the window ends, and a full burst is admitted
  twice. With any lag at all, only windows that are shorter than a second by at least the lag are kept
  (`RateRuns.SafeIffWholeSeconds`).
- `Retry-After` is rounded down, so a caller that waits exactly that long is refused again unless the wait was a whole
  number of seconds (`RateRuns.AdvertisedRetry`). `Remaining` still counts the call it is reported to
  (`RateRuns.RemainingCountsThisCall`). `RateRuns.RetryExample` is a run that shows both.
- The half-open breaker announces a trial publish, but lets any number of publishes through
  (`BreakerRuns.HalfOpenAdmitsAny`).
- A shutdown during a Kafka back-off can drop a message that the next attempt would have handled
  (`KafkaRuns.ShutdownCanLose`). Without one, a lost message was refused for good or failed on every attempt
  (`KafkaRuns.LostWasGivenUp`).
- A second `start()` before the first has its session creates another session, and a `start()` after `cancel()` keeps the
  aborted one. Either can complete an upload whose parts the store does not hold. The page need not call `start()` for
  that: the network going away and coming back resumes the upload by itself at both times (`UploadRuns.OnlineOverlaps`,
  `UploadRuns.OnlineRestarts`), until `destroy()` removes the listeners. So does an uploader that is left for another
  while its abort is on its way (`UploadRuns.LeavingBreaks`). And so does a session that expires while the uploader is
  using it: a status answer adds parts to the map and never takes one out, so after a pause the next `start()` completes
  with parts that it has just been told are missing (`UploadRuns.ExpiryBreaks`). Without these six the upload is safe
  (`UploadRuns.SafeIffCareful`).
- The backend's part plan leaves empty parts for some large files unless the minimum part size is at least 9998 bytes
  (`Slicing.PlanTightIff`).
- A download without a stated length can be saved short (`ResumableDownload.WholeIffLengthStated`). A read error after
  the last byte throws a complete download away exactly if all four fetches that are left are refused, as the empty range
  is with status 416 (`ResumableDownload.LateErrorIffRefused`).
- Snowflake identifiers ignore the configured epoch: they carry the time since that epoch exactly if it is 0
  (`Snowflake.EpochIsIgnored`). Timestamps count from 1970 and stop being positive at 2^41 ms, in 2039
  (`Snowflake.LaterIsGreater`). With fewer than 12 sequence bits identifiers can repeat within a millisecond
  (`Snowflake.DistinctIffWidthFits`).
- A negative candidate count makes the ranking panic (`Dispatch.DispatchPolicy.RankCandidates`).

## Model

| member | source | states |
|---|---|---|
| RabbitConsumer.Consumer.HandleDelivery | packages/go/rabbitmq/rabbitmq.go:844-923 | the commands written for a delivery, in order, and the counters moved, for every handler result, retry count, cancellation and republish error; a handled one is acknowledged and nothing else, an unreadable or permanently failed one is rejected |
| RabbitConsumer.Consumer.ConsumeLoop | packages/go/rabbitmq/rabbitmq.go:831-842 | the loop handles deliveries up to a cancellation or a closed stream; deliveries = consumed + retried + dead-lettered, and failed = dead-lettered |
| RabbitConsumer.SettledExactlyOnce | packages/go/rabbitmq/rabbitmq.go:844-923 | each delivery gets exactly one Ack or Nack, as its last command; an Ack means it was handled or a copy was written first; only a negative retry header settles nothing |
| RabbitConsumer.SettledByOutcome | packages/go/rabbitmq/rabbitmq.go:844-923 | exactly handled deliveries are acknowledged outright, exactly those that are unreadable, failed for good or out of retries are rejected to the dead letters, and every other one is republished or requeued, a cancelled wait and a failed republish included; each is counted once, under its own name |
| RabbitConsumer.CountIsRead | packages/go/rabbitmq/rabbitmq.go:937-953 | the retry count of a header of each numeric type, fractions toward zero, and none for anything else |
| RabbitConsumer.RejectedGoesTo | packages/go/rabbitmq/rabbitmq.go:131-180 | where rejected messages of each queue go: streams aside, by the direct exchange to one of the five dead-letter queues, else by the fanout exchange, and from a dead-letter queue nowhere |
| RabbitConsumer.CopyKeepsTheMessage | packages/go/rabbitmq/rabbitmq.go:885-906 | a republished copy has the same body, id, trace id and other headers, and its retry count reads back as one more exactly while the count is below 2^31 - 1 |
| RabbitBroker.NoLossIffDeadLetters | packages/go/rabbitmq/rabbitmq.go:844-923 | over all runs with crashes, cancellations and republish errors, each message is queued, unacknowledged, dead-lettered or was handled: if and only if the queue dead-letters |
| RabbitBroker.NoLossOnWorkQueues | packages/go/rabbitmq/rabbitmq.go:131-180 | of the queues that are not streams, exactly the five dead-letter queues can lose a message |
| RabbitBroker.PoisonIsLost | packages/go/rabbitmq/rabbitmq.go:847-856 | on a queue without a dead-letter exchange a rejected message is gone |
| RabbitBroker.StepChansOk | packages/go/rabbitmq/rabbitmq.go:897-913 | every step keeps each channel's tags unique and its copies ahead of the command that gives up the original |
| RabbitBounds.BoundedRedelivery | packages/go/rabbitmq/rabbitmq.go:875-922 | over every run and for every retry limit, a message that entered E times causes at most (maxRetries + 1) * (E + R) handler runs over all its copies, with R deliveries put back |
| RabbitBounds.CountsStayInRange | packages/go/rabbitmq/rabbitmq.go:875-892 | if messages enter with counts from 0 to maxRetries, every copy stays at or below maxRetries, and at or above 0 if the limit fits in 32 bits |
| RabbitBounds.CountsNeverExceed | packages/go/rabbitmq/rabbitmq.go:875-892 | for every limit, no copy in any run carries a count above maxRetries |
| RabbitBounds.CountsInRangeIffFits | packages/go/rabbitmq/rabbitmq.go:875-892 | counts stay from 0 to maxRetries in every run if and only if the limit is below 2^31 |
| RabbitBounds.WrapRun | packages/go/rabbitmq/rabbitmq.go:876-892 | a run in which the header wraps and the negative count leaves a delivery unsettled |
| RabbitBounds.QuietRunsAreShort | packages/go/rabbitmq/rabbitmq.go:862-922 | for every limit, a run with no requeue and no lost channel is no longer than the potential it starts from |
| RabbitBounds.QuiescentIsEmpty | packages/go/rabbitmq/rabbitmq.go:862-922 | where no quiet step is possible, nothing is queued, held or pending |
| RabbitBounds.DrainingTerminates | packages/go/rabbitmq/rabbitmq.go:862-922 | draining a finite queue ends: from any run on, a quiet run is no longer than the potential reached |
| RabbitBounds.DrainsCleanIff | packages/go/rabbitmq/rabbitmq.go:862-922 | where draining ends nothing is left, and each message was handled or is dead-lettered: if and only if the queue dead-letters and the retry limit is below 2^31 |
| RabbitRefusals.DeadWasRefused | packages/go/rabbitmq/rabbitmq.go:844-923 | in every run, a dead-lettered message had a delivery that was unreadable, failed for good, or failed with its count at the retry limit |
| RabbitRefusals.DeadWasTried | packages/go/rabbitmq/rabbitmq.go:875-922 | in every run whose messages enter uncounted, a dead-lettered message was unreadable or refused for good at some step, or its handler has run at least maxRetries + 1 times |
| RabbitRefusals.HandledHow | packages/go/rabbitmq/rabbitmq.go:862-865 | in every run, a message counts as handled only after a step in which its handler accepted it |
| RabbitRefusals.UnrefusedIsHandled | packages/go/rabbitmq/rabbitmq.go:844-923 | where draining ends, on a queue that dead-letters and a retry limit below 2^31, a message that was never refused has been handled |
| KafkaConsumer.Consumer.ProcessWithRetry | packages/go/kafka/kafka.go:223-253 | the retry loop returns the verdict of the specification, and the number of handler calls |
| KafkaConsumer.ProcessStopsAtFirst | packages/go/kafka/kafka.go:223-253 | the verdict is decided by the first success, permanent error or cancelled wait, else by running out after maxRetries + 1 calls; each reason arises in exactly one way |
| KafkaConsumer.Consumer.RouteToDLQ | packages/go/kafka/kafka.go:255-277 | a written record has the original key, the original value, and the original headers with one x-dlq-reason header added |
| KafkaConsumer.Consumer.Run | packages/go/kafka/kafka.go:188-221 | the loop stops on a done context, goes on after other fetch errors, and for each message processes, routes and commits |
| KafkaRuns.RoundIsSteps | packages/go/kafka/kafka.go:212-219 | a round of the loop is a run of the separate steps, and changes what the consumer's method changes |
| KafkaRuns.LoopIsRounds | packages/go/kafka/kafka.go:188-221 | the whole loop is a run of its rounds, one for each delivery before the event that stops it, whatever other fetch errors come between |
| KafkaRuns.CommittedIsSettled | packages/go/kafka/kafka.go:188-277 | in every run each committed offset was handled by some step, has its own record with key, value, headers and reason written by some step, or was given up with no topic or a failed write |
| KafkaRuns.RecordsAreDistinct | packages/go/kafka/kafka.go:255-277 | records written by different steps have different places in the dead-letter topic, so none stands for two offsets |
| KafkaRuns.NothingLostIffDlq | packages/go/kafka/kafka.go:212-277 | as long as dead-letter writes succeed, no run loses a committed message: if and only if a dead-letter topic is configured |
| KafkaRuns.ShutdownCanLose | packages/go/kafka/kafka.go:236-240 | a wait cut short, a failed dead-letter write and a commit that takes effect drop a message that the next attempt would have handled |
| KafkaRuns.LostWasGivenUp | packages/go/kafka/kafka.go:223-277 | in every run in which no wait is cut short, a message that is committed but neither handled nor recorded was refused for good by its handler, or failed on all maxRetries + 1 attempts |
| KafkaRuns.BoundedCalls | packages/go/kafka/kafka.go:223-253 | over every run a message is given to the handler at most (maxRetries + 1) * (restarts + 1) times |
| RateLimiter.Limiter.Limit | packages/go/ratelimiter/ratelimiter.go:70-124 | one call: the stored set after the pipeline and the removal, the deadline, the result, and the error exits before and after the pipeline executed; it is allowed exactly if fewer than limit of the entries found are scored inside the window |
| RateLimiter.AnswerIsExact | packages/go/ratelimiter/ratelimiter.go:92-120 | allowed, limit and remaining from the number of entries found in the window; the reset time and Retry-After from the earliest of them and the call itself |
| RateLimiter.LeavesTheWindow | packages/go/ratelimiter/ratelimiter.go:79-99 | a call leaves what it found in the window and its own entry, that only until it is refused, and a deadline from the store's time |
| RateLimiter.Limiter.Exec | packages/go/ratelimiter/ratelimiter.go:79-87 | the pipeline prunes, counts before it adds, and reads the lowest score after |
| RateLimiter.SortedSetStore.ZRemRangeByScore | packages/go/ratelimiter/ratelimiter.go:80 | the scan leaves what the pruning specification leaves |
| RateRuns.LimitIsSteps | packages/go/ratelimiter/ratelimiter.go:70-124 | a call to the limiter is a run of its transaction and, if refused, the removal, leaves the same store, and is answered allowed exactly if its step joins the admitted history |
| RateRuns.SafeIffWholeSeconds | packages/go/ratelimiter/ratelimiter.go:70-99 | over every interleaving of calls and late removals no window holds more than limit admitted calls: if and only if nothing is allowed, the window is empty, or it is at most a second or whole seconds for a store without lag and at least the lag short of a second otherwise |
| RateRuns.RefinesIffWholeSeconds | packages/go/ratelimiter/ratelimiter.go:79-111 | in serial runs, pruning and expiry included, a call is admitted exactly when the full history has fewer than limit admitted calls in its window: under the same condition |
| RateRuns.AdmittedHasRoom | packages/go/ratelimiter/ratelimiter.go:92-99 | with removals pending, an admitted call still finds room in the full history |
| RateRuns.DecidesLikeNaive | packages/go/ratelimiter/ratelimiter.go:92-99 | with no removals pending, the decision is that of the check over the full history |
| RateRuns.EarlyExpiryBreaks | packages/go/ratelimiter/ratelimiter.go:84 | where stored members do not outlast window and lag, a full burst and one call after the key is gone break both properties |
| RateRuns.StepInv | packages/go/ratelimiter/ratelimiter.go:79-99 | every call and every late removal keeps the stored members of admitted calls a suffix of the history, the rest being out of the window |
| RateRuns.StoredWithinLimit | packages/go/ratelimiter/ratelimiter.go:79-99 | in every run, for every window and lag, no window holds more than limit stored members of admitted calls: the limiter goes over its limit only by forgetting |
| RateRuns.RetryAlone | packages/go/ratelimiter/ratelimiter.go:101-111 | for every window and in every state that a run reaches with nothing to remove, a refused caller that retries alone is admitted exactly from oldest + window on, or if the key is gone by then |
| RateRuns.AdvertisedRetry | packages/go/ratelimiter/ratelimiter.go:104-111 | in the same states, a refused caller that waits exactly Retry-After is admitted if and only if the exact wait was a whole number of seconds, or the key is gone by then |
| RateRuns.ResetIsRoundedDown | packages/go/ratelimiter/ratelimiter.go:104-111 | in the same states and while the key is there, a lone retry is admitted exactly from the reported reset time plus the milliseconds that rounding dropped; so before the reset time never, at it only if nothing was dropped, and a second after it always |
| RateRuns.RemainingCountsThisCall | packages/go/ratelimiter/ratelimiter.go:92-99 | with r remaining reported, one more call at once is admitted exactly if r is at least two, or the key is gone |
| RateRuns.RetryExample | packages/go/ratelimiter/ratelimiter.go:92-111 | one call per two seconds, a run with calls at 0 and 500 ms: one remaining is reported and the next call refused; the advertised wait of one second ends at 1500 ms and the retry is refused until 2000 ms |
| CircuitBreaker.Breaker.GuardCircuitBreaker | packages/ts/src/rabbitmq/rabbitmq.service.ts:261-278 | when a publish passes, and the state after |
| CircuitBreaker.Breaker.RecordSuccess | packages/ts/src/rabbitmq/rabbitmq.service.ts:280-292 | the state after a recorded success |
| CircuitBreaker.Breaker.RecordFailure | packages/ts/src/rabbitmq/rabbitmq.service.ts:294-308 | the state after a recorded failure: one more failure counted, and open exactly if it was not closed or the count has reached the threshold |
| CircuitBreaker.Breaker.Publish | packages/ts/src/rabbitmq/rabbitmq.service.ts:336-389 | the four ways a publish ends; a failure to connect is not recorded |
| BreakerRuns.CounterIsExact | packages/ts/src/rabbitmq/rabbitmq.service.ts:280-308 | however publishes overlap, the counter is the number of failures recorded since the last recorded success |
| BreakerRuns.ClosedBelowIffPositive | packages/ts/src/rabbitmq/rabbitmq.service.ts:294-308 | a closed breaker has counted fewer failures than the threshold in every run: if and only if the threshold is at least one |
| BreakerRuns.NothingPassesWhileOpen | packages/ts/src/rabbitmq/rabbitmq.service.ts:261-308 | between an opening and the end of its reset time nothing passes and nothing opens again, whatever in-flight publishes do |
| BreakerRuns.RejectedIffRecentOpening | packages/ts/src/rabbitmq/rabbitmq.service.ts:261-278 | a publish is rejected exactly if some opening is more recent than the reset time |
| BreakerRuns.ModeIsDecidedByHistory | packages/ts/src/rabbitmq/rabbitmq.service.ts:261-308 | open exactly while an opening has not been followed by a pass; closed exactly when every opening has been followed by a pass and then a success |
| BreakerOpenings.OpensExactlyWhenDue | packages/ts/src/rabbitmq/rabbitmq.service.ts:294-308 | however publishes overlap, the breaker opens at a recorded failure exactly if no opening waits for a pass and the failure is a trial after an opening or brings the failures in a row to the threshold |
| BreakerOpenings.BelowThresholdNeverOpens | packages/ts/src/rabbitmq/rabbitmq.service.ts:261-308 | a run whose failures in a row stay below the threshold never opens, and every publish passes |
| BreakerRuns.OpeningsBound | packages/ts/src/rabbitmq/rabbitmq.service.ts:294-308 | however publishes overlap, a stretch of length L sees at most L / reset + 1 openings |
| BreakerRuns.OutageBound | packages/ts/src/rabbitmq/rabbitmq.service.ts:343-388 | once open in a serial run, while every attempt fails, a stretch of length L sees at most L / reset + 1 channel attempts |
| BreakerRuns.HalfOpenAdmitsAny | packages/ts/src/rabbitmq/rabbitmq.service.ts:261-267 | a half-open breaker lets any number of publishes onto the channel before one is recorded |
| Slicing.SlicesJoinToFile | media-frontend/src/upload/presignedUpload.ts:26-28 | the slices of all parts join to the original file exactly when the plan covers it |
| Slicing.SizesMatchIffTight | media-frontend/src/upload/advancedUploader.ts:177-187 | both progress formulas agree with the bytes sent, for every part, exactly for a tight plan |
| Slicing.ProgressAddsUp | media-frontend/src/upload/presignedUpload.ts:81 | the sizes counted as progress add up to the file size |
| Slicing.PlanCovers | services/media-service/internal/application/upload/create_session.go:241-256 | the backend's plan covers every file |
| Slicing.PlanTightIff | services/media-service/internal/application/upload/create_session.go:241-256 | the backend's plan is tight for every file exactly when the minimum part size is at least 9998 |
| Slicing.PlanIsLeast | services/media-service/internal/application/upload/create_session.go:241-256 | parts have the least size from the minimum on with which 10000 parts are enough, no part is left over at the minimum size, and a small file is one part |
| AdvancedUploader.Uploader.ApplyStatus | media-frontend/src/upload/advancedUploader.ts:117-150 | a saved session is put back: its id, its plan, and every saved part with its tag but those the backend misses, next to the parts already there |
| AdvancedUploader.Uploader.InitializeSession | media-frontend/src/upload/advancedUploader.ts:109-190 | an uninterrupted initialization: a saved session taken over, reported complete or dropped, and a new one created and stored exactly if none can be used; a failing write to browser storage ends it |
| AdvancedUploader.InitializedByStatus | media-frontend/src/upload/advancedUploader.ts:109-190 | what each answer comes to: the parts a live session brings, none from a completed or lost one, and whose session is in use afterwards |
| AdvancedUploader.Uploader.BuildQueue | media-frontend/src/upload/advancedUploader.ts:233-247 | the queue and the number of workers |
| AdvancedUploader.RemainingIsExact | media-frontend/src/upload/advancedUploader.ts:233-234 | the queue is exactly the parts not done, ascending and without repeats |
| AdvancedUploader.Uploader.UploadPartWithRetry | media-frontend/src/upload/advancedUploader.ts:265-304 | a part without an address is refused; otherwise at most five attempts, up to the first that is recorded and saved; the part is in the map exactly if an attempt uploaded it, also when its record could not be saved |
| AdvancedUploader.Uploader.FinishPool | media-frontend/src/upload/advancedUploader.ts:254-262 | when the pool completes, fails, or just stops |
| UploadRuns.SafeIffCareful | media-frontend/src/upload/advancedUploader.ts:213-263 | over every interleaving of workers, pauses, offline periods, cancels, expiring sessions, failing storage writes and new uploaders, each completion lists exactly parts 1..totalParts, all held by the store, and they assemble to the file: if and only if, during initialization and after cancel, the page does not call start and the network does not come back, the uploader is not left during an abort, and no session expires while it is in use |
| UploadRuns.StepInv | media-frontend/src/upload/advancedUploader.ts:109-399 | where these six do not occur, every step keeps the invariant: recorded and saved parts belong to the plan of a known session and have the tag of the right bytes, recorded ones are held by the store unless cancelled, and every completion made is good |
| UploadRuns.CompletionIsGood | media-frontend/src/upload/advancedUploader.ts:258-259 | the count check is enough: as many recorded parts as the plan has is the whole file |
| UploadRuns.CompletesWhenDue | media-frontend/src/upload/advancedUploader.ts:252-262 | a completion is issued exactly when a pool has ended while the upload runs with as many recorded parts as planned; it presents those, and the record goes if it is accepted |
| UploadRuns.AsksAboutUnexpired | media-frontend/src/upload/indexedDB.ts:49-66 | the backend is asked about a saved session exactly if its record has not expired, and an expired record is dropped |
| UploadRuns.RunsAreModest | media-frontend/src/upload/advancedUploader.ts:247-274 | in every run a pool has at most four workers, and no worker is past its fifth attempt |
| UploadRuns.OverlapBreaks | media-frontend/src/upload/advancedUploader.ts:157-174 | two starts that both create a session complete an upload the store does not hold |
| UploadRuns.OnlineOverlaps | media-frontend/src/upload/advancedUploader.ts:70-82 | an offline and an online event during initialization are enough for two such starts |
| UploadRuns.OnlineRestarts | media-frontend/src/upload/advancedUploader.ts:70-82 | an offline and an online event after cancel start the cancelled upload again |
| UploadRuns.LeavingBreaks | media-frontend/src/upload/advancedUploader.ts:389-396 | an uploader left while its abort is on its way lets the next one complete an upload that the abort then empties |
| UploadRuns.ExpiryBreaks | media-frontend/src/upload/advancedUploader.ts:136-142 | an upload whose session has expired during a pause keeps the parts that the backend reports missing, and completes without them |
| UploadRuns.RestartBreaks | media-frontend/src/upload/advancedUploader.ts:382-399 | an upload started again after cancel completes the aborted session |
| UploadStart.InitIsSteps | media-frontend/src/upload/advancedUploader.ts:109-190 | an uninterrupted initialization is a run of the separate steps, and leaves the fields, the outcome and the stored record that the uploader's own method leaves |
| UploadStart.StartIsSteps | media-frontend/src/upload/advancedUploader.ts:213-247 | so is an uninterrupted start, up to the queue and the workers that the pool opens with |
| UploadStart.ResumedQueue | media-frontend/src/upload/advancedUploader.ts:136-142 | a start that takes over a live session queues exactly the parts that are neither in the map nor saved and held: with a fresh uploader, those missing or never saved |
| UploadStart.SavedPartsAreSpared | media-frontend/src/upload/advancedUploader.ts:233-247 | in every run, a start that has taken over its saved session never sends a part that is saved and not reported missing |
| UploadWorkers.TakesWhenRunning | media-frontend/src/upload/advancedUploader.ts:239-245 | a worker starts to send exactly when it picks the next part, with an address, while the upload is neither paused nor offline; and it sends the bytes of that part |
| UploadWorkers.FailsWhenExhausted | media-frontend/src/upload/advancedUploader.ts:265-304 | a pool fails exactly at the fifth failed attempt of a worker on a part, or at a part it cannot send |
| UploadWorkers.PartIsSteps | media-frontend/src/upload/advancedUploader.ts:265-304 | a worker's attempts at its part are a run of the separate steps, and end as the uploader's own method does |
| UploadWorkers.InterruptedGoesOn | media-frontend/src/upload/advancedUploader.ts:239-274 | an interrupted worker lets go of its part without failing, and looks for the next one |
| UploadPool.UploadPart | media-frontend/src/upload/presignedUpload.ts:20-58 | a part is sent at most MAX_PART_RETRIES times, each time with the bytes of that part, and the first tag received is returned |
| UploadPool.PartPool.Finish | media-frontend/src/upload/presignedUpload.ts:89-93 | the list returned, or an error if it is not totalParts long |
| UploadPool.CollectedIsExact | media-frontend/src/upload/presignedUpload.ts:89 | dropping the holes keeps exactly the filled entries, in ascending order |
| UploadPool.PoolIsExact | media-frontend/src/upload/presignedUpload.ts:70-93 | every interleaving that returns collects each listed part once, ascending, with a tag received for it; the list is 1..totalParts exactly when no part lies beyond |
| UploadPool.AllAcknowledged | media-frontend/src/upload/presignedUpload.ts:75-87 | when all workers have returned, each listed part was acknowledged as often as it was listed |
| UploadPool.FourAtATime | media-frontend/src/upload/presignedUpload.ts:70-88 | every run has four workers throughout, or one for each part if fewer are listed |
| UploadPool.ProgressReachesFileSize | media-frontend/src/upload/presignedUpload.ts:72-85 | uploadedBytes never decreases and ends at the file size |
| ResumableDownload.DownloadWithResume | media-frontend/src/upload/resumableDownload.ts:18-70 | the loop computes the specification, with at most five fetches, none after an abort, and gives up only after an abort or the fifth |
| ResumableDownload.AttemptIsExact | media-frontend/src/upload/resumableDownload.ts:27-66 | one pass: a refused fetch keeps all that is held, what a reply brings is kept behind what stays, also if it breaks off, and the download ends exactly if the body has ended and nothing more is expected |
| ResumableDownload.NothingFetchedTwice | media-frontend/src/upload/resumableDownload.ts:24-70 | from an origin that resumes, a saved download is as long as all that arrived over its fetches |
| ResumableDownload.AttemptKeepsPrefix | media-frontend/src/upload/resumableDownload.ts:36-66 | through short reads, errors, 206 replies and 200 restarts the bytes held are the first bytes of the file |
| ResumableDownload.DownloadIsPrefix | media-frontend/src/upload/resumableDownload.ts:24-70 | a saved download is a prefix of the file, and all of it if lengths are stated |
| ResumableDownload.WholeIffLengthStated | media-frontend/src/upload/resumableDownload.ts:43-62 | a saved download is the file for every honest origin if and only if origins state a length, in Content-Range or in Content-Length, or the file is empty |
| ResumableDownload.FullReplyFinishes | media-frontend/src/upload/resumableDownload.ts:24-70 | one full answer among the five fetches is enough |
| ResumableDownload.SavedIffAnswered | media-frontend/src/upload/resumableDownload.ts:24-70 | while answers are full ones, a download is saved if and only if one of the fetches left is answered at the offset it asks for |
| ResumableDownload.LateErrorIsFatal | media-frontend/src/upload/resumableDownload.ts:64-69 | with every byte held, a download is thrown away if every further fetch is refused |
| ResumableDownload.LateErrorIffRefused | media-frontend/src/upload/resumableDownload.ts:24-70 | from the start: an origin that delivers the whole file and breaks off has its download thrown away if and only if the four fetches that follow are refused |
| Snowflake.NewSnowflake | packages/go/snowflake/id.go:38-66 | which settings are refused, in which order, and the fields of a new generator |
| Snowflake.Generator.NextID | packages/go/snowflake/id.go:68-91 | one call: the clock readings used, the new state with the last reading as its timestamp, and the identifier packed from it; the wait for the next millisecond ends |
| Snowflake.StampIsReading | packages/go/snowflake/id.go:68-91 | over every run, the timestamp is the clock's reading, or the one after the wait once 4096 sequences are used up; the sequence counts on within a millisecond and starts at 0 in the next |
| Snowflake.IssuedFields | packages/go/snowflake/id.go:38-91 | over every run of a new generator with 12 sequence bits, each identifier parses to the configured worker and datacenter, the sequence, and the timestamp wrapped to 42 bits |
| Snowflake.IdsIncrease | packages/go/snowflake/id.go:68-91 | over every run with 12 sequence bits, sequence overflow included, each identifier is positive and they strictly increase while the clock is below 2^41 |
| Snowflake.LaterIsGreater | packages/go/snowflake/id.go:88 | later states have greater identifiers until 2^41, and negative ones for the next 2^41 milliseconds |
| Snowflake.IdsCompare | packages/go/snowflake/id.go:88 | for any two timestamps, identifiers compare as the timestamps wrapped to 42 bits and then the sequences do |
| Snowflake.PackIsValid | packages/go/snowflake/id.go:121-123 | an identifier is positive if and only if bit 41 of its timestamp is clear and it is not all zero |
| Snowflake.GeneratorsNeverCollide | packages/go/snowflake/id.go:52-59 | generators with different workers or datacenters never share an identifier, whatever their clocks |
| Snowflake.ParsePack | packages/go/snowflake/id.go:109-116 | parsing gives back worker, datacenter and sequence, and the timestamp if and only if it is below 2^41 |
| Snowflake.EpochIsIgnored | packages/go/snowflake/id.go:24-36 | identifiers carry the time since the configured epoch if and only if that epoch is 0 |
| Snowflake.PackParse | packages/go/snowflake/id.go:109-116 | every non-negative 64-bit integer is the packing of its own fields |
| Snowflake.OrDisjoint | packages/go/snowflake/id.go:88 | or of words that share no bit position is their sum |
| Snowflake.WorkerIsReported | packages/go/snowflake/id.go:97-99 | at any sequence width the configured worker is reported |
| Snowflake.DistinctIffWidthFits | packages/go/snowflake/id.go:52-91 | identifiers of one millisecond are distinct if and only if the shifted worker and datacenter leave the low 12 bits clear |
| Dispatch.DispatchPolicy.RankCandidates | services/driver-service/internal/domain/dispatch.go:76-89 | min(k, n) candidates in order, a sub-multiset of the rescored input, every omitted candidate scoring at least as high as every kept one, and the input unchanged; exactly a negative count panics |
| Dispatch.Sort | services/driver-service/internal/domain/dispatch.go:70-86 | sorted by score, and a permutation |
| Dispatch.TopIsCheapest | services/driver-service/internal/domain/dispatch.go:76-89 | no other choice of as many candidates has a smaller total score |
| Dispatch.TopStands | services/driver-service/internal/domain/dispatch.go:79-84 | every ranked candidate is one that was given, with its distance as the score if it had none |
| Dispatch.NearestFirst | services/driver-service/internal/domain/dispatch.go:76-89 | candidates without scores come nearest first, and none left out is nearer than one kept |
| Dispatch.ScoresAreDetermined | services/driver-service/internal/domain/dispatch.go:86 | any two such results have the same score at each place, whichever sort is used |

## Left out

- RabbitMQ stream queues, message expiry, prefetch limits, priorities, and where a dead-lettered message goes next: a
  dead-lettered message counts as arrived.
- Publisher confirms in Go: the wait accepts a confirm with another tag, so nothing is claimed about single confirms.
- The TypeScript RabbitMQ consumer, which follows the same protocol as the Go one.
- Back-off lengths, including the overflow of a doubled delay at very high retry counts.
- RabbitConsumer.Consumer.HandleDelivery: the log lines and the labels of the failure counter are not modelled.
- KafkaRuns.CommittedIsSettled: one partition and one consumer at a time; a commit that is reported as failed takes effect
  at once or never, and two consumers that both believe they own the partition are not modelled.
- RateRuns.SafeIffWholeSeconds: calls execute in the order of the times they carry, so clocks that disagree between
  processes are not modelled beyond the lag of the store.
- BreakerRuns.OutageBound: about serial publishes, as overlapping ones are not limited by a half-open breaker.
- The reconnect loop of the TypeScript publisher: a publish either finds a connection or gives up.
- UploadRuns.SafeIffCareful: a write to browser storage takes effect at once or fails, an abort that is reported as
  failed has no later effect, and no two uploaders work on a file at the same time, in one tab or in several. Files of
  the same name, size and modification time are one file. The order of the parts and the number of completions are not
  claimed: the store is taken to keep the parts of a completed session, so completing it again is good, and what the
  backend answers to a completion is not modelled.
- A backend that under-reports missing parts: its status call now reports every part missing, which is safe but gives up
  the progress made (services/media-service/internal/domain/upload.go:40-53).
- UploadPool.PoolIsExact: any order of the presigned parts is covered, so the sort before the pool is not modelled.
- ResumableDownload.DownloadWithResume: Content-Encoding, and building and clicking the download link, are not modelled.
- Snowflake.IdsIncrease: clocks that go backwards are not covered. The default generator is one with worker 1.
- Snowflake.EpochIsIgnored: about 12 sequence bits, the width that parsing is documented for.
- Dispatch.Sort: the sort is by insertion, which the Go library uses for short slices; only sortedness and permutation
  are relied on. Scores are real numbers, so NaN and rounding are not modelled.
- User interface, resolvers, configuration, metrics registration, tracing, validators and permission maps, which would
  only add easy members.
