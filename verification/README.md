# A model of the relayer's delivery protocols

This project models, in Dafny, how a relayer moves tasks and events between the
Amplifier API and its queues, and proves what those protocols keep.

- **Task relay** (`TaskLog`, `GcpRelay`, `GcpPublisher`, `NatsRelay`, `NatsPublisher`, `NatsTies`):
  subscribers peek at a cursor, fetch the page after it, sort it, publish it and move the
  cursor. With Pub/Sub the cursor is a Redis register; with NATS it is the last message of
  the stream itself. `GcpRelay` and `NatsRelay` are step systems in which any number of
  subscribers interleave and every stage can fail or crash; the `Publisher` modules hold
  the code's own methods, whose effects are proved to be runs of those systems.
- **Polling gate** (`PollingGate`, `PollingOnce`, `PollingStuck`, `Poller`): ticks, overlapping
  requests, a channel, a downstream consumer, two durable records and restarts.
- **Event delivery** (`EventDelivery`, `GcpConsumer`): leases, redelivery, the Redis
  deduplication key, the acknowledgement and the ingester's post.
- **Retries** (`Backoff`, `Retry`, `RetryCalls`): the alternating backoff, the retry of two
  functions with its four flags, and the retry of one. `RetryCalls` says what the list of calls
  is in terms of the two functions alone.
- **Codecs** (`Decimal`, `TxEvents`, `Borsh`, `Texts`, `Messages`, `Limits`, `Layout`, `Envelope`):
  decimal text, event ids, Borsh encodings of events and tasks, and the Pub/Sub envelope.
  `Layout` fixes the bytes: tags, the order of the fields, and the bytes of a number.
- **Machines** (`CommandMachine`, `Supervisor`, `ErrorLoops`): the poll function behind the
  commands to the API, the supervisor's registry of workers, and the loops that give up
  after too many errors in a row.

`Runs` has runs of a step system and their invariants; `Options` and `Seqs` are small helpers.

## How to read it

A step system is a relation `Next(state, action, state')`; a claim about "every reachable
state" is a lemma over all runs. The methods of the classes take what a service does with a
call as parameters (a fault, an order of arrival, the choice of an unstable sort), so their
contracts say what happens for every such behaviour.

What is assumed of the surroundings:

- The API is an append-only log of tasks with unique ids. "After c, at most L" returns tasks
  from right after c, in any order. For the polling gate the response is in log order,
  because that code does not sort.
- Timestamps strictly increase along the log for the NATS stream and for exact catch-up.
  Cursor coverage with Pub/Sub does not need it. `TaskLog.SortRestoresIff` and
  `TaskLog.SortKeepsLastIff` are the exact conditions on one page, and `NatsTies.SkipsIff` is
  the exact condition on a log: without it a run can skip a task for good.
- A handle that returns Ok means that the message is on the topic. A failed one says nothing.
- Downstream of the gate takes tasks in channel order and records a task after handling it.
- Redis drops a key 600 seconds after its last write. Success of a post means that the HTTP
  and JSON exchange succeeded; error items inside the answer are not looked at.
- Tokio's join set gives out a finished request unless the poll has used up its cooperative
  budget; whether it has is a parameter of the poll.
- A worker's thread sends its name and returns afterwards, as two steps
  (crates/supervisor/src/lib.rs:206-207 and 250-256); nothing in between can block.
- Characters are bytes: strings are byte sequences that are well-formed UTF-8 (RFC 3629,
  section 4). Integer parsing follows Rust's `from_str`, times chrono 0.4.41, encodings
  borsh 1.5.7; a header map may be written in any order of its keys.

## Where code and documentation differ

The model follows the code.

- The main README promises that the supervisor restarts failed components (README.md:164). A
  worker thread reports its end only if the run is already being cancelled
  (crates/supervisor/src/lib.rs:250), and the supervisor drops the names that it receives
  then. `Supervisor.RestartedIff` is the exact condition: before cancellation a name is still
  going to be attempted, exactly once at a time, if and only if its worker has not ended after
  it had begun to work. Failed builds and failed runtime creations are retried;
  `Supervisor.NeverRestarted` adds that a worker that has begun to work never runs again.
- `BigInt` documents the pattern `^(0|[1-9]\d*)$`. Its parser also takes a sign and leading
  zeros, and negative values print with a minus; `Decimal.ReprintIff` is the exact relation.
- `serialize_option_utc` is documented as microseconds; it writes seconds and nanoseconds.
- Both serializers of `big_int.rs` and `util.rs` are documented as infallible. They are, but a
  string over 4 GiB makes the surrounding message fail; `Limits` has the exact condition.
- The polling gate reads as if it kept one batch in flight
  (crates/relayer-amplifier-api-integration/src/from_amplifier.rs:110-113). It does not.
  `PollingOnce.SpawnSafeIff` is the exact condition: a spawn cannot make the process send a task
  twice if and only if no request is unfinished and what was sent last is recorded as queried,
  which the tick does not check. `PollingGate.NoGap` holds in any case.
- The same gate can close for good. `PollingStuck.ClosedForGoodIff` is the exact condition for that, in
  every reachable state, and `PollingStuck.FirstBatchLost` shows that a crash during the first batch
  leads there. It can also stop until the next restart: `PollingStuck.StalledIff` is the exact
  condition, and one failed write of the queried record is enough (`PollingStuck.OneFailedRecordStalls`).
- The two paths' backoffs are documented as independent
  (crates/retry/src/backoff_pair_iterator.rs:6-12). The second path's comes from the first
  path's delay of the same turn, not from its own previous one.

## Model

| member | source | states |
|---|---|---|
| `GcpRelay.InvNext` | crates/amplifier-subscriber/src/lib.rs:68-139 | each step of any subscriber, failed, late or crashed ones included, keeps: the cursor, and every cursor that a subscriber has read, is covered by what was published |
| `GcpRelay.CursorCoverage` | crates/infrastructure/src/gcp/publisher.rs:246-286 | in every state of every run of any number of interleaved subscribers: if Redis holds id c, all tasks of the log up to and including c are on the topic, even after the cursor has moved backwards |
| `GcpRelay.PageCovers` | crates/amplifier-subscriber/src/lib.rs:110-128 | once all messages of a page are on the topic, the page's tasks are covered whichever of them the sort has left last |
| `GcpPublisher.Topic.PublishBulk` | crates/infrastructure/src/gcp/publisher.rs:145-150 | a bulk reaches the topic message by message, in the order of arrival |
| `GcpPublisher.Topic.PublishBatch` | crates/infrastructure/src/gcp/publisher.rs:131-173 | Ok with all ids exactly if every handle confirms; all messages are handed over before the first handle is awaited, so a failed batch leaves what did arrive; an empty batch is Ok |
| `GcpPublisher.PeekableGcpPublisher.PublishBatch` | crates/infrastructure/src/gcp/publisher.rs:259-286 | the cursor becomes the batch's last id only if the batch is not empty and every message was confirmed; Ok exactly if the cursor write succeeded too |
| `GcpPublisher.Subscriber.Subscribe` | crates/amplifier-subscriber/src/lib.rs:68-139 | one call: its exact effect on topic and cursor for every combination of faults, its result, and that the relay's steps lead there |
| `GcpPublisher.SubscribeSteps` | crates/amplifier-subscriber/src/lib.rs:72-128 | the call's effect is a run peek, fetch, land ..., confirm, upsert or abandon of the relay |
| `GcpPublisher.CleanSubscribe` | crates/amplifier-subscriber/src/lib.rs:82-128 | a fault-free call with limit L publishes the next min(L, remaining) tasks once each and moves the cursor to the last of the sorted batch |
| `GcpPublisher.CatchUp` | crates/amplifier-subscriber/src/lib.rs:82-128 | k fault-free calls with limit L take the cursor from position c to min(N, c + k * L) of a log of length N and publish each task in between exactly once |
| `TaskLog.SortRestores` | crates/amplifier-subscriber/src/lib.rs:110-111 | the unstable sort gives back a permuted page whose timestamps strictly increase in its original order |
| `TaskLog.SortRestoresIff` | crates/amplifier-subscriber/src/lib.rs:110-111 | every result of the unstable sort is the page in log order if and only if the page's timestamps strictly increase |
| `TaskLog.SortKeepsLastIff` | crates/amplifier-subscriber/src/lib.rs:110-111 | the id that becomes the cursor is always that of the page's last task if and only if no other task of the page has reached its timestamp |
| `TaskLog.Sort` | crates/amplifier-subscriber/src/lib.rs:111 | a sorted permutation of any page exists |
| `NatsRelay.InvNext` | crates/infrastructure/src/nats/publisher.rs:45-110 | each step, duplicates, failed publishes that arrive later and crashes included, keeps: every id stored or on its way is a task of the log whose predecessors are all stored |
| `NatsRelay.StreamIsDownwardClosed` | crates/infrastructure/src/nats/publisher.rs:66-110 | for any number of subscribers the set of stored task positions is downward closed in every reachable state, and only tasks of the log are stored |
| `NatsRelay.ExactNext` | crates/infrastructure/src/nats/publisher.rs:66-110 | with one subscriber each step keeps the stream equal to a prefix of the log, and the server never has to drop a duplicate |
| `NatsRelay.SoleStreamIsPrefix` | crates/infrastructure/src/nats/publisher.rs:66-110 | with one subscriber, whose failed publishes have arrived or vanished before the next peek, the stream is a prefix of the log: no gap, no repeat, in order, without the duplicate window |
| `NatsTies.SkipsIff` | crates/infrastructure/src/nats/publisher.rs:66-110 | for every log: some run of one subscriber leaves a task unstored behind a stored later one for good if and only if the log's timestamps do not strictly increase |
| `NatsTies.SkippedForGood` | crates/infrastructure/src/nats/publisher.rs:98-110 | a task that the stream's last message has passed is never stored, whatever any number of subscribers do |
| `NatsTies.TieSkips` | crates/infrastructure/src/nats/publisher.rs:66-110 | two tasks that tie, or are out of order, a publish that fails after the later one, and the next peek are enough |
| `NatsPublisher.JetStream.PublishBatch` | crates/infrastructure/src/nats/publisher.rs:66-77 | messages go one by one; the first that is not acknowledged ends the batch, and the stream has grown by exactly the stored ones up to it; on Ok there is one acknowledgement for each message, in order |
| `NatsPublisher.Subscriber.Subscribe` | crates/amplifier-subscriber/src/lib.rs:68-139 | one call: its exact effect on the stream, its result, and that the relay's steps lead there |
| `NatsPublisher.SubscribeSteps` | crates/amplifier-subscriber/src/lib.rs:72-128 | the call's effect is a run of the relay |
| `PollingGate.InvNext` | crates/relayer-amplifier-api-integration/src/from_amplifier.rs:39-144 | each step of ticks, overlapping, late or failing requests, downstream and restarts keeps: cursors are covered by what was handled, queued tasks are in order, requests continue from what is handled or queued |
| `PollingGate.NoGap` | crates/relayer-amplifier-api-integration/src/from_amplifier.rs:39-144 | in every reachable state all tasks up to the processed record have been handled, and for each task on the channel its predecessors are handled, in the hands of downstream, or ahead of it |
| `PollingOnce.SpawnSafeIff` | crates/relayer-amplifier-api-integration/src/from_amplifier.rs:92-123 | the exact condition for sending each task once: for a process whose spawns since its restart were safe and that is about to pass the gate, no later state repeats a task, further spawns being safe, if and only if this spawn is: no request is unfinished, and the last task sent is recorded as queried |
| `PollingOnce.ExactlyOnce` | crates/relayer-amplifier-api-integration/src/from_amplifier.rs:103-142 | as long as all spawns are safe, whatever fails and however late answers come, the tasks sent since a restart are one contiguous piece of the log right after the restart's cursor, none missing or repeated, and those handled are an initial part of them in order |
| `PollingOnce.UnsafeSpawnRepeats` | crates/relayer-amplifier-api-integration/src/from_amplifier.rs:48-63 | every unsafe spawn has a continuation without fault, restart or further spawn in which a task is sent twice: the other request is still waiting, has pushed a part of its page, or has failed after pushing |
| `PollingOnce.SecondTickUnsafe` | crates/relayer-amplifier-api-integration/src/from_amplifier.rs:48-63 | unsafe spawns happen: after every restart with an open gate the second tick can pass it while the first request is on its way |
| `PollingOnce.SerialIsExact` | crates/relayer-amplifier-api-integration/src/from_amplifier.rs:103-142 | if each request ends, its record included, before the next tick, all spawns are safe and each task is sent once |
| `PollingOnce.ExactReached` | crates/relayer-amplifier-api-integration/src/from_amplifier.rs:103-142 | what every state of such a run keeps about the sent piece, the channel, the two records and the one unfinished request |
| `PollingStuck.ClosedForGoodIff` | crates/relayer-amplifier-api-integration/src/from_amplifier.rs:103-113 | the exact condition, in every reachable state, for no run from it, restarts included, to handle a task ever again: nothing was ever processed, something is recorded as queried, and nothing is on its way |
| `PollingStuck.StartClosedIff` | crates/relayer-amplifier-api-integration/src/from_amplifier.rs:39-42 | no run from a start handles another task if and only if a queried record has survived without a processed one |
| `PollingStuck.ClosedForGood` | crates/relayer-amplifier-api-integration/src/from_amplifier.rs:103-113 | a state in which that has come to pass stays so in every run, and no restart changes it |
| `PollingStuck.StalledIff` | crates/relayer-amplifier-api-integration/src/from_amplifier.rs:92-144 | the exact condition, in every reachable state, for no run from it without a restart to handle a task: nothing is left to be handled, and no processed record that a tick has read or can come to read is, or is about to be, the queried one |
| `PollingStuck.StalledUntilRestart` | crates/relayer-amplifier-api-integration/src/from_amplifier.rs:92-144 | then nothing is sent either, and the process stays so until its next restart |
| `PollingStuck.QuietStalledIff` | crates/relayer-amplifier-api-integration/src/from_amplifier.rs:110-113 | with nothing on its way at all, no run without a restart handles a task if and only if the two records differ |
| `PollingStuck.OneFailedRecordStalls` | crates/relayer-amplifier-api-integration/src/from_amplifier.rs:141-142 | a run to such a state without a restart, with a processed record: one write of the queried record fails after its page was pushed |
| `PollingStuck.FirstBatchLost` | crates/relayer-amplifier-api-integration/src/from_amplifier.rs:125-144 | a run to a gate closed for good, with the one task of the log unhandled: the process dies after it has recorded its first batch and before the first task of it is processed |
| `Poller.Amplifier.Restarted` | crates/relayer-amplifier-api-integration/src/from_amplifier.rs:39-42 | a start continues from the processed record: the queried record is set to it if there is one |
| `Poller.Amplifier.Internal` | crates/relayer-amplifier-api-integration/src/from_amplifier.rs:92-123 | a tick does nothing unless the channel is empty; then it reads the processed record and the queried one, the others moving on as they may before each read, and spawns one request after the processed record exactly if the two are equal |
| `Poller.Amplifier.ProcessTaskRequest` | crates/relayer-amplifier-api-integration/src/from_amplifier.rs:125-144 | all tasks of the response go on the channel in order before the last one's id is recorded; an empty response records nothing; an error leaves the queried record |
| `Poller.Amplifier.SendAll` | crates/relayer-amplifier-api-integration/src/from_amplifier.rs:141 | the response's tasks are pushed one after the other |
| `EventDelivery.InvNext` | crates/infrastructure/src/gcp/consumer.rs:100-171 | each step of publishing, leases, redelivery, checks, posts, acknowledgements, key writes, failures and crashes keeps the delivery invariant |
| `EventDelivery.AckSoundness` | crates/infrastructure/src/gcp/consumer.rs:116-135 | in every reachable state an acknowledged message, on the duplicate path too, carries an event that the API took, and so does every id that Redis has a key for |
| `EventDelivery.UnackedIsRedeliverable` | crates/infrastructure/src/gcp/consumer.rs:137-145 | in every reachable state a message that is not acknowledged can be delivered once more |
| `EventDelivery.UnackedCanComplete` | crates/infrastructure/src/gcp/consumer.rs:100-135 | and can still be completed: from every reachable state a run leads to its acknowledgement, after a successful post of its event |
| `EventDelivery.DedupWindow` | crates/infrastructure/src/gcp/consumer.rs:128-132 | every successful post of an event comes after a check of its own delivery that no key write of the last 600 seconds precedes; so a second post's check came before the first key write, 600 seconds after it, or it was never written |
| `EventDelivery.CheckIsExact` | crates/infrastructure/src/gcp/consumer.rs:100-106 | in every reachable state the check finds a key if and only if some key write of the id is less than 600 seconds old |
| `EventDelivery.MarkNeedsPost` | crates/infrastructure/src/gcp/consumer.rs:116-132 | a key exists only for an id that was posted with success |
| `GcpConsumer.GcpMessage.AckPositive` | crates/infrastructure/src/gcp/consumer.rs:116-135 | acknowledge, then set the key for 600 seconds: the exact new broker and key state for every fate of the two calls; no key without a reported acknowledgement |
| `GcpConsumer.GcpMessage.MarkProcessed` | crates/infrastructure/src/gcp/consumer.rs:127-132 | the key write's effect and result |
| `GcpConsumer.GcpMessage.AckNegative` | crates/infrastructure/src/gcp/consumer.rs:137-147 | the message goes back to the queue exactly if the call is sent and the delivery still holds the lease; no key changes |
| `GcpConsumer.GcpMessage.AckProgress` | crates/infrastructure/src/gcp/consumer.rs:148-168 | the deadline doubles unless that overflows an i32, whether or not the broker accepts it; the lease runs that much longer exactly if the call is sent while the delivery has it |
| `GcpConsumer.ExtensionsSaturate` | crates/infrastructure/src/gcp/consumer.rs:149-153 | after any number of progress reports the deadline is the first one doubled as often as that, or as often as an i32 allows |
| `GcpConsumer.GcpMessage.OnReceived` | crates/infrastructure/src/gcp/consumer.rs:338-382 | a decoded message is forwarded exactly if the check works and finds no key; a duplicate is acknowledged and not forwarded; a failed check forwards the error and leaves the lease |
| `GcpConsumer.Callback` | crates/infrastructure/src/gcp/consumer.rs:330-391 | the whole callback: a message that cannot be decoded is forwarded as its error, with lease and keys as they were; any other is treated as above |
| `GcpConsumer.GcpMessage.AckDuplicateMessage` | crates/infrastructure/src/gcp/consumer.rs:349-364 | acknowledging a duplicate: its effect, and the error that is forwarded if it fails |
| `GcpConsumer.ProcessQueueMsg` | crates/amplifier-ingester/src/lib.rs:66-119 | a post that succeeds is followed by an acknowledgement, one that fails by giving the message back, with the exact new broker state; the key is written exactly after a successful post and a reported acknowledgement |
| `Retry.RetryPair` | crates/retry/src/retry_pair_fn.rs:42-123 | for all outcomes of the two functions and any limit n the loop with its four flags returns the closed form of the first decisive calls, makes exactly the specified calls with the specified pauses, and never lacks the error that its expects take |
| `Retry.CallsEnd` | crates/retry/src/retry_pair_fn.rs:47-123 | more attempts change neither a result nor the calls behind it |
| `Retry.PairResultStays` | crates/retry/src/retry_pair_fn.rs:47-123 | a success or an abort of both functions is final |
| `RetryCalls.EachCallIs` | crates/retry/src/retry_pair_fn.rs:47-117 | call k of the first function is made at attempt 2k and call k of the second at 2k + 1, in increasing order; its one pause is the rate-limit wait exactly if that function's call before failed with a rate limit and no abort, and the attempt's backoff otherwise |
| `RetryCalls.EachAttemptCalls` | crates/retry/src/retry_pair_fn.rs:47-117 | an attempt makes its call unless an earlier call succeeded, or one of the same function aborted |
| `RetryCalls.NoCallFollows` | crates/retry/src/retry_pair_fn.rs:50-63 | no call follows a success, and none of the same function follows an abort |
| `RetryCalls.SuccessIsResult` | crates/retry/src/retry_pair_fn.rs:63 | a successful call is the last one, and its value is the result |
| `RetryCalls.OkIsLastCall` | crates/retry/src/retry_pair_fn.rs:63 | and a value is only returned so |
| `Retry.LastCallDecides` | crates/retry/src/retry_pair_fn.rs:62-75 | a success is the last call's value, and an abort's error is the last call's, the later one of the two functions' |
| `RetryCalls.AbortsAreResult` | crates/retry/src/retry_pair_fn.rs:64-75 | when a call of each function has aborted, the later one is the last call, and its error is the result |
| `RetryCalls.AbortedNeedsBoth` | crates/retry/src/retry_pair_fn.rs:64-75 | and an abort is only returned so; in all other cases the attempts run out |
| `Retry.CallBounds` | crates/retry/src/retry_pair_fn.rs:47 | of n attempts at most ceil(n / 2) call the first function and at most floor(n / 2) the second |
| `Retry.FirstCount` | crates/retry/src/retry_pair_fn.rs:47-61 | while the result is open the first function has been called at every one of its turns up to its abort |
| `Retry.SecondCount` | crates/retry/src/retry_pair_fn.rs:47-95 | while the result is open the second function has been called at every one of its turns up to its abort |
| `Retry.TotalWait` | crates/retry/src/retry_pair_fn.rs:56-61 | the total sleep is at most the number of calls times the larger of the maximal delay and the rate-limit wait |
| `Retry.PrimaryTurn` | crates/retry/src/retry_pair_fn.rs:49-82 | one turn of the first function: flags, the kept abort error, the call and its pause, and when the loop ends |
| `Retry.SecondaryTurn` | crates/retry/src/retry_pair_fn.rs:83-117 | one turn of the second function |
| `Retry.NextPause` | crates/retry/src/retry_pair_fn.rs:47 | the iterator's k-th step and pause are those of the closed form |
| `Retry.RetryFn` | crates/retry/src/retry_fn.rs:36-57 | the loop of one function: a success is returned and an abort is returned as that, each as the last call; else every attempt makes its call and the result is that they ran out; each call comes after its backoff, and the wait follows each rate-limited one, the last included |
| `Retry.PairOfOne` | crates/retry/src/retry_pair_fn.rs:42-123 | a pair whose second function never decides behaves on 2n attempts as the single loop on n, except that it does not end on an abort |
| `Backoff.BackoffPairIterator.Next` | crates/retry/src/backoff_pair_iterator.rs:52-89 | one step of the iterator: its yield and its new delays |
| `Backoff.Alternates` | crates/retry/src/backoff_pair_iterator.rs:52-89 | steps strictly alternate, the first path first |
| `Backoff.FirstDelayGrowth` | crates/retry/src/backoff_pair_iterator.rs:56-68 | the k-th stored delay of the first path is at most u64::MAX and at most initial * (3 * factor / 2)^k |
| `Backoff.FirstDelayFloor` | crates/retry/src/backoff_pair_iterator.rs:56-68 | for a factor of at least two it never falls below min(initial, u64::MAX / 2) |
| `Backoff.PauseEnvelope` | crates/retry/src/backoff_pair_iterator.rs:52-89 | every pause is the stored delay or the maximal one, whichever is less; the first path's delay starts as the initial one, and each next one lies within the jitter range of the factor times it; the second path's first pause is 0 and each later delay lies within the jitter range of the factor times the first path's |
| `Backoff.DelaysAtTurn` | crates/retry/src/backoff_pair_iterator.rs:52-89 | the second path's delay is drawn anew each turn from the first path's delay |
| `Backoff.Jitter` | crates/retry/src/backoff_pair_iterator.rs:100-108 | a jittered delay is between half and one and a half times the delay |
| `Backoff.JitterReaches` | crates/retry/src/backoff_pair_iterator.rs:100-108 | and can be any integer of that range |
| `Decimal.ParseIff` | crates/amplifier-api/src/big_int.rs:52-55 | parsing accepts exactly the well-formed texts whose value is in the type's range and yields that value; out-of-range texts overflow on their own side |
| `Decimal.LoopComputes` | crates/amplifier-api/src/big_int.rs:75-78 | the checked digit loop yields the digits' value or the overflow of its sign, wherever in the loop that shows |
| `Decimal.PrintParse` | crates/amplifier-api/src/big_int.rs:37-57 | parse(print(v)) = v for every value of the type, the least one included |
| `Decimal.ParseForms` | crates/amplifier-api/src/big_int.rs:52-55 | digits, alone or behind a plus, parse to their value or overflow; behind a minus to its opposite for a signed type, and to an invalid digit for an unsigned one |
| `Decimal.ParseOnlyForms` | crates/amplifier-api/src/big_int.rs:52-55 | nothing but those three forms is accepted |
| `Decimal.PrintIsCanonical` | crates/amplifier-api/src/big_int.rs:13-17 | non-negative values print as 0, or as digits without a leading zero |
| `Decimal.ReprintIff` | crates/amplifier-api/src/big_int.rs:43-57 | a parsed text is what its value prints as exactly if it is canonical; +, leading zeros and -0 are accepted and lost |
| `Texts.AmountLawful` | crates/amplifier-api/src/big_int.rs:65-79 | the Borsh string form of every i128 decodes back, and serializing one never fails |
| `Texts.AmountReads` | crates/amplifier-api/src/big_int.rs:73-79 | an amount is read from exactly the strings that are an i128's decimal text, and written back as the same bytes exactly if that was canonical |
| `Texts.TimestampLawful` | crates/amplifier-api/src/util.rs:12-34 | every time survives, times before 1970 and leap seconds included |
| `Texts.TimestampReads` | crates/amplifier-api/src/util.rs:24-34 | a pair of seconds and nanoseconds is accepted exactly if it is a time |
| `Texts.StrLawful` | crates/amplifier-api/src/types.rs:17 | a string round-trips through its length and bytes, which must be UTF-8 |
| `Texts.StrInjective` | crates/amplifier-api/src/types.rs:17 | different strings have different encodings |
| `Texts.IsUtf8Iff` | crates/amplifier-api/src/types.rs:17 | the bytes accepted as a string are exactly the encodings of sequences of Unicode scalar values |
| `Texts.IdLawful` | crates/amplifier-api/src/types.rs:127 | a task id round-trips as sixteen raw bytes |
| `Texts.UuidTextIs` | crates/amplifier-api/src/types.rs:129-133 | a task id is shown as 32 lower-case hexadecimal digits, two for each byte in order, in groups of 8, 4, 4, 4 and 12 with dashes between them |
| `Texts.UuidTextInjective` | crates/amplifier-api/src/types.rs:129-133 | different task ids have different texts, so that tasks do not share a deduplication id |
| `TxEvents.RoundTrip` | crates/amplifier-api/src/types.rs:63-93 | hash_and_index(new(h, i)) = (h, i) for every hash, dashes included, and every usize |
| `TxEvents.NewIsInjective` | crates/amplifier-api/src/types.rs:63-65 | new is injective |
| `TxEvents.RefusedIff` | crates/amplifier-api/src/types.rs:82-93 | the missing separator is reported exactly if there is no dash; an id is accepted exactly if what follows its last dash is the text of a usize |
| `TxEvents.ReprintIff` | crates/amplifier-api/src/types.rs:82-93 | a parsed id makes the same id again exactly if its index text is canonical |
| `TxEvents.SplitsAtLastDash` | crates/amplifier-api/src/types.rs:83-86 | the split is at the last dash |
| `Borsh.FixedRoundTrip` | crates/amplifier-api/src/util.rs:14-17 | little-endian integers are self-delimiting: decode(encode(v) + rest) = (v, rest) |
| `Borsh.PairLawful` | crates/amplifier-api/src/util.rs:16-17 | pairs of lawful codecs are lawful: encoding succeeds exactly on what fits, and decode(encode(v) + rest) = (v, rest) |
| `Borsh.OptionLawful` | crates/amplifier-api/src/util.rs:43-71 | and for options behind a flag byte, of which only 0 and 1 are accepted |
| `Borsh.VecLawful` | crates/amplifier-api/src/types.rs:333-342 | and for vectors behind a u32 length |
| `Borsh.FixedLawful` | crates/amplifier-api/src/util.rs:14-17 | and for little-endian integers |
| `Layout.WordIs` | crates/amplifier-api/src/util.rs:14-17 | a four-byte number is written with its least significant byte first |
| `Messages.GatewayLawful` | crates/amplifier-api/src/types.rs:420-441 | and for a cross-chain message |
| `Messages.MetadataLawful` | crates/amplifier-api/src/types.rs:238-262 | and for event metadata around any such extra part |
| `Messages.TokenLawful` | crates/amplifier-api/src/types.rs:386-397 | and for a token amount |
| `Messages.EventRoundTrip` | crates/amplifier-api/src/types.rs:788-804 | and for an event of any variant behind its tag, if all variants' codecs are |
| `Messages.EventLawful` | crates/amplifier-api/src/types.rs:788-804 | and so for every event |
| `Layout.EventStartsWithId` | crates/amplifier-api/src/types.rs:807-821 | the id of an event of any variant is the one that its encoding begins with, as the first string behind the tag |
| `Messages.TaskRoundTrip` | crates/amplifier-api/src/types.rs:1100-1111 | and for a task of any variant behind its tag |
| `Messages.TaskItemLawful` | crates/amplifier-api/src/types.rs:1117-1129 | and so for every task item |
| `Limits.EventFitsIff` | crates/amplifier-api/src/types.rs:788-804 | what an event's codec accepts: exactly the events whose strings, byte arrays and lists are no longer than a u32 counts |
| `Limits.TaskItemFits` | crates/amplifier-api/src/types.rs:1117-1129 | and so for a task item |
| `Envelope.EnvelopeRoundTrip` | crates/infrastructure/src/gcp/consumer.rs:60-97 | the consumer reads the publisher's envelope back to the same id, headers and data, for every injected header map, in whatever order the headers are written, whatever bytes follow |
| `Envelope.EventArrives` | crates/infrastructure/src/gcp/consumer.rs:60-97 | for events: the id is the event's own id |
| `Envelope.TaskArrives` | crates/infrastructure/src/gcp/consumer.rs:60-97 | for task items: the id is the text of the task's id |
| `Envelope.EventPublishedIff` | crates/infrastructure/src/gcp/publisher.rs:62-87 | an event is turned into a message exactly if no header and nothing in the event is too long; otherwise the publisher reports a serialization error |
| `Envelope.TaskPublishedIff` | crates/infrastructure/src/gcp/publisher.rs:62-87 | and so for a task item |
| `Envelope.CollectedListing` | crates/infrastructure/src/gcp/util.rs:47-51 | a header map is what its entries collect to, in any order |
| `Envelope.MessageContent.InjectContext` | crates/infrastructure/src/gcp/util.rs:81-85 | the context's headers are set one by one |
| `Envelope.ToPubsubMessage` | crates/infrastructure/src/gcp/publisher.rs:62-87 | the method makes exactly the message whose reading `HeadersArrive` states and whose errors `EventPublishedIff` and `TaskPublishedIff` do |
| `Envelope.HeadersArrive` | crates/infrastructure/src/gcp/publisher.rs:69-71 | the consumer reads from it the deduplication id, the data, the same id under correlation-id whatever the context has there, and else exactly the context's headers, each with the value set last |
| `CommandMachine.InvNext` | crates/relayer-amplifier-api-integration/src/to_amplifier.rs:25-52 | each poll, command, close and ended request keeps: commands are taken in order and none is lost, each request built is in exactly one of running, waiting to be joined, joined, and items emitted = commands taken + requests joined |
| `CommandMachine.EndsIff` | crates/relayer-amplifier-api-integration/src/to_amplifier.rs:42-48 | the stream ends exactly at a poll that finds the channel closed and drained and the join set empty |
| `CommandMachine.WaitsIff` | crates/relayer-amplifier-api-integration/src/to_amplifier.rs:35-50 | a poll waits exactly if there is no command to take and either no request is finished while something can still come, or one is finished and the poll's cooperative budget is used up |
| `CommandMachine.NothingLost` | crates/relayer-amplifier-api-integration/src/to_amplifier.rs:25-52 | when it has ended, all commands sent were taken in order and all requests spawned were joined |
| `CommandMachine.PollTakes` | crates/relayer-amplifier-api-integration/src/to_amplifier.rs:27-34 | in every reachable state a poll that finds a command takes it, yields whether its request could be built, and has the request in the set exactly if so; the other requests stay as they are |
| `CommandMachine.RequestIffBuilt` | crates/relayer-amplifier-api-integration/src/to_amplifier.rs:69-91 | in every run the r-th command taken is the r-th one sent, and its request is running, finished or joined exactly if the poll that took it could build it, which is what that poll yielded |
| `CommandMachine.SetBoundsItems` | crates/relayer-amplifier-api-integration/src/to_amplifier.rs:36-41 | once the channel's end was seen nothing is spawned, whatever still runs has been aborted, every item is a request leaving the set, and the set's size bounds the items to come |
| `CommandMachine.TaskStream.PollNext` | crates/relayer-amplifier-api-integration/src/to_amplifier.rs:25-52 | the poll function's step is a step of the machine: a command's request is spawned exactly if it can be built, and the set is aborted exactly once the channel's end is seen |
| `Supervisor.ClaimsNext` | crates/supervisor/src/lib.rs:66-158 | the exact change of a name's claims (its turn to start, a live thread, its name on the channel, being rebuilt) at every step: only a worker that ends unreported and a report that is dropped take one |
| `Supervisor.InvNext` | crates/supervisor/src/lib.rs:66-158 | each step of the supervisor and of the worker threads keeps the registry invariant |
| `Supervisor.RegistryIsSound` | crates/supervisor/src/lib.rs:126-158 | in every reachable state at most one thread of a name is live, every name on the channel has its builder, the thread that a restart joins has reported its end, so that it has only to return, and before cancellation every name is in the registry, on the channel, or being built |
| `Supervisor.RestartedIff` | README.md:164 | in every run, before cancellation, a configured name has its one claim to another attempt if and only if no worker of it has ended after it had begun to work |
| `Supervisor.ClaimMeans` | crates/supervisor/src/lib.rs:122-158 | a claim without a live thread is the name's turn, its name on the channel, or its build in progress; without a claim there is none of that and no live thread |
| `Supervisor.NeverRestarted` | crates/supervisor/src/lib.rs:219-254 | a worker that has begun to work is never run again in any run, however it ends |
| `Supervisor.SilentFailure` | crates/supervisor/src/lib.rs:250-254 | a run without cancellation in which a worker has failed, nothing is on the channel, and the registry still lists it |
| `Supervisor.Registry.StartWorkers` | crates/supervisor/src/lib.rs:60-79 | the start: exactly the names whose build fails go to the channel, and exactly the others get a thread and its handle in the registry, both in the order of the names, and each name once |
| `Supervisor.Registry.Restart` | crates/supervisor/src/lib.rs:122-158 | a name from the channel: dropped after cancellation, back on the channel after a failed build, else its new handle replaces the old one, whose thread had ended and is joined |
| `ErrorLoops.Run` | crates/amplifier-ingester/src/main.rs:97-116 | for every sequence of outcomes the loop breaks exactly at the first tick that completes max(1, max_errors) errors in a row, and until then its counter is the length of the failing suffix: saturation is never seen |
| `ErrorLoops.SuffixIs` | crates/amplifier-subscriber/src/main.rs:98-117 | the counter is at least m exactly if the last m ticks failed |
| `ErrorLoops.ProcessHealthcheck` | crates/relayer-amplifier-api-integration/src/healthcheck.rs:8-35 | the health check stops exactly at the first tick that completes such a run, or at once at a request without an answer |

## Left out

- HTTP, TLS, KMS, JSON and base64, URL building: wrappers around libraries.
- Telemetry, metrics, logging, `Display` of events, configuration, the health-check server: no state worth a proof.
- The NATS consumer and its key-value store: its redelivery is the server's own, and no key or cursor of the relayer is involved.
- `PeekableGcpPublisher::publish` of a single message: it is the batch of one without the empty case.
- Dead-letter routing and broker internals: Pub/Sub is a backlog with leases, NATS an append-only stream.
- Fairness of the polling component: `PollingStuck` says exactly when a task can still be handled, not that it will be.
- Backoff.Jitter: the floating-point product and its rounding are not modelled; the draw is any integer of the interval.
- Wall-clock sleeps and wake-ups: time is an integer clock, or a sum of pauses.
- The throughput tracker: statistics only.
- Retry.RetryFn: its pauses are a parameter; the exponential backoff behind them is a library's.
- Supervisor.Registry.StartWorkers: the worker threads do not move during the call; their interleaving with the supervisor is in the step system.
- Supervisor.Registry.Restart: likewise, they do not move during the call, but for the joined one's return.
- The loop around the command stream: it logs the items and returns an error at the end.
- Encoding fails before anything is published; the relay counts that as an abandoned call.
- What a message says when it is read from NATS: its data is the Borsh encoding that `Messages` proves self-delimiting, without the envelope.
- The sequence of requests inside one JSON exchange, and its retries: they are one outcome.
