# KvStore client: a Dafny model

This project models the decision logic of the TypeScript client class
`KvStore` (`src/main/kv-store/KvStore.ts`). The class wraps a Consul-style
key/value HTTP API. The model covers three parts:

- **Point operations** `get`, `set` and `delete`. Each maps one response
  (status code, status message, parsed body) to a resolved value or a
  rejection (module `PointOps`).
- **The watch poll loop**. Each time an outstanding poll settles, the handler
  decides whether the caller's sink is invoked and with what, how the retry
  counter and last delivered value change, and what happens next. The next
  step is one of: poll at once with the new modify index, poll after 5000 ms
  with the same block index, poll after 5000 ms with no index, or stop. This
  is the pure step function `WatchStep.Step`, with `WatchStep.Run` feeding
  it a sequence of settled polls. The imperative handler
  `KvClient.Watcher.OnEvent` updates the closure state in place and is
  proved to compute exactly `Step`.
- **The subscription registry** `watchMap`, from key path to observer. It is
  the `watchMap` field of the class `KvClient.KvStore`. `Watch` inserts into
  it, `Ignore` tears down and removes, and the handler tests membership.

Collaborators the code calls but does not define are parameters, bundled in
`WatchStep.Codec`:
- the payload decoder (`Utils.decodeBase64`);
- structural equality (`Utils.deepEqual`), assumed to be an equivalence only
  where a lemma needs symmetry;
- the value the last delivered value starts as, which is JavaScript's
  `undefined`.

The transport is modelled as its result: an `Event` that either resolves
with a `Response` or rejects with a message. Timers are modelled as the
`Action` the step returns. Two facts are inputs of each step: whether the
path is still registered when the response arrives, and what the sink
returns if it is called.

Behaviour of the code worth noting:
- **Rejections after `ignore`.** Only a *resolved* response is discarded once
  the path leaves the registry. A *rejected* poll still runs the retry
  logic: it re-polls, or makes a terminal sink call, after `ignore`.
  `RejectionIgnoresRegistry` and `FailureAfterIgnoreStillReported` show this.
- **Watching a path twice.** The registry entry is overwritten and the first
  loop keeps running. Its responses still find the path registered, because
  the check is by path and not by observer (`RewatchLeavesFirstLoopRunning`).
- **Delivery order.** The code does not enforce delivery in non-decreasing
  modify-index order. Any modify index different from the block index counts
  as new, so ordering rests on the store's own index monotonicity.
- **Malformed 200 response.** A 200 whose envelope has no first element makes
  the read of `metadata[0]` throw inside the resolution handler. The watch
  then takes the rejection path, without clearing the retry counter;
  `get` rejects (`MalformedEnvelope`).

## Model

| member | source | states |
|---|---|---|
| `PointOps.Get` | src/main/kv-store/KvStore.ts:58-68 | 404 and only 404 gives "absent". A 200 succeeds exactly when the envelope has a first element, and yields the decode of that element's payload. Every other status rejects with `statusMessage: body`. |
| `PointOps.Set` | src/main/kv-store/KvStore.ts:154-163 | Resolves exactly on 200 (with the body the store sent) and 404 (with false). Every other status rejects with the status message alone. |
| `PointOps.Delete` | src/main/kv-store/KvStore.ts:173-182 | The same status mapping as `set`. |
| `PointOps.NotFoundIsNotAnError` | src/main/kv-store/KvStore.ts:58-182 | A 404 is never a rejection for any of the three point operations. |
| `PointOps.WriteReturnsStoreFlag` | src/main/kv-store/KvStore.ts:155-156 | When the store answers a 200 with a JSON boolean, `set` and `delete` resolve with that boolean. |
| `PointOps.GetDecodesFirstElement` | src/main/kv-store/KvStore.ts:59-61 | A read returns the decoded payload of the first envelope element, whatever follows it. |
| `WatchStep.Start` | src/main/kv-store/KvStore.ts:82-86 | A new watch starts with zero retries and an undefined last value. Its first poll carries no block index. |
| `WatchStep.Failed` | src/main/kv-store/KvStore.ts:118-137 | A failed poll retries after the delay with no index and one more retry, while retries remain. Once they are spent, it gives the sink a terminal error naming the path and reason, and stops. |
| `WatchStep.Step` | src/main/kv-store/KvStore.ts:90-137 | A resolved response for an unregistered path changes nothing and stops. The retry bound is preserved. The last value changes only by being delivered, and never to an equal value. A delivery hands the sink the decoded payload of the first envelope element and clears retries; the loop polls on at once with the new modify index if the sink returns true, and stops otherwise. A well-formed 200 that is not delivered clears retries and re-polls after the delay with the same block index. A rejection, a status other than 200 or 404, or a 200 without an envelope element is exactly `Failed`, so it re-polls after the delay with no block index while retries remain. A terminal error occurs only once the budget is spent, and stops the loop. |
| `WatchStep.DeliveryCondition` | src/main/kv-store/KvStore.ts:93-103 | The sink receives a value exactly when all of these hold: the path is registered, a well-formed 200 arrives, its modify index differs from the block index, and its decoded value is not equal to the last delivered value. |
| `WatchStep.UnchangedIndexWaits` | src/main/kv-store/KvStore.ts:99-106 | A 200 whose modify index equals the block index does not call the sink. It clears retries and re-polls after the delay with the same index. |
| `WatchStep.EqualValueWaits` | src/main/kv-store/KvStore.ts:99-106 | A 200 with a new modify index whose value equals the last delivered one does not call the sink. It clears retries and re-polls after the delay with the same block index, not at once. |
| `WatchStep.NotFoundIsSilent` | src/main/kv-store/KvStore.ts:110-116 | A 404 never calls the sink. It re-polls with no index and one more retry while retries remain, and otherwise stops. |
| `WatchStep.RejectionIgnoresRegistry` | src/main/kv-store/KvStore.ts:129-137 | A rejected poll is handled identically whether or not the path is still registered. |
| `WatchStep.StaleResponseEndsWatch` | src/main/kv-store/KvStore.ts:90-91 | After a resolved response for an unregistered path, the run is over. There is no sink call, retries and last value are unchanged, and nothing is polled. |
| `WatchStep.Run` | src/main/kv-store/KvStore.ts:86-141 | The self-recursive poll loop: each settled poll is handed to the handler while a poll is outstanding. Once the loop has stopped it consumes nothing and calls nothing, and each settled poll makes at most one sink call. |
| `WatchStep.RunKeepsRetryBound` | src/main/kv-store/KvStore.ts:112-133 | Over any run, the retry counter stays within 0 and `maxRetries`. With a negative budget it stays at 0. |
| `WatchStep.ErrorEndsTheRun` | src/main/kv-store/KvStore.ts:118-137 | In any run, every sink call except possibly the last is a value delivery. A terminal error is therefore delivered at most once, and nothing is polled after it. |
| `WatchStep.DeliveriesNeverRepeat` | src/main/kv-store/KvStore.ts:99-103 | In any run, the first delivery differs from the previous last value, and no delivery equals the one before it. |
| `WatchStep.ConsecutiveDeliveriesDiffer` | src/main/kv-store/KvStore.ts:99-103 | With `deepEqual` an equivalence, two successive sink calls that are both deliveries are unequal in both argument orders. Only the last call in a run can be an error. |
| `WatchStep.FailuresExhaustRetries` | src/main/kv-store/KvStore.ts:118-137 | From k failures, `maxRetries - k + 1` more failing polls produce exactly one sink call. That call is the terminal error carrying the last failure's reason, and afterwards nothing is polled. |
| `WatchStep.NotFoundExhaustsRetries` | src/main/kv-store/KvStore.ts:110-116 | The same number of 404s produces no sink call at all, and then stops. This is the asymmetry with error exhaustion. |
| `KvClient.KvStore.constructor` | src/main/kv-store/KvStore.ts:25-35 | The registry starts empty. The retry budget is the argument, which defaults to 5. |
| `KvClient.Observer.Destroy` | src/main/kv-store/KvStore.ts:75 | Tearing down the observer marks it destroyed; the rest of its internals is not modelled. |
| `KvClient.KvStore.Ignore` | src/main/kv-store/KvStore.ts:72-78 | Exactly the path's entry is removed. If it was present, its observer is destroyed; if it was absent, nothing changes. |
| `KvClient.KvStore.Watch` | src/main/kv-store/KvStore.ts:80-146 | A fresh observer is registered under the path, overwriting any entry. The old observer is left untouched, so it is not destroyed. The new watch is in its start state. |
| `KvClient.Watcher.constructor` | src/main/kv-store/KvStore.ts:82-86 | The closure state starts at zero retries and an undefined value, with the first poll outstanding and no index. |
| `KvClient.Watcher.OnEvent` | src/main/kv-store/KvStore.ts:86-137 | The in-place handler's sink call, next action and new state are exactly `WatchStep.Step` applied to the old state. Registration is read from the store's `watchMap`. The retry bound is kept. |
| `KvClient.Watcher.HandleFailure` | src/main/kv-store/KvStore.ts:129-137 | The shared retry-or-fail branch updates the counter exactly as `WatchStep.Failed` says. |
| `KvClient.IgnoredWatchDiscardsResponse` | src/main/kv-store/KvStore.ts:72-91 | After `ignore`, a resolved response for the watch makes no sink call and stops the loop, and the observer has been destroyed. |
| `KvClient.RewatchLeavesFirstLoopRunning` | src/main/kv-store/KvStore.ts:91-144 | After a second `watch` on the same path, the first loop still sees the path registered and retries a 404. Its observer is never destroyed. |
| `KvClient.FailureAfterIgnoreStillReported` | src/main/kv-store/KvStore.ts:129-137 | With a zero budget, a rejected poll after `ignore` still delivers the terminal error. |

## Left out

- HTTP transport, request builders and option merging (`ConsulClient.send`, `getRequest`/`updateRequest`/`deleteRequest`, `Utils.deepMerge`, the default addresses): foreign I/O. A response enters the model only as an `Event`.
- `setTimeout` and the 5000 ms delay: a timer. It is the `RetryLater` action (the delay is the constant `RetryDelayMillis`).
- `Utils.decodeBase64` and `Utils.deepEqual`: library code that is not part of this model. They are the `Codec` parameters. Decoding is assumed not to throw.
- Exceptions thrown by the caller's sink, or by the decoder, inside the resolution handler. At run time these would also reach the rejection handler; the model lets the sink only return a boolean.
- The internals of `Observer`: only "destroyed or not" is kept. When the producer (the first `_watch()`) starts is not modelled; a new watch is taken to have its first poll outstanding.
- `logger.error` calls: logging with no effect on the logic.
- Promise sequencing and interleavings: only their effect through the registry membership test at the time a response resolves is modelled, as the `registered` input of a step.
- PointOps.Get: a 200 whose body is plain text is treated like one with no envelope element (`MalformedEnvelope`). At run time, string indexing would instead read an undefined `Value`. The watch handler treats that case the same way.
- PointOps.Set: the cast `res.body as boolean` is a static assertion only, so the model resolves with the parsed body itself instead of promising a boolean.
- PointOps.Delete: the same unchecked `as boolean` cast as `set`, so it also resolves with the parsed body.
- KvClient.KvStore.constructor: the retry budget is an unbounded integer, while the source takes a JavaScript number. A fractional, NaN or infinite budget changes the `numRetries < this.maxRetries` tests (a budget of 2.5 allows three retries, NaN none, Infinity retries forever); such budgets are not modelled.
- WatchStep.EnvelopeFault: the reason in the terminal error after a 200 with no envelope element is the JavaScript runtime's own TypeError message, which depends on the engine; the model fixes current V8's wording.
- WatchStep.Step: a 200 whose body is a non-empty string is treated as a failed poll (through `Failed`), but at run time it does not throw: `"x"[0].ModifyIndex` is undefined and the retry counter is cleared. With no block index the source then re-polls after the delay; with a block index it may deliver the decode of an undefined payload and poll at once with no index. The model can instead report a terminal error the source never sends once the budget is spent.
