# bashtasks executor: a Dafny model

bashtasks runs shell commands on a pool of workers behind a RabbitMQ broker.
A producer publishes a task request to the requests pool. A worker consumes
it, runs the command, and answers on the responses pool. If the command
failed and the task still has retries left, the worker instead requeues the
task on the requests pool with `retries` one higher. Each worker has a
budget of tasks. When one worker's budget reaches 0, it closes every
worker's channel and sets the pool's stop flag.

This project models the executor side of that protocol as sequential Dafny:

- `values.dfy` (module `Values`): decoded JSON values and message bodies
  (maps from field name to value), Python's exceptions as a `Result`, and the
  Python 3 operators the executor applies to message fields (`==`, `<`,
  `in`, `+= 1`, `dict.get`, `m[key]`).
- `broker.dfy` (module `Broker`): the two exchanges and one ordered trace of
  the effects a handler has: command runs, publishes (with their
  persistence flag), acks, budget steps, channel close attempts and the stop
  flag being set.
- `envelope.dfy` (module `Envelope`): admitting a delivery
  (`json.loads`, the `correlation_id` lookup and the `command` slice, all
  outside the `try`), `create_response_for`, and one attempt, including the
  sentinel response written when the command callback raises.
- `retry.dfy` (module `Retry`): `should_retry` and the routing half of
  `send_response`; one handled delivery as a function; the chain of
  redeliveries of one task, and its exhaustion after exactly `max_retries`
  requeues.
- `budget.dfy` (module `Budget`): `tasks_nr_generator` as a counter object,
  and its closed form.
- `shutdown.dfy` (module `Shutdown`): the process-wide channel registry and
  stop flag as a class; `channels.append`, `stop_ampq_channels` and
  `stop_and_exit`.
- `executor.dfy` (module `Executor`): one worker as a class built by
  `start_executor`. It holds `send_response` with its publish and
  `handle_message` as an ordered sequence of effects, plus the two-worker
  scenario in which one exhausted budget stops every worker.
- `legacy.dfy` (module `Legacy`): the first-generation handler
  `handle_command_request` of `src/executor.py`, which has a fixed
  ten-field response and no retry.

The environment of a handled message is a parameter (`Envelope.Env`). It
holds the executor name, the two clock readings and what the command
callback did: returned `(code, out, err)`, or raised an exception with a
given `repr`. Close failures during shutdown are given as the set of
channel indices whose `close()` raises. A requeued body is redelivered as
the same JSON object; the model takes the `json.dumps`/`json.loads` round
trip as the identity.

Three behaviours of the code shape the contracts:

- `create_response_for` always writes `max_retries` (0 when the request has
  none), so the worker default in `should_retry` is never reached through
  `handle_message` (`Retry.WorkerDefaultNeverConsulted`). Even when a
  response without `max_retries` reaches `send_response`, the retry branch's
  debug line subscripts the field and raises, so the worker default can
  never cause a requeue (`Retry.WorkerDefaultNeverRequeues`).
- `should_retry` subscripts `non_retriable`, so a request without it raises
  `KeyError` after its command has run. Then nothing is published and
  nothing is acked, even when the command succeeded (`Retry.Hop`).
- The executor never reads `reply_to`. The legacy handler subscripts it
  and raises only after the command has run
  (`Legacy.MissingReplyToRunsButNeverAnswers`).

## Model

| member | source | states |
|---|---|---|
| Values.Lookup | src/executor.py:33-36 | Subscripting a body yields the field when present and raises KeyError naming the key otherwise |
| Values.Get | src/bashtasks/executor.py:93-94 | `dict.get` is the subscript with its KeyError replaced by the default |
| Values.AsNumber | src/bashtasks/executor.py:90 | The numeric value Python gives an int or a bool (bool is a subclass of int), and none for any other value |
| Values.PyEq | src/bashtasks/executor.py:90 | Python `==`: numbers (bool as int) by value, str by content, None only equal to None, a str never equal to a non-str |
| Values.PyEqReflexive | src/bashtasks/executor.py:92 | Every decoded value is `==` to itself, so a code listed in `non_retriable` is found |
| Values.PyIn | src/bashtasks/executor.py:92 | Python `in`: a list is searched with Python equality; None, bool and int containers raise TypeError; a str container is searched for a substring (`IsSubstring`), a dict by key |
| Values.IntInIntList | src/bashtasks/executor.py:92 | For an int code and a list of int codes, Python membership is plain membership |
| Values.PyLess | src/bashtasks/executor.py:95 | Python `<` compares numbers (bool as int) by value and raises TypeError when either side is None; two str compare code point by code point (`StrLess`), two lists at their first unequal pair (`SeqLess`), and any other pairing, such as a number and a str, raises TypeError |
| Values.PyAddOne | src/bashtasks/executor.py:104 | `+= 1` succeeds exactly on an int or bool and yields the int one higher |
| Envelope.ReturnCode | src/bashtasks/executor.py:147-155 | The response return code is the callback's code, or -3791 when the callback raised |
| Envelope.CreateResponseFor | src/bashtasks/executor.py:81-87 | Keeps every request key and every value apart from the three stamped ones; sets `executor_name`; sets `retries` and `max_retries` to the request's value or 0 |
| Envelope.Admit | src/bashtasks/executor.py:137-139 | A delivery is handled iff it decodes to a JSON object with `correlation_id` and a sliceable `command`; otherwise DecodeError for undecodable bytes, TypeError for a body that is not an object, KeyError on `correlation_id` and then on `command` in lookup order, and TypeError for a `command` that cannot be sliced |
| Envelope.Attempt | src/bashtasks/executor.py:140-157 | The response holds the request's keys plus the stamped and execution keys, carries every unstamped request field unchanged, and records timestamps, code and output; when the callback raised, code -3791, the fixed stdout text and the exception's repr |
| Envelope.RaisedIsSentinelCompletion | src/bashtasks/executor.py:151-157 | A raising callback gives exactly the response of a callback that returned -3791, the fixed stdout text and the repr |
| Retry.ShouldRetry | src/bashtasks/executor.py:89-96 | Retry iff the code is not 0, is not in `non_retriable`, and `retries` (default 0) is below `max_retries`; a missing `returncode` or `non_retriable`, or an incomparable pair, raises |
| Retry.ShouldRetryOnIntegers | src/bashtasks/executor.py:89-96 | On integer fields the decision is exactly `code != 0 && code !in nonRetriable && retries < maxRetries` |
| Retry.Route | src/bashtasks/executor.py:98-112 | The target is the requests pool iff `should_retry` holds; a retry first raises KeyError on the first of `correlation_id`, `retries`, `max_retries` that is absent, and TypeError on a non-numeric `retries`; a retry has `retries` one higher; a final response is unchanged; no other field is altered; the decision's errors propagate |
| Retry.WorkerDefaultNeverRequeues | src/bashtasks/executor.py:94-104 | A response without its own `max_retries` is never requeued: a retry decided by the worker default raises on the debug line's `max_retries` lookup |
| Retry.Hop | src/bashtasks/executor.py:136-164 | One handled delivery publishes the routed attempt; admission errors and a missing `non_retriable` raise; the published body keeps `correlation_id`, `command` and the attempt's return code |
| Retry.WorkerDefaultNeverConsulted | src/bashtasks/executor.py:86-94 | The worker-level `max_retries` never changes what a handled delivery publishes |
| Retry.SuccessFinalizes | src/bashtasks/executor.py:89-106 | A command exiting 0 is finalized with `retries` as the request had it |
| Retry.NonRetriableFinalizes | src/bashtasks/executor.py:92-106 | A listed return code is finalized at once with `retries` unchanged |
| Retry.RaisedRoutedLikeSentinel | src/bashtasks/executor.py:151-164 | A raising callback is routed by the same rule as a callback returning -3791 |
| Retry.RetriableHop | src/bashtasks/executor.py:89-106 | A retriably failing delivery with `retries = j <= max_retries` is requeued with `j + 1` while `j < max_retries` and finalized with `j` otherwise, keeping its identifying fields |
| Retry.Chain | src/bashtasks/executor.py:98-112 | Across redeliveries of one task, every publish but the last goes back to the requests pool, the first is the outcome of the first hop, and at most `fuel` deliveries are made |
| Retry.RouteWithIntegerRetries | src/bashtasks/executor.py:98-112 | With the debug line's three fields present and an int `retries`, a retry publishes the response with `retries` one higher to the requests pool and a final response goes unchanged to the responses pool |
| Retry.RetryExhaustion | src/bashtasks/executor.py:81-106 | A task with `max_retries = m`, no retries and a command that keeps failing retriably is requeued exactly m times with `retries` 1..m, then finalized once with `retries == m`, with the same `correlation_id`, `command` and `non_retriable` on every hop; a requeued body is redelivered as the same JSON object (`Redelivery`) |
| Budget.RemainingClosedForm | src/bashtasks/executor.py:114-118 | The k-th value is `n - k` down to 0 and then 0 for a positive start, and the start itself for a start at or below 0 |
| Budget.Step | src/bashtasks/executor.py:117 | One loop pass never raises the counter, keeps it unchanged exactly when it is at or below 0, and never takes a non-negative counter below 0 |
| Budget.Remaining | src/bashtasks/executor.py:114-118 | The k-th yielded value never exceeds the start, is never negative from a non-negative start, and equals a start at or below 0 |
| Budget.PositiveBudgetStopsAfterN | src/bashtasks/executor.py:114-118 | From n > 0 the budget never goes negative and is 0 exactly from the n-th message on |
| Budget.NonPositiveBudgetIsConstant | src/bashtasks/executor.py:114-118 | From n <= 0 the budget never moves, so 0 stops at the first message and a negative budget never stops |
| Budget.TaskBudget.constructor | src/bashtasks/executor.py:115 | The counter starts at `tasks_nr` with nothing taken |
| Budget.TaskBudget.Next | src/bashtasks/executor.py:116-118 | Each `next()` yields the closed-form value for one more message taken |
| Shutdown.AfterClosing | src/bashtasks/executor.py:189-198 | After a stop pass, closed channels stay closed, open channels whose close does not raise are closed, and channels whose close raises are unchanged; none is removed |
| Shutdown.CloseEvents | src/bashtasks/executor.py:189-198 | A stop pass makes no more close attempts than there are registered channels, and each is on a registered channel |
| Shutdown.CloseAttemptAt | src/bashtasks/executor.py:192-196 | Each close attempt is on a channel that was open, and it raised exactly when that channel's close throws |
| Shutdown.CloseEventsAreTheOpenChannels | src/bashtasks/executor.py:189-198 | Close is attempted only on open channels, once per open channel, in registry order |
| Shutdown.NothingOpenNothingClosed | src/bashtasks/executor.py:192 | A registry with no open channel gets no close attempt |
| Shutdown.SecondStopChangesNothing | src/bashtasks/executor.py:201-206 | After a stop has closed every channel, another stop attempts no close and changes no channel |
| Shutdown.Registry.constructor | src/bashtasks/executor.py:21-22 | The registry starts empty, with `stop` false |
| Shutdown.Registry.Register | src/bashtasks/executor.py:76 | Appends one open channel and returns its index, leaving `stop` alone |
| Shutdown.Registry.StopAmqpChannels | src/bashtasks/executor.py:186-198 | The registry becomes `AfterClosing` of the old one, the close attempts are traced in order, and `stop` is unchanged |
| Shutdown.Registry.StopAndExit | src/bashtasks/executor.py:201-206 | All close attempts come first; then `stop` is set, as the last effect |
| Executor.HandleEffectsOrder | src/bashtasks/executor.py:158-174 | When a handler publishes, it publishes once and persistently, then acks its delivery tag, then steps the budget once; it stops only, and then last, when the step yields 0; when it raises, nothing is published, acked or stopped |
| Executor.IsOkReturncode | src/bashtasks/executor.py:78-79 | A code is ok iff it occurs in `ok_returncodes`; with the default `(0,)` iff it is 0 |
| Executor.HandleEffects | src/bashtasks/executor.py:136-174 | Nothing happens when admission raises; otherwise the command runs first; a raising `send_response` leaves only the run; a successful one is followed by the persistent publish |
| Executor.FinishEffects | src/bashtasks/executor.py:165-174 | After the publish: the ack of this delivery, one budget step, then only close attempts and the stop, and the stop iff the step yields 0, as the last effect |
| Executor.Worker.Start | src/bashtasks/executor.py:65-76 | A worker registers its channel as open at the next index and starts its budget at `tasks_nr` |
| Executor.Worker.SendResponse | src/bashtasks/executor.py:98-112 | Publishes exactly what `Retry.Route` decides, once, persistently, on the worker's own channel, or nothing when routing raises (including the retry branch's KeyErrors) |
| Executor.Worker.Finish | src/bashtasks/executor.py:165-174 | Acks, steps the budget, and runs `stop_and_exit` exactly when the step yields 0 |
| Executor.Worker.HandleMessage | src/bashtasks/executor.py:136-174 | Publishes what `Hop` gives, whatever `ok_returncodes` holds; traces exactly the ordered effects above; traces the messages iff verbose or the code is not ok; touches neither budget nor registry when it raises |
| Executor.BudgetOfOneStopsEveryWorker | src/bashtasks/executor.py:172-174 | With two workers on budgets of one, one handled message closes both channels and sets `stop` |
| Legacy.CommandOf | src/executor.py:23-26 | The command lookup fails on a body that does not decode, is not an object, or lacks `command` |
| Legacy.LegacyResponse | src/executor.py:32-43 | The response has exactly the ten legacy fields, copies the four request fields, and records timestamps, code, host and output; the first missing copied field raises KeyError |
| Legacy.LegacyHandle | src/executor.py:21-49 | The handler raises what the command lookup raises, the collaborator's exception when spawning fails, and otherwise the `response_msg` record `LegacyResponse` builds from the request, host name, clock readings and the command's output; it returns a response iff the lookup succeeds, the command completes and the request holds all four copied fields |
| Legacy.LegacyEffects | src/executor.py:21-49 | Nothing happens when the command lookup fails; otherwise the command runs first, followed by publish and ack (three effects) iff no exception escaped, and by nothing otherwise |
| Legacy.HandleCommandRequest | src/executor.py:21-49 | The handler's result and trace are the legacy response and its effects: run, then publish (not persistent) to the responses pool, then ack |
| Legacy.LegacyResponseCarriesIdentityOnly | src/executor.py:32-43 | A legacy response echoes `correlation_id`, `reply_to`, `command` and `request_ts` and drops `retries`, `max_retries` and `non_retriable` |
| Legacy.LegacyPublishOnceThenAck | src/executor.py:48-49 | Whatever the return code, every legacy publish goes to the responses pool; a handled request publishes once and then acks the same delivery; a raising one neither publishes nor acks |
| Legacy.WellFormedRequestIsAnswered | src/executor.py:21-49 | A request holding `correlation_id`, `reply_to`, `command` and `request_ts` whose command completes has its command run, then its ten-field record published to the responses pool, then its delivery acked |
| Legacy.MissingReplyToRunsButNeverAnswers | src/executor.py:26-34 | Without `reply_to` the command still runs, then KeyError escapes: no publish, no ack |

## Left out

- Threads, daemon workers and the `while not stop: sleep(1)` wait loop of `start_executors` and of the legacy `__main__`: the registry and the stop flag are modelled sequentially, one handler call at a time.
- Signal handlers: `stop_and_exit` is called directly instead.
- `subprocess.Popen`, `communicate` and the UTF-8 decoding of command output: the callback's outcome is a parameter. A decoding failure counts as a raised callback in the executor, and is not modelled in the legacy handler.
- The pika connection, `connect_and_declare`, `basic_qos`, `basic_consume` and `start_consuming`: only publishes and acks are modelled, as trace events. A publish or ack on a channel that is already closed is not modelled.
- The routing key (always empty) and every message property except persistence.
- `json.dumps` and `json.loads` as an encoding: bodies are maps, a malformed body is a distinct input, and floats are not among the values.
- Clocks, the host name, the process id and thread names: they are parameters.
- Logging, and `trace_msg` with its `sys.exit(777)`: `Executor.Worker.HandleMessage` only reports whether the messages would be traced.
- `queue` is kept on the worker only for the consume call, which is not modelled.
- Shutdown.Registry.StopAmqpChannels: a `close()` that raises is taken to leave that channel as it was; pika's internal state after a failed close is not modelled.
- Envelope.Admit: a `command` that is a JSON object raises TypeError when sliced, as before Python 3.12, where slices became hashable and the error is KeyError.
- Executor.Worker.HandleMessage: the values a custom callback returns are taken to be an int return code and str `out` and `err` (`Envelope.CommandOutcome`). A callback that returns bytes for `out` or `err` would make `json.dumps` in `send_response` (src/bashtasks/executor.py:108) raise TypeError, so nothing would be published or acked; the model does not represent that case.
- src/execute_task.py, src/bashtasks/pika_assertions.py and setup.py are not part of this model.
