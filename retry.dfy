/** The retry policy and the routing of a response (bashtasks/executor.py,
    `should_retry` and `send_response`), and what handling one delivery
    publishes, message by message and across a whole chain of requeues. */
module Retry {
  import opened Values
  import opened Broker
  import opened Envelope

  /** A message as `send_response` publishes it. */
  datatype Outgoing = Outgoing(exchange: Exchange, body: Body)

  /** `should_retry`: retry when the return code is not 0, is not listed in
      `non_retriable`, and `retries` (0 when absent) is below `max_retries`
      (the worker's default when absent). All three parts are evaluated,
      so a missing key or an incomparable pair raises. */
  function ShouldRetry(resp: Body, workerMaxRetries: Value): (r: Result<bool>)
    ensures "returncode" !in resp ==> r == Err(KeyError("returncode"))
    ensures "returncode" in resp && "non_retriable" !in resp ==> r == Err(KeyError("non_retriable"))
    ensures r.Ok? <==> "returncode" in resp && "non_retriable" in resp
                       && PyIn(resp["returncode"], resp["non_retriable"]).Ok?
                       && PyLess(Get(resp, "retries", Int(0)), Get(resp, "max_retries", workerMaxRetries)).Ok?
    ensures r == Ok(true) <==>
              && "returncode" in resp && !PyEq(resp["returncode"], Int(0))
              && "non_retriable" in resp && PyIn(resp["returncode"], resp["non_retriable"]) == Ok(false)
              && PyLess(Get(resp, "retries", Int(0)), Get(resp, "max_retries", workerMaxRetries)) == Ok(true)
  {
    if "returncode" !in resp then Err(KeyError("returncode"))
    else
      var isError := !PyEq(resp["returncode"], Int(0));
      var returncode := resp["returncode"];
      if "non_retriable" !in resp then Err(KeyError("non_retriable"))
      else
        var listed :- PyIn(returncode, resp["non_retriable"]);
        var isRetriable := !listed;
        var currentRetries := Get(resp, "retries", Int(0));
        var msgMaxRetries := Get(resp, "max_retries", workerMaxRetries);
        var retriesPending :- PyLess(currentRetries, msgMaxRetries);
        Ok(isError && isRetriable && retriesPending)
  }

  /** The retry decision on a request written the usual way (integer return
      code, a list of integer non-retriable codes, integer counters): retry
      iff the code is not 0, is not listed, and retries remain. Success and
      listed codes are never retried, whatever the budget. */
  lemma ShouldRetryOnIntegers(resp: Body, code: int, nonRetriable: seq<int>, retries: int, maxRetries: int, workerMaxRetries: Value)
    requires "returncode" in resp && resp["returncode"] == Int(code)
    requires "non_retriable" in resp && resp["non_retriable"] == IntList(nonRetriable)
    requires Get(resp, "retries", Int(0)) == Int(retries)
    requires Get(resp, "max_retries", workerMaxRetries) == Int(maxRetries)
    ensures ShouldRetry(resp, workerMaxRetries) == Ok(code != 0 && code !in nonRetriable && retries < maxRetries)
  {
    IntInIntList(code, nonRetriable);
  }

  /** `send_response` without the publish itself: where the response goes
      and with which body. A retry first evaluates the debug line's
      arguments `correlation_id`, `retries` and `max_retries` (raising
      KeyError on the first that is absent, whatever the log level), then
      goes to the requests pool (not to the queue the worker consumes) with
      `retries` one higher; anything else goes to the responses pool
      unchanged. */
  function Route(resp: Body, workerMaxRetries: Value): (r: Result<Outgoing>)
    ensures ShouldRetry(resp, workerMaxRetries).Err? ==> r == Err(ShouldRetry(resp, workerMaxRetries).error)
    ensures ShouldRetry(resp, workerMaxRetries) == Ok(true) && "correlation_id" !in resp
            ==> r == Err(KeyError("correlation_id"))
    ensures ShouldRetry(resp, workerMaxRetries) == Ok(true) && "correlation_id" in resp && "retries" !in resp
            ==> r == Err(KeyError("retries"))
    ensures ShouldRetry(resp, workerMaxRetries) == Ok(true) && "correlation_id" in resp && "retries" in resp
              && "max_retries" !in resp
            ==> r == Err(KeyError("max_retries"))
    ensures ShouldRetry(resp, workerMaxRetries) == Ok(true) && "correlation_id" in resp && "retries" in resp
              && "max_retries" in resp && AsNumber(resp["retries"]).None?
            ==> r == Err(TypeError)
    ensures r.Err? <==> ShouldRetry(resp, workerMaxRetries).Err?
                        || (ShouldRetry(resp, workerMaxRetries) == Ok(true)
                            && ("correlation_id" !in resp || "retries" !in resp || "max_retries" !in resp
                                || AsNumber(resp["retries"]).None?))
    ensures r.Ok? ==> (r.value.exchange == TaskRequestsPool <==> ShouldRetry(resp, workerMaxRetries) == Ok(true))
    ensures r.Ok? ==> r.value.body.Keys == resp.Keys
    ensures r.Ok? ==> forall k :: k in resp && k != "retries" ==> r.value.body[k] == resp[k]
    ensures r.Ok? && r.value.exchange == TaskRequestsPool ==>
              r.value.body["retries"] == Int(AsNumber(resp["retries"]).value + 1)
    ensures r.Ok? && r.value.exchange == TaskResponsesPool ==> r.value.body == resp
  {
    var retry :- ShouldRetry(resp, workerMaxRetries);
    if retry then
      var _ :- Lookup(resp, "correlation_id");
      var current :- Lookup(resp, "retries");
      var _ :- Lookup(resp, "max_retries");
      var bumped :- PyAddOne(current);
      Ok(Outgoing(TaskRequestsPool, resp["retries" := bumped]))
    else Ok(Outgoing(TaskResponsesPool, resp))
  }

  /** A response without its own `max_retries` is never requeued: the
      worker default can decide a retry, but the debug line after it then
      raises on the missing field before anything is published. */
  lemma WorkerDefaultNeverRequeues(resp: Body, workerMaxRetries: Value)
    requires "max_retries" !in resp
    ensures Route(resp, workerMaxRetries).Ok? ==> Route(resp, workerMaxRetries).value.exchange == TaskResponsesPool
  {
  }

  /** The publish that handling one delivery ends in, or the exception it
      raises instead: admission, one attempt, then `send_response`. */
  function Hop(inbound: Inbound, env: Env, workerMaxRetries: Value): (r: Result<Outgoing>)
    ensures Admit(inbound).Err? ==> r == Err(Admit(inbound).error)
    ensures Admit(inbound).Ok? ==> r == Route(Attempt(Admit(inbound).value, env), workerMaxRetries)
    ensures Admit(inbound).Ok? && "non_retriable" !in Admit(inbound).value ==> r == Err(KeyError("non_retriable"))
    ensures r.Ok? ==> r.value.body["correlation_id"] == inbound.doc.fields["correlation_id"]
    ensures r.Ok? ==> r.value.body["command"] == inbound.doc.fields["command"]
    ensures r.Ok? ==> r.value.body["returncode"] == Int(ReturnCode(env.outcome))
  {
    var msg :- Admit(inbound);
    IdentityKeysNotStamped();
    Route(Attempt(msg, env), workerMaxRetries)
  }

  /** The worker's own `max_retries` is never consulted through
      `handle_message`: `create_response_for` always writes the key. */
  lemma WorkerDefaultNeverConsulted(inbound: Inbound, env: Env, d1: Value, d2: Value)
    ensures Hop(inbound, env, d1) == Hop(inbound, env, d2)
  {
  }

  /** A command that exits 0 is finalized with `retries` as the request
      had it (0 when absent), whatever its budget. */
  lemma SuccessFinalizes(inbound: Inbound, env: Env, workerMaxRetries: Value)
    requires env.outcome.Completed? && env.outcome.code == 0
    requires Hop(inbound, env, workerMaxRetries).Ok?
    ensures Hop(inbound, env, workerMaxRetries).value.exchange == TaskResponsesPool
    ensures Hop(inbound, env, workerMaxRetries).value.body["retries"] == Get(inbound.doc.fields, "retries", Int(0))
  {
  }

  /** A return code listed in `non_retriable` is finalized at once with
      `retries` unchanged, however much budget is left. */
  lemma NonRetriableFinalizes(inbound: Inbound, env: Env, workerMaxRetries: Value)
    requires Admit(inbound).Ok? && "non_retriable" in inbound.doc.fields
    requires PyIn(Int(ReturnCode(env.outcome)), inbound.doc.fields["non_retriable"]) == Ok(true)
    requires Hop(inbound, env, workerMaxRetries).Ok?
    ensures Hop(inbound, env, workerMaxRetries).value.exchange == TaskResponsesPool
    ensures Hop(inbound, env, workerMaxRetries).value.body["retries"] == Get(inbound.doc.fields, "retries", Int(0))
  {
    IdentityKeysNotStamped();
    var resp := Attempt(inbound.doc.fields, env);
    assert resp["non_retriable"] == inbound.doc.fields["non_retriable"];
    assert ShouldRetry(resp, workerMaxRetries) == Ok(false);
  }

  /** A failure of a raising callback is routed like any failing return
      code: the same publish as a callback that returned the sentinel. */
  lemma RaisedRoutedLikeSentinel(inbound: Inbound, name: string, pre: int, repr: string, post: int, workerMaxRetries: Value)
    ensures Hop(inbound, Env(name, pre, Raised(repr), post), workerMaxRetries)
         == Hop(inbound, Env(name, pre, Completed(SentinelReturnCode, ExceptionStdout, repr), post), workerMaxRetries)
  {
    if Admit(inbound).Ok? {
      RaisedIsSentinelCompletion(Admit(inbound).value, name, pre, repr, post);
    }
  }

  /** The publishes of one task across redeliveries, for any handler
      `step` taking a delivered body and the number of the hop: the body
      published to the requests pool is the next delivery; the chain ends at
      the first publish to the responses pool, at the first exception, or
      when `fuel` deliveries have been made. */
  function Chain(step: (Body, nat) -> Result<Outgoing>, body: Body, hop: nat, fuel: nat): (out: seq<Outgoing>)
    ensures |out| <= fuel
    ensures forall k :: 0 <= k < |out| - 1 ==> out[k].exchange == TaskRequestsPool
    ensures |out| > 0 ==> step(body, hop) == Ok(out[0])
    decreases fuel
  {
    if fuel == 0 then []
    else
      match step(body, hop)
      case Err(_) => []
      case Ok(o) =>
        [o] + (if o.exchange == TaskRequestsPool then Chain(step, o.body, hop + 1, fuel - 1) else [])
  }

  /** The executor's handler as a chain step: a requeued body is delivered
      again as the same JSON object (the round trip through `json.dumps` and
      `json.loads` loses nothing), under the environment of that hop. */
  function Redelivery(env: nat -> Env, workerMaxRetries: Value): (Body, nat) -> Result<Outgoing>
  {
    (b: Body, h: nat) => Hop(Decoded(Obj(b)), env(h), workerMaxRetries)
  }

  /** The callback outcome fails with a code that may be retried. */
  predicate FailsRetriably(o: CommandOutcome, nonRetriable: Value)
  {
    ReturnCode(o) != 0 && PyIn(Int(ReturnCode(o)), nonRetriable) == Ok(false)
  }

  /** `b` is a delivery of the task identified by `cid`, `cmd` and `nr`,
      with budget `maxRetries`, that has been retried `done` times. */
  predicate TaskAt(b: Body, done: nat, maxRetries: nat, cid: Value, cmd: Value, nr: Value)
  {
    && "correlation_id" in b && b["correlation_id"] == cid
    && "command" in b && b["command"] == cmd && (cmd.Arr? || cmd.Str?)
    && "non_retriable" in b && b["non_retriable"] == nr
    && Get(b, "retries", Int(0)) == Int(done)
    && "max_retries" in b && b["max_retries"] == Int(maxRetries)
  }

  /** What one hop of a retriably failing task publishes. */
  predicate RetriedOrFinalized(r: Result<Outgoing>, done: nat, maxRetries: nat, cid: Value, cmd: Value, nr: Value)
  {
    && r.Ok?
    && r.value.exchange == (if done < maxRetries then TaskRequestsPool else TaskResponsesPool)
    && TaskAt(r.value.body, if done < maxRetries then done + 1 else done, maxRetries, cid, cmd, nr)
  }

  /** One delivery of a task that fails retriably: requeued with `retries`
      one higher while retries remain, finalized with `retries` unchanged
      once they are used up; the identifying fields are carried over. */
  lemma RetriableHop(b: Body, e: Env, workerMaxRetries: Value, done: nat, maxRetries: nat, cid: Value, cmd: Value, nr: Value)
    requires TaskAt(b, done, maxRetries, cid, cmd, nr) && done <= maxRetries
    requires FailsRetriably(e.outcome, nr)
    ensures RetriedOrFinalized(Hop(Decoded(Obj(b)), e, workerMaxRetries), done, maxRetries, cid, cmd, nr)
  {
    assert Admit(Decoded(Obj(b))).Ok?;
    IdentityKeysNotStamped();
    var resp := Attempt(b, e);
    assert resp["returncode"] == Int(ReturnCode(e.outcome));
    assert resp["non_retriable"] == nr;
    assert ShouldRetry(resp, workerMaxRetries) == Ok(done < maxRetries);
    RouteWithIntegerRetries(resp, workerMaxRetries, done, done < maxRetries);
  }

  /** Routing a response whose `correlation_id`, `retries` and
      `max_retries` are all present, with an int `retries`, once the retry
      decision is known: requeued with `retries` one higher, or finalized
      unchanged. */
  lemma RouteWithIntegerRetries(resp: Body, workerMaxRetries: Value, done: int, retry: bool)
    requires "correlation_id" in resp && "max_retries" in resp
    requires "retries" in resp && resp["retries"] == Int(done)
    requires ShouldRetry(resp, workerMaxRetries) == Ok(retry)
    ensures Route(resp, workerMaxRetries)
         == Ok(if retry then Outgoing(TaskRequestsPool, resp["retries" := Int(done + 1)])
               else Outgoing(TaskResponsesPool, resp))
  {
  }

  /** Any chain whose every hop requeues a task with retries left and
      finalizes it otherwise: `maxRetries - done` requeues with `retries`
      counting up, then one final publish with `retries == maxRetries`. */
  lemma {:induction false} ChainFrom(step: (Body, nat) -> Result<Outgoing>, b: Body, hop: nat, fuel: nat,
                                     done: nat, maxRetries: nat, cid: Value, cmd: Value, nr: Value)
    requires TaskAt(b, done, maxRetries, cid, cmd, nr) && done <= maxRetries
    requires forall b', h: nat, j: nat {:trigger TaskAt(b', j, maxRetries, cid, cmd, nr), step(b', h)} ::
               TaskAt(b', j, maxRetries, cid, cmd, nr) && j <= maxRetries ==>
               RetriedOrFinalized(step(b', h), j, maxRetries, cid, cmd, nr)
    requires fuel > maxRetries - done
    ensures var c := Chain(step, b, hop, fuel);
            && |c| == maxRetries - done + 1
            && (forall k :: 0 <= k < maxRetries - done ==> c[k].exchange == TaskRequestsPool)
            && c[maxRetries - done].exchange == TaskResponsesPool
            && (forall k :: 0 <= k < |c| ==>
                  TaskAt(c[k].body, if k < maxRetries - done then done + k + 1 else maxRetries, maxRetries, cid, cmd, nr))
    decreases maxRetries - done
  {
    var r := step(b, hop);
    assert RetriedOrFinalized(r, done, maxRetries, cid, cmd, nr);
    var c := Chain(step, b, hop, fuel);
    if done < maxRetries {
      var rest := Chain(step, r.value.body, hop + 1, fuel - 1);
      assert c == [r.value] + rest;
      ChainFrom(step, r.value.body, hop + 1, fuel - 1, done + 1, maxRetries, cid, cmd, nr);
    } else {
      assert c == [r.value];
    }
  }

  /** Under an environment whose every callback fails retriably, every hop
      of the executor's handler requeues or finalizes as `ChainFrom` needs. */
  lemma RedeliveryRetriesOrFinalizes(env: nat -> Env, workerMaxRetries: Value, maxRetries: nat, cid: Value, cmd: Value, nr: Value)
    requires forall h: nat :: FailsRetriably(env(h).outcome, nr)
    ensures forall b', h: nat, j: nat {:trigger TaskAt(b', j, maxRetries, cid, cmd, nr), Redelivery(env, workerMaxRetries)(b', h)} ::
              TaskAt(b', j, maxRetries, cid, cmd, nr) && j <= maxRetries ==>
              RetriedOrFinalized(Redelivery(env, workerMaxRetries)(b', h), j, maxRetries, cid, cmd, nr)
  {
    forall b', h: nat, j: nat | TaskAt(b', j, maxRetries, cid, cmd, nr) && j <= maxRetries
      ensures RetriedOrFinalized(Redelivery(env, workerMaxRetries)(b', h), j, maxRetries, cid, cmd, nr)
    {
      RetriableHop(b', env(h), workerMaxRetries, j, maxRetries, cid, cmd, nr);
    }
  }

  /** A task with `max_retries = m`, no retries yet, and a command that keeps
      failing with a retriable code is requeued exactly m times, with
      `retries` 1, 2, ..., m, and then finalized once with `retries == m`;
      `correlation_id`, `command` and `non_retriable` are the same on every
      hop. */
  lemma RetryExhaustion(req: Body, env: nat -> Env, workerMaxRetries: Value, maxRetries: nat, fuel: nat)
    requires Admit(Decoded(Obj(req))).Ok? && "non_retriable" in req
    requires Get(req, "retries", Int(0)) == Int(0)
    requires "max_retries" in req && req["max_retries"] == Int(maxRetries)
    requires forall h: nat :: FailsRetriably(env(h).outcome, req["non_retriable"])
    requires fuel > maxRetries
    ensures var c := Chain(Redelivery(env, workerMaxRetries), req, 0, fuel);
            && |c| == maxRetries + 1
            && (forall k :: 0 <= k < maxRetries ==> c[k].exchange == TaskRequestsPool)
            && c[maxRetries].exchange == TaskResponsesPool
            && (forall k :: 0 <= k < |c| ==>
                  TaskAt(c[k].body, if k < maxRetries then k + 1 else maxRetries, maxRetries,
                         req["correlation_id"], req["command"], req["non_retriable"]))
  {
    var step := Redelivery(env, workerMaxRetries);
    var cid, cmd, nr := req["correlation_id"], req["command"], req["non_retriable"];
    assert TaskAt(req, 0, maxRetries, cid, cmd, nr);
    RedeliveryRetriesOrFinalizes(env, workerMaxRetries, maxRetries, cid, cmd, nr);
    ChainFrom(step, req, 0, fuel, 0, maxRetries, cid, cmd, nr);
  }
}
