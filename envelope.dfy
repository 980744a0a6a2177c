/** The task envelope on the executor side: what a handler accepts as a
    request, and the response it builds from the request and one attempt to
    run its command (bashtasks/executor.py, `create_response_for` and the
    try/except block of `handle_message`). */
module Envelope {
  import opened Values

  /** `returncode` written when the command callback raises. */
  const SentinelReturnCode: int := -3791
  /** `stdout` written when the command callback raises. */
  const ExceptionStdout: string := "Exception trying to execute command."

  /** The fields `create_response_for` writes over the copied request. */
  const StampedKeys: set<string> := {"executor_name", "retries", "max_retries"}
  /** The fields one execution attempt adds. */
  const ExecutionKeys: set<string> := {"pre_command_ts", "post_command_ts", "returncode", "stdout", "stderr"}

  /** What the command callback did: returned `(code, out, err)` or raised an
      exception whose `repr` is given. */
  datatype CommandOutcome = Completed(code: int, out: string, err: string) | Raised(repr: string)

  /** Everything one handled message takes from its environment: the
      executor's name, the two clock readings and the callback's outcome. */
  datatype Env = Env(executorName: string, preTs: int, outcome: CommandOutcome, postTs: int)

  /** A delivery as the consumer receives it: either its body does not decode
      (bad UTF-8 or bad JSON) or it decodes to some JSON value. */
  datatype Inbound = Malformed | Decoded(doc: Value)

  /** The return code the response carries for an outcome. */
  function ReturnCode(o: CommandOutcome): (c: int)
    ensures o.Raised? ==> c == SentinelReturnCode
    ensures o.Completed? ==> c == o.code
  {
    match o
    case Completed(code, _, _) => code
    case Raised(_) => SentinelReturnCode
  }

  /** `create_response_for`: a copy of the request, stamped with the
      executor's name, whose `retries` and `max_retries` are the request's
      own or 0. */
  function CreateResponseFor(msg: Body, executorName: string): (resp: Body)
    ensures resp.Keys == msg.Keys + StampedKeys
    ensures forall k :: k in msg && k !in StampedKeys ==> resp[k] == msg[k]
    ensures resp["executor_name"] == Str(executorName)
    ensures resp["retries"] == (if "retries" in msg then msg["retries"] else Int(0))
    ensures resp["max_retries"] == (if "max_retries" in msg then msg["max_retries"] else Int(0))
  {
    msg["executor_name" := Str(executorName)]
       ["retries" := Get(msg, "retries", Int(0))]
       ["max_retries" := Get(msg, "max_retries", Int(0))]
  }

  /** The lines of `handle_message` before its `try`: decode the body, then
      look up `correlation_id` and slice `command` for the debug log line.
      Each of these raises out of the handler. */
  function Admit(inbound: Inbound): (r: Result<Body>)
    ensures r.Ok? <==> inbound.Decoded? && inbound.doc.Obj? && "correlation_id" in inbound.doc.fields
                       && "command" in inbound.doc.fields
                       && (inbound.doc.fields["command"].Arr? || inbound.doc.fields["command"].Str?)
    ensures r.Ok? ==> r.value == inbound.doc.fields
    ensures inbound.Malformed? ==> r == Err(DecodeError)
    ensures inbound.Decoded? && !inbound.doc.Obj? ==> r == Err(TypeError)
    ensures inbound.Decoded? && inbound.doc.Obj? && "correlation_id" !in inbound.doc.fields
            ==> r == Err(KeyError("correlation_id"))
    ensures inbound.Decoded? && inbound.doc.Obj? && "correlation_id" in inbound.doc.fields
              && "command" !in inbound.doc.fields
            ==> r == Err(KeyError("command"))
    ensures inbound.Decoded? && inbound.doc.Obj? && "correlation_id" in inbound.doc.fields
              && "command" in inbound.doc.fields
              && !(inbound.doc.fields["command"].Arr? || inbound.doc.fields["command"].Str?)
            ==> r == Err(TypeError)
  {
    match inbound
    case Malformed => Err(DecodeError)
    case Decoded(doc) =>
      if !doc.Obj? then Err(TypeError)
      else if "correlation_id" !in doc.fields then Err(KeyError("correlation_id"))
      else if "command" !in doc.fields then Err(KeyError("command"))
      else if !(doc.fields["command"].Arr? || doc.fields["command"].Str?) then Err(TypeError)
      else Ok(doc.fields)
  }

  /** The `try`/`except` block of `handle_message`: the response to `msg`
      after one attempt that ended as `env.outcome`. */
  function Attempt(msg: Body, env: Env): (resp: Body)
    ensures resp.Keys == msg.Keys + StampedKeys + ExecutionKeys
    ensures forall k :: k in msg && k !in StampedKeys + ExecutionKeys ==> resp[k] == msg[k]
    ensures resp["executor_name"] == Str(env.executorName)
    ensures resp["retries"] == Get(msg, "retries", Int(0))
    ensures resp["max_retries"] == Get(msg, "max_retries", Int(0))
    ensures resp["pre_command_ts"] == Int(env.preTs) && resp["post_command_ts"] == Int(env.postTs)
    ensures resp["returncode"] == Int(ReturnCode(env.outcome))
    ensures env.outcome.Completed? ==> resp["stdout"] == Str(env.outcome.out) && resp["stderr"] == Str(env.outcome.err)
    ensures env.outcome.Raised? ==> resp["stdout"] == Str(ExceptionStdout) && resp["stderr"] == Str(env.outcome.repr)
  {
    var started := CreateResponseFor(msg, env.executorName)["pre_command_ts" := Int(env.preTs)];
    match env.outcome
    case Completed(code, out, err) =>
      started["post_command_ts" := Int(env.postTs)]["returncode" := Int(code)]
             ["stdout" := Str(out)]["stderr" := Str(err)]
    case Raised(repr) =>
      started["post_command_ts" := Int(env.postTs)]["returncode" := Int(SentinelReturnCode)]
             ["stdout" := Str(ExceptionStdout)]["stderr" := Str(repr)]
  }

  /** The fields a producer writes to identify a task are none of the
      fields a response stamps on it. */
  lemma IdentityKeysNotStamped()
    ensures forall k :: k in {"correlation_id", "command", "non_retriable"} ==> k !in StampedKeys + ExecutionKeys
  {
  }

  /** A raising callback yields exactly the response of a callback that
      returned the sentinel code, the fixed stdout text and the exception's
      repr, so nothing downstream can tell the two apart. */
  lemma RaisedIsSentinelCompletion(msg: Body, name: string, pre: int, repr: string, post: int)
    ensures Attempt(msg, Env(name, pre, Raised(repr), post))
         == Attempt(msg, Env(name, pre, Completed(SentinelReturnCode, ExceptionStdout, repr), post))
  {
  }
}
