/** The first-generation executor (src/executor.py, `handle_command_request`):
    run the request's command, answer on the responses pool with a fixed
    ten-field record, ack. There is no retry and no task budget. */
module Legacy {
  import opened Values
  import opened Broker
  import opened Envelope

  /** The request fields the response copies, in the order the dict literal
      looks them up. */
  const CopiedKeys: set<string> := {"correlation_id", "reply_to", "command", "request_ts"}
  /** Every field of a legacy response. */
  const LegacyResponseKeys: set<string> :=
    CopiedKeys + {"pre_command_ts", "post_command_ts", "returncode", "executor_name", "stdout", "stderr"}

  /** `msg[u'command']` on the decoded body, before anything is spawned. */
  function CommandOf(inbound: Inbound): (r: Result<Value>)
    ensures r.Ok? <==> inbound.Decoded? && inbound.doc.Obj? && "command" in inbound.doc.fields
    ensures r.Ok? ==> r.value == inbound.doc.fields["command"]
    ensures inbound.Malformed? ==> r == Err(DecodeError)
    ensures inbound.Decoded? && !inbound.doc.Obj? ==> r == Err(TypeError)
    ensures inbound.Decoded? && inbound.doc.Obj? && "command" !in inbound.doc.fields ==> r == Err(KeyError("command"))
  {
    match inbound
    case Malformed => Err(DecodeError)
    case Decoded(doc) =>
      if !doc.Obj? then Err(TypeError)
      else if "command" !in doc.fields then Err(KeyError("command"))
      else Ok(doc.fields["command"])
  }

  /** The `response_msg` literal for a command that exited with `code`
      after printing `out` and `err`. Its entries are evaluated in order, so
      the first of the four copied request fields that is missing is the
      KeyError raised. */
  function LegacyResponse(msg: Body, hostname: string, preTs: int, postTs: int, code: int, out: string, err: string)
    : (r: Result<Body>)
    ensures r.Ok? <==> CopiedKeys <= msg.Keys
    ensures "correlation_id" !in msg ==> r == Err(KeyError("correlation_id"))
    ensures "correlation_id" in msg && "reply_to" !in msg ==> r == Err(KeyError("reply_to"))
    ensures "correlation_id" in msg && "reply_to" in msg && "command" !in msg ==> r == Err(KeyError("command"))
    ensures "correlation_id" in msg && "reply_to" in msg && "command" in msg && "request_ts" !in msg
            ==> r == Err(KeyError("request_ts"))
    ensures r.Ok? ==> r.value.Keys == LegacyResponseKeys
    ensures r.Ok? ==> forall k :: k in CopiedKeys ==> r.value[k] == msg[k]
    ensures r.Ok? ==> r.value["pre_command_ts"] == Int(preTs) && r.value["post_command_ts"] == Int(postTs)
    ensures r.Ok? ==> r.value["returncode"] == Int(code) && r.value["executor_name"] == Str(hostname)
    ensures r.Ok? ==> r.value["stdout"] == Str(out) && r.value["stderr"] == Str(err)
  {
    var correlationId :- Lookup(msg, "correlation_id");
    var replyTo :- Lookup(msg, "reply_to");
    var command :- Lookup(msg, "command");
    var requestTs :- Lookup(msg, "request_ts");
    Ok(map["correlation_id" := correlationId, "reply_to" := replyTo, "command" := command,
           "request_ts" := requestTs, "pre_command_ts" := Int(preTs), "post_command_ts" := Int(postTs),
           "returncode" := Int(code), "executor_name" := Str(hostname), "stdout" := Str(out),
           "stderr" := Str(err)])
  }

  /** What one call of `handle_command_request` ends with: the response it
      publishes, or the exception that escapes it. */
  function LegacyHandle(inbound: Inbound, env: Env): (r: Result<Body>)
    ensures CommandOf(inbound).Err? ==> r == Err(CommandOf(inbound).error)
    ensures CommandOf(inbound).Ok? && env.outcome.Raised? ==> r == Err(Uncaught(env.outcome.repr))
    ensures CommandOf(inbound).Ok? && env.outcome.Completed?
            ==> r == LegacyResponse(inbound.doc.fields, env.executorName, env.preTs, env.postTs,
                                    env.outcome.code, env.outcome.out, env.outcome.err)
    ensures r.Ok? <==> CommandOf(inbound).Ok? && env.outcome.Completed? && CopiedKeys <= inbound.doc.fields.Keys
    ensures r.Ok? ==> inbound.Decoded? && inbound.doc.Obj? && CopiedKeys <= inbound.doc.fields.Keys
                      && r.value.Keys == LegacyResponseKeys
  {
    var _ :- CommandOf(inbound);
    match env.outcome
    case Raised(repr) => Err(Uncaught(repr))
    case Completed(code, out, err) =>
      LegacyResponse(inbound.doc.fields, env.executorName, env.preTs, env.postTs, code, out, err)
  }

  /** Its effects on channel `chan`: the command is spawned once the
      `command` lookup succeeds; a response is published (not persistent) and
      the delivery acked only when nothing raised. */
  function LegacyEffects(chan: nat, deliveryTag: nat, inbound: Inbound, env: Env): (effects: seq<Event>)
    ensures CommandOf(inbound).Err? ==> effects == []
    ensures CommandOf(inbound).Ok? ==> |effects| >= 1 && effects[0] == RunCommand(CommandOf(inbound).value)
    ensures CommandOf(inbound).Ok? ==> (|effects| == 3 <==> LegacyHandle(inbound, env).Ok?)
    ensures CommandOf(inbound).Ok? ==> (|effects| == 1 <==> LegacyHandle(inbound, env).Err?)
  {
    match CommandOf(inbound)
    case Err(_) => []
    case Ok(command) =>
      [RunCommand(command)]
      + (match LegacyHandle(inbound, env)
         case Ok(resp) => [Publish(chan, TaskResponsesPool, resp, false), Ack(chan, deliveryTag)]
         case Err(_) => [])
  }

  /** `handle_command_request(ch, method, properties, body)` */
  method HandleCommandRequest(trace: Trace, chan: nat, deliveryTag: nat, inbound: Inbound, env: Env)
    returns (r: Result<Body>)
    modifies trace
    ensures r == LegacyHandle(inbound, env)
    ensures trace.events == old(trace.events) + LegacyEffects(chan, deliveryTag, inbound, env)
  {
    var command := CommandOf(inbound);
    if command.Err? {
      return Err(command.error);
    }
    trace.Record(RunCommand(command.value));
    if env.outcome.Raised? {
      return Err(Uncaught(env.outcome.repr));
    }
    r := LegacyResponse(inbound.doc.fields, env.executorName, env.preTs, env.postTs,
                        env.outcome.code, env.outcome.out, env.outcome.err);
    assert r == LegacyHandle(inbound, env);
    if r.Err? {
      return;
    }
    trace.Record(Publish(chan, TaskResponsesPool, r.value, false));
    trace.Record(Ack(chan, deliveryTag));
  }

  /** A handled request is answered with its own `correlation_id`,
      `reply_to`, `command` and `request_ts`, and the response holds exactly
      the ten legacy fields: `retries`, `max_retries`, `non_retriable` and any
      other request field are dropped. */
  lemma LegacyResponseCarriesIdentityOnly(inbound: Inbound, env: Env)
    requires LegacyHandle(inbound, env).Ok?
    ensures var resp := LegacyHandle(inbound, env).value;
            && resp.Keys == LegacyResponseKeys
            && (forall k :: k in CopiedKeys ==> resp[k] == inbound.doc.fields[k])
            && "retries" !in resp && "max_retries" !in resp && "non_retriable" !in resp
            && resp["returncode"] == Int(env.outcome.code)
  {
    assert CommandOf(inbound).Ok? && env.outcome.Completed?;
    var resp := LegacyResponse(inbound.doc.fields, env.executorName, env.preTs, env.postTs,
                               env.outcome.code, env.outcome.out, env.outcome.err);
    assert LegacyHandle(inbound, env) == resp;
    UnstampedKeysDropped();
  }

  /** Distinctness of the literal field names: no retry bookkeeping field is
      a legacy response field. */
  lemma UnstampedKeysDropped()
    ensures "retries" !in LegacyResponseKeys && "max_retries" !in LegacyResponseKeys
    ensures "non_retriable" !in LegacyResponseKeys
  {
  }

  /** The legacy handler never requeues: whatever the return code, every
      publish it makes goes to the responses pool, unpersisted, on its own
      channel; and it publishes exactly once and then acks this delivery,
      or, when anything raised, neither publishes nor acks. */
  lemma LegacyPublishOnceThenAck(chan: nat, deliveryTag: nat, inbound: Inbound, env: Env)
    ensures var es := LegacyEffects(chan, deliveryTag, inbound, env);
            && (forall k :: 0 <= k < |es| && es[k].Publish? ==> es[k] == Publish(chan, TaskResponsesPool, es[k].body, false))
            && (LegacyHandle(inbound, env).Ok? ==>
                  && |es| == 3 && es[0].RunCommand?
                  && es[1] == Publish(chan, TaskResponsesPool, LegacyHandle(inbound, env).value, false)
                  && es[2] == Ack(chan, deliveryTag))
            && (LegacyHandle(inbound, env).Err? ==> forall k :: 0 <= k < |es| ==> es[k].RunCommand?)
  {
    var es := LegacyEffects(chan, deliveryTag, inbound, env);
    match CommandOf(inbound)
    case Err(_) =>
      assert es == [];
    case Ok(command) =>
      match LegacyHandle(inbound, env)
      case Ok(resp) =>
        assert es == [RunCommand(command), Publish(chan, TaskResponsesPool, resp, false), Ack(chan, deliveryTag)];
      case Err(_) =>
        assert es == [RunCommand(command)];
  }

  /** A request holding the four copied fields whose command completes is
      answered: the command runs, the ten-field record built from this
      request, the clock readings, the host name and the command's output is
      published to the responses pool, and the delivery is acked. */
  lemma {:induction false} WellFormedRequestIsAnswered(chan: nat, deliveryTag: nat, request: Body, env: Env)
    requires CopiedKeys <= request.Keys && env.outcome.Completed?
    ensures var resp := LegacyResponse(request, env.executorName, env.preTs, env.postTs,
                                       env.outcome.code, env.outcome.out, env.outcome.err);
            && resp.Ok?
            && LegacyHandle(Decoded(Obj(request)), env) == resp
            && LegacyEffects(chan, deliveryTag, Decoded(Obj(request)), env)
               == [RunCommand(request["command"]), Publish(chan, TaskResponsesPool, resp.value, false),
                   Ack(chan, deliveryTag)]
  {
    var inbound := Decoded(Obj(request));
    assert "command" in CopiedKeys;
    assert CommandOf(inbound) == Ok(request["command"]);
  }

  /** A request that lacks `reply_to` still has its command run, but the
      handler then raises while building the response: nothing is published
      and the delivery stays unacked. */
  lemma MissingReplyToRunsButNeverAnswers(chan: nat, deliveryTag: nat, request: Body, env: Env)
    requires "command" in request && "reply_to" !in request && env.outcome.Completed?
    ensures LegacyHandle(Decoded(Obj(request)), env).Err?
    ensures "correlation_id" in request ==> LegacyHandle(Decoded(Obj(request)), env) == Err(KeyError("reply_to"))
    ensures LegacyEffects(chan, deliveryTag, Decoded(Obj(request)), env) == [RunCommand(request["command"])]
  {
    var inbound := Decoded(Obj(request));
    assert CommandOf(inbound) == Ok(request["command"]);
    assert LegacyHandle(inbound, env)
        == LegacyResponse(request, env.executorName, env.preTs, env.postTs,
                          env.outcome.code, env.outcome.out, env.outcome.err);
  }
}
