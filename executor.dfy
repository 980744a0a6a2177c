/** One executor worker (bashtasks/executor.py, `start_executor` and the
    closures it defines): its channel, its configuration, its task budget,
    and `handle_message` as an ordered sequence of effects on the shared
    registry. */
module Executor {
  import opened Values
  import opened Broker
  import opened Envelope
  import opened Retry
  import opened Budget
  import opened Shutdown

  /** `is_ok_returncode`: whether a return code counts as success for the
      verbose trace. It plays no part in routing. */
  function IsOkReturncode(okReturncodes: seq<int>, code: int): (ok: bool)
    ensures ok <==> exists i :: 0 <= i < |okReturncodes| && okReturncodes[i] == code
    ensures okReturncodes == [0] ==> (ok <==> code == 0)
  {
    code in okReturncodes
  }

  /** The effects of handling one delivery on channel `chan`, given what
      admission gave, what `send_response` decided, and the budget's value
      and the registry before it: nothing if admission raised; the command
      run alone if `send_response` raised; otherwise the run, one persistent
      publish, the ack of this delivery's tag and one budget step, followed
      by a global stop when the step yields 0. */
  function HandleEffects(chan: nat, deliveryTag: nat, admitted: Result<Body>, routed: Result<Outgoing>,
                         budgetBefore: int, channelsBefore: seq<ChannelState>, raising: set<nat>)
    : (effects: seq<Event>)
    ensures admitted.Err? ==> effects == []
    ensures admitted.Ok? && "command" in admitted.value ==>
              |effects| >= 1 && effects[0] == RunCommand(admitted.value["command"])
    ensures routed.Err? ==> |effects| <= 1
    ensures admitted.Ok? && "command" in admitted.value && routed.Ok? ==>
              |effects| >= 2 && effects[1] == Publish(chan, routed.value.exchange, routed.value.body, true)
  {
    if admitted.Err? || "command" !in admitted.value then []
    else if routed.Err? then [RunCommand(admitted.value["command"])]
    else
      [RunCommand(admitted.value["command"])] + [Publish(chan, routed.value.exchange, routed.value.body, true)]
      + FinishEffects(chan, deliveryTag, budgetBefore, channelsBefore, raising)
  }

  /** The effects after a successful publish: the ack, the budget step, and
      the close attempts and stop when the step yields 0. */
  function FinishEffects(chan: nat, deliveryTag: nat, budgetBefore: int, channelsBefore: seq<ChannelState>,
                         raising: set<nat>): (effects: seq<Event>)
    ensures |effects| >= 2 && effects[0] == Ack(chan, deliveryTag) && effects[1] == BudgetStep(Step(budgetBefore))
    ensures forall k :: 2 <= k < |effects| ==> effects[k].CloseAttempt? || effects[k].StopSet?
    ensures StopSet in effects <==> Step(budgetBefore) == 0
    ensures Step(budgetBefore) == 0 ==> effects[|effects| - 1] == StopSet
  {
    var left := Step(budgetBefore);
    [Ack(chan, deliveryTag), BudgetStep(left)] + (if left == 0 then CloseEvents(channelsBefore, raising) + [StopSet] else [])
  }

  /** The order of one handler's effects: when it publishes, it publishes
      exactly once, persistently, before anything else reaches the broker;
      then acks the inbound delivery once, then steps the budget once; a stop
      follows, and only when the step yielded 0. When it raises, nothing is
      published and nothing is acked. */
  lemma HandleEffectsOrder(chan: nat, deliveryTag: nat, admitted: Result<Body>, routed: Result<Outgoing>,
                           budgetBefore: int, channelsBefore: seq<ChannelState>, raising: set<nat>)
    requires admitted.Ok? ==> "command" in admitted.value
    requires admitted.Err? ==> routed.Err?
    ensures var es := HandleEffects(chan, deliveryTag, admitted, routed, budgetBefore, channelsBefore, raising);
            && (routed.Err? ==> forall k :: 0 <= k < |es| ==> !es[k].Publish? && !es[k].Ack? && !es[k].StopSet?)
            && (routed.Ok? ==>
                  && |es| >= 4 && es[0].RunCommand?
                  && es[1] == Publish(chan, routed.value.exchange, routed.value.body, true)
                  && es[2] == Ack(chan, deliveryTag)
                  && es[3] == BudgetStep(Step(budgetBefore))
                  && (forall k :: 4 <= k < |es| ==> es[k].CloseAttempt? || es[k].StopSet?)
                  && (StopSet in es <==> Step(budgetBefore) == 0)
                  && (Step(budgetBefore) == 0 ==> es[|es| - 1] == StopSet))
  {
    var es := HandleEffects(chan, deliveryTag, admitted, routed, budgetBefore, channelsBefore, raising);
    if routed.Ok? {
      var closes := CloseEvents(channelsBefore, raising);
      CloseEventsAreTheOpenChannels(channelsBefore, raising);
      var head := [RunCommand(admitted.value["command"]), Publish(chan, routed.value.exchange, routed.value.body, true),
                   Ack(chan, deliveryTag), BudgetStep(Step(budgetBefore))];
      if Step(budgetBefore) == 0 {
        assert es == head + closes + [StopSet];
        forall k | 4 <= k < |es| ensures es[k].CloseAttempt? || es[k].StopSet? {
          if k < 4 + |closes| {
            assert es[k] == closes[k - 4];
          }
        }
        assert StopSet !in closes;
      } else {
        assert es == head;
      }
    }
  }

  /** The state `start_executor` builds for one worker thread. */
  class Worker {
    const registry: Registry
    const chan: nat
    const queue: string             // the queue consumed; requeues never go here
    const maxRetries: int           // the worker-level default retry budget
    const verbose: bool
    const okReturncodes: seq<int>
    const budget: TaskBudget

    ghost predicate Valid()
      reads this, budget
    {
      budget.Valid()
    }

    /** Open a channel, register it, and start the task budget. */
    constructor Start(registry: Registry, queue: string, tasksNr: int, maxRetries: int,
                      verbose: bool, okReturncodes: seq<int>)
      modifies registry
      ensures Valid() && this.registry == registry && fresh(budget)
      ensures budget.initial == tasksNr && budget.taken == 0
      ensures chan == |old(registry.channels)| && registry.channels == old(registry.channels) + [Open]
      ensures registry.stop == old(registry.stop)
      ensures this.queue == queue && this.maxRetries == maxRetries
      ensures this.verbose == verbose && this.okReturncodes == okReturncodes
    {
      var id := registry.Register();
      this.registry := registry;
      this.chan := id;
      this.queue := queue;
      this.maxRetries := maxRetries;
      this.verbose := verbose;
      this.okReturncodes := okReturncodes;
      this.budget := new TaskBudget(tasksNr);
    }

    /** `send_response`: decide, bump `retries` on a retry, and publish once,
      persistently, on this worker's channel; nothing is published when the
      decision or the bump raises. */
    method SendResponse(resp: Body) returns (r: Result<Outgoing>)
      modifies registry.trace
      ensures r == Route(resp, Int(maxRetries))
      ensures registry.trace.events
              == old(registry.trace.events) + (if r.Ok? then [Publish(chan, r.value.exchange, r.value.body, true)] else [])
    {
      r := Route(resp, Int(maxRetries));
      if r.Ok? {
        registry.trace.Record(Publish(chan, r.value.exchange, r.value.body, true));
      }
    }

    /** The tail of `handle_message` once the response is published: ack
      the delivery, step the budget, and stop everything when it yields 0. */
    method Finish(deliveryTag: nat, raising: set<nat>) returns (left: int)
      requires Valid()
      modifies registry, registry.trace, budget
      ensures Valid() && budget.taken == old(budget.taken) + 1
      ensures left == budget.current == Step(old(budget.current))
      ensures registry.channels == (if left == 0 then AfterClosing(old(registry.channels), raising)
                                    else old(registry.channels))
      ensures registry.stop == (old(registry.stop) || left == 0)
      ensures registry.trace.events
              == old(registry.trace.events) + FinishEffects(chan, deliveryTag, old(budget.current), old(registry.channels), raising)
    {
      registry.trace.Record(Ack(chan, deliveryTag));
      left := budget.Next();
      registry.trace.Record(BudgetStep(left));
      if left == 0 {
        registry.StopAndExit(raising);
      }
    }

    /** `handle_message` for the delivery `deliveryTag`: admission, one
      attempt, the trace decision, `send_response`, the ack, one budget
      step, and `stop_and_exit` when the budget yields 0. */
    method HandleMessage(deliveryTag: nat, inbound: Inbound, env: Env, raising: set<nat>)
      returns (r: Result<Outgoing>, traced: bool)
      requires Valid()
      modifies registry, registry.trace, budget
      ensures Valid()
      ensures r == Hop(inbound, env, Int(maxRetries))
      ensures registry.trace.events == old(registry.trace.events)
              + HandleEffects(chan, deliveryTag, Admit(inbound), r, old(budget.current), old(registry.channels), raising)
      ensures traced == (Admit(inbound).Ok? && (verbose || !IsOkReturncode(okReturncodes, ReturnCode(env.outcome))))
      ensures r.Err? ==> budget.taken == old(budget.taken) && budget.current == old(budget.current)
                         && registry.channels == old(registry.channels) && registry.stop == old(registry.stop)
      ensures r.Ok? ==> budget.taken == old(budget.taken) + 1 && budget.current == Step(old(budget.current))
      ensures r.Ok? ==> registry.channels == (if budget.current == 0 then AfterClosing(old(registry.channels), raising)
                                            else old(registry.channels))
      ensures r.Ok? ==> registry.stop == (old(registry.stop) || budget.current == 0)
    {
      var admitted := Admit(inbound);
      if admitted.Err? {
        return Err(admitted.error), false;
      }
      var msg := admitted.value;
      registry.trace.Record(RunCommand(msg["command"]));
      var resp := Attempt(msg, env);
      traced := verbose || !IsOkReturncode(okReturncodes, ReturnCode(env.outcome));
      r := SendResponse(resp);
      assert r == Hop(inbound, env, Int(maxRetries));
      if r.Err? {
        assert HandleEffects(chan, deliveryTag, admitted, r, old(budget.current), old(registry.channels), raising)
               == [RunCommand(msg["command"])];
        return;
      }
      var left := Finish(deliveryTag, raising);
      AppendRegroup(old(registry.trace.events), [RunCommand(msg["command"])],
                    [Publish(chan, r.value.exchange, r.value.body, true)],
                    FinishEffects(chan, deliveryTag, old(budget.current), old(registry.channels), raising));
    }
  }

  /** Two workers started on one fresh registry, each with a budget of one
      task and no retries. */
  method TwoWorkers() returns (registry: Registry, first: Worker, second: Worker)
    ensures fresh(registry) && fresh(registry.trace) && fresh(first.budget) && fresh(second.budget)
    ensures first.registry == registry && second.registry == registry && first.budget != second.budget
    ensures first.Valid() && second.Valid() && first.maxRetries == 0
    ensures first.budget.current == 1 && second.budget.taken == 0
    ensures registry.channels == [Open, Open] && !registry.stop
  {
    registry := new Registry();
    first := new Worker.Start(registry, "requests", 1, 0, false, [0]);
    second := new Worker.Start(registry, "requests", 1, 0, false, [0]);
  }

  /** Two workers sharing one registry, each with a budget of one task: as
      soon as one of them has handled a message its budget yields 0, both
      channels end closed and the pool's stop flag is set, although the other
      worker handled nothing. */
  method BudgetOfOneStopsEveryWorker(request: Body, env: Env) returns (channels: seq<ChannelState>, stopped: bool)
    requires Hop(Decoded(Obj(request)), env, Int(0)).Ok?
    ensures channels == [Closed, Closed] && stopped
  {
    var registry, first, second := TwoWorkers();
    assert AfterClosing([Open, Open], {}) == [Closed, Closed];
    var r, _ := first.HandleMessage(7, Decoded(Obj(request)), env, {});
    assert first.budget.current == Step(1) == 0;
    assert second.budget.taken == 0;
    channels, stopped := registry.channels, registry.stop;
  }
}
