/** The broker as the executor sees it: two exchanges, and an ordered record
    of the effects a handler has on the outside world. */
module Broker {
  import opened Values

  /** The two pools every executor declares (`TASK_REQUESTS_POOL`,
      `TASK_RESPONSES_POOL`). */
  datatype Exchange = TaskRequestsPool | TaskResponsesPool

  /** One observable effect, in the order it happens. */
  datatype Event =
    | RunCommand(command: Value)                          // the command callback / Popen is invoked
    | Publish(channel: nat, exchange: Exchange, body: Body, persistent: bool)
    | Ack(channel: nat, deliveryTag: nat)
    | BudgetStep(remaining: int)                          // next(tasks_nr_gen) yielded `remaining`
    | CloseAttempt(channel: nat, raised: bool)            // ch.close() on an open channel
    | StopSet                                             // the global `stop = True`

  /** The shared record of effects. */
  class Trace {
    var events: seq<Event>

    constructor ()
      ensures events == []
    {
      events := [];
    }

    method Record(e: Event)
      modifies this
      ensures events == old(events) + [e]
    {
      events := events + [e];
    }
  }

  /** Associativity of sequence concatenation, stated for the one shape a
      handler's trace is built in: a hint that spares the solver a proof by
      extensionality, not a property of the system. */
  lemma AppendRegroup(a: seq<Event>, b: seq<Event>, c: seq<Event>, d: seq<Event>)
    ensures a + b + c + d == a + (b + c + d)
  {
  }
}
