/**
 The queue consumer: a message is deleted only after its handler returned, so a deleted
 upload or scan message means that the row was COMPLETED for that event while the message
 was being handled.
 */
module SqsConsumer {
  import opened Options
  import opened Domain
  import opened FileProcessor
  import opened ProcessorInvariant
  import opened ProcessorSteps
  import opened FileProcessorService

  type Receipt = string

  /** What the body turns out to be: absent, not a canonical event, or this event. */
  datatype Body = Missing | Invalid | Event(id: EventId)

  datatype Message = Message(receipt: Option<Receipt>, body: Body)

  /** A queue call is answered, or raises after or without taking effect. */
  datatype QueueFate = Answered | Unanswered | Undone

  /** The message holds an event, and the row was COMPLETED for it at some moment since. */
  ghost predicate Durable(cfg: Config, sys: System, since: nat, m: Message) {
    && m.body.Event? && m.body.id in cfg.inputs
    && (Actionable(cfg.inputs[m.body.id]) ==> DoneSince(sys.sh, cfg.inputs[m.body.id].file, since, m.body.id))
  }

  /** Later moves do not take back that a row was COMPLETED. */
  lemma {:induction false} DurableStays(cfg: Config, start: System, steps: seq<Step>, n: nat, since: nat, m: Message)
    requires Init(cfg, start) && n <= |steps| && Run(cfg, start, steps).Some?
    requires Run(cfg, start, steps[..n]).Some? && Durable(cfg, Run(cfg, start, steps[..n]).value, since, m)
    ensures Durable(cfg, Run(cfg, start, steps).value, since, m)
  {
    if n == |steps| {
      assert steps[..n] == steps;
    } else {
      var k := |steps| - 1;
      assert steps[..k][..n] == steps[..n];
      DurableStays(cfg, start, steps[..k], n, since, m);
      RunKeepsInv(cfg, start, steps[..k]);
      DurableStep(cfg, Run(cfg, start, steps[..k]).value, steps[k], since, m);
    }
  }

  lemma DurableStep(cfg: Config, sys: System, step: Step, since: nat, m: Message)
    requires Inv(cfg, sys) && StepOf(cfg, sys, step).Some? && Durable(cfg, sys, since, m)
    ensures Durable(cfg, StepOf(cfg, sys, step).value, since, m)
  {
    StepKeepsInv(cfg, sys, step);
    if Actionable(cfg.inputs[m.body.id]) {
      DoneStays(sys.sh, StepOf(cfg, sys, step).value.sh, cfg.inputs[m.body.id].file, since, m.body.id);
    }
  }

  lemma {:induction false} PastGrows(cfg: Config, start: System, steps: seq<Step>, n: nat)
    requires Init(cfg, start) && n <= |steps| && Run(cfg, start, steps).Some?
    ensures Run(cfg, start, steps[..n]).Some?
    ensures |Run(cfg, start, steps[..n]).value.sh.past| <= |Run(cfg, start, steps).value.sh.past|
  {
    if n == |steps| {
      assert steps[..n] == steps;
    } else {
      var k := |steps| - 1;
      assert steps[..k][..n] == steps[..n];
      PastGrows(cfg, start, steps[..k], n);
      RunKeepsInv(cfg, start, steps[..k]);
      StepKeepsInv(cfg, Run(cfg, start, steps[..k]).value, steps[k]);
    }
  }

  /** Some of these messages had this receipt and has a durable result. */
  ghost predicate Explained(cfg: Config, sys: System, since: nat, messages: seq<Message>, r: Receipt) {
    exists m :: m in messages && m.receipt == Some(r) && Durable(cfg, sys, since, m)
  }

  ghost predicate AllExplained(cfg: Config, sys: System, since: nat, messages: seq<Message>, gone: set<Receipt>) {
    forall r | r in gone :: Explained(cfg, sys, since, messages, r)
  }

  /** One more message, with steps of its own. */
  lemma ExplainedMore(cfg: Config, start: System, steps: seq<Step>, n: nat, since: nat, messages: seq<Message>,
                      gone: set<Receipt>, m: Message, removed: bool)
    requires Init(cfg, start) && n <= |steps| && Run(cfg, start, steps).Some? && Run(cfg, start, steps[..n]).Some?
    requires since <= |Run(cfg, start, steps[..n]).value.sh.past|
    requires AllExplained(cfg, Run(cfg, start, steps[..n]).value, since, messages, gone)
    requires removed ==> m.receipt.Some?
                         && Durable(cfg, Run(cfg, start, steps).value, |Run(cfg, start, steps[..n]).value.sh.past|, m)
    ensures AllExplained(cfg, Run(cfg, start, steps).value, since, messages + [m],
                         if removed then gone + {m.receipt.value} else gone)
    ensures since <= |Run(cfg, start, steps).value.sh.past|
  {
    PastGrows(cfg, start, steps, n);
    forall r | r in gone ensures Explained(cfg, Run(cfg, start, steps).value, since, messages + [m], r) {
      assert Explained(cfg, Run(cfg, start, steps[..n]).value, since, messages, r);
      var x :| x in messages && x.receipt == Some(r) && Durable(cfg, Run(cfg, start, steps[..n]).value, since, x);
      DurableStays(cfg, start, steps, n, since, x);
      assert x in messages + [m];
    }
    if removed {
      assert m in messages + [m];
    }
  }

  lemma Gone(cfg: Config, start: System, steps: seq<Step>, earlier: seq<Step>, since: nat, messages: seq<Message>,
             i: nat,
             first: set<Receipt>, before: set<Receipt>, after: set<Receipt>)
    requires Init(cfg, start) && earlier <= steps && Run(cfg, start, steps).Some? && Run(cfg, start, earlier).Some?
    requires i < |messages| && before <= first && since <= |Run(cfg, start, earlier).value.sh.past|
    requires AllExplained(cfg, Run(cfg, start, earlier).value, since, messages[..i], first - before)
    requires after == before
             || (messages[i].receipt.Some? && after == before - {messages[i].receipt.value}
                 && Durable(cfg, Run(cfg, start, steps).value, |Run(cfg, start, earlier).value.sh.past|, messages[i]))
    ensures AllExplained(cfg, Run(cfg, start, steps).value, since, messages[..i + 1], first - after)
    ensures since <= |Run(cfg, start, steps).value.sh.past|
  {
    assert steps[..|earlier|] == earlier;
    assert messages[..i + 1] == messages[..i] + [messages[i]];
    ExplainedMore(cfg, start, steps, |earlier|, since, messages[..i], first - before, messages[i], after != before);
  }

  class Consumer {
    const service: Service
    /** Messages in the queue, and those that can be received again at once. */
    var queue: set<Receipt>
    var visible: set<Receipt>

    ghost predicate Valid()
      reads this, service
    {
      service.Valid()
    }

    constructor (service: Service, queue: set<Receipt>)
      requires service.Valid()
      ensures Valid() && this.service == service && this.queue == queue && visible == {}
    {
      this.service, this.queue, visible := service, queue, {};
    }

    /** Delete the message; true means an error was raised. */
    method Acknowledge(receipt: Option<Receipt>, fate: QueueFate) returns (raised: bool)
      modifies this
      ensures queue == if receipt.Some? && fate != Undone then old(queue) - {receipt.value} else old(queue)
      ensures visible == old(visible) && raised == (receipt.Some? && fate != Answered)
    {
      if receipt.None? {
        return false;
      }
      if fate != Undone {
        queue := queue - {receipt.value};
      }
      raised := fate != Answered;
    }

    /** Leave the message for the redrive policy, or make it visible at once. */
    method Reject(receipt: Option<Receipt>, requeue: bool, fate: QueueFate) returns (raised: bool)
      modifies this
      ensures queue == old(queue)
      ensures visible == if receipt.Some? && requeue && fate != Undone then old(visible) + {receipt.value}
              else old(visible)
      ensures raised == (receipt.Some? && requeue && fate != Answered)
    {
      if receipt.None? || !requeue {
        return false;
      }
      if fate != Undone {
        visible := visible + {receipt.value};
      }
      raised := fate != Answered;
    }

    /**
     Process one message.  It leaves the queue only if it held an event and its handler
     returned, and then the result is durable; a handler that returned and an answered
     delete remove it.  A message that is invalid, or rejected for good, stays where it
     is for the redrive policy.
     */
    method ProcessMessage(m: Message, o: Oracle, delete: QueueFate, requeue: QueueFate)
      returns (raised: bool, outcome: Option<Outcome>)
      requires Valid() && ClocksOk(service.cfg, o) && (m.body.Event? ==> m.body.id in service.cfg.inputs)
      modifies this, service
      ensures Valid() && old(service.trace) <= service.trace
      ensures queue == if outcome == Some(Returned) && m.receipt.Some? && delete != Undone
                       then old(queue) - {m.receipt.value} else old(queue)
      ensures outcome.Some? <==> m.body.Event?
      ensures outcome == Some(Returned) ==> Durable(service.cfg, service.sys, |old(service.sys.sh.past)|, m)
      ensures m.body.Invalid? || outcome == Some(NonRetryable) ==> visible == old(visible) && !raised
      ensures outcome == Some(Returned) && delete == Answered ==> visible == old(visible) && !raised
      ensures outcome != Some(Returned) && outcome != Some(NonRetryable) && !m.body.Invalid? && m.receipt.Some?
              && requeue == Answered ==>
                m.receipt.value in visible
    {
      if m.body.Missing? {
        raised := Reject(m.receipt, true, requeue);
        return raised, None;
      }
      if m.body.Invalid? {
        raised := Reject(m.receipt, false, requeue);
        return raised, None;
      }
      ghost var w;
      var result;
      result, w := service.Handle(m.body.id, o);
      outcome := Some(result);
      if result == Returned {
        raised := Acknowledge(m.receipt, delete);
        if raised {
          raised := Reject(m.receipt, true, requeue);
        }
      } else {
        raised := Reject(m.receipt, result != NonRetryable, requeue);
      }
    }

    /** Process received messages until asked to stop, or until an error escapes.  Every
        message that left the queue has a durable result. */
    method ProcessMessages(messages: seq<Message>, o: Oracle, stop: nat -> bool, delete: nat -> QueueFate,
                           requeue: nat -> QueueFate)
      returns (handled: nat)
      requires Valid() && ClocksOk(service.cfg, o)
      requires forall m | m in messages && m.body.Event? :: m.body.id in service.cfg.inputs
      modifies this, service
      ensures Valid() && old(service.trace) <= service.trace && handled <= |messages|
      ensures queue <= old(queue)
      ensures AllExplained(service.cfg, service.sys, |old(service.sys.sh.past)|, messages[..handled],
                           old(queue) - queue)
    {
      ghost var since := |service.sys.sh.past|;
      handled := 0;
      while handled < |messages|
        invariant Valid() && old(service.trace) <= service.trace && handled <= |messages|
        invariant queue <= old(queue) && since <= |service.sys.sh.past|
        invariant AllExplained(service.cfg, service.sys, since, messages[..handled], old(queue) - queue)
      {
        if stop(handled) {
          break;
        }
        var m := messages[handled];
        ghost var before, steps := queue, service.trace;
        var raised, outcome := ProcessMessage(m, o, delete(handled), requeue(handled));
        Gone(service.cfg, service.start, service.trace, steps, since, messages, handled, old(queue), before, queue);
        handled := handled + 1;
        if raised {
          break;
        }
      }
    }
  }
}
