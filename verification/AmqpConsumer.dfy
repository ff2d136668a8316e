/**
 `receiveMessage` and the listeners as code: the variables `receiver` and `creditPending`, the
 pipeline's body and the callbacks, each proved to perform one transition of `AmqpReceiver`.
 The broker and the cached counters are fields because the callbacks act on them.
 */
module AmqpConsumer {
  import opened Prelude
  import R = AmqpReceiver
  import AmqpBody

  class DeliveryCounts {
    var counts: map<string, nat>

    constructor ()
      ensures counts == map[]
    {
      counts := map[];
    }

    method IncreaseDeliveryCount(msgId: string)
      modifies this
      ensures counts == old(counts)[msgId := R.CountOf(old(counts), msgId) + 1]
    {
      var current := if msgId in counts then counts[msgId] else 0;
      counts := counts[msgId := current + 1];
    }

    /** A missing or zero count is valid; otherwise the deliveries before this one are compared. */
    method IsValidDeliveryCount(msgId: string, max: nat) returns (valid: bool)
      ensures valid <==> msgId !in counts || counts[msgId] <= max + 1
      ensures valid == R.ValidCount(R.CountOf(counts, msgId), max)
    {
      var current := if msgId in counts then counts[msgId] else 0;
      if current != 0 {
        return current - 1 <= max;
      }
      return true;
    }
  }

  class Consumer {
    const cfg: R.Config
    const cache: DeliveryCounts
    var closedCredits: seq<nat>
    var credit: nat
    var started: bool
    var subscribed: bool
    var queue: seq<nat>
    var active: Option<nat>
    var broker: R.Broker
    var deliveries: seq<R.Delivery>
    var phases: seq<R.Phase>
    var creditPending: set<nat>
    ghost var handed: seq<R.Handing>
    ghost var completed: set<R.MsgId>

    ghost function View(): R.State
      reads this, cache
    {
      R.State(R.Link(closedCredits, credit, started), broker,
              R.Pipe(subscribed, queue, active, cache.counts, handed), deliveries, phases, completed)
    }

    /** A delivery whose handler is running has not given its credit back. */
    ghost predicate Valid()
      reads this, cache
    {
      && R.Shape(cfg, View())
      && forall d :: 0 <= d < |phases| && phases[d] == R.Handling ==> d in creditPending
    }

    constructor (cfg: R.Config)
      ensures Valid() && fresh(cache) && this.cfg == cfg && View() == R.Init(cfg)
    {
      this.cfg := cfg;
      cache := new DeliveryCounts();
      closedCredits, credit, started, subscribed := [], cfg.limit, false, false;
      queue, active := [], None;
      broker := R.Broker(cfg.messages.Keys, map[], {}, {});
      deliveries, phases, creditPending := [], [], {};
      handed, completed := [], {};
    }

    /** `receiver.add_credit(n)` on the variable `receiver`. */
    method AddReceiverCredit(n: nat)
      modifies this`credit
      ensures credit == old(credit) + n
    {
      credit := credit + n;
    }

    method Start()
      requires Valid() && R.Enabled(cfg, View(), R.Start)
      modifies this
      ensures Valid() && View() == R.Apply(cfg, old(View()), R.Start)
    {
      R.ShapePreserved(cfg, View(), R.Start);
      AddReceiverCredit(cfg.limit);
      started := true;
    }

    /** Someone subscribes to `source`. */
    method Subscribe()
      requires Valid() && R.Enabled(cfg, View(), R.Subscribe)
      modifies this`subscribed
      ensures Valid() && View() == R.Apply(cfg, old(View()), R.Subscribe)
    {
      R.ShapePreserved(cfg, View(), R.Subscribe);
      subscribed := true;
    }

    /** The receiver closed: createReceiver opens the next one. */
    method Replace()
      requires Valid()
      modifies this
      ensures Valid() && View() == R.Apply(cfg, old(View()), R.Replace)
    {
      R.ShapePreserved(cfg, View(), R.Replace);
      closedCredits := closedCredits + [credit];
      credit := 0;
      broker := broker.(waiting := broker.waiting + broker.unsettled.Values, unsettled := map[]);
      AddReceiverCredit(cfg.limit);
    }

    /** The receiver's message event. */
    method OnMessageEvent(m: R.MsgId, first: bool)
      requires Valid() && R.Enabled(cfg, View(), R.Deliver(m, first))
      modifies this
      ensures Valid() && View() == R.Apply(cfg, old(View()), R.Deliver(m, first))
    {
      R.ShapePreserved(cfg, View(), R.Deliver(m, first));
      var d := |deliveries|;
      credit := credit - 1;
      broker := broker.(waiting := broker.waiting - {m}, unsettled := broker.unsettled[d := m]);
      deliveries := deliveries + [R.Delivery(m, |closedCredits|, first)];
      if subscribed {
        queue := queue + [d];
      }
      phases := phases + [if subscribed then R.Queued else R.Lost];
      assert View() == R.DoDeliver(old(View()), m, first);
    }

    /** concatMap starts on the oldest buffered event. */
    method TakeNext()
      requires Valid() && R.Enabled(cfg, View(), R.Take)
      modifies this
      ensures Valid() && View() == R.Apply(cfg, old(View()), R.Take)
    {
      R.ShapePreserved(cfg, View(), R.Take);
      active := Some(queue[0]);
      phases := phases[queue[0] := R.Checking];
      queue := queue[1..];
    }

    /** `rejectDLQ`: reject and give the credit to the receiver the delivery came on. */
    method RejectDlq(d: nat)
      requires d < |phases| == |deliveries|
      modifies this
      ensures View() == R.Refuse(old(View()), d, old(deliveries)[d].receiver)
      ensures creditPending == old(creditPending)
    {
      Settle(d, false);
      var r := deliveries[d].receiver;
      if r < |closedCredits| {
        closedCredits := closedCredits[r := closedCredits[r] + 1];
      } else {
        credit := credit + 1;
      }
      Leave(d, R.Refused);
    }

    /** The catch clause of the body: reject and credit the current receiver. */
    method RejectBroken(d: nat)
      requires d < |phases| == |deliveries|
      modifies this
      ensures View() == R.Refuse(old(View()), d, |old(closedCredits)|)
      ensures creditPending == old(creditPending)
    {
      Settle(d, false);
      AddReceiverCredit(1);
      Leave(d, R.Refused);
    }

    /** `delivery.accept()` or `delivery.reject()`; a settled delivery is left alone. */
    method Settle(d: nat, accept: bool)
      modifies this`broker
      ensures broker == if accept then R.Accept(old(broker), d) else R.Reject(old(broker), d)
    {
      if d in broker.unsettled {
        var m := broker.unsettled[d];
        broker := broker.(unsettled := broker.unsettled - {d});
        if accept {
          broker := broker.(accepted := broker.accepted + {m});
        } else {
          broker := broker.(dead := broker.dead + {m});
        }
      }
    }

    /** The body is done with delivery `d`, which now is in phase `p`. */
    method Leave(d: nat, p: R.Phase)
      requires d < |phases|
      modifies this`active, this`phases
      ensures active == None && phases == old(phases)[d := p]
    {
      active := None;
      phases := phases[d := p];
    }

    /** Count the delivery, give out its event and let the listener start on it. */
    method HandOver(d: nat, counter: string)
      requires d < |phases| == |deliveries|
      modifies this, cache
      ensures View() == R.Hand(cfg, old(View()), d, counter)
      ensures creditPending == old(creditPending) + {d}
    {
      cache.IncreaseDeliveryCount(counter);
      creditPending := creditPending + {d};
      Leave(d, R.Handling);
      handed := handed + [R.Handing(d, deliveries[d].msg)];
      if cfg.eager {
        Settle(d, true);
      }
    }

    /** The end of the body's work on an event, which is as `AmqpBody` says. */
    method Process(fault: bool)
      requires Valid() && R.Enabled(cfg, View(), R.Resolve(fault))
      modifies this, cache
      ensures Valid() && View() == R.Apply(cfg, old(View()), R.Resolve(fault))
      ensures AmqpBody.BodyOutcome(cfg, old(View()), fault, View())
    {
      AmqpBody.BodyLaw(cfg, View(), fault);
      ConcatMapBody(fault);
    }

    /** The asynchronous body of the pipeline; `fault` is a failing read of the count. */
    method ConcatMapBody(fault: bool)
      requires Valid() && R.Enabled(cfg, View(), R.Resolve(fault))
      modifies this, cache
      ensures Valid() && View() == R.Apply(cfg, old(View()), R.Resolve(fault))
    {
      R.ShapePreserved(cfg, View(), R.Resolve(fault));
      var d := active.value;
      var event := deliveries[d];
      var message := cfg.messages[event.msg];
      if message.body.NoMessage? {
        Leave(d, R.Dropped);
      } else if message.body.Malformed? || (fault && !event.first) {
        RejectBroken(d);
      } else {
        var valid := true;
        if !event.first {
          valid := cache.IsValidDeliveryCount(message.counter, cfg.maxRedeliver);
        }
        if valid {
          HandOver(d, message.counter);
        } else {
          RejectDlq(d);
        }
      }
    }

    /** The event's `addCredit`: at most one credit, however often it is called. */
    method AddCredit(d: nat)
      modifies this`credit, this`creditPending
      ensures credit == old(credit) + (if d in old(creditPending) then 1 else 0)
      ensures creditPending == old(creditPending) - {d}
    {
      if d in creditPending {
        AddReceiverCredit(1);
      }
      creditPending := creditPending - {d};
    }

    /** Accept unless that was done before the handler ran, and give the credit back. */
    method Acknowledge(d: nat)
      modifies this`broker, this`credit, this`creditPending
      ensures broker == if cfg.eager then old(broker) else R.Accept(old(broker), d)
      ensures credit == old(credit) + (if d in old(creditPending) then 1 else 0)
      ensures creditPending == old(creditPending) - {d}
    {
      if !cfg.eager {
        Settle(d, true);
      }
      AddCredit(d);
    }

    /** onMessage resolved; `reply` says that it resolved to something to reply with. */
    method HandlerResolved(d: nat, reply: bool)
      requires Valid() && R.Enabled(cfg, View(), R.HandlerOk(d, reply))
      modifies this
      ensures Valid() && View() == R.Apply(cfg, old(View()), R.HandlerOk(d, reply))
    {
      R.ShapePreserved(cfg, View(), R.HandlerOk(d, reply));
      completed := completed + {deliveries[d].msg};
      Acknowledge(d);
      phases := phases[d := if reply then R.Replying else R.Finished];
      assert View() == R.DoHandlerOk(cfg, old(View()), d, reply);
    }

    /** The reply was sent, which ends the listener's work on the message. */
    method ReplySent(d: nat)
      requires Valid() && R.Enabled(cfg, View(), R.ReplyOk(d))
      modifies this`phases
      ensures Valid() && View() == R.Apply(cfg, old(View()), R.ReplyOk(d))
    {
      R.ShapePreserved(cfg, View(), R.ReplyOk(d));
      phases := phases[d := R.Finished];
    }

    /** onMessage or the reply threw: `release` starts its timer. */
    method ListenerThrew(d: nat)
      requires Valid() && (R.InPhase(View(), d, R.Handling) || R.InPhase(View(), d, R.Replying))
      modifies this
      ensures Valid()
      ensures R.InPhase(old(View()), d, R.Handling) ==> View() == R.Apply(cfg, old(View()), R.HandlerFails(d))
      ensures R.InPhase(old(View()), d, R.Replying) ==> View() == R.Apply(cfg, old(View()), R.ReplyFails(d))
    {
      phases := phases[d := if phases[d].Handling? then R.BackoffOwed else R.BackoffPaid];
    }

    /** The timer of `release`: release and credit the current receiver, whatever `creditPending` says. */
    method ReleaseTimer(d: nat)
      requires Valid() && R.Enabled(cfg, View(), R.Timer(d))
      modifies this
      ensures Valid() && View() == R.Apply(cfg, old(View()), R.Timer(d))
    {
      R.ShapePreserved(cfg, View(), R.Timer(d));
      if d in broker.unsettled {
        var m := broker.unsettled[d];
        broker := broker.(unsettled := broker.unsettled - {d}, waiting := broker.waiting + {m});
      }
      AddReceiverCredit(1);
      phases := phases[d := if phases[d].BackoffPaid? then R.Overpaid else R.Finished];
    }
  }
}
