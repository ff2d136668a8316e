/**
 The consumer's code over a whole history: the event loop calls one method of `Consumer` per event,
 and what has happened so far is always a run of `AmqpReceiver`, so that its laws hold of the code.
 */
module AmqpEventLoop {
  import opened Prelude
  import R = AmqpReceiver
  import opened AmqpConsumer
  import AmqpCredit
  import AmqpDelivery
  import AmqpOrder
  import AmqpRedelivery

  class EventLoop {
    const consumer: Consumer
    ghost var tr: seq<R.State>
    ghost var steps: seq<R.Step>

    ghost predicate Valid()
      reads this, consumer, consumer.cache
    {
      consumer.Valid() && R.IsRun(consumer.cfg, tr, steps) && tr[|steps|] == consumer.View()
    }

    constructor (cfg: R.Config)
      ensures Valid() && fresh(consumer) && fresh(consumer.cache) && consumer.cfg == cfg && steps == []
    {
      consumer := new Consumer(cfg);
      tr, steps := [R.Init(cfg)], [];
    }

    /** One event, served by the method that is its callback. */
    method Serve(step: R.Step)
      requires consumer.Valid() && R.Enabled(consumer.cfg, consumer.View(), step)
      modifies consumer, consumer.cache
      ensures consumer.Valid() && consumer.View() == R.Apply(consumer.cfg, old(consumer.View()), step)
    {
      match step
      case Subscribe => consumer.Subscribe();
      case Start => consumer.Start();
      case Deliver(m, first) => consumer.OnMessageEvent(m, first);
      case Take => consumer.TakeNext();
      case Resolve(fault) => consumer.Process(fault);
      case HandlerOk(d, reply) => consumer.HandlerResolved(d, reply);
      case HandlerFails(d) => consumer.ListenerThrew(d);
      case ReplyOk(d) => consumer.ReplySent(d);
      case ReplyFails(d) => consumer.ListenerThrew(d);
      case Timer(d) => consumer.ReleaseTimer(d);
      case Replace => consumer.Replace();
    }

    /** Any event that can happen extends the history by one transition. */
    method Happens(step: R.Step)
      requires Valid() && R.Enabled(consumer.cfg, consumer.View(), step)
      modifies this, consumer, consumer.cache
      ensures Valid() && steps == old(steps) + [step] && tr == old(tr) + [consumer.View()]
    {
      Serve(step);
      tr, steps := tr + [consumer.View()], steps + [step];
    }

    /** The laws of the code's own state, whatever has happened. */
    lemma Laws()
      requires Valid()
      ensures consumer.credit + AmqpCredit.Unreplenished(consumer.View()) <=
              (2 + |consumer.closedCredits|) * consumer.cfg.limit + AmqpCredit.Overpayments(consumer.View())
      ensures AmqpDelivery.Partitioned(consumer.cfg, consumer.broker)
      ensures !consumer.cfg.eager ==> consumer.broker.accepted <= consumer.completed
      ensures forall i, j :: 0 <= i < j < |consumer.handed| ==>
                consumer.handed[i].delivery < consumer.handed[j].delivery
      ensures forall m :: AmqpDelivery.Hands(consumer.View(), m) <= consumer.cfg.maxRedeliver + 2
    {
      var cfg, n := consumer.cfg, |steps|;
      AmqpCredit.CreditBound(cfg, tr, steps, n);
      AmqpDelivery.KeptInRun(cfg, tr, steps, n);
      AmqpDelivery.ModedInRun(cfg, tr, steps, n);
      AmqpOrder.OrderedInRun(cfg, tr, steps, n);
      forall m
        ensures AmqpDelivery.Hands(consumer.View(), m) <= cfg.maxRedeliver + 2
      {
        AmqpRedelivery.BoundedRedelivery(cfg, tr, steps, n, m);
      }
    }
  }
}
