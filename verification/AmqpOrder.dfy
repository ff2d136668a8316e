/**
 The pipeline hands events over in arrival order. A delivery's identity is its place in
 arrival order, so "in order, each at most once" is "strictly increasing".
 */
module AmqpOrder {
  import opened Prelude
  import opened AmqpReceiver

  /** Phases of a delivery that has reached onMessage. */
  const REACHED: set<Phase> := {Handling, Replying, BackoffOwed, BackoffPaid, Overpaid, Finished}

  /** The pipeline's buffer is sorted, younger than the delivery in its body, and complete. */
  ghost predicate Buffered(s: State) {
    && (forall i, j :: 0 <= i < j < |s.pipe.queue| ==> s.pipe.queue[i] < s.pipe.queue[j])
    && (forall i :: 0 <= i < |s.pipe.queue| ==> InPhase(s, s.pipe.queue[i], Queued))
    && (forall d :: 0 <= d < |s.phases| && s.phases[d] == Queued ==> d in s.pipe.queue)
    && (s.pipe.active.Some? ==>
          && InPhase(s, s.pipe.active.value, Checking)
          && forall i :: 0 <= i < |s.pipe.queue| ==> s.pipe.active.value < s.pipe.queue[i])
    && (forall d :: 0 <= d < |s.phases| && s.phases[d] == Checking ==> s.pipe.active == Some(d))
  }

  /** Every onMessage call so far: in arrival order, older than everything still in the pipeline. */
  ghost predicate HandedInOrder(s: State) {
    var h := s.pipe.handed;
    && (forall i, j :: 0 <= i < j < |h| ==> h[i].delivery < h[j].delivery)
    && (forall i :: 0 <= i < |h| ==>
          && h[i].delivery < |s.deliveries| == |s.phases|
          && s.phases[h[i].delivery] in REACHED
          && s.deliveries[h[i].delivery].msg == h[i].msg)
    && (forall i, j :: 0 <= i < |h| && 0 <= j < |s.pipe.queue| ==> h[i].delivery < s.pipe.queue[j])
    && (s.pipe.active.Some? ==> forall i :: 0 <= i < |h| ==> h[i].delivery < s.pipe.active.value)
  }

  /** No delivery reached onMessage without being recorded as handed over. */
  ghost predicate HandedComplete(s: State) {
    forall d :: 0 <= d < |s.phases| && s.phases[d] in REACHED ==>
      exists i :: 0 <= i < |s.pipe.handed| && s.pipe.handed[i].delivery == d
  }

  ghost predicate Ordered(s: State) {
    |s.deliveries| == |s.phases| && Buffered(s) && HandedInOrder(s) && HandedComplete(s)
  }

  /** A listener's step moves one delivery between phases after onMessage. */
  lemma ListenerKeepsOrder(s: State, s': State, d: nat, p: Phase)
    requires Ordered(s) && d < |s.phases| && s.phases[d] in REACHED && p in REACHED
    requires s'.pipe == s.pipe && s'.deliveries == s.deliveries && s'.phases == s.phases[d := p]
    ensures Ordered(s')
  {
  }

  lemma DeliverKeepsBuffer(s: State, m: MsgId, first: bool)
    requires |s.deliveries| == |s.phases| && Buffered(s) && s.link.credit > 0
    ensures Buffered(DoDeliver(s, m, first))
  {
    var s' := DoDeliver(s, m, first);
    if s.pipe.subscribed {
      assert s'.pipe.queue[|s.pipe.queue|] == |s.phases|;
    }
  }

  lemma DeliverKeepsOrder(s: State, m: MsgId, first: bool)
    requires Ordered(s) && s.link.credit > 0
    ensures Ordered(DoDeliver(s, m, first))
  {
    var s' := DoDeliver(s, m, first);
    DeliverKeepsBuffer(s, m, first);
    assert HandedInOrder(s');
    assert HandedComplete(s');
  }

  lemma TakeKeepsBuffer(s: State)
    requires Buffered(s) && s.pipe.active.None? && |s.pipe.queue| > 0
    ensures Buffered(DoTake(s))
  {
    var s' := DoTake(s);
    var q, q' := s.pipe.queue, s'.pipe.queue;
    assert forall i :: 0 <= i < |q'| ==> q'[i] == q[i + 1];
    forall d | 0 <= d < |s'.phases| && s'.phases[d] == Queued
      ensures d in q'
    {
      var i :| 0 <= i < |q| && q[i] == d;
      assert q'[i - 1] == d;
    }
  }

  lemma TakeKeepsOrder(s: State)
    requires Ordered(s) && s.pipe.active.None? && |s.pipe.queue| > 0
    ensures Ordered(DoTake(s))
  {
    var s' := DoTake(s);
    TakeKeepsBuffer(s);
    assert forall i :: 0 <= i < |s'.pipe.queue| ==> s'.pipe.queue[i] == s.pipe.queue[i + 1];
  }

  lemma ResolveKeepsOrder(cfg: Config, s: State, fault: bool)
    requires Shape(cfg, s) && Ordered(s) && s.pipe.active.Some?
    ensures Ordered(DoResolve(cfg, s, fault))
  {
    var d := s.pipe.active.value;
    match Judge(cfg, s.deliveries[d], s.pipe.counters, |s.link.closed|, fault)
    case Drop => LeaveKeepsOrder(s, DoResolve(cfg, s, fault), Dropped);
    case RefuseOn(r) => LeaveKeepsOrder(s, DoResolve(cfg, s, fault), Refused);
    case HandOver => HandKeepsOrder(cfg, s, cfg.messages[s.deliveries[d].msg].counter);
  }

  lemma LeaveKeepsOrder(s: State, s': State, p: Phase)
    requires Ordered(s) && s.pipe.active.Some? && s.pipe.active.value < |s.phases| && p in {Dropped, Refused}
    requires s'.pipe == s.pipe.(active := None) && s'.deliveries == s.deliveries
    requires s'.phases == s.phases[s.pipe.active.value := p]
    ensures Ordered(s')
  {
  }

  lemma HandKeepsOrder(cfg: Config, s: State, counter: string)
    requires Ordered(s) && s.pipe.active.Some? && s.pipe.active.value < |s.phases|
    ensures Ordered(Hand(cfg, s, s.pipe.active.value, counter))
  {
    var d := s.pipe.active.value;
    var s' := Hand(cfg, s, d, counter);
    var h, h' := s.pipe.handed, s'.pipe.handed;
    assert h'[|h|].delivery == d;
    forall e | 0 <= e < |s'.phases| && s'.phases[e] in REACHED
      ensures exists i :: 0 <= i < |h'| && h'[i].delivery == e
    {
      if e != d {
        var i :| 0 <= i < |h| && h[i].delivery == e;
        assert h'[i].delivery == e;
      }
    }
  }

  lemma OrderedPreserved(cfg: Config, s: State, step: Step)
    requires Shape(cfg, s) && Enabled(cfg, s, step) && Ordered(s)
    ensures Ordered(Apply(cfg, s, step))
  {
    var s' := Apply(cfg, s, step);
    match step
    case Subscribe =>
    case Start =>
    case Deliver(m, first) => DeliverKeepsOrder(s, m, first);
    case Take => TakeKeepsOrder(s);
    case Resolve(fault) => ResolveKeepsOrder(cfg, s, fault);
    case HandlerOk(d, reply) => ListenerKeepsOrder(s, s', d, if reply then Replying else Finished);
    case HandlerFails(d) => ListenerKeepsOrder(s, s', d, BackoffOwed);
    case ReplyOk(d) => ListenerKeepsOrder(s, s', d, Finished);
    case ReplyFails(d) => ListenerKeepsOrder(s, s', d, BackoffPaid);
    case Timer(d) => ListenerKeepsOrder(s, s', d, if s.phases[d].BackoffPaid? then Overpaid else Finished);
    case Replace =>
  }

  lemma {:induction false} OrderedInRun(cfg: Config, tr: seq<State>, steps: seq<Step>, n: nat)
    requires IsRun(cfg, tr, steps) && n < |tr|
    ensures Shape(cfg, tr[n]) && Ordered(tr[n])
  {
    if n > 0 {
      OrderedInRun(cfg, tr, steps, n - 1);
      assert Next(cfg, tr[n - 1], steps[n - 1], tr[n]);
      ShapePreserved(cfg, tr[n - 1], steps[n - 1]);
      OrderedPreserved(cfg, tr[n - 1], steps[n - 1]);
    }
  }

  /**
   In every run: onMessage is called in arrival order and at most once per arrival, and an
   arrival it has not reached was refused, had no message, is still in the pipeline, or came
   before anyone was subscribed.
   */
  lemma HandedInArrivalOrder(cfg: Config, tr: seq<State>, steps: seq<Step>, n: nat)
    requires IsRun(cfg, tr, steps) && n < |tr|
    ensures forall i, j :: 0 <= i < j < |tr[n].pipe.handed| ==>
              tr[n].pipe.handed[i].delivery < tr[n].pipe.handed[j].delivery < |tr[n].deliveries|
    ensures forall d :: 0 <= d < |tr[n].deliveries| ==>
              ((exists i :: 0 <= i < |tr[n].pipe.handed| && tr[n].pipe.handed[i].delivery == d)
               <==> (d < |tr[n].phases| && tr[n].phases[d] !in {Lost, Queued, Checking, Dropped, Refused}))
  {
    OrderedInRun(cfg, tr, steps, n);
  }
}
