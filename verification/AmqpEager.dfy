/**
 Consumers that accept before they handle: how often a message reaches onMessage, through any
 reconnects, and exactly when that is more than once.
 */
module AmqpEager {
  import opened Prelude
  import opened AmqpReceiver
  import opened AmqpOrder
  import opened AmqpDelivery

  /** The delivery handed over came on a receiver that has been replaced since. */
  ghost predicate StaleHandOver(cfg: Config, s: State, step: Step, m: MsgId) {
    HandsOver(cfg, s, step, m) && s.deliveries[s.pipe.active.value].receiver < |s.link.closed|
  }

  /** The number of stale hand-overs of a message before the `n`-th state. */
  ghost function Stale(cfg: Config, tr: seq<State>, steps: seq<Step>, n: nat, m: MsgId): nat
    requires n <= |steps| < |tr|
  {
    if n == 0 then 0
    else Stale(cfg, tr, steps, n - 1, m) + (if StaleHandOver(cfg, tr[n - 1], steps[n - 1], m) then 1 else 0)
  }

  function Accepted(s: State, m: MsgId): nat {
    if m in s.broker.accepted then 1 else 0
  }

  /** A delivery still in the pipeline is unsettled exactly if its receiver is the current one. */
  ghost predicate CurrentUnsettled(s: State) {
    && |s.deliveries| == |s.phases|
    && forall d :: 0 <= d < |s.phases| ==>
         && s.deliveries[d].receiver <= |s.link.closed|
         && (s.phases[d] in {Queued, Checking} ==>
               (d in s.broker.unsettled <==> s.deliveries[d].receiver == |s.link.closed|))
  }

  /** A step that takes delivery `d` out of the pipeline, or moves one that has left it, and settles at most `d`. */
  lemma SettlingKeepsCurrent(s: State, s': State, d: nat, p: Phase)
    requires CurrentUnsettled(s) && d < |s.phases| && p !in {Queued, Checking}
    requires s'.deliveries == s.deliveries && s'.phases == s.phases[d := p] && |s'.link.closed| == |s.link.closed|
    requires s'.broker in {s.broker, Accept(s.broker, d), Reject(s.broker, d), Release(s.broker, d)}
    ensures CurrentUnsettled(s')
  {
  }

  lemma DeliverKeepsCurrent(s: State, m: MsgId, first: bool)
    requires CurrentUnsettled(s) && s.link.credit > 0
    ensures CurrentUnsettled(DoDeliver(s, m, first))
  {
  }

  lemma TakeKeepsCurrent(s: State)
    requires CurrentUnsettled(s) && |s.pipe.queue| > 0 && InPhase(s, s.pipe.queue[0], Queued)
    ensures CurrentUnsettled(DoTake(s))
  {
  }

  lemma CurrentUnsettledPreserved(cfg: Config, s: State, step: Step)
    requires Shape(cfg, s) && Enabled(cfg, s, step) && Buffered(s) && CurrentUnsettled(s)
    ensures CurrentUnsettled(Apply(cfg, s, step))
  {
    var s' := Apply(cfg, s, step);
    match step
    case Deliver(m, first) => DeliverKeepsCurrent(s, m, first);
    case Take => TakeKeepsCurrent(s);
    case Resolve(fault) => SettlingKeepsCurrent(s, s', s.pipe.active.value, s'.phases[s.pipe.active.value]);
    case HandlerOk(d, reply) => SettlingKeepsCurrent(s, s', d, s'.phases[d]);
    case Timer(d) => SettlingKeepsCurrent(s, s', d, s'.phases[d]);
    case _ =>
  }

  lemma {:induction false} CurrentUnsettledInRun(cfg: Config, tr: seq<State>, steps: seq<Step>, n: nat)
    requires IsRun(cfg, tr, steps) && n < |tr|
    ensures CurrentUnsettled(tr[n])
  {
    if n > 0 {
      CurrentUnsettledInRun(cfg, tr, steps, n - 1);
      OrderedInRun(cfg, tr, steps, n - 1);
      assert Next(cfg, tr[n - 1], steps[n - 1], tr[n]);
      CurrentUnsettledPreserved(cfg, tr[n - 1], steps[n - 1]);
    }
  }

  lemma CurrentInRun(cfg: Config, tr: seq<State>, steps: seq<Step>, n: nat)
    requires IsRun(cfg, tr, steps) && n < |tr|
    ensures Moded(cfg, tr[n]) && CurrentUnsettled(tr[n])
  {
    ModedInRun(cfg, tr, steps, n);
    CurrentUnsettledInRun(cfg, tr, steps, n);
  }

  /** An eager consumer accepts only when it hands over, and then exactly if the delivery is not stale. */
  lemma EagerAcceptance(cfg: Config, s: State, step: Step, m: MsgId)
    requires Moded(cfg, s) && CurrentUnsettled(s) && Enabled(cfg, s, step) && cfg.eager
    ensures Accepted(Apply(cfg, s, step), m) ==
            Accepted(s, m) + (if HandsOver(cfg, s, step, m) && !StaleHandOver(cfg, s, step, m) then 1 else 0)
    ensures HandsOver(cfg, s, step, m) ==> Accepted(s, m) == 0
  {
    if step.Resolve? {
      var d := s.pipe.active.value;
      assert InPhase(s, d, Checking);
      assert d in s.broker.unsettled ==> s.broker.unsettled[d] == s.deliveries[d].msg;
    }
  }

  /** In every eager run, through reconnects: a message's onMessage calls are the stale ones and the accepting one. */
  lemma {:induction false} EagerHands(cfg: Config, tr: seq<State>, steps: seq<Step>, n: nat, m: MsgId)
    requires IsRun(cfg, tr, steps) && n < |tr| && cfg.eager
    ensures Hands(tr[n], m) == Stale(cfg, tr, steps, n, m) + Accepted(tr[n], m)
  {
    if n > 0 {
      EagerHands(cfg, tr, steps, n - 1, m);
      assert Next(cfg, tr[n - 1], steps[n - 1], tr[n]);
      CurrentInRun(cfg, tr, steps, n - 1);
      HandsStep(cfg, tr[n - 1], steps[n - 1], m);
      EagerAcceptance(cfg, tr[n - 1], steps[n - 1], m);
    }
  }

  ghost predicate StaleBefore(cfg: Config, tr: seq<State>, steps: seq<Step>, n: nat, m: MsgId)
    requires n <= |steps| < |tr|
  {
    exists j :: 0 <= j < n && StaleHandOver(cfg, tr[j], steps[j], m)
  }

  lemma {:induction false} StaleIsPositive(cfg: Config, tr: seq<State>, steps: seq<Step>, n: nat, m: MsgId)
    requires n <= |steps| < |tr|
    ensures Stale(cfg, tr, steps, n, m) > 0 <==> StaleBefore(cfg, tr, steps, n, m)
  {
    if n > 0 {
      StaleIsPositive(cfg, tr, steps, n - 1, m);
    }
  }

  /** A hand-over is a repeated one if and only if an earlier hand-over of its message was stale. */
  lemma RepeatIff(cfg: Config, tr: seq<State>, steps: seq<Step>, i: nat, m: MsgId)
    requires IsRun(cfg, tr, steps) && i < |steps| && cfg.eager && HandsOver(cfg, tr[i], steps[i], m)
    ensures Hands(tr[i], m) > 0 <==> StaleBefore(cfg, tr, steps, i, m)
  {
    EagerHands(cfg, tr, steps, i, m);
    CurrentInRun(cfg, tr, steps, i);
    EagerAcceptance(cfg, tr[i], steps[i], m);
    StaleIsPositive(cfg, tr, steps, i, m);
  }

  /** A stale hand-over before step `i`, in which the message is handed over again. */
  ghost predicate Repeated(cfg: Config, tr: seq<State>, steps: seq<Step>, j: nat, i: nat, m: MsgId)
    requires |tr| == |steps| + 1
  {
    j < i < |steps| && StaleHandOver(cfg, tr[j], steps[j], m) && HandsOver(cfg, tr[i], steps[i], m)
  }

  ghost predicate RepeatedBefore(cfg: Config, tr: seq<State>, steps: seq<Step>, n: nat, m: MsgId)
    requires |tr| == |steps| + 1
  {
    exists j, i :: 0 <= j < i < n && Repeated(cfg, tr, steps, j, i, m)
  }

  lemma OneStepMore(cfg: Config, tr: seq<State>, steps: seq<Step>, n: nat, m: MsgId)
    requires |tr| == |steps| + 1 && n < |steps|
    ensures RepeatedBefore(cfg, tr, steps, n + 1, m) <==>
              || RepeatedBefore(cfg, tr, steps, n, m)
              || (HandsOver(cfg, tr[n], steps[n], m) && StaleBefore(cfg, tr, steps, n, m))
  {
    if HandsOver(cfg, tr[n], steps[n], m) && StaleBefore(cfg, tr, steps, n, m) {
      var j :| 0 <= j < n && StaleHandOver(cfg, tr[j], steps[j], m);
      assert Repeated(cfg, tr, steps, j, n, m);
    }
  }

  lemma OneHandMoreThan(cfg: Config, tr: seq<State>, steps: seq<Step>, n: nat, m: MsgId)
    requires IsRun(cfg, tr, steps) && n < |steps| && cfg.eager
    ensures Hands(tr[n + 1], m) > 1 <==>
              Hands(tr[n], m) > 1 || (HandsOver(cfg, tr[n], steps[n], m) && StaleBefore(cfg, tr, steps, n, m))
  {
    assert Next(cfg, tr[n], steps[n], tr[n + 1]);
    HandsStep(cfg, tr[n], steps[n], m);
    if HandsOver(cfg, tr[n], steps[n], m) {
      RepeatIff(cfg, tr, steps, n, m);
    }
  }

  /**
   Exactly when at-most-once fails in an eager run: a message reaches onMessage more than once if
   and only if a delivery of it is handed over after its receiver was replaced, and another later.
   */
  lemma {:induction false} HandledTwiceIff(cfg: Config, tr: seq<State>, steps: seq<Step>, n: nat, m: MsgId)
    requires IsRun(cfg, tr, steps) && n < |tr| && cfg.eager
    ensures Hands(tr[n], m) > 1 <==> RepeatedBefore(cfg, tr, steps, n, m)
  {
    if n > 0 {
      HandledTwiceIff(cfg, tr, steps, n - 1, m);
      OneHandMoreThan(cfg, tr, steps, n - 1, m);
      OneStepMore(cfg, tr, steps, n - 1, m);
    }
  }

  lemma ClosedGrows(cfg: Config, s: State, step: Step)
    requires Shape(cfg, s) && Enabled(cfg, s, step)
    ensures |s.link.closed| <= |Apply(cfg, s, step).link.closed|
  {
  }

  lemma {:induction false} NothingStale(cfg: Config, tr: seq<State>, steps: seq<Step>, n: nat, m: MsgId)
    requires IsRun(cfg, tr, steps) && n < |tr| && |tr[n].link.closed| == 0
    ensures Stale(cfg, tr, steps, n, m) == 0
  {
    if n > 0 {
      assert Next(cfg, tr[n - 1], steps[n - 1], tr[n]);
      ClosedGrows(cfg, tr[n - 1], steps[n - 1]);
      NothingStale(cfg, tr, steps, n - 1, m);
    }
  }

  /** In particular at-most-once holds as long as there is no reconnect. */
  lemma EagerModeAtMostOnce(cfg: Config, tr: seq<State>, steps: seq<Step>, n: nat, m: MsgId)
    requires IsRun(cfg, tr, steps) && n < |tr| && cfg.eager && |tr[n].link.closed| == 0
    ensures Hands(tr[n], m) <= 1
  {
    EagerHands(cfg, tr, steps, n, m);
    NothingStale(cfg, tr, steps, n, m);
  }

  // ---- After a reconnect ----

  /** The pipeline takes the only buffered delivery and hands it over. */
  lemma HandNext(cfg: Config, tr: seq<State>, steps: seq<Step>, d: nat) returns (tr': seq<State>, steps': seq<Step>)
    requires IsRun(cfg, tr, steps) && Shape(cfg, tr[|tr| - 1]) && cfg.maxRedeliver == 5
    requires var s := tr[|tr| - 1];
             && s.pipe.active.None? && |s.pipe.queue| > 0 && s.pipe.queue[0] == d
             && cfg.messages[s.deliveries[d].msg] == Message("m", WellFormed) && CountOf(s.pipe.counters, "m") <= 1
    ensures IsRun(cfg, tr', steps') && Shape(cfg, tr'[|tr'| - 1])
    ensures var s, s' := tr[|tr| - 1], tr'[|tr'| - 1];
            && s'.pipe.active.None? && s'.pipe.queue == s.pipe.queue[1..]
            && s'.link == s.link && s'.deliveries == s.deliveries
            && s'.pipe.handed == s.pipe.handed + [Handing(d, s.deliveries[d].msg)]
            && CountOf(s'.pipe.counters, "m") == CountOf(s.pipe.counters, "m") + 1
  {
    tr', steps' := Advance(cfg, tr, steps, Take);
    tr', steps' := Advance(cfg, tr', steps', Resolve(false));
  }

  const ONE_MESSAGE := Config(1, 5, true, false, map[0 := Message("m", WellFormed)])

  lemma DeliveredTwice() returns (tr: seq<State>, steps: seq<Step>)
    ensures IsRun(ONE_MESSAGE, tr, steps) && Shape(ONE_MESSAGE, tr[|tr| - 1])
    ensures var s := tr[|tr| - 1];
            && s.pipe == Pipe(true, [0, 1], None, map[], []) && |s.link.closed| == 1
            && s.deliveries == [Delivery(0, 0, true), Delivery(0, 1, false)]
  {
    tr, steps := [Init(ONE_MESSAGE)], [];
    tr, steps := Advance(ONE_MESSAGE, tr, steps, Subscribe);
    tr, steps := Advance(ONE_MESSAGE, tr, steps, Deliver(0, true));
    tr, steps := Advance(ONE_MESSAGE, tr, steps, Replace);
    assert 0 in tr[|tr| - 1].broker.waiting;
    tr, steps := Advance(ONE_MESSAGE, tr, steps, Deliver(0, false));
  }

  /** Across a reconnect at-most-once fails: a delivery buffered from the old receiver doubles the call. */
  lemma ReconnectHandsTwice() returns (tr: seq<State>, steps: seq<Step>)
    ensures IsRun(ONE_MESSAGE, tr, steps) && ONE_MESSAGE.eager && |tr[|tr| - 1].link.closed| == 1
    ensures Hands(tr[|tr| - 1], 0) == 2
  {
    tr, steps := DeliveredTwice();
    tr, steps := HandNext(ONE_MESSAGE, tr, steps, 0);
    tr, steps := HandNext(ONE_MESSAGE, tr, steps, 1);
    OneHandMore([], Handing(0, 0));
    OneHandMore([Handing(0, 0)], Handing(1, 0));
    assert [] + [Handing(0, 0)] == [Handing(0, 0)];
  }
}
