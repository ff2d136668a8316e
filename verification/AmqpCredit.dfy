/**
 Link credit is conserved: every credit ever granted is at a receiver, or stands for a delivery
 that has not given it back; only a reply that fails after its credit was given back adds one.
 */
module AmqpCredit {
  import opened Prelude
  import opened AmqpReceiver
  import opened AmqpOrder

  function Sum(s: seq<nat>): nat {
    if s == [] then 0 else Sum(s[..|s| - 1]) + s[|s| - 1]
  }

  /** How many deliveries are in one of the phases `ps`. */
  function Count(phases: seq<Phase>, ps: set<Phase>): nat {
    if phases == [] then 0
    else Count(phases[..|phases| - 1], ps) + (if phases[|phases| - 1] in ps then 1 else 0)
  }

  /** Phases of a delivery that used up a credit and has not given it back. */
  const OWING: set<Phase> := {Lost, Queued, Checking, Dropped, Handling, BackoffOwed}

  /** The number R of replies that failed after the credit was given back and whose timer fired. */
  function Overpayments(s: State): nat {
    Count(s.phases, {Overpaid})
  }

  function Unreplenished(s: State): nat {
    Count(s.phases, OWING)
  }

  /** Calls of add_credit(concurrentLimit): one per receiver, one by start(). */
  function Grants(s: State): nat {
    |s.link.closed| + 1 + (if s.link.started then 1 else 0)
  }

  /** All receivers together hold or are owed exactly what was granted, plus the overpayments. */
  ghost predicate Conserved(cfg: Config, s: State) {
    Sum(s.link.closed) + s.link.credit + Unreplenished(s) == Grants(s) * cfg.limit + Overpayments(s)
  }

  lemma {:induction false} SumAfterUpdate(s: seq<nat>, i: nat, v: nat)
    requires i < |s|
    ensures Sum(s[i := v]) == Sum(s) - s[i] + v
  {
    var n := |s| - 1;
    if i == n {
      assert s[i := v][..n] == s[..n];
    } else {
      assert s[i := v][..n] == s[..n][i := v];
      SumAfterUpdate(s[..n], i, v);
    }
  }

  lemma {:induction false} CountAfterUpdate(phases: seq<Phase>, d: nat, p: Phase, ps: set<Phase>)
    requires d < |phases|
    ensures Count(phases[d := p], ps) ==
            Count(phases, ps) - (if phases[d] in ps then 1 else 0) + (if p in ps then 1 else 0)
  {
    var n := |phases| - 1;
    if d == n {
      assert phases[d := p][..n] == phases[..n];
    } else {
      assert phases[d := p][..n] == phases[..n][d := p];
      CountAfterUpdate(phases[..n], d, p, ps);
    }
  }

  lemma CountAfterAppend(phases: seq<Phase>, p: Phase, ps: set<Phase>)
    ensures Count(phases + [p], ps) == Count(phases, ps) + (if p in ps then 1 else 0)
  {
    assert (phases + [p])[..|phases|] == phases;
  }

  lemma OneCreditMore(l: Link, r: nat)
    ensures Sum(AddCredit(l, r).closed) + AddCredit(l, r).credit == Sum(l.closed) + l.credit + 1
  {
    if r < |l.closed| {
      SumAfterUpdate(l.closed, r, l.closed[r] + 1);
    }
  }

  lemma PhaseChange(s: State, d: nat, p: Phase)
    requires d < |s.phases|
    ensures Count(s.phases[d := p], OWING) ==
            Unreplenished(s) - (if s.phases[d] in OWING then 1 else 0) + (if p in OWING then 1 else 0)
    ensures Count(s.phases[d := p], {Overpaid}) ==
            Overpayments(s) - (if s.phases[d].Overpaid? then 1 else 0) + (if p.Overpaid? then 1 else 0)
  {
    CountAfterUpdate(s.phases, d, p, OWING);
    CountAfterUpdate(s.phases, d, p, {Overpaid});
  }

  lemma DeliverConserves(cfg: Config, s: State, m: MsgId, first: bool)
    requires s.link.credit > 0 && Conserved(cfg, s)
    ensures Conserved(cfg, DoDeliver(s, m, first))
  {
    var p := if s.pipe.subscribed then Queued else Lost;
    CountAfterAppend(s.phases, p, OWING);
    CountAfterAppend(s.phases, p, {Overpaid});
  }

  /** A listener's step that gives a credit back, or pays one too many. */
  lemma GivingConserves(cfg: Config, s: State, s': State, d: nat, p: Phase)
    requires Conserved(cfg, s) && d < |s.phases| && s'.phases == s.phases[d := p]
    requires s'.link == AddCredit(s.link, |s.link.closed|)
    requires if s.phases[d] in OWING then p in {Replying, Finished} else s.phases[d] == BackoffPaid && p == Overpaid
    ensures Conserved(cfg, s')
  {
    PhaseChange(s, d, p);
    OneCreditMore(s.link, |s.link.closed|);
  }

  /** A step that moves a delivery between phases that owe alike. */
  lemma MovingConserves(cfg: Config, s: State, s': State, d: nat, p: Phase)
    requires Conserved(cfg, s) && d < |s.phases| && s'.phases == s.phases[d := p] && s'.link == s.link
    requires s.phases[d] != Overpaid && p != Overpaid && (s.phases[d] in OWING <==> p in OWING)
    ensures Conserved(cfg, s')
  {
    PhaseChange(s, d, p);
  }

  lemma ResolveConserves(cfg: Config, s: State, fault: bool)
    requires Shape(cfg, s) && s.pipe.active.Some? && Ordered(s) && Conserved(cfg, s)
    ensures Conserved(cfg, DoResolve(cfg, s, fault))
  {
    var d := s.pipe.active.value;
    match Judge(cfg, s.deliveries[d], s.pipe.counters, |s.link.closed|, fault)
    case Drop => MovingConserves(cfg, s, DoResolve(cfg, s, fault), d, Dropped);
    case RefuseOn(r) => PhaseChange(s, d, Refused); OneCreditMore(s.link, r);
    case HandOver => MovingConserves(cfg, s, DoResolve(cfg, s, fault), d, Handling);
  }

  lemma StartConserves(cfg: Config, s: State)
    requires Conserved(cfg, s) && !s.link.started
    ensures Conserved(cfg, s.(link := s.link.(started := true, credit := s.link.credit + cfg.limit)))
  {
    assert (Grants(s) + 1) * cfg.limit == Grants(s) * cfg.limit + cfg.limit;
  }

  lemma ReplaceConserves(cfg: Config, s: State)
    requires Conserved(cfg, s)
    ensures Conserved(cfg, DoReplace(cfg, s))
  {
    assert DoReplace(cfg, s).link.closed[..|s.link.closed|] == s.link.closed;
    assert (Grants(s) + 1) * cfg.limit == Grants(s) * cfg.limit + cfg.limit;
  }

  lemma ConservedPreserved(cfg: Config, s: State, step: Step)
    requires Shape(cfg, s) && Enabled(cfg, s, step) && Ordered(s) && Conserved(cfg, s)
    ensures Conserved(cfg, Apply(cfg, s, step))
  {
    var s' := Apply(cfg, s, step);
    match step
    case Subscribe =>
    case Start => StartConserves(cfg, s);
    case Deliver(m, first) => DeliverConserves(cfg, s, m, first);
    case Take => MovingConserves(cfg, s, s', s.pipe.queue[0], Checking);
    case Resolve(fault) => ResolveConserves(cfg, s, fault);
    case HandlerOk(d, reply) => GivingConserves(cfg, s, s', d, if reply then Replying else Finished);
    case HandlerFails(d) => MovingConserves(cfg, s, s', d, BackoffOwed);
    case ReplyOk(d) => MovingConserves(cfg, s, s', d, Finished);
    case ReplyFails(d) => MovingConserves(cfg, s, s', d, BackoffPaid);
    case Timer(d) => GivingConserves(cfg, s, s', d, if s.phases[d].BackoffPaid? then Overpaid else Finished);
    case Replace => ReplaceConserves(cfg, s);
  }

  lemma {:induction false} ConservedInRun(cfg: Config, tr: seq<State>, steps: seq<Step>, n: nat)
    requires IsRun(cfg, tr, steps) && n < |tr|
    ensures Conserved(cfg, tr[n])
  {
    if n > 0 {
      ConservedInRun(cfg, tr, steps, n - 1);
      assert Next(cfg, tr[n - 1], steps[n - 1], tr[n]);
      OrderedInRun(cfg, tr, steps, n - 1);
      ConservedPreserved(cfg, tr[n - 1], steps[n - 1]);
    }
  }

  /** Within the first receiver's life after start(): credit and unreplenished deliveries are 2L + R. */
  lemma ExactCredit(cfg: Config, tr: seq<State>, steps: seq<Step>, n: nat)
    requires IsRun(cfg, tr, steps) && n < |tr|
    requires tr[n].link.started && |tr[n].link.closed| == 0
    ensures tr[n].link.credit + Unreplenished(tr[n]) == 2 * cfg.limit + Overpayments(tr[n])
  {
    ConservedInRun(cfg, tr, steps, n);
  }

  /** After k replacements the current receiver and what is still owed stay within (2 + k) * L + R. */
  lemma CreditBound(cfg: Config, tr: seq<State>, steps: seq<Step>, n: nat)
    requires IsRun(cfg, tr, steps) && n < |tr|
    ensures tr[n].link.credit + Unreplenished(tr[n]) <= (2 + |tr[n].link.closed|) * cfg.limit + Overpayments(tr[n])
  {
    ConservedInRun(cfg, tr, steps, n);
    assert Grants(tr[n]) * cfg.limit <= (2 + |tr[n].link.closed|) * cfg.limit;
  }

  ghost predicate NoReplies(s: State) {
    forall d :: 0 <= d < |s.phases| ==> s.phases[d] !in {Replying, BackoffPaid, Overpaid}
  }

  lemma {:induction false} CountZero(phases: seq<Phase>, ps: set<Phase>)
    requires forall d :: 0 <= d < |phases| ==> phases[d] !in ps
    ensures Count(phases, ps) == 0
  {
    if phases != [] {
      CountZero(phases[..|phases| - 1], ps);
    }
  }

  lemma {:induction false} NoRepliesInRun(cfg: Config, tr: seq<State>, steps: seq<Step>, n: nat)
    requires IsRun(cfg, tr, steps) && n < |tr| && !cfg.replies
    ensures NoReplies(tr[n])
  {
    if n > 0 {
      NoRepliesInRun(cfg, tr, steps, n - 1);
      assert Next(cfg, tr[n - 1], steps[n - 1], tr[n]);
    }
  }

  /** A listener that never replies conserves credit exactly, through every reconnect. */
  lemma ExactWithoutReplies(cfg: Config, tr: seq<State>, steps: seq<Step>, n: nat)
    requires IsRun(cfg, tr, steps) && n < |tr| && !cfg.replies
    ensures Sum(tr[n].link.closed) + tr[n].link.credit + Unreplenished(tr[n]) == Grants(tr[n]) * cfg.limit
  {
    ConservedInRun(cfg, tr, steps, n);
    NoRepliesInRun(cfg, tr, steps, n);
    CountZero(tr[n].phases, {Overpaid});
  }

  // ---- The least credit of the current receiver ----

  /** How many deliveries of receiver number `r` have not given their credit back. */
  function OwedBy(deliveries: seq<Delivery>, phases: seq<Phase>, r: nat): nat
    requires |deliveries| == |phases|
  {
    if phases == [] then 0
    else
      var n := |phases| - 1;
      OwedBy(deliveries[..n], phases[..n], r) + (if deliveries[n].receiver == r && phases[n] in OWING then 1 else 0)
  }

  function OwedByCurrent(s: State): nat
    requires |s.deliveries| == |s.phases|
  {
    OwedBy(s.deliveries, s.phases, |s.link.closed|)
  }

  lemma {:induction false} OwedAfterUpdate(deliveries: seq<Delivery>, phases: seq<Phase>, r: nat, d: nat, p: Phase)
    requires |deliveries| == |phases| && d < |phases|
    ensures OwedBy(deliveries, phases[d := p], r) ==
            OwedBy(deliveries, phases, r)
            - (if deliveries[d].receiver == r && phases[d] in OWING then 1 else 0)
            + (if deliveries[d].receiver == r && p in OWING then 1 else 0)
  {
    var n := |phases| - 1;
    if d == n {
      assert phases[d := p][..n] == phases[..n];
    } else {
      assert phases[d := p][..n] == phases[..n][d := p];
      OwedAfterUpdate(deliveries[..n], phases[..n], r, d, p);
    }
  }

  lemma OwedAfterAppend(deliveries: seq<Delivery>, phases: seq<Phase>, r: nat, dlv: Delivery, p: Phase)
    requires |deliveries| == |phases|
    ensures OwedBy(deliveries + [dlv], phases + [p], r) ==
            OwedBy(deliveries, phases, r) + (if dlv.receiver == r && p in OWING then 1 else 0)
  {
    assert (deliveries + [dlv])[..|deliveries|] == deliveries;
    assert (phases + [p])[..|phases|] == phases;
  }

  lemma {:induction false} NothingOwedYet(deliveries: seq<Delivery>, phases: seq<Phase>, r: nat)
    requires |deliveries| == |phases| && forall d :: 0 <= d < |deliveries| ==> deliveries[d].receiver < r
    ensures OwedBy(deliveries, phases, r) == 0
  {
    if phases != [] {
      NothingOwedYet(deliveries[..|phases| - 1], phases[..|phases| - 1], r);
    }
  }

  ghost predicate Floored(cfg: Config, s: State) {
    |s.deliveries| == |s.phases| && s.link.credit + OwedByCurrent(s) >= cfg.limit
  }

  /** A step that moves one delivery keeps the floor if it pays when the delivery stops owing. */
  lemma MoveKeepsFloor(cfg: Config, s: State, s': State, d: nat, p: Phase)
    requires Floored(cfg, s) && d < |s.phases| && s'.deliveries == s.deliveries && s'.phases == s.phases[d := p]
    requires |s'.link.closed| == |s.link.closed| && s'.link.credit >= s.link.credit
    requires s.deliveries[d].receiver == |s.link.closed| && s.phases[d] in OWING && p !in OWING ==>
               s'.link.credit > s.link.credit
    ensures Floored(cfg, s')
  {
    OwedAfterUpdate(s.deliveries, s.phases, |s.link.closed|, d, p);
  }

  lemma DeliverKeepsFloor(cfg: Config, s: State, m: MsgId, first: bool)
    requires Floored(cfg, s) && s.link.credit > 0
    ensures Floored(cfg, DoDeliver(s, m, first))
  {
    var p := if s.pipe.subscribed then Queued else Lost;
    OwedAfterAppend(s.deliveries, s.phases, |s.link.closed|, Delivery(m, |s.link.closed|, first), p);
  }

  lemma FlooredPreserved(cfg: Config, s: State, step: Step)
    requires Shape(cfg, s) && Enabled(cfg, s, step) && Ordered(s) && Floored(cfg, s)
    ensures Floored(cfg, Apply(cfg, s, step))
  {
    var s' := Apply(cfg, s, step);
    match step
    case Subscribe =>
    case Start =>
    case Deliver(m, first) => DeliverKeepsFloor(cfg, s, m, first);
    case Take => MoveKeepsFloor(cfg, s, s', s.pipe.queue[0], Checking);
    case Resolve(_) => MoveKeepsFloor(cfg, s, s', s.pipe.active.value, s'.phases[s.pipe.active.value]);
    case HandlerOk(d, _) => MoveKeepsFloor(cfg, s, s', d, s'.phases[d]);
    case HandlerFails(d) => MoveKeepsFloor(cfg, s, s', d, BackoffOwed);
    case ReplyOk(d) => MoveKeepsFloor(cfg, s, s', d, Finished);
    case ReplyFails(d) => MoveKeepsFloor(cfg, s, s', d, BackoffPaid);
    case Timer(d) => MoveKeepsFloor(cfg, s, s', d, s'.phases[d]);
    case Replace => NothingOwedYet(s'.deliveries, s'.phases, |s'.link.closed|);
  }

  lemma {:induction false} FlooredInRun(cfg: Config, tr: seq<State>, steps: seq<Step>, n: nat)
    requires IsRun(cfg, tr, steps) && n < |tr|
    ensures Floored(cfg, tr[n])
  {
    if n > 0 {
      FlooredInRun(cfg, tr, steps, n - 1);
      OrderedInRun(cfg, tr, steps, n - 1);
      assert Next(cfg, tr[n - 1], steps[n - 1], tr[n]);
      FlooredPreserved(cfg, tr[n - 1], steps[n - 1]);
    }
  }

  /**
   The current receiver is never starved by what happened to others: in every run, through every
   reconnect, its credit and what its own deliveries still owe make up at least the limit.
   */
  lemma CreditFloor(cfg: Config, tr: seq<State>, steps: seq<Step>, n: nat)
    requires IsRun(cfg, tr, steps) && n < |tr|
    ensures |tr[n].deliveries| == |tr[n].phases| && tr[n].link.credit + OwedByCurrent(tr[n]) >= cfg.limit
  {
    FlooredInRun(cfg, tr, steps, n);
  }

  // ---- A run with an overpaid credit ----

  const ONE_REPLY := Config(1, 5, false, true, map[0 := Message("m", WellFormed)])

  lemma ReplyUnderWay() returns (tr: seq<State>, steps: seq<Step>)
    ensures IsRun(ONE_REPLY, tr, steps) && Shape(ONE_REPLY, tr[|tr| - 1])
    ensures var s := tr[|tr| - 1]; s.phases == [Replying] && s.link == Link([], 2, true)
  {
    tr, steps := [Init(ONE_REPLY)], [];
    tr, steps := Advance(ONE_REPLY, tr, steps, Subscribe);
    tr, steps := Advance(ONE_REPLY, tr, steps, Start);
    tr, steps := Advance(ONE_REPLY, tr, steps, Deliver(0, true));
    tr, steps := Advance(ONE_REPLY, tr, steps, Take);
    tr, steps := Advance(ONE_REPLY, tr, steps, Resolve(false));
    tr, steps := Advance(ONE_REPLY, tr, steps, HandlerOk(0, true));
  }

  /** One message whose reply fails leaves the receiver with one credit more than it was granted. */
  lemma FailedReplyOverpays() returns (tr: seq<State>, steps: seq<Step>)
    ensures IsRun(ONE_REPLY, tr, steps)
    ensures var s := tr[|tr| - 1];
            s.link.credit == 2 * ONE_REPLY.limit + 1 && Unreplenished(s) == 0 && Overpayments(s) == 1
  {
    tr, steps := ReplyUnderWay();
    tr, steps := Advance(ONE_REPLY, tr, steps, ReplyFails(0));
    tr, steps := Advance(ONE_REPLY, tr, steps, Timer(0));
    var s := tr[|tr| - 1];
    assert s.phases == [Overpaid] && s.phases[..0] == [];
    assert Count([], OWING) == 0 && Count([], {Overpaid}) == 0;
  }
}
