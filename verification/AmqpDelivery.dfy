/**
 What becomes of a message: the broker never loses or doubles it, a settled message never
 reaches onMessage again, and a poison message is dead-lettered after a bounded number of tries.
 */
module AmqpDelivery {
  import opened Prelude
  import opened AmqpReceiver
  import opened AmqpOrder

  // ---- Conservation ----

  /** The four places a message can be in share nothing and together hold every message. */
  ghost predicate Partitioned(cfg: Config, b: Broker) {
    && b.waiting !! b.unsettled.Values !! b.accepted !! b.dead
    && b.waiting + b.unsettled.Values + b.accepted + b.dead == cfg.messages.Keys
  }

  /** A message is out on its latest delivery only. */
  ghost predicate OutOnLatest(s: State) {
    forall d :: d in s.broker.unsettled ==>
      && d < |s.deliveries|
      && s.deliveries[d].msg == s.broker.unsettled[d]
      && forall e :: d < e < |s.deliveries| ==> s.deliveries[e].msg != s.broker.unsettled[d]
  }

  ghost predicate Kept(cfg: Config, s: State) {
    Partitioned(cfg, s.broker) && OutOnLatest(s)
  }

  /** Moving one message from `unsettled` to another place. */
  lemma SettlingKeepsPartition(cfg: Config, b: Broker, d: nat)
    requires Partitioned(cfg, b)
    requires forall e, f :: e in b.unsettled && f in b.unsettled && e != f ==> b.unsettled[e] != b.unsettled[f]
    ensures Partitioned(cfg, Accept(b, d)) && Partitioned(cfg, Reject(b, d)) && Partitioned(cfg, Release(b, d))
  {
    if d in b.unsettled {
      var m := b.unsettled[d];
      var rest := b.unsettled - {d};
      assert m in b.unsettled.Values;
      assert rest.Values == b.unsettled.Values - {m} by {
        forall x | x in b.unsettled.Values - {m} ensures x in rest.Values {
          var e :| e in b.unsettled && b.unsettled[e] == x;
          assert e in rest;
        }
      }
    }
  }

  lemma DeliverKeepsMessages(cfg: Config, s: State, m: MsgId, first: bool)
    requires Kept(cfg, s) && m in s.broker.waiting && s.link.credit > 0
    ensures Kept(cfg, DoDeliver(s, m, first))
  {
    var d := |s.deliveries|;
    var b, b' := s.broker, DoDeliver(s, m, first).broker;
    assert d !in b.unsettled;
    assert b'.unsettled.Values == b.unsettled.Values + {m} by {
      assert b'.unsettled[d] == m;
      forall x | x in b.unsettled.Values ensures x in b'.unsettled.Values {
        var e :| e in b.unsettled && b.unsettled[e] == x;
        assert b'.unsettled[e] == x;
      }
    }
    forall e | e in b.unsettled ensures b.unsettled[e] != m {
      assert b.unsettled[e] in b.unsettled.Values;
    }
  }

  /** A step that leaves the deliveries alone and settles at most delivery `d`. */
  lemma SettlingKeepsMessages(cfg: Config, s: State, s': State, d: nat)
    requires Kept(cfg, s) && s'.deliveries == s.deliveries
    requires s'.broker in {s.broker, Accept(s.broker, d), Reject(s.broker, d), Release(s.broker, d)}
    ensures Kept(cfg, s')
  {
    SettlingKeepsPartition(cfg, s.broker, d);
  }

  lemma ReplaceKeepsMessages(cfg: Config, s: State)
    requires Kept(cfg, s)
    ensures Kept(cfg, DoReplace(cfg, s))
  {
  }

  lemma KeptPreserved(cfg: Config, s: State, step: Step)
    requires Shape(cfg, s) && Enabled(cfg, s, step) && Kept(cfg, s)
    ensures Kept(cfg, Apply(cfg, s, step))
  {
    var s' := Apply(cfg, s, step);
    match step
    case Deliver(m, first) => DeliverKeepsMessages(cfg, s, m, first);
    case Resolve(fault) => SettlingKeepsMessages(cfg, s, s', s.pipe.active.value);
    case HandlerOk(d, reply) => SettlingKeepsMessages(cfg, s, s', d);
    case Timer(d) => SettlingKeepsMessages(cfg, s, s', d);
    case Replace => ReplaceKeepsMessages(cfg, s);
    case _ => SettlingKeepsMessages(cfg, s, s', 0);
  }

  lemma {:induction false} KeptInRun(cfg: Config, tr: seq<State>, steps: seq<Step>, n: nat)
    requires IsRun(cfg, tr, steps) && n < |tr|
    ensures Kept(cfg, tr[n])
  {
    if n > 0 {
      KeptInRun(cfg, tr, steps, n - 1);
      assert Next(cfg, tr[n - 1], steps[n - 1], tr[n]);
      KeptPreserved(cfg, tr[n - 1], steps[n - 1]);
    }
  }

  /** In every run each message is in exactly one place, and out on at most one delivery. */
  lemma MessageConservation(cfg: Config, tr: seq<State>, steps: seq<Step>, n: nat, m: MsgId)
    requires IsRun(cfg, tr, steps) && n < |tr| && m in cfg.messages
    ensures var b := tr[n].broker;
            || (m in b.waiting && m !in b.unsettled.Values && m !in b.accepted && m !in b.dead)
            || (m !in b.waiting && m in b.unsettled.Values && m !in b.accepted && m !in b.dead)
            || (m !in b.waiting && m !in b.unsettled.Values && m in b.accepted && m !in b.dead)
            || (m !in b.waiting && m !in b.unsettled.Values && m !in b.accepted && m in b.dead)
    ensures forall d, e | d in tr[n].broker.unsettled && e in tr[n].broker.unsettled ::
              tr[n].broker.unsettled[d] == m && tr[n].broker.unsettled[e] == m ==> d == e
  {
    KeptInRun(cfg, tr, steps, n);
    assert m in tr[n].broker.waiting + tr[n].broker.unsettled.Values + tr[n].broker.accepted + tr[n].broker.dead;
  }

  // ---- Delivery modes ----

  /** A message that is accepted or dead has no delivery left in the pipeline. */
  ghost predicate SettledLeft(s: State) {
    |s.deliveries| == |s.phases| &&
    forall d :: 0 <= d < |s.phases| && s.phases[d] in {Queued, Checking} ==>
      s.deliveries[d].msg !in s.broker.accepted + s.broker.dead
  }

  /** Every pending delivery is younger than `d`. */
  ghost predicate OlderThanPending(s: State, d: nat) {
    forall e :: 0 <= e < |s.phases| && s.phases[e] in {Queued, Checking} && e != d ==> d < e
  }

  lemma HandedAreOlder(s: State, d: nat)
    requires Ordered(s) && d < |s.phases| && (s.phases[d] in REACHED || s.phases[d] == Checking)
    ensures OlderThanPending(s, d)
  {
    if s.phases[d] in REACHED {
      var i :| 0 <= i < |s.pipe.handed| && s.pipe.handed[i].delivery == d;
    }
  }

  lemma SettlingLeaves(s: State, s': State, d: nat, p: Phase)
    requires SettledLeft(s) && OutOnLatest(s) && OlderThanPending(s, d) && d < |s.phases|
    requires s'.deliveries == s.deliveries && s'.phases == s.phases[d := p] && p !in {Queued, Checking}
    requires s'.broker in {s.broker, Accept(s.broker, d), Reject(s.broker, d), Release(s.broker, d)}
    ensures SettledLeft(s')
  {
  }

  lemma SettledLeftPreserved(cfg: Config, s: State, step: Step)
    requires Shape(cfg, s) && Enabled(cfg, s, step) && Ordered(s) && Kept(cfg, s) && SettledLeft(s)
    ensures SettledLeft(Apply(cfg, s, step))
  {
    var s' := Apply(cfg, s, step);
    match step
    case Resolve(fault) =>
      var d := s.pipe.active.value;
      HandedAreOlder(s, d);
      SettlingLeaves(s, s', d, s'.phases[d]);
    case HandlerOk(d, reply) =>
      HandedAreOlder(s, d);
      SettlingLeaves(s, s', d, s'.phases[d]);
    case Timer(d) =>
      HandedAreOlder(s, d);
      SettlingLeaves(s, s', d, s'.phases[d]);
    case _ =>
  }

  /** Accepted implies completed, for a listener that accepts late. */
  ghost predicate AcceptedCompleted(cfg: Config, s: State) {
    !cfg.eager ==> s.broker.accepted <= s.completed
  }

  ghost predicate Moded(cfg: Config, s: State) {
    Shape(cfg, s) && Ordered(s) && Kept(cfg, s) && SettledLeft(s) && AcceptedCompleted(cfg, s)
  }

  lemma AcceptedCompletedPreserved(cfg: Config, s: State, step: Step)
    requires Shape(cfg, s) && Enabled(cfg, s, step) && OutOnLatest(s) && AcceptedCompleted(cfg, s)
    ensures AcceptedCompleted(cfg, Apply(cfg, s, step))
  {
  }

  lemma ModedPreserved(cfg: Config, s: State, step: Step)
    requires Moded(cfg, s) && Enabled(cfg, s, step)
    ensures Moded(cfg, Apply(cfg, s, step))
  {
    ShapePreserved(cfg, s, step);
    OrderedPreserved(cfg, s, step);
    KeptPreserved(cfg, s, step);
    SettledLeftPreserved(cfg, s, step);
    AcceptedCompletedPreserved(cfg, s, step);
  }

  lemma {:induction false} ModedInRun(cfg: Config, tr: seq<State>, steps: seq<Step>, n: nat)
    requires IsRun(cfg, tr, steps) && n < |tr|
    ensures Moded(cfg, tr[n])
  {
    if n == 0 {
      KeptInRun(cfg, tr, steps, 0);
      OrderedInRun(cfg, tr, steps, 0);
    } else {
      ModedInRun(cfg, tr, steps, n - 1);
      assert Next(cfg, tr[n - 1], steps[n - 1], tr[n]);
      ModedPreserved(cfg, tr[n - 1], steps[n - 1]);
    }
  }

  /** At least once: with late acceptance an accepted message has had an onMessage call that resolved. */
  lemma LateModeAtLeastOnce(cfg: Config, tr: seq<State>, steps: seq<Step>, n: nat, m: MsgId)
    requires IsRun(cfg, tr, steps) && n < |tr| && !cfg.eager && m in tr[n].broker.accepted
    ensures m in tr[n].completed
  {
    ModedInRun(cfg, tr, steps, n);
  }

  /** In step `k` an onMessage call for message `m` resolves. */
  ghost predicate ResolvesAt(tr: seq<State>, steps: seq<Step>, k: nat, m: MsgId)
    requires k < |steps| < |tr|
  {
    steps[k].HandlerOk? && steps[k].d < |tr[k].deliveries| && tr[k].deliveries[steps[k].d].msg == m
  }

  /** `completed` are exactly the messages of which an onMessage call has resolved. */
  lemma {:induction false} CompletedIff(cfg: Config, tr: seq<State>, steps: seq<Step>, n: nat, m: MsgId)
    requires IsRun(cfg, tr, steps) && n < |tr|
    ensures m in tr[n].completed <==> exists k :: 0 <= k < n && ResolvesAt(tr, steps, k, m)
  {
    if n > 0 {
      CompletedIff(cfg, tr, steps, n - 1, m);
      assert Next(cfg, tr[n - 1], steps[n - 1], tr[n]);
      assert m in tr[n].completed <==> m in tr[n - 1].completed || ResolvesAt(tr, steps, n - 1, m);
    }
  }

  // ---- Which step settles a message, and how ----

  /** What the pipeline's body decides about the delivery in it. */
  function BodyVerdict(cfg: Config, s: State, fault: bool): Verdict
    requires Shape(cfg, s) && s.pipe.active.Some?
  {
    Judge(cfg, s.deliveries[s.pipe.active.value], s.pipe.counters, |s.link.closed|, fault)
  }

  /** The step accepts delivery `d`: eagerly when it is handed over, late when onMessage is done. */
  ghost predicate Accepting(cfg: Config, s: State, step: Step, d: nat)
    requires Shape(cfg, s) && Enabled(cfg, s, step)
  {
    if cfg.eager then step.Resolve? && s.pipe.active == Some(d) && BodyVerdict(cfg, s, step.fault) == HandOver
    else step.HandlerOk? && step.d == d
  }

  ghost predicate Refusing(cfg: Config, s: State, step: Step, d: nat)
    requires Shape(cfg, s) && Enabled(cfg, s, step)
  {
    step.Resolve? && s.pipe.active == Some(d) && BodyVerdict(cfg, s, step.fault).RefuseOn?
  }

  ghost predicate Requeuing(step: Step, d: nat) {
    step.Replace? || step == Timer(d)
  }

  /** Where the message out on delivery `d` is: accepted, dead, queued again. */
  ghost predicate Went(b: Broker, m: MsgId, accepted: bool, dead: bool, waiting: bool) {
    (m in b.accepted <==> accepted) && (m in b.dead <==> dead) && (m in b.waiting <==> waiting)
  }

  ghost predicate OutAlone(b: Broker, d: nat) {
    d in b.unsettled && forall e :: e in b.unsettled && e != d ==> b.unsettled[e] != b.unsettled[d]
  }

  /** Settling delivery `e` decides about the message out on `d` exactly if they are the same. */
  lemma SettlingFate(cfg: Config, b: Broker, d: nat, e: nat)
    requires Partitioned(cfg, b) && OutAlone(b, d)
    ensures Went(b, b.unsettled[d], false, false, false)
    ensures Went(Accept(b, e), b.unsettled[d], d == e, false, false)
    ensures Went(Reject(b, e), b.unsettled[d], false, d == e, false)
    ensures Went(Release(b, e), b.unsettled[d], false, false, d == e)
  {
    assert b.unsettled[d] in b.unsettled.Values;
  }

  lemma BodyFate(cfg: Config, s: State, fault: bool, d: nat)
    requires Shape(cfg, s) && s.pipe.active.Some? && Partitioned(cfg, s.broker) && OutAlone(s.broker, d)
    ensures Went(DoResolve(cfg, s, fault).broker, s.broker.unsettled[d],
                 cfg.eager && s.pipe.active == Some(d) && BodyVerdict(cfg, s, fault) == HandOver,
                 s.pipe.active == Some(d) && BodyVerdict(cfg, s, fault).RefuseOn?, false)
  {
    SettlingFate(cfg, s.broker, d, s.pipe.active.value);
  }

  /** One step: a message out on delivery `d` is accepted, dead-lettered or queued again for exactly one reason each. */
  lemma Fate(cfg: Config, s: State, step: Step, d: nat)
    requires Shape(cfg, s) && Enabled(cfg, s, step) && Partitioned(cfg, s.broker) && OutAlone(s.broker, d)
    ensures Went(Apply(cfg, s, step).broker, s.broker.unsettled[d],
                 Accepting(cfg, s, step, d), Refusing(cfg, s, step, d), Requeuing(step, d))
  {
    SettlingFate(cfg, s.broker, d, d);
    match step
    case Resolve(fault) => BodyFate(cfg, s, fault, d);
    case HandlerOk(e, _) => SettlingFate(cfg, s.broker, d, e);
    case Timer(e) => SettlingFate(cfg, s.broker, d, e);
    case Replace => assert s.broker.unsettled[d] in s.broker.unsettled.Values;
    case _ =>
  }

  /** So it is in every step of every run. */
  lemma FateInRun(cfg: Config, tr: seq<State>, steps: seq<Step>, n: nat, d: nat)
    requires IsRun(cfg, tr, steps) && n < |steps| && d in tr[n].broker.unsettled
    ensures Shape(cfg, tr[n]) && Enabled(cfg, tr[n], steps[n])
    ensures var m, b' := tr[n].broker.unsettled[d], tr[n + 1].broker;
            && (m in b'.accepted <==> Accepting(cfg, tr[n], steps[n], d))
            && (m in b'.dead <==> Refusing(cfg, tr[n], steps[n], d))
            && (m in b'.waiting <==> Requeuing(steps[n], d))
  {
    KeptInRun(cfg, tr, steps, n);
    assert OutAlone(tr[n].broker, d);
    assert Next(cfg, tr[n], steps[n], tr[n + 1]);
    Fate(cfg, tr[n], steps[n], d);
  }

  // ---- Number of onMessage calls ----

  /** How often each message was handed to onMessage. */
  function Msgs(handed: seq<Handing>): multiset<MsgId> {
    if handed == [] then multiset{} else Msgs(handed[..|handed| - 1]) + multiset{handed[|handed| - 1].msg}
  }

  function Hands(s: State, m: MsgId): nat {
    Msgs(s.pipe.handed)[m]
  }

  lemma OneHandMore(handed: seq<Handing>, h: Handing)
    ensures Msgs(handed + [h]) == Msgs(handed) + multiset{h.msg}
  {
    assert (handed + [h])[..|handed|] == handed;
  }

  lemma {:induction false} NeverHanded(handed: seq<Handing>, m: MsgId)
    ensures m in Msgs(handed) <==> exists i :: 0 <= i < |handed| && handed[i].msg == m
  {
    if handed != [] {
      var rest := handed[..|handed| - 1];
      NeverHanded(rest, m);
      if i :| 0 <= i < |handed| && handed[i].msg == m {
        if i < |rest| {
          assert rest[i].msg == m;
        }
      }
    }
  }

  lemma HandsOnlyInBody(cfg: Config, s: State, step: Step)
    requires Shape(cfg, s) && Enabled(cfg, s, step) && !step.Resolve?
    ensures Apply(cfg, s, step).pipe.handed == s.pipe.handed && Apply(cfg, s, step).pipe.counters == s.pipe.counters
  {
  }

  /** In this step the pipeline's body hands a delivery of `m` to onMessage. */
  ghost predicate HandsOver(cfg: Config, s: State, step: Step, m: MsgId) {
    && Shape(cfg, s) && Enabled(cfg, s, step) && step.Resolve?
    && s.deliveries[s.pipe.active.value].msg == m && BodyVerdict(cfg, s, step.fault) == HandOver
  }

  lemma BodyHands(cfg: Config, s: State, fault: bool)
    requires Shape(cfg, s) && s.pipe.active.Some?
    ensures var d := s.pipe.active.value;
            DoResolve(cfg, s, fault).pipe.handed ==
            s.pipe.handed + (if BodyVerdict(cfg, s, fault) == HandOver then [Handing(d, s.deliveries[d].msg)] else [])
  {
  }

  /** Only such a step calls onMessage for `m`, and it does so once. */
  lemma HandsStep(cfg: Config, s: State, step: Step, m: MsgId)
    requires Shape(cfg, s) && Enabled(cfg, s, step)
    ensures Hands(Apply(cfg, s, step), m) == Hands(s, m) + (if HandsOver(cfg, s, step, m) then 1 else 0)
  {
    if step.Resolve? {
      BodyHands(cfg, s, step.fault);
      OneHandMore(s.pipe.handed, Handing(s.pipe.active.value, s.deliveries[s.pipe.active.value].msg));
      assert s.pipe.handed + [] == s.pipe.handed;
    } else {
      HandsOnlyInBody(cfg, s, step);
    }
  }

  lemma SettledStays(cfg: Config, s: State, step: Step, m: MsgId)
    requires Moded(cfg, s) && Enabled(cfg, s, step) && m in s.broker.accepted + s.broker.dead
    ensures m in Apply(cfg, s, step).broker.accepted + Apply(cfg, s, step).broker.dead
    ensures Hands(Apply(cfg, s, step), m) == Hands(s, m)
  {
    HandsStep(cfg, s, step, m);
  }

  /**
   At most once from then on: once a message is accepted (or dead-lettered) it never reaches
   onMessage again, even when stale deliveries of it survive a reconnect.
   */
  lemma {:induction false} NeverAgainOnceSettled(
    cfg: Config, tr: seq<State>, steps: seq<Step>, j: nat, n: nat, m: MsgId)
    requires IsRun(cfg, tr, steps) && j <= n < |tr| && m in tr[j].broker.accepted + tr[j].broker.dead
    ensures m in tr[n].broker.accepted + tr[n].broker.dead
    ensures Hands(tr[n], m) == Hands(tr[j], m)
    decreases n
  {
    if j < n {
      NeverAgainOnceSettled(cfg, tr, steps, j, n - 1, m);
      assert Next(cfg, tr[n - 1], steps[n - 1], tr[n]);
      ModedInRun(cfg, tr, steps, n - 1);
      SettledStays(cfg, tr[n - 1], steps[n - 1], m);
    }
  }

  /** No step takes a message out of `accepted`; only the pipeline's body calls onMessage. */
  lemma AcceptedStays(cfg: Config, s: State, step: Step)
    requires Shape(cfg, s) && Enabled(cfg, s, step)
    ensures s.broker.accepted <= Apply(cfg, s, step).broker.accepted
    ensures !step.Resolve? ==> Apply(cfg, s, step).pipe.handed == s.pipe.handed
  {
  }
}
