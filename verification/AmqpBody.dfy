/**
 What the pipeline's body does with an event, said of the message, the counts and the states
 before and after: what is dropped, refused and handed over, to whom the credit goes, and where
 every delivery can be once it has been through the body.
 */
module AmqpBody {
  import opened Prelude
  import opened AmqpReceiver
  import opened AmqpOrder
  import opened AmqpDelivery

  // ---- One body step ----

  function CreditOf(l: Link, r: nat): nat
    requires r <= |l.closed|
  {
    if r < |l.closed| then l.closed[r] else l.credit
  }

  /** Receiver `r`, and no other, has one credit more. */
  ghost predicate Credited(l: Link, l': Link, r: nat) {
    && |l'.closed| == |l.closed| && l'.started == l.started
    && forall k :: 0 <= k <= |l.closed| ==> CreditOf(l', k) == CreditOf(l, k) + (if k == r then 1 else 0)
  }

  /** Delivery `d` has left the body for phase `p`, and no other delivery has moved. */
  ghost predicate LeftFor(s: State, s': State, d: nat, p: Phase)
    requires d < |s.phases|
  {
    && s'.phases == s.phases[d := p] && s'.deliveries == s.deliveries && s'.completed == s.completed
    && s'.pipe.active == None && s'.pipe.queue == s.pipe.queue && s'.pipe.subscribed == s.pipe.subscribed
  }

  /** Nothing has been counted or handed to onMessage. */
  ghost predicate NotHanded(s: State, s': State) {
    s'.pipe.handed == s.pipe.handed && s'.pipe.counters == s.pipe.counters
  }

  /** Delivery `d` was left unsettled, or its message was moved to accepted or dead. */
  ghost predicate Settled(b: Broker, b': Broker, d: nat, accepted: bool, dead: bool) {
    var message := if d in b.unsettled then {b.unsettled[d]} else {};
    && b'.waiting == b.waiting && b'.unsettled == (if accepted || dead then b.unsettled - {d} else b.unsettled)
    && b'.accepted == (if accepted then b.accepted + message else b.accepted)
    && b'.dead == (if dead then b.dead + message else b.dead)
  }

  /** Neither settled nor credited: the credit of this delivery never comes back. */
  ghost predicate DroppedBy(s: State, s': State, d: nat)
    requires d < |s.phases|
  {
    LeftFor(s, s', d, Dropped) && NotHanded(s, s') && s'.link == s.link && s'.broker == s.broker
  }

  /** Dead-lettered where still unsettled, and one credit for receiver `r`. */
  ghost predicate RefusedBy(s: State, s': State, d: nat, r: nat)
    requires d < |s.phases|
  {
    && LeftFor(s, s', d, Refused) && NotHanded(s, s')
    && Credited(s.link, s'.link, r) && Settled(s.broker, s'.broker, d, false, true)
  }

  /** Counted and given to onMessage without credit; settled already only for an eager listener. */
  ghost predicate HandedBy(cfg: Config, s: State, s': State, d: nat)
    requires d < |s.phases| && d < |s.deliveries| && s.deliveries[d].msg in cfg.messages
  {
    var m := s.deliveries[d].msg;
    var counter := cfg.messages[m].counter;
    && LeftFor(s, s', d, Handling) && s'.link == s.link
    && s'.pipe.handed == s.pipe.handed + [Handing(d, m)]
    && s'.pipe.counters == s.pipe.counters[counter := CountOf(s.pipe.counters, counter) + 1]
    && Settled(s.broker, s'.broker, d, cfg.eager, false)
  }

  /** The message has been counted more than maxRedeliver + 1 times. */
  predicate OverLimit(cfg: Config, s: State, m: MsgId)
    requires m in cfg.messages
  {
    var counter := cfg.messages[m].counter;
    counter in s.pipe.counters && s.pipe.counters[counter] > cfg.maxRedeliver + 1
  }

  /**
   The body's whole behaviour. No message: dropped. A body that does not parse, or a redelivery
   whose count cannot be read: refused, credit to the current receiver. A redelivery over the
   limit: refused, credit to the receiver it came on. Anything else: handed to onMessage.
   */
  ghost predicate BodyOutcome(cfg: Config, s: State, fault: bool, s': State)
    requires Shape(cfg, s) && s.pipe.active.Some?
  {
    var d := s.pipe.active.value;
    var dlv := s.deliveries[d];
    match cfg.messages[dlv.msg].body
    case NoMessage => DroppedBy(s, s', d)
    case Malformed => RefusedBy(s, s', d, |s.link.closed|)
    case WellFormed =>
      && (!dlv.first && fault ==> RefusedBy(s, s', d, |s.link.closed|))
      && (!dlv.first && !fault && OverLimit(cfg, s, dlv.msg) ==> RefusedBy(s, s', d, dlv.receiver))
      && (dlv.first || (!fault && !OverLimit(cfg, s, dlv.msg)) ==> HandedBy(cfg, s, s', d))
  }

  lemma RefuseIsRefused(s: State, d: nat, r: nat)
    requires d < |s.phases| && r <= |s.link.closed|
    ensures RefusedBy(s, Refuse(s, d, r), d, r)
  {
    assert d !in s.broker.unsettled ==> s.broker.unsettled - {d} == s.broker.unsettled;
  }

  lemma HandIsHanded(cfg: Config, s: State, d: nat)
    requires d < |s.phases| == |s.deliveries| && s.deliveries[d].msg in cfg.messages
    ensures HandedBy(cfg, s, Hand(cfg, s, d, cfg.messages[s.deliveries[d].msg].counter), d)
  {
    assert d !in s.broker.unsettled ==> s.broker.unsettled - {d} == s.broker.unsettled;
  }

  lemma BodyLaw(cfg: Config, s: State, fault: bool)
    requires Shape(cfg, s) && s.pipe.active.Some?
    ensures BodyOutcome(cfg, s, fault, DoResolve(cfg, s, fault))
  {
    var d := s.pipe.active.value;
    RefuseIsRefused(s, d, |s.link.closed|);
    RefuseIsRefused(s, d, s.deliveries[d].receiver);
    HandIsHanded(cfg, s, d);
  }

  // ---- Body steps of runs ----

  /** Step `n` of the run is the end of the body's work on delivery `d`. */
  ghost predicate EndsBody(cfg: Config, tr: seq<State>, steps: seq<Step>, n: nat, d: nat) {
    IsRun(cfg, tr, steps) && n < |steps| && steps[n].Resolve? && tr[n].pipe.active == Some(d)
  }

  lemma BodyInRun(cfg: Config, tr: seq<State>, steps: seq<Step>, n: nat, d: nat)
    requires EndsBody(cfg, tr, steps, n, d)
    ensures Shape(cfg, tr[n]) && BodyOutcome(cfg, tr[n], steps[n].fault, tr[n + 1])
  {
    assert Next(cfg, tr[n], steps[n], tr[n + 1]);
    BodyLaw(cfg, tr[n], steps[n].fault);
  }

  /** A body that does not parse is refused: dead where unsettled, credit to the current receiver. */
  lemma MalformedIsRefused(cfg: Config, tr: seq<State>, steps: seq<Step>, n: nat, d: nat)
    requires EndsBody(cfg, tr, steps, n, d) && d < |tr[n].deliveries|
    requires var m := tr[n].deliveries[d].msg; m in cfg.messages && cfg.messages[m].body == Malformed
    ensures d < |tr[n + 1].phases| && tr[n + 1].phases[d] == Refused
    ensures d in tr[n].broker.unsettled ==> tr[n].deliveries[d].msg in tr[n + 1].broker.dead
    ensures tr[n + 1].link == tr[n].link.(credit := tr[n].link.credit + 1)
    ensures tr[n + 1].pipe.handed == tr[n].pipe.handed
  {
    BodyInRun(cfg, tr, steps, n, d);
    KeptInRun(cfg, tr, steps, n);
    CurrentCredited(tr[n].link, tr[n + 1].link);
  }

  lemma CurrentCredited(l: Link, l': Link)
    requires Credited(l, l', |l.closed|)
    ensures l' == l.(credit := l.credit + 1)
  {
    assert CreditOf(l', |l.closed|) == l.credit + 1;
    forall k | 0 <= k < |l.closed| ensures l'.closed[k] == l.closed[k] {
      assert CreditOf(l', k) == CreditOf(l, k);
    }
  }

  /** A failing read of the count refuses a redelivery, whatever the count is. */
  lemma UnreadCountIsRefused(cfg: Config, tr: seq<State>, steps: seq<Step>, n: nat, d: nat)
    requires EndsBody(cfg, tr, steps, n, d) && steps[n].fault
    requires d < |tr[n].deliveries| && !tr[n].deliveries[d].first
    requires var m := tr[n].deliveries[d].msg; m in cfg.messages && cfg.messages[m].body != NoMessage
    ensures d < |tr[n + 1].phases| && tr[n + 1].phases[d] == Refused
    ensures d in tr[n].broker.unsettled ==> tr[n].deliveries[d].msg in tr[n + 1].broker.dead
    ensures tr[n + 1].link == tr[n].link.(credit := tr[n].link.credit + 1)
    ensures tr[n + 1].pipe.handed == tr[n].pipe.handed
  {
    BodyInRun(cfg, tr, steps, n, d);
    KeptInRun(cfg, tr, steps, n);
    CurrentCredited(tr[n].link, tr[n + 1].link);
  }

  /** A redelivery over the limit is refused, and credits the receiver it came on, current or closed. */
  lemma OverLimitIsRefused(cfg: Config, tr: seq<State>, steps: seq<Step>, n: nat, d: nat)
    requires EndsBody(cfg, tr, steps, n, d) && !steps[n].fault
    requires d < |tr[n].deliveries| && !tr[n].deliveries[d].first
    requires var m := tr[n].deliveries[d].msg;
             m in cfg.messages && cfg.messages[m].body == WellFormed && OverLimit(cfg, tr[n], m)
    ensures d < |tr[n + 1].phases| && tr[n + 1].phases[d] == Refused
    ensures d in tr[n].broker.unsettled ==> tr[n].deliveries[d].msg in tr[n + 1].broker.dead
    ensures var r, link := tr[n].deliveries[d].receiver, tr[n].link;
            tr[n + 1].link == if r < |link.closed| then link.(closed := link.closed[r := link.closed[r] + 1])
                              else link.(credit := link.credit + 1)
    ensures tr[n + 1].pipe.handed == tr[n].pipe.handed
  {
    BodyInRun(cfg, tr, steps, n, d);
    KeptInRun(cfg, tr, steps, n);
    var r, link, link' := tr[n].deliveries[d].receiver, tr[n].link, tr[n + 1].link;
    if r == |link.closed| {
      CurrentCredited(link, link');
    } else {
      assert CreditOf(link', |link.closed|) == link.credit;
      forall k | 0 <= k < |link.closed|
        ensures link'.closed[k] == link.closed[k] + (if k == r then 1 else 0)
      {
        assert CreditOf(link', k) == CreditOf(link, k) + (if k == r then 1 else 0);
      }
    }
  }

  // ---- Who gets a credit ----

  /** The receiver that the body credits for the delivery in it, if it refuses it. */
  function RefusalCredits(cfg: Config, s: State, fault: bool): Option<nat>
    requires Shape(cfg, s) && s.pipe.active.Some?
  {
    var dlv := s.deliveries[s.pipe.active.value];
    match cfg.messages[dlv.msg].body
    case NoMessage => None
    case Malformed => Some(|s.link.closed|)
    case WellFormed =>
      if dlv.first then None
      else if fault then Some(|s.link.closed|)
      else if OverLimit(cfg, s, dlv.msg) then Some(dlv.receiver)
      else None
  }

  /** What a step adds to the credit of receiver `r`. */
  function Gains(cfg: Config, s: State, step: Step, r: nat): int
    requires Shape(cfg, s) && Enabled(cfg, s, step)
  {
    var current := r == |s.link.closed|;
    match step
    case Start => if current then cfg.limit else 0
    case Deliver(_, _) => if current then -1 else 0
    case HandlerOk(_, _) => if current then 1 else 0
    case Timer(_) => if current then 1 else 0
    case Resolve(fault) => if RefusalCredits(cfg, s, fault) == Some(r) then 1 else 0
    case _ => 0
  }

  lemma BodyCredits(cfg: Config, s: State, fault: bool, r: nat)
    requires Shape(cfg, s) && s.pipe.active.Some? && r <= |s.link.closed|
    ensures |DoResolve(cfg, s, fault).link.closed| == |s.link.closed|
    ensures CreditOf(DoResolve(cfg, s, fault).link, r) == CreditOf(s.link, r) + Gains(cfg, s, Resolve(fault), r)
  {
    BodyLaw(cfg, s, fault);
  }

  /**
   The account of every receiver in every step of a run: the listener's credits go to the current
   receiver, and a closed one gets a credit only for the refusal of its own delivery over the limit.
   */
  lemma CreditInRun(cfg: Config, tr: seq<State>, steps: seq<Step>, n: nat, r: nat)
    requires IsRun(cfg, tr, steps) && n < |steps| && r <= |tr[n].link.closed|
    ensures Shape(cfg, tr[n]) && Enabled(cfg, tr[n], steps[n])
    ensures |tr[n + 1].link.closed| == |tr[n].link.closed| + (if steps[n].Replace? then 1 else 0)
    ensures CreditOf(tr[n + 1].link, r) == CreditOf(tr[n].link, r) + Gains(cfg, tr[n], steps[n], r)
    ensures steps[n].Replace? ==> tr[n + 1].link.credit == cfg.limit
  {
    assert Next(cfg, tr[n], steps[n], tr[n + 1]);
    if steps[n].Resolve? {
      BodyCredits(cfg, tr[n], steps[n].fault, r);
    }
  }

  // ---- Where a delivery can be ----

  /** The delivery has been through the body. */
  predicate Past(p: Phase) {
    p !in {Lost, Queued, Checking}
  }

  /** Past the body: dropped iff without a message, refused if unparsable, and a usable first delivery handed over. */
  ghost predicate PhaseFits(cfg: Config, s: State) {
    && Shape(cfg, s)
    && forall d :: 0 <= d < |s.phases| && Past(s.phases[d]) ==>
         var dlv := s.deliveries[d];
         var body := cfg.messages[dlv.msg].body;
         && (s.phases[d] == Dropped <==> body == NoMessage)
         && (body == Malformed ==> s.phases[d] == Refused)
         && (s.phases[d] == Refused ==> body == Malformed || !dlv.first)
  }

  lemma BodyKeepsFit(cfg: Config, s: State, fault: bool)
    requires PhaseFits(cfg, s) && s.pipe.active.Some?
    ensures PhaseFits(cfg, DoResolve(cfg, s, fault))
  {
    ShapePreserved(cfg, s, Resolve(fault));
    BodyLaw(cfg, s, fault);
  }

  lemma ListenerKeepsFit(cfg: Config, s: State, step: Step)
    requires PhaseFits(cfg, s) && Enabled(cfg, s, step) && !step.Resolve? && Buffered(s)
    ensures PhaseFits(cfg, Apply(cfg, s, step))
  {
    ShapePreserved(cfg, s, step);
  }

  lemma {:induction false} PhaseFitsInRun(cfg: Config, tr: seq<State>, steps: seq<Step>, n: nat)
    requires IsRun(cfg, tr, steps) && n < |tr|
    ensures PhaseFits(cfg, tr[n])
  {
    if n > 0 {
      PhaseFitsInRun(cfg, tr, steps, n - 1);
      OrderedInRun(cfg, tr, steps, n - 1);
      assert Next(cfg, tr[n - 1], steps[n - 1], tr[n]);
      if steps[n - 1].Resolve? {
        BodyKeepsFit(cfg, tr[n - 1], steps[n - 1].fault);
      } else {
        ListenerKeepsFit(cfg, tr[n - 1], steps[n - 1]);
      }
    }
  }

  /** Past the body a delivery is dropped if and only if its message has no body. */
  lemma DroppedIff(cfg: Config, tr: seq<State>, steps: seq<Step>, n: nat, d: nat)
    requires IsRun(cfg, tr, steps) && n < |tr| && d < |tr[n].phases| && Past(tr[n].phases[d])
    ensures d < |tr[n].deliveries| && tr[n].deliveries[d].msg in cfg.messages
    ensures tr[n].phases[d] == Dropped <==> cfg.messages[tr[n].deliveries[d].msg].body == NoMessage
  {
    PhaseFitsInRun(cfg, tr, steps, n);
  }

  /** Past the body a usable first delivery is with the listener, and its onMessage call is on record. */
  lemma FirstIsHanded(cfg: Config, tr: seq<State>, steps: seq<Step>, n: nat, d: nat)
    requires IsRun(cfg, tr, steps) && n < |tr| && d < |tr[n].phases| && Past(tr[n].phases[d])
    requires d < |tr[n].deliveries| && tr[n].deliveries[d].first
    requires var m := tr[n].deliveries[d].msg; m in cfg.messages && cfg.messages[m].body == WellFormed
    ensures tr[n].phases[d] in REACHED && Handing(d, tr[n].deliveries[d].msg) in tr[n].pipe.handed
  {
    PhaseFitsInRun(cfg, tr, steps, n);
    OrderedInRun(cfg, tr, steps, n);
    var i :| 0 <= i < |tr[n].pipe.handed| && tr[n].pipe.handed[i].delivery == d;
    assert tr[n].pipe.handed[i] == Handing(d, tr[n].deliveries[d].msg);
  }

  // ---- What can be settled ----

  /** Only a usable message is accepted, and only one with a body is dead-lettered. */
  ghost predicate SettledFit(cfg: Config, s: State) {
    && (forall m :: m in s.broker.accepted ==> m in cfg.messages && cfg.messages[m].body == WellFormed)
    && (forall m :: m in s.broker.dead ==> m in cfg.messages && cfg.messages[m].body != NoMessage)
  }

  lemma BodyKeepsSettledFit(cfg: Config, s: State, fault: bool)
    requires Shape(cfg, s) && s.pipe.active.Some? && Kept(cfg, s) && SettledFit(cfg, s)
    ensures SettledFit(cfg, DoResolve(cfg, s, fault))
  {
    BodyLaw(cfg, s, fault);
  }

  lemma HandledIsUsable(cfg: Config, s: State, d: nat)
    requires PhaseFits(cfg, s) && InPhase(s, d, Handling)
    ensures s.deliveries[d].msg in cfg.messages && cfg.messages[s.deliveries[d].msg].body == WellFormed
  {
  }

  lemma ListenerKeepsSettledFit(cfg: Config, s: State, step: Step)
    requires PhaseFits(cfg, s) && Kept(cfg, s) && SettledFit(cfg, s) && Enabled(cfg, s, step) && !step.Resolve?
    ensures SettledFit(cfg, Apply(cfg, s, step))
  {
    if step.HandlerOk? {
      HandledIsUsable(cfg, s, step.d);
    }
  }

  lemma {:induction false} SettledFitInRun(cfg: Config, tr: seq<State>, steps: seq<Step>, n: nat)
    requires IsRun(cfg, tr, steps) && n < |tr|
    ensures SettledFit(cfg, tr[n])
  {
    if n > 0 {
      SettledFitInRun(cfg, tr, steps, n - 1);
      PhaseFitsInRun(cfg, tr, steps, n - 1);
      KeptInRun(cfg, tr, steps, n - 1);
      assert Next(cfg, tr[n - 1], steps[n - 1], tr[n]);
      if steps[n - 1].Resolve? {
        BodyKeepsSettledFit(cfg, tr[n - 1], steps[n - 1].fault);
      } else {
        ListenerKeepsSettledFit(cfg, tr[n - 1], steps[n - 1]);
      }
    }
  }

  // ---- Arrivals ----

  /** A message event: one credit used, and waiting in the pipeline if and only if someone has subscribed. */
  lemma ArrivalInRun(cfg: Config, tr: seq<State>, steps: seq<Step>, n: nat)
    requires IsRun(cfg, tr, steps) && n < |steps| && steps[n].Deliver?
    ensures var s, s', d := tr[n], tr[n + 1], |tr[n].deliveries|;
            && s'.deliveries == s.deliveries + [Delivery(steps[n].m, |s.link.closed|, steps[n].first)]
            && s'.phases == s.phases + [if s.pipe.subscribed then Queued else Lost]
            && s'.pipe.queue == s.pipe.queue + (if s.pipe.subscribed then [d] else [])
            && s'.link.closed == s.link.closed && s'.link.credit + 1 == s.link.credit
            && s'.broker.unsettled == s.broker.unsettled[d := steps[n].m]
            && s.broker.waiting == s'.broker.waiting + {steps[n].m} && steps[n].m !in s'.broker.waiting
            && (s.pipe.subscribed <==> exists k :: 0 <= k < n && steps[k].Subscribe?)
  {
    assert Next(cfg, tr[n], steps[n], tr[n + 1]);
    SubscribedIff(cfg, tr, steps, n);
  }

  lemma {:induction false} SubscribedIff(cfg: Config, tr: seq<State>, steps: seq<Step>, n: nat)
    requires IsRun(cfg, tr, steps) && n < |tr|
    ensures tr[n].pipe.subscribed <==> exists k :: 0 <= k < n && steps[k].Subscribe?
  {
    if n > 0 {
      SubscribedIff(cfg, tr, steps, n - 1);
      assert Next(cfg, tr[n - 1], steps[n - 1], tr[n]);
      assert tr[n].pipe.subscribed <==> tr[n - 1].pipe.subscribed || steps[n - 1].Subscribe?;
    }
  }
}
