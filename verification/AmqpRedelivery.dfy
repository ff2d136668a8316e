/** A message is handed to onMessage at most maxRedeliverCount + 2 times, then dead-lettered. */
module AmqpRedelivery {
  import opened Prelude
  import opened AmqpReceiver
  import opened AmqpOrder
  import opened AmqpDelivery

  function CounterOf(cfg: Config, s: State, m: MsgId): nat
    requires m in cfg.messages
  {
    CountOf(s.pipe.counters, cfg.messages[m].counter)
  }

  /** The cached count of a message covers its own calls of onMessage, whoever shares it. */
  ghost predicate Counted(cfg: Config, s: State) {
    forall m :: m in Msgs(s.pipe.handed) ==>
      && m in cfg.messages
      && Hands(s, m) <= CounterOf(cfg, s, m)
      && Hands(s, m) <= cfg.maxRedeliver + 2
  }

  /** No delivery marked first_acquirer has an older delivery of the same message. */
  ghost predicate FirstIsFirst(s: State) {
    forall d, e :: 0 <= e < d < |s.deliveries| && s.deliveries[d].first ==> s.deliveries[e].msg != s.deliveries[d].msg
  }

  lemma FirstIsUnhanded(s: State)
    requires Ordered(s) && FirstIsFirst(s) && s.pipe.active.Some? && s.pipe.active.value < |s.deliveries|
    requires s.deliveries[s.pipe.active.value].first
    ensures Hands(s, s.deliveries[s.pipe.active.value].msg) == 0
  {
    NeverHanded(s.pipe.handed, s.deliveries[s.pipe.active.value].msg);
  }

  /** Handing over one more message counts it, and counts it under its counter. */
  lemma HandCounts(cfg: Config, s: State, d: nat, m: MsgId)
    requires d < |s.deliveries| == |s.phases| && m == s.deliveries[d].msg && m in cfg.messages
    ensures var s' := Hand(cfg, s, d, cfg.messages[m].counter);
            && (forall k :: Hands(s', k) == Hands(s, k) + (if k == m then 1 else 0))
            && (forall k :: k in cfg.messages ==>
                  CounterOf(cfg, s', k) ==
                  CounterOf(cfg, s, k) + (if cfg.messages[k].counter == cfg.messages[m].counter then 1 else 0))
  {
    OneHandMore(s.pipe.handed, Handing(d, m));
  }

  lemma HandKeepsCounted(cfg: Config, s: State, d: nat, m: MsgId)
    requires d < |s.deliveries| == |s.phases| && m == s.deliveries[d].msg && m in cfg.messages
    requires Counted(cfg, s) && (Hands(s, m) == 0 || CounterOf(cfg, s, m) <= cfg.maxRedeliver + 1)
    ensures Counted(cfg, Hand(cfg, s, d, cfg.messages[m].counter))
  {
    HandCounts(cfg, s, d, m);
    forall k | k in Msgs(Hand(cfg, s, d, cfg.messages[m].counter).pipe.handed)
      ensures k == m || k in Msgs(s.pipe.handed)
    {
      assert Hands(Hand(cfg, s, d, cfg.messages[m].counter), k) > 0;
    }
  }

  lemma OnlyCountsMatter(cfg: Config, s: State, s': State)
    requires Counted(cfg, s) && s'.pipe.handed == s.pipe.handed && s'.pipe.counters == s.pipe.counters
    ensures Counted(cfg, s')
  {
  }

  /** What the pipeline's body hands over is new to the listener or has a valid count. */
  lemma HandOverAllowed(cfg: Config, s: State, fault: bool)
    requires Shape(cfg, s) && s.pipe.active.Some? && Ordered(s) && FirstIsFirst(s)
    requires Judge(cfg, s.deliveries[s.pipe.active.value], s.pipe.counters, |s.link.closed|, fault) == HandOver
    ensures var m := s.deliveries[s.pipe.active.value].msg;
            Hands(s, m) == 0 || CounterOf(cfg, s, m) <= cfg.maxRedeliver + 1
  {
    if s.deliveries[s.pipe.active.value].first {
      FirstIsUnhanded(s);
    }
  }

  lemma HandOverKeepsCounted(cfg: Config, s: State, fault: bool)
    requires Shape(cfg, s) && s.pipe.active.Some? && Counted(cfg, s)
    requires var d := s.pipe.active.value;
             && Judge(cfg, s.deliveries[d], s.pipe.counters, |s.link.closed|, fault) == HandOver
             && (Hands(s, s.deliveries[d].msg) == 0 || CounterOf(cfg, s, s.deliveries[d].msg) <= cfg.maxRedeliver + 1)
    ensures Counted(cfg, DoResolve(cfg, s, fault))
  {
    var d := s.pipe.active.value;
    HandKeepsCounted(cfg, s, d, s.deliveries[d].msg);
  }

  lemma CountedPreserved(cfg: Config, s: State, step: Step)
    requires Shape(cfg, s) && Enabled(cfg, s, step) && Ordered(s) && FirstIsFirst(s) && Counted(cfg, s)
    ensures Counted(cfg, Apply(cfg, s, step))
  {
    if !step.Resolve? {
      HandsOnlyInBody(cfg, s, step);
      OnlyCountsMatter(cfg, s, Apply(cfg, s, step));
    } else if Judge(cfg, s.deliveries[s.pipe.active.value], s.pipe.counters, |s.link.closed|, step.fault) == HandOver {
      HandOverAllowed(cfg, s, step.fault);
      HandOverKeepsCounted(cfg, s, step.fault);
    } else {
      OnlyCountsMatter(cfg, s, DoResolve(cfg, s, step.fault));
    }
  }

  lemma FirstIsFirstPreserved(cfg: Config, s: State, step: Step)
    requires Shape(cfg, s) && Enabled(cfg, s, step) && FirstIsFirst(s)
    ensures FirstIsFirst(Apply(cfg, s, step))
  {
  }

  lemma {:induction false} CountedInRun(cfg: Config, tr: seq<State>, steps: seq<Step>, n: nat)
    requires IsRun(cfg, tr, steps) && n < |tr|
    ensures FirstIsFirst(tr[n]) && Counted(cfg, tr[n])
  {
    if n > 0 {
      CountedInRun(cfg, tr, steps, n - 1);
      OrderedInRun(cfg, tr, steps, n - 1);
      assert Next(cfg, tr[n - 1], steps[n - 1], tr[n]);
      FirstIsFirstPreserved(cfg, tr[n - 1], steps[n - 1]);
      CountedPreserved(cfg, tr[n - 1], steps[n - 1]);
    }
  }

  /** In every run, however counters are shared, no message is handed over more than max + 2 times. */
  lemma BoundedRedelivery(cfg: Config, tr: seq<State>, steps: seq<Step>, n: nat, m: MsgId)
    requires IsRun(cfg, tr, steps) && n < |tr|
    ensures Hands(tr[n], m) <= cfg.maxRedeliver + 2
  {
    CountedInRun(cfg, tr, steps, n);
  }

  /** Only messages with a usable body reach onMessage. */
  ghost predicate HandedUsable(cfg: Config, s: State) {
    forall i :: 0 <= i < |s.pipe.handed| ==>
      s.pipe.handed[i].msg in cfg.messages && cfg.messages[s.pipe.handed[i].msg].body == WellFormed
  }

  lemma {:induction false} HandedUsableInRun(cfg: Config, tr: seq<State>, steps: seq<Step>, n: nat)
    requires IsRun(cfg, tr, steps) && n < |tr|
    ensures HandedUsable(cfg, tr[n])
  {
    if n > 0 {
      HandedUsableInRun(cfg, tr, steps, n - 1);
      assert Next(cfg, tr[n - 1], steps[n - 1], tr[n]);
      if !steps[n - 1].Resolve? {
        HandsOnlyInBody(cfg, tr[n - 1], steps[n - 1]);
      }
    }
  }

  /** A message handed over max + 2 times is refused on its next delivery, and dead if that delivery is live. */
  lemma PoisonIsDeadLettered(cfg: Config, tr: seq<State>, steps: seq<Step>, n: nat, d: nat)
    requires IsRun(cfg, tr, steps) && n < |steps|
    requires steps[n].Resolve? && tr[n].pipe.active == Some(d) && d < |tr[n].deliveries|
    requires Hands(tr[n], tr[n].deliveries[d].msg) == cfg.maxRedeliver + 2
    ensures tr[n + 1].pipe.handed == tr[n].pipe.handed
    ensures d < |tr[n + 1].phases| && tr[n + 1].phases[d] == Refused
    ensures d in tr[n].broker.unsettled ==> tr[n].deliveries[d].msg in tr[n + 1].broker.dead
  {
    var s := tr[n];
    CountedInRun(cfg, tr, steps, n);
    OrderedInRun(cfg, tr, steps, n);
    KeptInRun(cfg, tr, steps, n);
    HandedUsableInRun(cfg, tr, steps, n);
    NeverHanded(s.pipe.handed, s.deliveries[d].msg);
    assert Next(cfg, s, steps[n], tr[n + 1]);
    assert s.deliveries[d].msg in Msgs(s.pipe.handed);
    if s.deliveries[d].first {
      FirstIsUnhanded(s);
    }
  }

  // ---- Exactness for messages that do not share a counter ----

  ghost predicate Unshared(cfg: Config) {
    forall m, k :: m in cfg.messages && k in cfg.messages && m != k ==>
      cfg.messages[m].counter != cfg.messages[k].counter
  }

  ghost predicate CountExact(cfg: Config, s: State) {
    forall m :: m in cfg.messages ==> Hands(s, m) == CounterOf(cfg, s, m)
  }

  lemma CountExactPreserved(cfg: Config, s: State, step: Step)
    requires Unshared(cfg) && Shape(cfg, s) && Enabled(cfg, s, step) && CountExact(cfg, s)
    ensures CountExact(cfg, Apply(cfg, s, step))
  {
    AcceptedStays(cfg, s, step);
    if step.Resolve? {
      var d := s.pipe.active.value;
      if Judge(cfg, s.deliveries[d], s.pipe.counters, |s.link.closed|, step.fault) == HandOver {
        HandCounts(cfg, s, d, s.deliveries[d].msg);
      }
    } else {
      assert Apply(cfg, s, step).pipe.counters == s.pipe.counters;
    }
  }

  lemma {:induction false} CountExactInRun(cfg: Config, tr: seq<State>, steps: seq<Step>, n: nat)
    requires IsRun(cfg, tr, steps) && n < |tr| && Unshared(cfg)
    ensures CountExact(cfg, tr[n])
  {
    if n > 0 {
      CountExactInRun(cfg, tr, steps, n - 1);
      assert Next(cfg, tr[n - 1], steps[n - 1], tr[n]);
      CountExactPreserved(cfg, tr[n - 1], steps[n - 1]);
    }
  }

  lemma HandOverIff(cfg: Config, s: State, d: nat)
    requires Shape(cfg, s) && Ordered(s) && FirstIsFirst(s) && CountExact(cfg, s)
    requires s.pipe.active == Some(d) && cfg.messages[s.deliveries[d].msg].body == WellFormed
    ensures Judge(cfg, s.deliveries[d], s.pipe.counters, |s.link.closed|, false) == HandOver <==>
            Hands(s, s.deliveries[d].msg) <= cfg.maxRedeliver + 1
  {
    if s.deliveries[d].first {
      FirstIsUnhanded(s);
    }
  }

  /** A usable message with its own counter is handed over if and only if it was so at most max + 1 times. */
  lemma HandedIffBelowLimit(cfg: Config, tr: seq<State>, steps: seq<Step>, n: nat, d: nat)
    requires IsRun(cfg, tr, steps) && n < |steps| && Unshared(cfg)
    requires steps[n] == Resolve(false) && tr[n].pipe.active == Some(d) && d < |tr[n].deliveries|
    requires tr[n].deliveries[d].msg in cfg.messages && cfg.messages[tr[n].deliveries[d].msg].body == WellFormed
    ensures var m := tr[n].deliveries[d].msg;
            Hands(tr[n + 1], m) == Hands(tr[n], m) + 1 <==> Hands(tr[n], m) <= cfg.maxRedeliver + 1
  {
    var s := tr[n];
    assert Next(cfg, s, steps[n], tr[n + 1]);
    CountExactInRun(cfg, tr, steps, n);
    CountedInRun(cfg, tr, steps, n);
    OrderedInRun(cfg, tr, steps, n);
    HandOverIff(cfg, s, d);
    HandCounts(cfg, s, d, s.deliveries[d].msg);
  }

  // ---- Termination ----

  lemma {:induction false} MultisetBound(ms: multiset<MsgId>, keys: set<MsgId>, bound: nat)
    requires forall m :: m in ms ==> m in keys && ms[m] <= bound
    ensures |ms| <= |keys| * bound
  {
    if keys == {} {
      assert ms == multiset{};
    } else {
      var k :| k in keys;
      var rest := ms[k := 0];
      MultisetBound(rest, keys - {k}, bound);
      assert ms == rest[k := ms[k]];
      assert |ms| == |rest| + ms[k];
      assert |keys| * bound == |keys - {k}| * bound + bound;
    }
  }

  lemma {:induction false} MsgsSize(handed: seq<Handing>)
    ensures |Msgs(handed)| == |handed|
  {
    if handed != [] {
      MsgsSize(handed[..|handed| - 1]);
    }
  }

  /** The onMessage calls that can still happen: a natural number that every call uses up. */
  function Remaining(cfg: Config, s: State): int {
    |cfg.messages| * (cfg.maxRedeliver + 2) - |s.pipe.handed|
  }

  lemma HandedBounded(cfg: Config, s: State)
    requires Counted(cfg, s)
    ensures |s.pipe.handed| <= |cfg.messages| * (cfg.maxRedeliver + 2)
  {
    MsgsSize(s.pipe.handed);
    MultisetBound(Msgs(s.pipe.handed), cfg.messages.Keys, cfg.maxRedeliver + 2);
  }

  lemma HandedGrows(cfg: Config, s: State, step: Step)
    requires Shape(cfg, s) && Enabled(cfg, s, step)
    ensures s.pipe.handed <= Apply(cfg, s, step).pipe.handed
  {
  }

  /** Poison messages cannot keep the listener busy for ever. */
  lemma RedeliveryTerminates(cfg: Config, tr: seq<State>, steps: seq<Step>, n: nat)
    requires IsRun(cfg, tr, steps) && n < |steps|
    ensures 0 <= Remaining(cfg, tr[n + 1]) <= Remaining(cfg, tr[n])
    ensures tr[n + 1].pipe.handed != tr[n].pipe.handed ==> Remaining(cfg, tr[n + 1]) < Remaining(cfg, tr[n])
  {
    CountedInRun(cfg, tr, steps, n + 1);
    HandedBounded(cfg, tr[n + 1]);
    assert Next(cfg, tr[n], steps[n], tr[n + 1]);
    HandedGrows(cfg, tr[n], steps[n]);
  }
}
