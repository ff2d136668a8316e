/** Updates recompute the time to live from the stored exp, so they never add life to a session. */
module SessionLifetime {
  import opened Prelude
  import opened SessionKeys
  import opened SessionRecord
  import opened SessionStore
  import opened TokenIssue
  import opened PermissionGate
  import opened SessionMachine

  /** A deadline, in milliseconds, lies less than a second plus the worst delay after its exp, never before it. */
  predicate Within(deadline: int, exp: int, delay: int) {
    0 <= deadline - 1000 * exp < 1000 + delay
  }

  ghost predicate StoreInTime(st: Slots, born: map<string, int>, delay: int) {
    forall id :: Stored(st, id) ==>
      id in born && SessionAt(st, id).exp == Value(born[id]) && Within(DeadlineAt(st, id), born[id], delay)
  }

  /** A write on its way carries the exp of the session's creation and the rest of its life at that time. */
  ghost predicate WriteInTime(p: Process, born: map<string, int>) {
    p.phase.Writing? ==>
      && p.phase.target in born
      && p.phase.write.session.exp == Value(born[p.phase.target])
      && p.phase.write.ttl == Some(born[p.phase.target] - p.phase.at / 1000)
  }

  ghost predicate InTime(s: State) {
    && 0 <= s.worstDelay
    && StoreInTime(s.store, s.born, s.worstDelay)
    && forall i :: 0 <= i < |s.procs| ==> WriteInTime(s.procs[i], s.born)
  }

  lemma GetKeepsTime(st: Slots, now: int, p: Process, at: int, born: map<string, int>, delay: int)
    requires StoreInTime(st, born, delay) && p.phase.Idle? && p.phase.todo != []
    ensures WriteInTime(AfterGet(st, now, p, at), born)
  {
    var op := p.phase.todo[0];
    var r := ReadSession(st, Slot(SessionNs, Target(p)), now);
    if r.Ok? {
      assert Stored(st, Target(p));
      UpdateRefines(op, r.value);
    }
  }

  lemma StorePreserved(table: set<Endpoint>, s: State, step: Step, id: string)
    requires InTime(s) && Enabled(table, s, step) && Stored(Apply(table, s, step).store, id)
    ensures var s' := Apply(table, s, step);
            && id in s'.born && SessionAt(s'.store, id).exp == Value(s'.born[id])
            && Within(DeadlineAt(s'.store, id), s'.born[id], s'.worstDelay)
  {
    StoredAfter(table, s, step, id);
    if step.Set? {
      assert WriteInTime(s.procs[step.p], s.born);
    }
  }

  lemma ProcsPreserved(table: set<Endpoint>, s: State, step: Step, i: nat)
    requires InTime(s) && Enabled(table, s, step) && i < |Apply(table, s, step).procs|
    ensures WriteInTime(Apply(table, s, step).procs[i], Apply(table, s, step).born)
  {
    if i < |s.procs| {
      assert WriteInTime(s.procs[i], s.born);
    }
    if step.Get? {
      GetKeepsTime(s.store, s.now, s.procs[step.p], step.at, s.born, s.worstDelay);
    }
  }

  lemma InTimePreserved(table: set<Endpoint>, s: State, step: Step)
    requires InTime(s) && Enabled(table, s, step)
    ensures InTime(Apply(table, s, step))
  {
    var s' := Apply(table, s, step);
    forall id | Stored(s'.store, id)
      ensures id in s'.born && SessionAt(s'.store, id).exp == Value(s'.born[id])
      ensures Within(DeadlineAt(s'.store, id), s'.born[id], s'.worstDelay)
    {
      StorePreserved(table, s, step, id);
    }
    forall i | 0 <= i < |s'.procs|
      ensures WriteInTime(s'.procs[i], s'.born)
    {
      ProcsPreserved(table, s, step, i);
    }
  }

  lemma {:induction false} InTimeInRun(table: set<Endpoint>, tr: seq<State>, steps: seq<Step>, n: nat)
    requires IsRun(table, tr, steps) && n < |tr|
    ensures InTime(tr[n])
  {
    if n > 0 {
      InTimeInRun(table, tr, steps, n - 1);
      assert Next(table, tr[n - 1], steps[n - 1], tr[n]);
      InTimePreserved(table, tr[n - 1], steps[n - 1]);
    }
  }

  lemma {:induction false} BornIsFixed(
    table: set<Endpoint>, tr: seq<State>, steps: seq<Step>, j: nat, n: nat, id: string)
    requires IsRun(table, tr, steps) && j <= n < |tr| && id in tr[j].born
    ensures id in tr[n].born && tr[n].born[id] == tr[j].born[id]
    decreases n
  {
    if j < n {
      BornIsFixed(table, tr, steps, j, n - 1, id);
      assert Next(table, tr[n - 1], steps[n - 1], tr[n]);
    }
  }

  /**
   In every interleaved run, after any number of updates: a session's exp is the one it was
   created with, it never expires before it, and it is not readable later than a second plus the
   worst delay of a write after it, whatever is deleted or lands late.
   */
  lemma NoLifetimeDrift(table: set<Endpoint>, tr: seq<State>, steps: seq<Step>, j: nat, n: nat, id: string)
    requires IsRun(table, tr, steps) && j <= n < |tr| && id in tr[j].born && Stored(tr[n].store, id)
    ensures SessionAt(tr[n].store, id).exp == Value(tr[j].born[id])
    ensures 0 <= DeadlineAt(tr[n].store, id) - 1000 * tr[j].born[id] < 1000 + tr[n].worstDelay
    ensures Live(tr[n].store, Slot(SessionNs, id), tr[n].now) ==>
              tr[n].now < 1000 * tr[j].born[id] + 1000 + tr[n].worstDelay
  {
    InTimeInRun(table, tr, steps, n);
    BornIsFixed(table, tr, steps, j, n, id);
  }

  /** The bound is exact for every delay: a login on the last millisecond of a second, stored `delay` later. */
  lemma DriftIsReached(table: set<Endpoint>, delay: nat) returns (tr: seq<State>, steps: seq<Step>)
    ensures IsRun(table, tr, steps)
    ensures var s := tr[|tr| - 1];
            && s.worstDelay == delay && Stored(s.store, "u:1") && "u:1" in s.born
            && DeadlineAt(s.store, "u:1") - 1000 * s.born["u:1"] == 999 + delay
  {
    var r := Run([Init(999)], []);
    r := Extend(table, r, Login("u:1", map[], 10));
    r := Extend(table, r, Tick(delay));
    r := Extend(table, r, Set(0));
    tr, steps := r.tr, r.steps;
  }
}
