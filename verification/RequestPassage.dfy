/**
 The whole way of a request behind every permission held, in every interleaved run: it presented
 an acceptable token whose entry was live, then read a live session with everything its endpoint
 requires, then its handler ended with SUCCESS, and then its grant was stored.
 */
module RequestPassage {
  import opened Prelude
  import opened SessionKeys
  import opened SessionRecord
  import opened SessionStore
  import opened PermissionGate
  import opened SessionMachine
  import opened Provenance

  /** In step `t` the guard of request `i` finds the token acceptable and its TOKEN entry live. */
  ghost predicate TokenRead(tr: seq<State>, steps: seq<Step>, t: nat, i: nat, id: string)
    requires |tr| == |steps| + 1
  {
    t < |steps| && steps[t] == GetToken(i, true) && Live(tr[t].store, Slot(TokenNs, id), tr[t].now)
  }

  /** In step `m` it reads its session, which is live and holds all that endpoint `e` requires. */
  ghost predicate LetIn(tr: seq<State>, steps: seq<Step>, m: nat, i: nat, e: Endpoint, id: string)
    requires |tr| == |steps| + 1
  {
    && m < |steps| && steps[m] == GetSession(i, true)
    && Live(tr[m].store, Slot(SessionNs, id), tr[m].now) && Satisfies(tr[m].store, e, id)
  }

  ghost predicate WasRead(tr: seq<State>, steps: seq<Step>, n: nat, i: nat, id: string)
    requires |tr| == |steps| + 1
  {
    exists t :: 0 <= t < n && TokenRead(tr, steps, t, i, id)
  }

  ghost predicate WasLetIn(tr: seq<State>, steps: seq<Step>, n: nat, i: nat, e: Endpoint, id: string)
    requires |tr| == |steps| + 1
  {
    exists m :: 0 <= m < n && LetIn(tr, steps, m, i, e, id) && WasRead(tr, steps, m, i, id)
  }

  ghost predicate WasServed(tr: seq<State>, steps: seq<Step>, n: nat, i: nat, e: Endpoint, id: string)
    requires |tr| == |steps| + 1
  {
    exists h :: 0 <= h < n && h < |steps| && steps[h] == HandlerEnds(i, true) && WasLetIn(tr, steps, h, i, e, id)
  }

  /** Process `i` is the writing of a login's session. */
  ghost predicate IsLogin(tr: seq<State>, steps: seq<Step>, n: nat, i: nat, q: Process)
    requires |tr| == |steps| + 1
  {
    q.endpoint == NO_METADATA && exists l :: 0 <= l < n && l < |steps| && steps[l].Login? && |tr[l].procs| == i
  }

  /** Every phase of a request has the earlier ones behind it. */
  ghost predicate Placed(tr: seq<State>, steps: seq<Step>, n: nat, i: nat, q: Process)
    requires |tr| == |steps| + 1
  {
    || IsLogin(tr, steps, n, i, q)
    || match q.phase
       case AtToken => true
       case AtSession => WasRead(tr, steps, n, i, q.id)
       case Idle(granting, _) =>
         if granting then WasServed(tr, steps, n, i, q.endpoint, q.id)
         else WasLetIn(tr, steps, n, i, q.endpoint, q.id)
       case Writing(granting, _, _, _, _) =>
         if granting then WasServed(tr, steps, n, i, q.endpoint, q.id)
         else WasLetIn(tr, steps, n, i, q.endpoint, q.id)
       case Ended => true
  }

  lemma StaysPlaced(tr: seq<State>, steps: seq<Step>, n: nat, i: nat, q: Process)
    requires |tr| == |steps| + 1 && Placed(tr, steps, n, i, q)
    ensures Placed(tr, steps, n + 1, i, q)
  {
  }

  /** A step that reads the token or the session, or ends the handler, of request `i`. */
  lemma OwnStepPlaces(table: set<Endpoint>, tr: seq<State>, steps: seq<Step>, n: nat, i: nat)
    requires |tr| == |steps| + 1 && n < |steps| && Next(table, tr[n], steps[n], tr[n + 1])
    requires i < |tr[n].procs| && Placed(tr, steps, n, i, tr[n].procs[i])
    requires steps[n].GetToken? || steps[n].GetSession? || steps[n].HandlerEnds?
    requires steps[n].p == i
    ensures Placed(tr, steps, n + 1, i, tr[n + 1].procs[i])
  {
    var q, q' := tr[n].procs[i], tr[n + 1].procs[i];
    if IsLogin(tr, steps, n, i, q) {
      assert IsLogin(tr, steps, n + 1, i, q');
    } else if steps[n].GetToken? && q'.phase.AtSession? {
      assert TokenRead(tr, steps, n, i, q.id);
    } else if steps[n].GetSession? && q'.phase.Idle? {
      CheckIff(q.endpoint, SessionAt(tr[n].store, q.id));
      assert LetIn(tr, steps, n, i, q.endpoint, q.id);
    }
  }

  lemma PlacedStep(table: set<Endpoint>, tr: seq<State>, steps: seq<Step>, n: nat, i: nat)
    requires |tr| == |steps| + 1 && n < |steps| && Next(table, tr[n], steps[n], tr[n + 1])
    requires i < |tr[n].procs| ==> Placed(tr, steps, n, i, tr[n].procs[i])
    requires i < |tr[n + 1].procs|
    ensures Placed(tr, steps, n + 1, i, tr[n + 1].procs[i])
  {
    var step := steps[n];
    if i < |tr[n].procs| {
      StaysPlaced(tr, steps, n, i, tr[n].procs[i]);
      if (step.GetToken? || step.GetSession? || step.HandlerEnds?) && step.p == i {
        OwnStepPlaces(table, tr, steps, n, i);
      }
    }
  }

  lemma {:induction false} PlacedInRun(table: set<Endpoint>, tr: seq<State>, steps: seq<Step>, n: nat)
    requires IsRun(table, tr, steps) && n < |tr|
    ensures forall i :: 0 <= i < |tr[n].procs| ==> Placed(tr, steps, n, i, tr[n].procs[i])
  {
    if n > 0 {
      PlacedInRun(table, tr, steps, n - 1);
      assert Next(table, tr[n - 1], steps[n - 1], tr[n]);
      forall i | 0 <= i < |tr[n].procs|
        ensures Placed(tr, steps, n, i, tr[n].procs[i])
      {
        PlacedStep(table, tr, steps, n - 1, i);
      }
    }
  }

  lemma ServedSteps(tr: seq<State>, steps: seq<Step>, n: nat, i: nat, e: Endpoint, id: string)
    returns (t: nat, m: nat, h: nat)
    requires |tr| == |steps| + 1 && WasServed(tr, steps, n, i, e, id)
    ensures t < m < h < n && TokenRead(tr, steps, t, i, id) && LetIn(tr, steps, m, i, e, id)
    ensures h < |steps| && steps[h] == HandlerEnds(i, true)
  {
    h :| 0 <= h < n && h < |steps| && steps[h] == HandlerEnds(i, true) && WasLetIn(tr, steps, h, i, e, id);
    m :| 0 <= m < h && LetIn(tr, steps, m, i, e, id) && WasRead(tr, steps, m, i, id);
    t :| 0 <= t < m && TokenRead(tr, steps, t, i, id);
  }

  /**
   A held permission was stored in step `k` by the grant of a request on that session, whose
   token was read in step `t`, whose session was checked in step `m` and whose handler ended with
   SUCCESS in step `h`, in this order.
   */
  lemma GrantedByWholeRequest(
    table: set<Endpoint>, tr: seq<State>, steps: seq<Step>, n: nat, id: string, p: Perm)
    returns (t: nat, m: nat, h: nat, k: nat, i: nat)
    requires IsRun(table, tr, steps) && n < |tr| && Holds(tr[n].store, id, p)
    ensures t < m < h < k < n && steps[k] == Set(i) && At(tr[k], i)
    ensures var e := tr[k].procs[i].endpoint;
            && e in table && Provides(e, p)
            && steps[t] == GetToken(i, true) && Live(tr[t].store, Slot(TokenNs, id), tr[t].now)
            && steps[m] == GetSession(i, true) && Live(tr[m].store, Slot(SessionNs, id), tr[m].now)
            && (forall r :: Requires(e, r) ==> Holds(tr[m].store, id, r))
            && steps[h] == HandlerEnds(i, true)
    ensures Holds(tr[k + 1].store, id, p)
  {
    var checked;
    k, checked := GrantedByEndpoint(table, tr, steps, n, id, p);
    i := steps[k].p;
    var q := tr[k].procs[i];
    PlacedInRun(table, tr, steps, k);
    KeyedInRun(table, tr, steps, k);
    assert q.id == id && WasServed(tr, steps, k, i, q.endpoint, id);
    t, m, h := ServedSteps(tr, steps, k, i, q.endpoint, id);
  }
}
