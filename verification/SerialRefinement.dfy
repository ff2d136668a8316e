/**
 Whole requests are a special case of interleaved ones: every serial run is matched, store by
 store, by an interleaved run in which no write is ever delayed. What holds of all interleaved
 runs therefore holds of serial ones, with no delay.
 */
module SerialRefinement {
  import opened Prelude
  import opened SessionKeys
  import opened SessionRecord
  import opened SessionStore
  import opened TokenIssue
  import opened PermissionGate
  import opened Endpoints
  import opened AuthGuard
  import opened SessionMachine
  import opened SessionLifetime
  import S = SerialRuns

  function BoundIds(issued: set<S.Token>): set<string> {
    set t | t in issued :: S.TokenId(t)
  }

  /** The interleaved run has got where the serial one is. */
  ghost predicate Matches(r: Run, store: Slots, now: int, issued: set<S.Token>) {
    && Valid(TABLE, r)
    && Last(r).store == store && Last(r).now == now && Last(r).worstDelay == 0
    && Last(r).born.Keys <= BoundIds(issued)
  }

  lemma ClearOneMore(store: Slots, ids: set<string>, id: string)
    requires id in ids
    ensures ClearIds(store - {Slot(TokenNs, id)} - {Slot(SessionNs, id)}, ids - {id}) == ClearIds(store, ids)
  {
    forall slot: Slot | slot.id == id
      ensures slot == Slot(TokenNs, id) || slot == Slot(SessionNs, id)
    {
      match slot.ns
      case TokenNs =>
      case SessionNs =>
    }
  }

  lemma {:induction false} Deletes(r: Run, ids: set<string>, store: Slots, now: int, issued: set<S.Token>)
    returns (r': Run)
    requires Matches(r, store, now, issued)
    ensures Matches(r', ClearIds(store, ids), now, issued)
    ensures Last(r').procs == Last(r).procs && Last(r').born == Last(r).born
    decreases ids
  {
    if ids == {} {
      assert ClearIds(store, ids) == store;
      r' := r;
    } else {
      var id :| id in ids;
      var token, session := Slot(TokenNs, id), Slot(SessionNs, id);
      r' := Extend(TABLE, r, Delete(token));
      r' := Extend(TABLE, r', Delete(session));
      ClearOneMore(store, ids, id);
      r' := Deletes(r', ids - {id}, store - {token} - {session}, now, issued);
    }
  }

  /** Process `k` makes its updates one after the other, undisturbed. */
  lemma {:induction false} Updates(r: Run, k: nat, ops: seq<Op>, store: Slots, now: int, issued: set<S.Token>)
    returns (r': Run)
    requires Matches(r, store, now, issued) && k < |Last(r).procs|
    requires Last(r).procs[k].phase.Idle? && Last(r).procs[k].phase.todo == ops
    ensures var p := Last(r).procs[k];
            var done := S.RunOps(store, Target(p), ops, now);
            && Matches(r', done.store, now, issued) && k < |Last(r').procs|
            && (done.ok ==> Last(r').procs[k] == p.(phase := Idle(p.phase.granting, [])))
    decreases |ops|
  {
    if ops == [] {
      r' := r;
    } else {
      var p := Last(r).procs[k];
      var first := Attempt(store, RunOp(store, Slot(SessionNs, Target(p)), ops[0], now));
      GetThenSet(store, now, p);
      r' := Extend(TABLE, r, Get(k, now));
      if Last(r').procs[k].phase.Writing? {
        r' := Extend(TABLE, r', Set(k));
        if first.ok {
          r' := Updates(r', k, ops[1..], first.store, now, issued);
        }
      }
    }
  }

  lemma LoginMatches(r: Run, s: S.State, step: S.Step) returns (r': Run)
    requires Matches(r, s.store, s.now, s.issued) && step.LoginStep? && S.Enabled(s, step)
    ensures var s' := S.Apply(s, step); Matches(r', s'.store, s'.now, s'.issued)
  {
    var bound := BoundId(step.key, step.id);
    var cleared := ClearIds(s.store, ExistingIds(s.store, step.key, step.id, s.now));
    var issued := S.Apply(s, step).issued;
    assert BoundIds(s.issued) <= BoundIds(issued);
    assert S.Token(step.key, step.id) in issued && bound in BoundIds(issued);
    r' := Deletes(r, ExistingIds(s.store, step.key, step.id, s.now), s.store, s.now, s.issued);
    if step.expireTime > 0 {
      assert bound !in BoundIds(s.issued);
      r' := Extend(TABLE, r', WriteToken(step.key, step.id, step.expireTime));
      var k := |Last(r').procs|;
      r' := Extend(TABLE, r', Login(bound, step.rest, step.expireTime));
      assert Last(r').procs[k] == LoginProcess(Last(r'), bound, step.rest, step.expireTime);
      r' := Extend(TABLE, r', Set(k));
    }
  }

  lemma LogoutMatches(r: Run, s: S.State, jwt: Jwt) returns (r': Run)
    requires Matches(r, s.store, s.now, s.issued)
    ensures var s' := S.Apply(s, S.LogoutStep(jwt)); Matches(r', s'.store, s'.now, s'.issued)
  {
    if Accepts(s.store, s.now, jwt) {
      r' := Deletes(r, {ReadToken(s.store, JwtId(jwt), s.now).value}, s.store, s.now, s.issued);
    } else {
      r' := r;
    }
  }

  lemma HandlersAreHandlers(call: S.Call)
    ensures S.EndpointOf(call) in TABLE && forall op | op in S.HandlerOps(call) :: HandlerOp(op)
  {
  }

  /** Up to and including the check: either the process has ended or it is about to run its handler. */
  lemma AdmissionMatches(r: Run, s: S.State, jwt: Jwt, call: S.Call) returns (r': Run, k: nat)
    requires Matches(r, s.store, s.now, s.issued)
    ensures Matches(r', s.store, s.now, s.issued) && k < |Last(r').procs|
    ensures Accepts(s.store, s.now, jwt) && Check(S.EndpointOf(call), SessionAt(s.store, JwtId(jwt))) ==>
              Last(r').procs[k] == Process(
                S.EndpointOf(call), JwtId(jwt), ReadToken(s.store, JwtId(jwt), s.now).value,
                SessionAt(s.store, JwtId(jwt)).key, S.HandlerOps(call), Idle(false, S.HandlerOps(call)))
  {
    HandlersAreHandlers(call);
    k := |Last(r).procs|;
    r' := Extend(TABLE, r, Arrive(S.EndpointOf(call), JwtId(jwt), S.HandlerOps(call)));
    r' := Extend(TABLE, r', GetToken(k, s.now <= jwt.exp * 1000 && jwt.acceptable));
    if Last(r').procs[k].phase.AtSession? {
      r' := Extend(TABLE, r', GetSession(k, true));
    }
  }

  lemma RequestMatches(r: Run, s: S.State, jwt: Jwt, call: S.Call, throws: bool) returns (r': Run)
    requires Matches(r, s.store, s.now, s.issued)
    ensures var s' := S.Apply(s, S.Request(jwt, call, throws)); Matches(r', s'.store, s'.now, s'.issued)
  {
    var k;
    r', k := AdmissionMatches(r, s, jwt, call);
    if Accepts(s.store, s.now, jwt) && Check(S.EndpointOf(call), SessionAt(s.store, JwtId(jwt))) {
      var user := ReadToken(s.store, JwtId(jwt), s.now).value;
      var handled := S.RunOps(s.store, user, S.HandlerOps(call), s.now);
      r' := Updates(r', k, S.HandlerOps(call), s.store, s.now, s.issued);
      if handled.ok && !throws {
        r' := Extend(TABLE, r', HandlerEnds(k, true));
        r' := Updates(r', k, GrantOps(S.EndpointOf(call)), handled.store, s.now, s.issued);
      }
    }
  }

  /** Every state of a serial run is matched by the last state of an interleaved run without delays. */
  lemma {:induction false} SerialIsInterleaved(tr: seq<S.State>, steps: seq<S.Step>, n: nat) returns (r: Run)
    requires S.IsRun(tr, steps) && n < |tr|
    ensures Matches(r, tr[n].store, tr[n].now, tr[n].issued)
  {
    if n == 0 {
      r := Run([Init(tr[0].now)], []);
    } else {
      r := SerialIsInterleaved(tr, steps, n - 1);
      assert S.Next(tr[n - 1], steps[n - 1], tr[n]);
      match steps[n - 1]
      case Tick(ms) => r := Extend(TABLE, r, Tick(ms));
      case LoginStep(_, _, _, _) => r := LoginMatches(r, tr[n - 1], steps[n - 1]);
      case LogoutStep(jwt) => r := LogoutMatches(r, tr[n - 1], jwt);
      case Request(jwt, call, throws) => r := RequestMatches(r, tr[n - 1], jwt, call, throws);
    }
  }

  /** In serial runs a session's entry expires at its exp, give or take the sub-second part of the clock. */
  lemma SerialLifetime(tr: seq<S.State>, steps: seq<S.Step>, n: nat, id: string)
    requires S.IsRun(tr, steps) && n < |tr| && Stored(tr[n].store, id)
    ensures SessionAt(tr[n].store, id).exp.Value?
    ensures 0 <= DeadlineAt(tr[n].store, id) - 1000 * SessionAt(tr[n].store, id).exp.value < 1000
  {
    var r := SerialIsInterleaved(tr, steps, n);
    InTimeInRun(TABLE, r.tr, r.steps, |r.tr| - 1);
  }

  /** In serial runs, too, no stored permission list repeats a permission. */
  lemma SerialNoDuplicates(tr: seq<S.State>, steps: seq<S.Step>, n: nat, id: string)
    requires S.IsRun(tr, steps) && n < |tr| && Stored(tr[n].store, id)
    ensures UniqueLists(SessionAt(tr[n].store, id))
  {
    var r := SerialIsInterleaved(tr, steps, n);
    NoDuplicates(TABLE, r.tr, r.steps, |r.tr| - 1);
    assert UniqueStore(Last(r).store);
  }
}
