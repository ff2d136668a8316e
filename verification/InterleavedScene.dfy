/**
 Stretches from which concrete interleaved runs are put together: one user's session, a clock that
 stands still, and requests of the application's endpoints on that session.
 */
module InterleavedScene {
  import opened Prelude
  import opened SessionKeys
  import opened SessionRecord
  import opened SessionStore
  import opened TokenIssue
  import opened PermissionGate
  import opened Endpoints
  import opened SessionMachine

  const BOUND := BoundId("u", "1")
  const TOKEN_SLOT := Slot(TokenNs, BOUND)
  const SESSION_SLOT := Slot(SessionNs, BOUND)

  function PlainSession(list: seq<UserPermission>, flows: map<FlowType, Option<FlowValue>>): SessionValue {
    SessionValue(Value(10), Value(0), BOUND, Value(list), flows, map[])
  }

  /** Token and session `v` live. */
  ghost predicate Scene(s: State, v: SessionValue) {
    && s.now == 0 && v.key == BOUND
    && TOKEN_SLOT in s.store && s.store[TOKEN_SLOT] == Entry(TokenRecord("u", "1"), 10000)
    && SESSION_SLOT in s.store && s.store[SESSION_SLOT] == Entry(SessionRec(v), 10000)
  }

  /** From reading `v` the update computes a write of `w`. */
  ghost predicate Computes(op: Op, v: SessionValue, w: SessionValue) {
    !RefusedUnread(op) && Prepare(op, v, 0) == Ok(Write(w, Some(10)))
  }

  /** A process that has been admitted and has its handler's updates to make. */
  function Admitted(e: Endpoint, handler: seq<Op>): Process {
    Process(e, BOUND, BOUND, BOUND, handler, Idle(false, handler))
  }

  lemma Admission(r: Run, v: SessionValue, e: Endpoint, handler: seq<Op>) returns (r': Run, k: nat)
    requires Valid(TABLE, r) && Scene(Last(r), v) && e in TABLE && (forall op | op in handler :: HandlerOp(op))
    requires Check(e, v)
    ensures Valid(TABLE, r') && Scene(Last(r'), v) && k == |Last(r).procs|
    ensures Last(r').procs == Last(r).procs + [Admitted(e, handler)]
  {
    k := |Last(r).procs|;
    r' := Extend(TABLE, r, Arrive(e, BOUND, handler));
    r' := Extend(TABLE, r', GetToken(k, true));
    assert Last(r').procs[k].phase == AtSession;
    r' := Extend(TABLE, r', GetSession(k, true));
    assert Last(r').procs[k] == Admitted(e, handler);
  }

  /** Process `k` reads `v` and computes its write of `w`. */
  lemma ReadOnce(r: Run, k: nat, v: SessionValue, op: Op, w: SessionValue) returns (r': Run)
    requires Valid(TABLE, r) && Scene(Last(r), v) && k < |Last(r).procs|
    requires Last(r).procs[k].phase.Idle? && Last(r).procs[k].phase.todo == [op] && Target(Last(r).procs[k]) == BOUND
    requires Computes(op, v, w)
    ensures Valid(TABLE, r') && Scene(Last(r'), v)
    ensures Last(r').procs ==
            Last(r).procs[k := Last(r).procs[k].(
              phase := Writing(Last(r).procs[k].phase.granting, BOUND, Write(w, Some(10)), 0, []))]
  {
    r' := Extend(TABLE, r, Get(k, 0));
    assert ReadSession(Last(r).store, SESSION_SLOT, 0) == Ok(v) && [op][1..] == [];
    assert Last(r').procs[k].phase == Writing(Last(r).procs[k].phase.granting, BOUND, Write(w, Some(10)), 0, []);
  }

  /** Process `k` writes `w`, whatever is stored by then. */
  lemma WriteOnce(r: Run, k: nat, v: SessionValue, w: SessionValue) returns (r': Run)
    requires Valid(TABLE, r) && Scene(Last(r), v) && k < |Last(r).procs| && w.key == BOUND
    requires Last(r).procs[k].phase.Writing?
    requires Last(r).procs[k].phase == Writing(Last(r).procs[k].phase.granting, BOUND, Write(w, Some(10)), 0, [])
    ensures Valid(TABLE, r') && Scene(Last(r'), w)
    ensures Last(r').procs == Last(r).procs[k := Last(r).procs[k].(phase := Idle(Last(r).procs[k].phase.granting, []))]
  {
    r' := Extend(TABLE, r, Set(k));
  }

  /** One undisturbed update of process `k`. */
  lemma UpdateOnce(r: Run, k: nat, v: SessionValue, op: Op, w: SessionValue) returns (r': Run)
    requires Valid(TABLE, r) && Scene(Last(r), v) && k < |Last(r).procs| && w.key == BOUND
    requires Last(r).procs[k].phase.Idle? && Last(r).procs[k].phase.todo == [op] && Target(Last(r).procs[k]) == BOUND
    requires Computes(op, v, w)
    ensures Valid(TABLE, r') && Scene(Last(r'), w)
    ensures Last(r').procs == Last(r).procs[k := Last(r).procs[k].(phase := Idle(Last(r).procs[k].phase.granting, []))]
  {
    r' := ReadOnce(r, k, v, op, w);
    r' := WriteOnce(r', k, v, w);
  }

  lemma HandlerDone(r: Run, k: nat, v: SessionValue) returns (r': Run)
    requires Valid(TABLE, r) && Scene(Last(r), v) && k < |Last(r).procs|
    requires Last(r).procs[k].phase.Idle? && !Last(r).procs[k].phase.granting
    ensures Valid(TABLE, r') && Scene(Last(r'), v)
    ensures Last(r').procs ==
            Last(r).procs[k := Last(r).procs[k].(phase := Idle(true, GrantOps(Last(r).procs[k].endpoint)))]
  {
    r' := Extend(TABLE, r, HandlerEnds(k, true));
  }

  lemma LoggedIn() returns (r: Run)
    ensures Valid(TABLE, r) && Scene(Last(r), PlainSession([], map[]))
  {
    r := Run([Init(0)], []);
    r := Extend(TABLE, r, Login(BOUND, map[], 10));
    assert FreshWrite(NewSession(map[]), BOUND, 10, 0).session == PlainSession([], map[]);
    assert Last(r).procs[0].phase == Writing(true, BOUND, Write(PlainSession([], map[]), Some(10)), 0, []);
    r := Extend(TABLE, r, Set(0));
    r := Extend(TABLE, r, WriteToken("u", "1", 10));
  }
}
