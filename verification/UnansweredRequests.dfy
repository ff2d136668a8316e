/**
 Requests that are let in and never answered: a failing grant leaves the interceptor's promise
 unresolved. Exactly when that happens, and a run in which it does.
 */
module UnansweredRequests {
  import opened Prelude
  import opened SessionKeys
  import opened SessionRecord
  import opened SessionStore
  import opened TokenIssue
  import opened PermissionGate
  import opened Endpoints
  import opened AuthGuard
  import opened SerialRuns
  import SerialRefinement

  /** The session has no whole second left, so that an update of it gets no positive time to live. */
  predicate NoTimeLeft(s: SessionValue, now: int) {
    !(s.exp.Value? && s.exp.value > now / 1000)
  }

  /** Let in, without handler updates and without an error, on a session with no time left. */
  predicate Unanswerable(st: Slots, now: int, jwt: Jwt, call: Call, throws: bool) {
    && Accepts(st, now, jwt) && !throws && HandlerOps(call) == []
    && Check(EndpointOf(call), SessionAt(st, JwtId(jwt)))
    && NoTimeLeft(SessionAt(st, JwtId(jwt)), now)
  }

  /** One update of a live session succeeds exactly if it applies and there is time left. */
  lemma UpdateWorksIff(st: Slots, id: string, op: Op, now: int)
    requires ReadSession(st, Slot(SessionNs, id), now).Ok? && !RefusedUnread(op)
    ensures RunOps(st, id, [op], now).ok <==>
              ApplyOp(op, SessionAt(st, id)).Ok? && !NoTimeLeft(SessionAt(st, id), now)
  {
    RunOne(st, id, op, now);
    RunOpFails(st, Slot(SessionNs, id), op, now);
  }

  lemma OneGrant(call: Call)
    ensures |GrantOps(EndpointOf(call))| == 1 && GrantOps(EndpointOf(call)) == [GrantOps(EndpointOf(call))[0]]
    ensures !RefusedUnread(GrantOps(EndpointOf(call))[0])
  {
  }

  /** On a session that passes the check, the grant of an endpoint without handler updates applies. */
  lemma GrantApplies(call: Call, s: SessionValue)
    requires HandlerOps(call) == [] && Check(EndpointOf(call), s)
    ensures ApplyOp(GrantOps(EndpointOf(call))[0], s).Ok?
  {
  }

  /** After the handler's own update the session has time left and the grant applies. */
  lemma HandlerPaves(st: Slots, id: string, call: Call, now: int)
    requires ReadSession(st, Slot(SessionNs, id), now).Ok? && HandlerOps(call) != []
    requires Check(EndpointOf(call), SessionAt(st, id)) && RunOps(st, id, HandlerOps(call), now).ok
    ensures var st' := RunOps(st, id, HandlerOps(call), now).store;
            && ReadSession(st', Slot(SessionNs, id), now).Ok? && !NoTimeLeft(SessionAt(st', id), now)
            && ApplyOp(GrantOps(EndpointOf(call))[0], SessionAt(st', id)).Ok?
  {
    var op := HandlerOps(call)[0];
    assert HandlerOps(call) == [op];
    RunOne(st, id, op, now);
    RunOneEffect(st, id, op, now);
    UpdateWorksIff(st, id, op, now);
    RunOpRefines(st, Slot(SessionNs, id), op, now);
  }

  /** The exact condition, known before the request: the grant fails if and only if it is unanswerable. */
  lemma GrantFailsIff(st: Slots, jwt: Jwt, call: Call, throws: bool, now: int)
    requires KeyedStore(st)
    ensures Serve(st, jwt, call, throws, now).reached.GrantFailed? <==> Unanswerable(st, now, jwt, call, throws)
  {
    if Accepts(st, now, jwt) && Check(EndpointOf(call), SessionAt(st, JwtId(jwt))) && !throws {
      var id, grant := JwtId(jwt), GrantOps(EndpointOf(call))[0];
      var handled := RunOps(st, id, HandlerOps(call), now);
      OneGrant(call);
      ServeFrame(st, jwt, call, throws, now);
      if HandlerOps(call) == [] {
        GrantApplies(call, SessionAt(st, id));
        UpdateWorksIff(st, id, grant, now);
      } else if handled.ok {
        HandlerPaves(st, id, call, now);
        UpdateWorksIff(handled.store, id, grant, now);
      }
    }
  }

  /** In serial runs only the second after the session's exp is left for that. */
  lemma OnlyInLastSecond(tr: seq<State>, steps: seq<Step>, n: nat, jwt: Jwt, call: Call, throws: bool)
    requires IsRun(tr, steps) && n < |tr| && Unanswerable(tr[n].store, tr[n].now, jwt, call, throws)
    ensures var exp := SessionAt(tr[n].store, JwtId(jwt)).exp;
            exp.Value? && 1000 * exp.value <= tr[n].now < 1000 * exp.value + 1000
  {
    SerialRefinement.SerialLifetime(tr, steps, n, JwtId(jwt));
  }

  // ---- A run ----

  const LOGIN := LoginStep("u", "1", map[], 10)
  const HONEST := Jwt("u", "1", 10, true)

  /** Login at clock 999 for ten seconds, and 9001 milliseconds later the token is still good. */
  function RunSteps(): seq<Step> {
    [LOGIN, Tick(9001), Request(HONEST, AddPermission, false)]
  }

  function AtLogin(): State {
    State(map[], 999, {}, {}, [])
  }

  lemma LoggedIn()
    ensures var s := Apply(AtLogin(), LOGIN);
            && s.now == 999 && KeyedStore(s.store)
            && Slot(TokenNs, BoundId("u", "1")) in s.store && Slot(SessionNs, BoundId("u", "1")) in s.store
            && s.store[Slot(TokenNs, BoundId("u", "1"))] == Entry(TokenRecord("u", "1"), 10999)
            && Stored(s.store, BoundId("u", "1")) && DeadlineAt(s.store, BoundId("u", "1")) == 10999
            && SessionAt(s.store, BoundId("u", "1")).exp == Value(10)
  {
  }

  lemma LetIn(st: Slots)
    requires Slot(TokenNs, BoundId("u", "1")) in st && Stored(st, BoundId("u", "1"))
    requires st[Slot(TokenNs, BoundId("u", "1"))] == Entry(TokenRecord("u", "1"), 10999)
    requires DeadlineAt(st, BoundId("u", "1")) == 10999 && SessionAt(st, BoundId("u", "1")).exp == Value(10)
    ensures Unanswerable(st, 10000, HONEST, AddPermission, false)
  {
    assert JwtId(HONEST) == BoundId("u", "1");
  }

  /** The owner of a fresh token asks with it in its last millisecond, is let in, and hears nothing. */
  lemma NeverAnswered() returns (tr: seq<State>)
    ensures IsRun(tr, RunSteps())
    ensures Serve(tr[2].store, HONEST, AddPermission, false, tr[2].now).reached.GrantFailed?
    ensures HONEST == Jwt(LOGIN.key, LOGIN.id, tr[0].now / 1000 + LOGIN.expireTime, true)
  {
    var s0 := AtLogin();
    var s1 := Apply(s0, LOGIN);
    var s2 := Apply(s1, Tick(9001));
    var s3 := Apply(s2, Request(HONEST, AddPermission, false));
    tr := [s0, s1, s2, s3];
    LoggedIn();
    LetIn(s2.store);
    GrantFailsIff(s2.store, HONEST, AddPermission, false, s2.now);
  }
}
