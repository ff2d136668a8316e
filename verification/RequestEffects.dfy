/**
 What one whole request does to the permissions of all stored sessions: a failed one grants
 nothing, and a successful one grants exactly what its endpoint provides.
 */
module RequestEffects {
  import opened Prelude
  import opened SessionKeys
  import opened SessionRecord
  import opened SessionStore
  import opened TokenIssue
  import opened PermissionGate
  import opened Endpoints
  import opened AuthGuard
  import opened SerialRuns

  lemma OneUpdateAddsOnly(st: Slots, id: string, op: Op, now: int, p: Perm)
    ensures var r := RunOps(st, id, [op], now);
            && (Holds(r.store, id, p) ==> Holds(st, id, p) || (r.ok && Puts(op, p)))
            && (r.ok && Puts(op, p) ==> Holds(r.store, id, p))
            && (Holds(st, id, p) && !op.AddFlow? && !op.ClearFlow? ==> Holds(r.store, id, p))
  {
    RunOneEffect(st, id, op, now);
    if RunOps(st, id, [op], now).ok {
      UpdateAddsOnly(op, SessionAt(st, id), p);
    }
  }

  /** A sequence of updates adds only what one of them puts. */
  lemma {:induction false} UpdatesAddOnly(st: Slots, id: string, ops: seq<Op>, now: int, p: Perm)
    requires Holds(RunOps(st, id, ops, now).store, id, p)
    ensures Holds(st, id, p) || exists i :: 0 <= i < |ops| && Puts(ops[i], p)
    decreases |ops|
  {
    if ops != [] {
      RunOne(st, id, ops[0], now);
      OneUpdateAddsOnly(st, id, ops[0], now, p);
      var first := RunOps(st, id, [ops[0]], now);
      if first.ok {
        UpdatesAddOnly(first.store, id, ops[1..], now, p);
        assert forall i :: 0 <= i < |ops[1..]| ==> ops[1..][i] == ops[i + 1];
      }
    }
  }

  /** Grants that all succeed leave everything they put in place. */
  lemma {:induction false} GrantsHold(st: Slots, id: string, ops: seq<Op>, now: int, p: Perm)
    requires forall op | op in ops :: !op.AddFlow? && !op.ClearFlow?
    requires RunOps(st, id, ops, now).ok
    ensures Holds(st, id, p) || (exists i :: 0 <= i < |ops| && Puts(ops[i], p)) ==>
              Holds(RunOps(st, id, ops, now).store, id, p)
    decreases |ops|
  {
    if ops != [] {
      RunOne(st, id, ops[0], now);
      OneUpdateAddsOnly(st, id, ops[0], now, p);
      assert forall i :: 0 <= i < |ops[1..]| ==> ops[1..][i] == ops[i + 1];
      assert forall op :: op in ops[1..] ==> op in ops;
      GrantsHold(RunOps(st, id, [ops[0]], now).store, id, ops[1..], now, p);
      if exists i :: 0 <= i < |ops| && Puts(ops[i], p) {
        var i :| 0 <= i < |ops| && Puts(ops[i], p);
        if i > 0 {
          assert Puts(ops[1..][i - 1], p);
        }
      }
    }
  }

  lemma HandlersPutNothing(call: Call, p: Perm)
    ensures forall i :: 0 <= i < |HandlerOps(call)| ==> !Puts(HandlerOps(call)[i], p)
  {
  }

  /**
   A permission appears in a session only through the grants of a request on that session, whose
   endpoint provides it and whose snapshot held everything the endpoint requires. A request that
   is rejected or whose handler fails therefore grants nothing to anyone.
   */
  lemma GainedOnlyByGrant(st: Slots, jwt: Jwt, call: Call, throws: bool, now: int, id: string, p: Perm)
    requires KeyedStore(st)
    requires Holds(Serve(st, jwt, call, throws, now).store, id, p) && !Holds(st, id, p)
    ensures id == JwtId(jwt) && Provides(EndpointOf(call), p)
    ensures !throws && Serve(st, jwt, call, throws, now).reached in {Granted, GrantFailed}
    ensures forall q :: Requires(EndpointOf(call), q) ==> Holds(st, id, q)
  {
    var endpoint := EndpointOf(call);
    ServeFrame(st, jwt, call, throws, now);
    assert id == JwtId(jwt);
    CheckIff(endpoint, SessionAt(st, id));
    var handled := RunOps(st, id, HandlerOps(call), now);
    HandlersPutNothing(call, p);
    if Holds(handled.store, id, p) {
      UpdatesAddOnly(st, id, HandlerOps(call), now, p);
    }
    UpdatesAddOnly(handled.store, id, GrantOps(endpoint), now, p);
    GrantsProvided(endpoint, p);
  }

  /** After a request that got a successful response the session holds all that the endpoint provides. */
  lemma GrantedHolds(st: Slots, jwt: Jwt, call: Call, throws: bool, now: int, p: Perm)
    requires KeyedStore(st)
    requires Serve(st, jwt, call, throws, now).reached.Granted? && Provides(EndpointOf(call), p)
    ensures Holds(Serve(st, jwt, call, throws, now).store, JwtId(jwt), p)
  {
    var endpoint := EndpointOf(call);
    ServeFrame(st, jwt, call, throws, now);
    var handled := RunOps(st, JwtId(jwt), HandlerOps(call), now);
    GrantsProvided(endpoint, p);
    GrantsHold(handled.store, JwtId(jwt), GrantOps(endpoint), now, p);
  }

  /** The endpoint's flow grant has a flow, with a permission list, to work on. */
  predicate FlowGrantable(e: Endpoint, s: SessionValue) {
    e.flowMeta.Some? && e.flowMeta.value.provided != [] ==>
      e.flowMeta.value.flow in Simplify(s).flows && FlowOrEmpty(s, e.flowMeta.value.flow).permissions.Value?
  }

  /** A session-level grant works while the session lives with time left, and keeps it so. */
  lemma UserGrantWorks(st: Slots, id: string, permissions: seq<UserPermission>, now: int)
    requires ReadSession(st, Slot(SessionNs, id), now).Ok?
    requires SessionAt(st, id).exp.Value? && now / 1000 < SessionAt(st, id).exp.value
    ensures var r := RunOps(st, id, [AddPermissions(permissions)], now);
            && r.ok && ReadSession(r.store, Slot(SessionNs, id), now).Ok?
            && SessionAt(r.store, id).exp == SessionAt(st, id).exp
            && Simplify(SessionAt(r.store, id)).flows == Simplify(SessionAt(st, id)).flows
            && SessionAt(r.store, id).flows == JsonFlows(SessionAt(st, id).flows)
  {
    var op := AddPermissions(permissions);
    RunOneEffect(st, id, op, now);
    RunOne(st, id, op, now);
    RunOpFails(st, Slot(SessionNs, id), op, now);
    RunOpRefines(st, Slot(SessionNs, id), op, now);
  }

  lemma FlowGrantWorksIff(st: Slots, id: string, e: Endpoint, now: int)
    requires ReadSession(st, Slot(SessionNs, id), now).Ok?
    requires SessionAt(st, id).exp.Value? && now / 1000 < SessionAt(st, id).exp.value
    ensures RunOps(st, id, FlowGrants(e), now).ok <==> FlowGrantable(e, SessionAt(st, id))
    ensures !RunOps(st, id, FlowGrants(e), now).ok ==> RunOps(st, id, FlowGrants(e), now).store == st
  {
    if FlowGrants(e) != [] {
      var op := AddFlowPermissions(e.flowMeta.value.flow, e.flowMeta.value.provided);
      assert FlowGrants(e) == [op];
      RunOne(st, id, op, now);
      RunOpFails(st, Slot(SessionNs, id), op, now);
      UpdateFails(op, SessionAt(st, id));
    }
  }

  /**
   The grants of any endpoint on a live session with time left: they fail exactly if the flow grant
   has nothing to work on, and then the session-level permissions have been granted all the same.
   */
  lemma GrantsInOrder(st: Slots, id: string, e: Endpoint, now: int)
    requires ReadSession(st, Slot(SessionNs, id), now).Ok?
    requires SessionAt(st, id).exp.Value? && now / 1000 < SessionAt(st, id).exp.value
    ensures var r := RunOps(st, id, GrantOps(e), now);
            && (r.ok <==> FlowGrantable(e, SessionAt(st, id)))
            && (forall p: UserPermission ::
                  Holds(r.store, id, User(p)) <==> Holds(st, id, User(p)) || p in e.provided)
            && (!r.ok ==> forall t, p :: Holds(r.store, id, Flow(t, p)) <==> Holds(st, id, Flow(t, p)))
  {
    RunOpsAppend(st, id, UserGrants(e), FlowGrants(e), now);
    var first := RunOps(st, id, UserGrants(e), now);
    if e.provided != [] {
      assert UserGrants(e) == [AddPermissions(e.provided)];
      UserGrantWorks(st, id, e.provided, now);
      forall p ensures Holds(first.store, id, p) <==> Holds(st, id, p) || (p.User? && p.permission in e.provided) {
        OneUpdateAddsOnly(st, id, AddPermissions(e.provided), now, p);
      }
    }
    FlowGrantWorksIff(first.store, id, e, now);
    if first.ok && FlowGrants(e) != [] {
      var op := AddFlowPermissions(e.flowMeta.value.flow, e.flowMeta.value.provided);
      assert FlowGrants(e) == [op];
      forall p: UserPermission
        ensures Holds(RunOps(first.store, id, [op], now).store, id, User(p)) <==> Holds(first.store, id, User(p))
      {
        OneUpdateAddsOnly(first.store, id, op, now, User(p));
      }
    }
  }
}
