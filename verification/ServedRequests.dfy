/**
 How far each request gets and what it leaves, endpoint by endpoint, in terms of the token, the
 session and the clock: when it is let in, when it is served, and the session after it.
 */
module ServedRequests {
  import opened Prelude
  import opened SessionKeys
  import opened SessionRecord
  import opened SessionStore
  import opened TokenIssue
  import opened PermissionGate
  import opened Endpoints
  import opened AuthGuard
  import opened SerialRuns
  import opened UnansweredRequests
  import opened RequestEffects

  /** The token is unexpired and acceptable, and its TOKEN and SESSION entries live. */
  predicate TokenGood(st: Slots, now: int, jwt: Jwt) {
    var token, session := Slot(TokenNs, JwtId(jwt)), Slot(SessionNs, JwtId(jwt));
    && now <= 1000 * jwt.exp && jwt.acceptable
    && token in st && now < st[token].deadline && session in st && now < st[session].deadline
  }

  lemma AcceptsIff(st: Slots, now: int, jwt: Jwt)
    requires KeyedStore(st)
    ensures Accepts(st, now, jwt) <==> TokenGood(st, now, jwt)
  {
  }

  /** What each endpoint asks of the session. */
  predicate Entitled(call: Call, s: SessionValue) {
    match call
    case RequestOtp(_, _, _) => true
    case CheckOtp => OtpRequested in FlowList(s, SignContract)
    case CheckSelfie(_) => OtpRequested in FlowList(s, SignContract) && FlowOtpVerified in FlowList(s, SignContract)
    case AddPermission => true
    case AddSessionLocal => OtpVerified in UserList(s)
  }

  /** The endpoints whose handlers write the flow. */
  predicate Writes(call: Call) {
    call.RequestOtp? || call.CheckSelfie?
  }

  lemma EntitledIff(call: Call, s: SessionValue)
    ensures Check(EndpointOf(call), s) <==> Entitled(call, s)
  {
    CheckIff(EndpointOf(call), s);
    match call
    case CheckOtp => assert Requires(CHECK_OTP, Flow(SignContract, OtpRequested));
    case CheckSelfie(_) =>
      assert Requires(CHECK_SELFIE, Flow(SignContract, OtpRequested));
      assert Requires(CHECK_SELFIE, Flow(SignContract, FlowOtpVerified));
    case AddSessionLocal => assert Requires(ADD_SESSION_LOCAL, User(OtpVerified));
    case _ =>
  }

  predicate Admitted(st: Slots, now: int, jwt: Jwt, call: Call) {
    TokenGood(st, now, jwt) && Stored(st, JwtId(jwt)) && Entitled(call, SessionAt(st, JwtId(jwt)))
  }

  /** The session's exp lies in a later second than the clock. */
  predicate TimeLeft(st: Slots, now: int, jwt: Jwt) {
    Stored(st, JwtId(jwt)) &&
      var exp := SessionAt(st, JwtId(jwt)).exp;
      exp.Value? && now / 1000 < exp.value
  }

  // ---- How far a request gets ----

  /** A request is turned away exactly if its token is not good or its session lacks a requirement. */
  lemma RejectedIff(st: Slots, jwt: Jwt, call: Call, throws: bool, now: int)
    requires KeyedStore(st)
    ensures Serve(st, jwt, call, throws, now).reached.Rejected? <==>
              !(TokenGood(st, now, jwt) && forall p :: Requires(EndpointOf(call), p) ==> Holds(st, JwtId(jwt), p))
    ensures Serve(st, jwt, call, throws, now).reached.Rejected? <==> !Admitted(st, now, jwt, call)
    ensures Serve(st, jwt, call, throws, now).reached.Rejected? ==> Serve(st, jwt, call, throws, now).store == st
  {
    AcceptsIff(st, now, jwt);
    if TokenGood(st, now, jwt) {
      EntitledIff(call, SessionAt(st, JwtId(jwt)));
      CheckIff(EndpointOf(call), SessionAt(st, JwtId(jwt)));
    }
  }

  lemma WritesIff(call: Call)
    ensures Writes(call) <==> HandlerOps(call) != []
    ensures Writes(call) ==>
              |HandlerOps(call)| == 1 && HandlerOps(call)[0].AddFlow? && !RefusedUnread(HandlerOps(call)[0])
  {
  }

  /** A handler that writes succeeds exactly if there is time left. */
  lemma HandlerWorksIff(st: Slots, jwt: Jwt, call: Call, now: int)
    requires KeyedStore(st) && Admitted(st, now, jwt, call) && Writes(call)
    ensures RunOps(st, JwtId(jwt), HandlerOps(call), now).ok <==> TimeLeft(st, now, jwt)
    ensures !TimeLeft(st, now, jwt) ==>
              RunOp(st, Slot(SessionNs, JwtId(jwt)), HandlerOps(call)[0], now) == Err(StoreError)
  {
    var op := HandlerOps(call)[0];
    WritesIff(call);
    assert HandlerOps(call) == [op];
    UpdateWorksIff(st, JwtId(jwt), op, now);
    RunOne(st, JwtId(jwt), op, now);
    if !TimeLeft(st, now, jwt) {
      RunOpErrors(st, Slot(SessionNs, JwtId(jwt)), op, now);
    }
  }

  /** An admitted request is served in full exactly if nothing is thrown and there is time left. */
  lemma GrantedIff(st: Slots, jwt: Jwt, call: Call, throws: bool, now: int)
    requires KeyedStore(st)
    ensures Serve(st, jwt, call, throws, now).reached.Granted? <==>
              Admitted(st, now, jwt, call) && !throws && TimeLeft(st, now, jwt)
  {
    RejectedIff(st, jwt, call, throws, now);
    GrantFailsIff(st, jwt, call, throws, now);
    WritesIff(call);
    if Admitted(st, now, jwt, call) {
      AcceptsIff(st, now, jwt);
      if Writes(call) {
        HandlerWorksIff(st, jwt, call, now);
      }
    }
  }

  /** The handler of an admitted request fails exactly if it throws, or writes without time left. */
  lemma HandlerFailedIff(st: Slots, jwt: Jwt, call: Call, throws: bool, now: int)
    requires KeyedStore(st)
    ensures Serve(st, jwt, call, throws, now).reached.HandlerFailed? <==>
              Admitted(st, now, jwt, call) && (throws || (Writes(call) && !TimeLeft(st, now, jwt)))
    ensures Serve(st, jwt, call, throws, now).reached == HandlerFailed(false) <==>
              Admitted(st, now, jwt, call) && Writes(call) && !TimeLeft(st, now, jwt)
  {
    RejectedIff(st, jwt, call, throws, now);
    WritesIff(call);
    if Admitted(st, now, jwt, call) {
      AcceptsIff(st, now, jwt);
      if Writes(call) {
        HandlerWorksIff(st, jwt, call, now);
      }
    }
  }

  // ---- What a request leaves ----

  function FlowOf(a: SimpleSession): SimpleFlow {
    if SignContract in a.flows then a.flows[SignContract] else SimpleFlow({}, map[])
  }

  function WithFlow(a: SimpleSession, permissions: set<FlowPermission>, fields: map<string, string>): SimpleSession {
    a.(flows := a.flows[SignContract := SimpleFlow(permissions, fields)])
  }

  /** What the handler leaves: requestOtp starts the flow anew with two fresh ids, checkSelfie adds one. */
  function Handled(call: Call, a: SimpleSession): SimpleSession {
    var fields := FlowOf(a).fields;
    match call
    case RequestOtp(contractId, otpId, selfieUndefined) =>
      WithFlow(a, {}, (if selfieUndefined then fields - {"selfieId"} else fields)
                      ["contractId" := contractId]["otpId" := otpId])
    case CheckSelfie(selfieId) => WithFlow(a, FlowOf(a).permissions, fields["selfieId" := selfieId])
    case _ => a
  }

  /** What the grant adds to that. */
  function Granting(call: Call, a: SimpleSession): SimpleSession {
    var f := FlowOf(a);
    match call
    case RequestOtp(_, _, _) => WithFlow(a, f.permissions + {OtpRequested}, f.fields)
    case CheckOtp => WithFlow(a, f.permissions + {FlowOtpVerified}, f.fields)
    case CheckSelfie(_) => WithFlow(a, f.permissions + {SelfieVerified}, f.fields)
    case AddPermission => a.(permissions := a.permissions + {OtpVerified})
    case AddSessionLocal => a.(permissions := a.permissions + {ForgotPassword})
  }

  lemma ResetMerges(f: SimpleFlow, contractId: string, otpId: string, selfieUndefined: bool)
    ensures Merge(f, RequestOtpPatch(contractId, otpId, selfieUndefined)) ==
            SimpleFlow({}, (if selfieUndefined then f.fields - {"selfieId"} else f.fields)
                           ["contractId" := contractId]["otpId" := otpId])
  {
    var patch := RequestOtpPatch(contractId, otpId, selfieUndefined);
    assert patch.permissions == Value([]) && Elements<FlowPermission>([]) == {};
    assert "contractId" != "otpId" && "selfieId" != "contractId" && "selfieId" != "otpId";
    assert patch.fields.Keys == {"contractId", "otpId"} + (if selfieUndefined then {"selfieId"} else {});
  }

  lemma SelfieMerges(f: SimpleFlow, selfieId: string)
    ensures Merge(f, CheckSelfiePatch(selfieId)) == SimpleFlow(f.permissions, f.fields["selfieId" := selfieId])
  {
  }

  lemma HandlerMerges(call: Call, a: SimpleSession)
    requires Writes(call)
    ensures SimpleOp(HandlerOps(call)[0], a) == Some(Handled(call, a))
  {
    match call
    case RequestOtp(contractId, otpId, selfieUndefined) => ResetMerges(FlowOf(a), contractId, otpId, selfieUndefined);
    case CheckSelfie(selfieId) => SelfieMerges(FlowOf(a), selfieId);
  }

  lemma GrantAdds(call: Call, a: SimpleSession)
    requires Writes(call) || call.CheckOtp? ==> SignContract in a.flows
    ensures SimpleOp(GrantOps(EndpointOf(call))[0], a) == Some(Granting(call, a))
  {
    assert Elements([OtpRequested]) == {OtpRequested} && Elements([FlowOtpVerified]) == {FlowOtpVerified};
    assert Elements([SelfieVerified]) == {SelfieVerified} && Elements([OtpVerified]) == {OtpVerified};
    assert Elements([ForgotPassword]) == {ForgotPassword};
  }

  /** One successful update of a stored session is the simple update of it, with the same exp. */
  lemma OneUpdateLeaves(st: Slots, id: string, op: Op, now: int)
    requires RunOps(st, id, [op], now).ok
    ensures var st' := RunOps(st, id, [op], now).store;
            && Stored(st, id) && Stored(st', id)
            && SimpleOp(op, Simplify(SessionAt(st, id))) == Some(Simplify(SessionAt(st', id)))
            && SessionAt(st', id).exp == SessionAt(st, id).exp
  {
    RunOne(st, id, op, now);
    RunOpRefines(st, Slot(SessionNs, id), op, now);
  }

  lemma HandlerLeaves(st: Slots, id: string, call: Call, now: int)
    requires Stored(st, id) && RunOps(st, id, HandlerOps(call), now).ok
    ensures var st' := RunOps(st, id, HandlerOps(call), now).store;
            Stored(st', id) && Simplify(SessionAt(st', id)) == Handled(call, Simplify(SessionAt(st, id)))
  {
    WritesIff(call);
    if Writes(call) {
      var op := HandlerOps(call)[0];
      assert HandlerOps(call) == [op];
      OneUpdateLeaves(st, id, op, now);
      HandlerMerges(call, Simplify(SessionAt(st, id)));
    }
  }

  lemma GrantLeaves(st: Slots, id: string, call: Call, now: int)
    requires Stored(st, id) && RunOps(st, id, GrantOps(EndpointOf(call)), now).ok
    ensures var st' := RunOps(st, id, GrantOps(EndpointOf(call)), now).store;
            Stored(st', id) && Simplify(SessionAt(st', id)) == Granting(call, Simplify(SessionAt(st, id)))
  {
    var op := GrantOps(EndpointOf(call))[0];
    OneGrant(call);
    OneUpdateLeaves(st, id, op, now);
    GrantAdds(call, Simplify(SessionAt(st, id)));
  }

  /** The session after a request, for each way it can go; no other entry changes. */
  lemma Leaves(st: Slots, jwt: Jwt, call: Call, throws: bool, now: int)
    requires KeyedStore(st) && Admitted(st, now, jwt, call)
    ensures var served, id := Serve(st, jwt, call, throws, now), JwtId(jwt);
            && SameOutside(st, served.store, id) && Stored(served.store, id)
            && var before, after := Simplify(SessionAt(st, id)), Simplify(SessionAt(served.store, id));
               match served.reached
               case Granted => after == Granting(call, Handled(call, before))
               case HandlerFailed(true) => after == Handled(call, before)
               case _ => served.store == st
  {
    var id := JwtId(jwt);
    AcceptsIff(st, now, jwt);
    EntitledIff(call, SessionAt(st, id));
    ServeFrame(st, jwt, call, throws, now);
    GrantFailsIff(st, jwt, call, throws, now);
    WritesIff(call);
    var handled := RunOps(st, id, HandlerOps(call), now);
    if handled.ok {
      HandlerLeaves(st, id, call, now);
      var granted := RunOps(handled.store, id, GrantOps(EndpointOf(call)), now);
      if granted.ok {
        GrantLeaves(handled.store, id, call, now);
      } else {
        OneGrant(call);
        RunOne(handled.store, id, GrantOps(EndpointOf(call))[0], now);
      }
    } else {
      RunOne(st, id, HandlerOps(call)[0], now);
      assert HandlerOps(call) == [HandlerOps(call)[0]];
    }
  }
}
