/** Session-level permissions in serial runs: they only grow, and FORGOT_PASSWORD needs OTP_VERIFIED. */
module PermissionLadder {
  import opened Prelude
  import opened SessionKeys
  import opened SessionRecord
  import opened SessionStore
  import opened TokenIssue
  import opened PermissionGate
  import opened Endpoints
  import opened AuthGuard
  import opened SerialRuns

  /** Flow updates keep the session's own list; a grant extends it. */
  lemma {:induction false} OpsExtend(st: Slots, id: string, ops: seq<Op>, now: int)
    requires Stored(st, id) && SessionAt(st, id).permissions.Value?
    ensures var st' := RunOps(st, id, ops, now).store;
            Stored(st', id) && SessionAt(st', id).permissions.Value? &&
            SessionAt(st, id).permissions.value <= SessionAt(st', id).permissions.value
    ensures (forall op | op in ops :: !op.AddPermissions?) ==>
              SessionAt(RunOps(st, id, ops, now).store, id).permissions == SessionAt(st, id).permissions
    decreases |ops|
  {
    if ops != [] {
      RunOneEffect(st, id, ops[0], now);
      RunOne(st, id, ops[0], now);
      var first := RunOps(st, id, [ops[0]], now);
      if first.ok {
        if ops[0].AddPermissions? {
          PushMissingHolds(UserList(SessionAt(st, id)), ops[0].permissions);
        }
        assert forall op :: op in ops[1..] ==> op in ops;
        OpsExtend(first.store, id, ops[1..], now);
      }
    }
  }

  predicate Laddered(list: seq<UserPermission>) {
    ForgotPassword in list ==> OtpVerified in list
  }

  ghost predicate AllLaddered(s: State) {
    forall id :: (Stored(s.store, id) ==>
      SessionAt(s.store, id).permissions.Value? && Laddered(SessionAt(s.store, id).permissions.value))
  }

  lemma HandlersAreFlowOnly(call: Call)
    ensures forall op | op in HandlerOps(call) :: !op.AddPermissions?
    ensures !call.AddPermission? && !call.AddSessionLocal? ==>
              forall op | op in GrantOps(EndpointOf(call)) :: !op.AddPermissions?
  {
  }

  lemma UserGrant(st: Slots, id: string, q: UserPermission, now: int)
    requires Stored(st, id) && SessionAt(st, id).permissions.Value? && Laddered(SessionAt(st, id).permissions.value)
    requires q == ForgotPassword ==> OtpVerified in SessionAt(st, id).permissions.value
    ensures var st' := RunOps(st, id, [AddPermissions([q])], now).store;
            q != UploadImagePrivate ==>
              Stored(st', id) && SessionAt(st', id).permissions.Value? && Laddered(SessionAt(st', id).permissions.value)
  {
    RunOneEffect(st, id, AddPermissions([q]), now);
    PushMissingHolds(UserList(SessionAt(st, id)), [q]);
  }

  lemma ServedLadder(st: Slots, jwt: Jwt, call: Call, throws: bool, now: int)
    requires KeyedStore(st) && Accepts(st, now, jwt)
    requires SessionAt(st, JwtId(jwt)).permissions.Value? && Laddered(SessionAt(st, JwtId(jwt)).permissions.value)
    ensures var id, st' := JwtId(jwt), Serve(st, jwt, call, throws, now).store;
            && Stored(st', id) && SessionAt(st', id).permissions.Value?
            && Laddered(SessionAt(st', id).permissions.value)
            && SessionAt(st, id).permissions.value <= SessionAt(st', id).permissions.value
  {
    var id := JwtId(jwt);
    ServeFrame(st, jwt, call, throws, now);
    HandlersAreFlowOnly(call);
    OpsExtend(st, id, HandlerOps(call), now);
    var handled := RunOps(st, id, HandlerOps(call), now);
    OpsExtend(handled.store, id, GrantOps(EndpointOf(call)), now);
    if Check(EndpointOf(call), SessionAt(st, id)) {
      if call.AddPermission? {
        UserGrant(handled.store, id, OtpVerified, now);
      }
      if call.AddSessionLocal? {
        CheckIff(ADD_SESSION_LOCAL, SessionAt(st, id));
        assert Requires(ADD_SESSION_LOCAL, User(OtpVerified));
        UserGrant(handled.store, id, ForgotPassword, now);
      }
    }
  }

  /** One step: a session that is still there kept its list as a prefix, and every list is laddered. */
  lemma StepExtends(s: State, step: Step, id: string)
    requires Known(s) && AllLaddered(s) && Enabled(s, step) && Stored(Apply(s, step).store, id)
    ensures var v := SessionAt(Apply(s, step).store, id);
            && v.permissions.Value? && Laddered(v.permissions.value)
            && (Owned(s.issued, id) ==>
                  Stored(s.store, id) && SessionAt(s.store, id).permissions.value <= v.permissions.value)
  {
    match step
    case Tick(_) => assert Stored(s.store, id);
    case LogoutStep(_) => assert Stored(s.store, id);
    case LoginStep(key, uid, _, _) =>
      if id == BoundId(key, uid) {
        assert !Owned(s.issued, id);
      } else {
        assert Stored(s.store, id);
      }
    case Request(jwt, call, throws) =>
      ServeFrame(s.store, jwt, call, throws, s.now);
      assert Stored(s.store, id);
      if id == JwtId(jwt) && Accepts(s.store, s.now, jwt) {
        ServedLadder(s.store, jwt, call, throws, s.now);
      }
  }

  lemma {:induction false} LadderInRun(tr: seq<State>, steps: seq<Step>, n: nat)
    requires IsRun(tr, steps) && n < |tr|
    ensures Known(tr[n]) && AllLaddered(tr[n])
  {
    KnownInRun(tr, steps, n);
    if n > 0 {
      LadderInRun(tr, steps, n - 1);
      assert Next(tr[n - 1], steps[n - 1], tr[n]);
      forall id | Stored(tr[n].store, id)
        ensures SessionAt(tr[n].store, id).permissions.Value? && Laddered(SessionAt(tr[n].store, id).permissions.value)
      {
        StepExtends(tr[n - 1], steps[n - 1], id);
      }
    }
  }

  /** In every serial run FORGOT_PASSWORD held implies OTP_VERIFIED held. */
  lemma ForgotPasswordNeedsOtp(tr: seq<State>, steps: seq<Step>, n: nat, id: string)
    requires IsRun(tr, steps) && n < |tr| && Stored(tr[n].store, id)
    requires ForgotPassword in UserList(SessionAt(tr[n].store, id))
    ensures OtpVerified in UserList(SessionAt(tr[n].store, id))
  {
    LadderInRun(tr, steps, n);
  }

  lemma {:induction false} StaysOwned(tr: seq<State>, steps: seq<Step>, j: nat, n: nat, id: string)
    requires IsRun(tr, steps) && j <= n < |tr| && Owned(tr[j].issued, id)
    ensures Owned(tr[n].issued, id)
    decreases n
  {
    if j < n {
      StaysOwned(tr, steps, j, n - 1, id);
      assert Next(tr[n - 1], steps[n - 1], tr[n]);
      var t :| t in tr[n - 1].issued && TokenId(t) == id;
      assert t in tr[n].issued;
    }
  }

  lemma OwnedStepGrows(s: State, step: Step, s': State, id: string)
    requires Known(s) && AllLaddered(s) && Enabled(s, step) && s' == Apply(s, step)
    requires Owned(s.issued, id) && Stored(s'.store, id)
    ensures Stored(s.store, id) && UserList(SessionAt(s.store, id)) <= UserList(SessionAt(s'.store, id))
  {
    StepExtends(s, step, id);
  }

  lemma LastStepGrows(tr: seq<State>, steps: seq<Step>, j: nat, n: nat, id: string)
    requires IsRun(tr, steps) && j < n < |tr| && Stored(tr[j].store, id) && Stored(tr[n].store, id)
    ensures Stored(tr[n - 1].store, id)
    ensures UserList(SessionAt(tr[n - 1].store, id)) <= UserList(SessionAt(tr[n].store, id))
  {
    assert Owned(tr[n - 1].issued, id) by {
      KnownInRun(tr, steps, j);
      assert Slot(SessionNs, id) in tr[j].store;
      StaysOwned(tr, steps, j, n - 1, id);
    }
    assert Known(tr[n - 1]) && AllLaddered(tr[n - 1]) by { LadderInRun(tr, steps, n - 1); }
    assert Next(tr[n - 1], steps[n - 1], tr[n]);
    OwnedStepGrows(tr[n - 1], steps[n - 1], tr[n], id);
  }

  /** Between any two states of a serial run that store a session, its list keeps its order and only grows. */
  lemma {:induction false} PermissionsOnlyGrow(tr: seq<State>, steps: seq<Step>, j: nat, n: nat, id: string)
    requires IsRun(tr, steps) && j <= n < |tr| && Stored(tr[j].store, id) && Stored(tr[n].store, id)
    ensures UserList(SessionAt(tr[j].store, id)) <= UserList(SessionAt(tr[n].store, id))
    decreases n
  {
    if j < n {
      LastStepGrows(tr, steps, j, n, id);
      PermissionsOnlyGrow(tr, steps, j, n - 1, id);
    }
  }
}
