/**
 The FORGOT_PASSWORD ladder when requests interleave. It is kept in exactly those runs in which
 every session-level grant would pass its endpoint's check again on the session it reads afresh. In
 one run a slow write of a flow puts back an old permission list between the check and the grant.
 */
module LadderUnderInterleaving {
  import opened Prelude
  import opened SessionKeys
  import opened SessionRecord
  import opened SessionStore
  import opened TokenIssue
  import opened PermissionGate
  import opened Endpoints
  import opened SessionMachine
  import opened InterleavedScene
  import L = PermissionLadder

  predicate Laddered(s: SessionValue) {
    L.Laddered(UserList(s))
  }

  /** A session-level grant keeps the ladder if and only if the session it is computed from passes the check. */
  lemma GrantKeepsLadderIff(e: Endpoint, op: Op, s: SessionValue)
    requires e in TABLE && op in UserGrants(e) && Laddered(s)
    ensures ApplyOp(op, s).Ok? && (Laddered(ApplyOp(op, s).value) <==> Check(e, s))
  {
    PushMissingHolds(UserList(s), op.permissions);
  }

  /** Every stored list and every list on its way to the store is laddered. */
  ghost predicate AllLaddered(s: State) {
    && (forall id :: (Stored(s.store, id) ==> Laddered(SessionAt(s.store, id))))
    && forall i :: 0 <= i < |s.procs| && s.procs[i].phase.Writing? ==> Laddered(s.procs[i].phase.write.session)
  }

  /** A read that leads to a session-level grant finds what the endpoint requires. */
  ghost predicate Rechecked(s: State, step: Step) {
    step.Get? && At(s, step.p) && s.procs[step.p].phase.Idle? && s.procs[step.p].phase.todo != [] ==>
      var p := s.procs[step.p];
      p.phase.granting && p.phase.todo[0] in UserGrants(p.endpoint) &&
      AfterGet(s.store, s.now, p, step.at).phase.Writing? ==>
        Check(p.endpoint, ReadSession(s.store, Slot(SessionNs, Target(p)), s.now).value)
  }

  lemma OtherOpsKeepLadder(op: Op, s: SessionValue)
    requires Laddered(s) && ApplyOp(op, s).Ok? && !op.AddPermissions?
    ensures Laddered(ApplyOp(op, s).value)
  {
  }

  lemma StampKeepsUserList(v: SessionValue, now: int, ttl: Option<int>)
    ensures UserList(Stamp(v, now, ttl)) == UserList(v)
  {
  }

  lemma GetLaddered(s: State, k: nat, at: int)
    requires AllProper(TABLE, s) && AllLaddered(s) && Enabled(TABLE, s, Get(k, at))
    ensures var p' := AfterGet(s.store, s.now, s.procs[k], at);
            p'.phase.Writing? ==> (Laddered(p'.phase.write.session) <==> Rechecked(s, Get(k, at)))
  {
    var p := s.procs[k];
    var op := p.phase.todo[0];
    assert Proper(TABLE, p) && op in p.phase.todo;
    if AfterGet(s.store, s.now, p, at).phase.Writing? {
      var read := ReadSession(s.store, Slot(SessionNs, Target(p)), s.now).value;
      assert Stored(s.store, Target(p)) && Laddered(read);
      StampKeepsUserList(ApplyOp(op, read).value, at, UpdateTtl(read, at));
      if p.phase.granting && op in UserGrants(p.endpoint) {
        GrantKeepsLadderIff(p.endpoint, op, read);
      } else {
        OtherOpsKeepLadder(op, read);
      }
    }
  }

  lemma StepKeepsLadderIff(s: State, step: Step)
    requires AllProper(TABLE, s) && AllLaddered(s) && Enabled(TABLE, s, step)
    ensures AllLaddered(Apply(TABLE, s, step)) <==> Rechecked(s, step)
  {
    var s' := Apply(TABLE, s, step);
    forall id | Stored(s'.store, id)
      ensures Laddered(SessionAt(s'.store, id))
    {
      StoredAfter(TABLE, s, step, id);
    }
    match step
    case Get(k, at) =>
      GetLaddered(s, k, at);
      assert s'.procs[k] == AfterGet(s.store, s.now, s.procs[k], at);
    case _ =>
  }

  ghost predicate KeepsLadder(tr: seq<State>) {
    forall n :: 0 <= n < |tr| ==> AllLaddered(tr[n])
  }

  ghost predicate GrantsRechecked(tr: seq<State>, steps: seq<Step>)
    requires |tr| == |steps| + 1
  {
    forall n :: 0 <= n < |steps| ==> Rechecked(tr[n], steps[n])
  }

  lemma {:induction false} RecheckedRunLaddered(tr: seq<State>, steps: seq<Step>, n: nat)
    requires IsRun(TABLE, tr, steps) && n < |tr| && GrantsRechecked(tr, steps)
    ensures AllLaddered(tr[n])
  {
    if n > 0 {
      RecheckedRunLaddered(tr, steps, n - 1);
      KeyedInRun(TABLE, tr, steps, n - 1);
      assert Next(TABLE, tr[n - 1], steps[n - 1], tr[n]);
      assert Rechecked(tr[n - 1], steps[n - 1]);
      StepKeepsLadderIff(tr[n - 1], steps[n - 1]);
    }
  }

  lemma LadderedStepRechecked(tr: seq<State>, steps: seq<Step>, n: nat)
    requires IsRun(TABLE, tr, steps) && n < |steps| && AllLaddered(tr[n]) && AllLaddered(tr[n + 1])
    ensures Rechecked(tr[n], steps[n])
  {
    KeyedInRun(TABLE, tr, steps, n);
    assert Next(TABLE, tr[n], steps[n], tr[n + 1]);
    StepKeepsLadderIff(tr[n], steps[n]);
  }

  /**
   The exact condition, over every interleaved run of the application's endpoints: all lists stay
   laddered if and only if every read for a session-level grant finds its requirements.
   */
  lemma LadderKeptIff(tr: seq<State>, steps: seq<Step>)
    requires IsRun(TABLE, tr, steps)
    ensures KeepsLadder(tr) <==> GrantsRechecked(tr, steps)
  {
    if KeepsLadder(tr) {
      forall n | 0 <= n < |steps|
        ensures Rechecked(tr[n], steps[n])
      {
        LadderedStepRechecked(tr, steps, n);
      }
    }
    if GrantsRechecked(tr, steps) {
      forall n | 0 <= n < |tr|
        ensures AllLaddered(tr[n])
      {
        RecheckedRunLaddered(tr, steps, n);
      }
    }
  }

  // ---- A run that breaks the ladder ----

  const RESET := AddFlow(RequestOtpPatch("c", "o", false))

  function TheFlows(reset: bool): map<FlowType, Option<FlowValue>> {
    var ids := map["contractId" := Some("c"), "otpId" := Some("o")];
    if reset then map[SignContract := Some(FlowValue(Value([]), ids))] else map[]
  }

  function TheSession(list: seq<UserPermission>, reset: bool): SessionValue {
    PlainSession(list, TheFlows(reset))
  }

  lemma JsonOfSession(list: seq<UserPermission>, reset: bool)
    ensures Json(TheSession(list, reset)) == TheSession(list, reset)
  {
    if reset {
      var f := TheFlows(true)[SignContract].value;
      assert JsonFields(f.fields) == f.fields;
    }
    assert JsonFlows(TheFlows(reset)) == TheFlows(reset);
  }

  lemma ResetWrites()
    ensures Computes(RESET, TheSession([], false), TheSession([], true))
  {
    var v := ApplyOp(RESET, TheSession([], false)).value;
    var ids := map["contractId" := Some("c"), "otpId" := Some("o")];
    assert FlowOrEmpty(TheSession([], false), SignContract).fields + ids == ids;
    assert v == TheSession([], true);
    JsonOfSession([], true);
  }

  lemma GrantWrites(u: UserPermission, reset: bool)
    ensures Computes(AddPermissions([u]), TheSession([], reset), TheSession([u], reset))
  {
    assert PushMissing([], [u]) == PushMissing([u], []) == [u];
    assert ApplyOp(AddPermissions([u]), TheSession([], reset)).value == TheSession([u], reset);
    JsonOfSession([u], reset);
  }

  /** FORGOT_PASSWORD without OTP_VERIFIED, which moreover was held and is lost. */
  lemma LadderBreaks() returns (tr: seq<State>, steps: seq<Step>)
    ensures IsRun(TABLE, tr, steps)
    ensures var st := tr[|tr| - 1].store;
            Stored(st, BOUND) && UserList(SessionAt(st, BOUND)) == [ForgotPassword]
  {
    var r := LoggedIn();
    var resetting, adding, forgetting;
    r, resetting := Admission(r, TheSession([], false), REQUEST_OTP, [RESET]);
    ResetWrites();
    r := ReadOnce(r, resetting, TheSession([], false), RESET, TheSession([], true));
    r, adding := Admission(r, TheSession([], false), ADD_PERMISSION, []);
    r := HandlerDone(r, adding, TheSession([], false));
    GrantWrites(OtpVerified, false);
    r := UpdateOnce(r, adding, TheSession([], false), AddPermissions([OtpVerified]), TheSession([OtpVerified], false));
    r, forgetting := Admission(r, TheSession([OtpVerified], false), ADD_SESSION_LOCAL, []);
    r := HandlerDone(r, forgetting, TheSession([OtpVerified], false));
    r := WriteOnce(r, resetting, TheSession([OtpVerified], false), TheSession([], true));
    GrantWrites(ForgotPassword, true);
    r := UpdateOnce(r, forgetting, TheSession([], true), AddPermissions([ForgotPassword]),
                    TheSession([ForgotPassword], true));
    tr, steps := r.tr, r.steps;
  }
}
