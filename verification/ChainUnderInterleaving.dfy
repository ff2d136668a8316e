/**
 The order of the sign-contract permissions when requests interleave. It is kept in exactly those
 runs in which every grant would pass its endpoint's check again on the session it reads afresh;
 the interceptor checks the snapshot only. In one run a reset by requestOtp falls between the
 check and the grant of checkOtp, and the flow ends up OTP-verified without OTP_REQUESTED.
 */
module ChainUnderInterleaving {
  import opened Prelude
  import opened SessionKeys
  import opened SessionRecord
  import opened SessionStore
  import opened TokenIssue
  import opened PermissionGate
  import opened Endpoints
  import opened SessionMachine
  import opened InterleavedScene
  import C = SignContractChain

  predicate Chained(s: SessionValue) {
    FlowList(s, SignContract) <= C.CHAIN
  }

  // ---- One grant ----

  lemma GrantOnChain(list: seq<FlowPermission>, q: FlowPermission)
    requires list <= C.CHAIN && q in C.CHAIN
    ensures PushMissing(list, [q]) <= C.CHAIN <==>
              (q == FlowOtpVerified ==> OtpRequested in list) &&
              (q == SelfieVerified ==> OtpRequested in list && FlowOtpVerified in list)
  {
    C.PushOne(list, q);
    assert list == C.CHAIN[..|list|];
    assert |list| > 0 ==> list[0] == OtpRequested;
    assert |list| > 1 ==> list[1] == FlowOtpVerified;
    if q !in list {
      assert (list + [q])[|list|] == q;
    }
  }

  /** A flow grant keeps the chain if and only if the session it is computed from passes the endpoint's check. */
  lemma GrantKeepsChainIff(e: Endpoint, op: Op, s: SessionValue)
    requires e in TABLE && op in FlowGrants(e) && Chained(s) && ApplyOp(op, s).Ok?
    ensures Chained(ApplyOp(op, s).value) <==> Check(e, s)
  {
    assert op.flow == SignContract && op.granted == [op.granted[0]];
    GrantOnChain(FlowList(s, SignContract), op.granted[0]);
  }

  // ---- Runs ----

  /** Every stored list and every list on its way to the store is a prefix of the chain. */
  ghost predicate AllChained(s: State) {
    && (forall id :: (Stored(s.store, id) ==> Chained(SessionAt(s.store, id))))
    && forall i :: 0 <= i < |s.procs| && s.procs[i].phase.Writing? ==> Chained(s.procs[i].phase.write.session)
  }

  /** A read that leads to a flow grant finds what the endpoint requires. */
  ghost predicate Rechecked(s: State, step: Step) {
    step.Get? && At(s, step.p) && s.procs[step.p].phase.Idle? && s.procs[step.p].phase.todo != [] ==>
      var p := s.procs[step.p];
      p.phase.granting && p.phase.todo[0] in FlowGrants(p.endpoint) &&
      AfterGet(s.store, s.now, p, step.at).phase.Writing? ==>
        Check(p.endpoint, ReadSession(s.store, Slot(SessionNs, Target(p)), s.now).value)
  }

  lemma StampKeepsFlowList(v: SessionValue, now: int, ttl: Option<int>)
    ensures FlowList(Stamp(v, now, ttl), SignContract) == FlowList(v, SignContract)
  {
  }

  lemma OtherOpsKeepChain(op: Op, s: SessionValue)
    requires Chained(s) && ApplyOp(op, s).Ok? && (HandlerOp(op) || op.AddPermissions?)
    ensures Chained(ApplyOp(op, s).value)
  {
  }

  lemma GetChained(s: State, k: nat, at: int)
    requires AllProper(TABLE, s) && AllChained(s) && Enabled(TABLE, s, Get(k, at))
    ensures var p' := AfterGet(s.store, s.now, s.procs[k], at);
            p'.phase.Writing? ==> (Chained(p'.phase.write.session) <==> Rechecked(s, Get(k, at)))
  {
    var p := s.procs[k];
    var op := p.phase.todo[0];
    assert Proper(TABLE, p) && op in p.phase.todo;
    if AfterGet(s.store, s.now, p, at).phase.Writing? {
      var read := ReadSession(s.store, Slot(SessionNs, Target(p)), s.now).value;
      assert Stored(s.store, Target(p)) && Chained(read);
      StampKeepsFlowList(ApplyOp(op, read).value, at, UpdateTtl(read, at));
      if p.phase.granting && op in FlowGrants(p.endpoint) {
        GrantKeepsChainIff(p.endpoint, op, read);
      } else {
        OtherOpsKeepChain(op, read);
      }
    }
  }

  /** One step keeps all lists on the chain if and only if it is no grant that would fail its check. */
  lemma StepKeepsChainIff(s: State, step: Step)
    requires AllProper(TABLE, s) && AllChained(s) && Enabled(TABLE, s, step)
    ensures AllChained(Apply(TABLE, s, step)) <==> Rechecked(s, step)
  {
    var s' := Apply(TABLE, s, step);
    forall id | Stored(s'.store, id)
      ensures Chained(SessionAt(s'.store, id))
    {
      StoredAfter(TABLE, s, step, id);
    }
    match step
    case Get(k, at) =>
      GetChained(s, k, at);
      assert s'.procs[k] == AfterGet(s.store, s.now, s.procs[k], at);
    case _ =>
  }

  lemma {:induction false} RecheckedRunChained(tr: seq<State>, steps: seq<Step>, n: nat)
    requires IsRun(TABLE, tr, steps) && n < |tr|
    requires forall i :: 0 <= i < n ==> Rechecked(tr[i], steps[i])
    ensures AllChained(tr[n])
  {
    if n > 0 {
      RecheckedRunChained(tr, steps, n - 1);
      KeyedInRun(TABLE, tr, steps, n - 1);
      assert Next(TABLE, tr[n - 1], steps[n - 1], tr[n]);
      StepKeepsChainIff(tr[n - 1], steps[n - 1]);
    }
  }

  /** In every state of the run all lists are on the chain. */
  ghost predicate KeepsChain(tr: seq<State>) {
    forall n :: 0 <= n < |tr| ==> AllChained(tr[n])
  }

  /** In no step of the run does a grant read a session that fails its endpoint's check. */
  ghost predicate GrantsRechecked(tr: seq<State>, steps: seq<Step>)
    requires |tr| == |steps| + 1
  {
    forall n :: 0 <= n < |steps| ==> Rechecked(tr[n], steps[n])
  }

  lemma ChainedStepRechecked(tr: seq<State>, steps: seq<Step>, n: nat)
    requires IsRun(TABLE, tr, steps) && n < |steps| && AllChained(tr[n]) && AllChained(tr[n + 1])
    ensures Rechecked(tr[n], steps[n])
  {
    KeyedInRun(TABLE, tr, steps, n);
    assert Next(TABLE, tr[n], steps[n], tr[n + 1]);
    StepKeepsChainIff(tr[n], steps[n]);
  }

  /**
   The exact condition, over every interleaved run of the application's endpoints: all lists stay
   prefixes of the chain if and only if every read for a flow grant finds its requirements.
   */
  lemma ChainKeptIff(tr: seq<State>, steps: seq<Step>)
    requires IsRun(TABLE, tr, steps)
    ensures KeepsChain(tr) <==> GrantsRechecked(tr, steps)
  {
    if KeepsChain(tr) {
      forall n | 0 <= n < |steps|
        ensures Rechecked(tr[n], steps[n])
      {
        ChainedStepRechecked(tr, steps, n);
      }
    }
    if GrantsRechecked(tr, steps) {
      forall n | 0 <= n < |tr|
        ensures AllChained(tr[n])
      {
        RecheckedRunChained(tr, steps, n);
      }
    }
  }

  // ---- A run that breaks the chain ----

  const RESET := AddFlow(RequestOtpPatch("c", "o", false))

  /** The one session of the run, with its sign-contract list if the flow exists. */
  function TheSession(list: Option<seq<FlowPermission>>): SessionValue {
    PlainSession([], if list.Some? then map[SignContract := Some(TheFlow(list.value))] else map[])
  }

  function TheFlow(list: seq<FlowPermission>): FlowValue {
    FlowValue(Value(list), map["contractId" := Some("c"), "otpId" := Some("o")])
  }

  lemma JsonOfSession(list: seq<FlowPermission>)
    ensures Json(TheSession(Some(list))) == TheSession(Some(list))
  {
    assert JsonFields(TheFlow(list).fields) == TheFlow(list).fields;
    assert JsonFlows(TheSession(Some(list)).flows) == TheSession(Some(list)).flows;
  }

  lemma ResetWrites(list: Option<seq<FlowPermission>>)
    ensures Computes(RESET, TheSession(list), TheSession(Some([])))
  {
    var v := ApplyOp(RESET, TheSession(list)).value;
    var ids := map["contractId" := Some("c"), "otpId" := Some("o")];
    assert FlowOrEmpty(TheSession(list), SignContract).fields + ids == ids;
    assert v == TheSession(Some([]));
    JsonOfSession([]);
  }

  lemma GrantWrites(q: FlowPermission)
    ensures Computes(AddFlowPermissions(SignContract, [q]), TheSession(Some([])), TheSession(Some([q])))
  {
    assert PushMissing([], [q]) == PushMissing([q], []) == [q];
    var v := ApplyOp(AddFlowPermissions(SignContract, [q]), TheSession(Some([]))).value;
    assert v == TheSession(Some([q]));
    JsonOfSession([q]);
  }

  lemma OtpRequestedRun() returns (r: Run)
    ensures Valid(TABLE, r) && Scene(Last(r), TheSession(Some([OtpRequested])))
  {
    r := LoggedIn();
    var k;
    r, k := Admission(r, TheSession(None), REQUEST_OTP, [RESET]);
    ResetWrites(None);
    r := UpdateOnce(r, k, TheSession(None), RESET, TheSession(Some([])));
    r := HandlerDone(r, k, TheSession(Some([])));
    GrantWrites(OtpRequested);
    r := UpdateOnce(r, k, TheSession(Some([])), AddFlowPermissions(SignContract, [OtpRequested]),
                    TheSession(Some([OtpRequested])));
  }

  /** FlowOtpVerified alone is not the beginning of the chain. */
  lemma ChainBreaks() returns (tr: seq<State>, steps: seq<Step>)
    ensures IsRun(TABLE, tr, steps)
    ensures var st := tr[|tr| - 1].store;
            Stored(st, BOUND) && FlowList(SessionAt(st, BOUND), SignContract) == [FlowOtpVerified]
  {
    var r := OtpRequestedRun();
    var checking, resetting;
    r, checking := Admission(r, TheSession(Some([OtpRequested])), CHECK_OTP, []);
    r, resetting := Admission(r, TheSession(Some([OtpRequested])), REQUEST_OTP, [RESET]);
    ResetWrites(Some([OtpRequested]));
    r := UpdateOnce(r, resetting, TheSession(Some([OtpRequested])), RESET, TheSession(Some([])));
    r := HandlerDone(r, checking, TheSession(Some([])));
    GrantWrites(FlowOtpVerified);
    r := UpdateOnce(r, checking, TheSession(Some([])), AddFlowPermissions(SignContract, [FlowOtpVerified]),
                    TheSession(Some([FlowOtpVerified])));
    tr, steps := r.tr, r.steps;
  }
}
