/** In serial runs the sign-contract flow moves along one chain and restarts with every requestOtp. */
module SignContractChain {
  import opened Prelude
  import opened SessionKeys
  import opened SessionRecord
  import opened SessionStore
  import opened TokenIssue
  import opened PermissionGate
  import opened Endpoints
  import opened AuthGuard
  import opened SerialRuns

  const CHAIN: seq<FlowPermission> := [OtpRequested, FlowOtpVerified, SelfieVerified]

  /** How far along a flow is: the contract last issued and the length of its permission list. */
  datatype Progress = Progress(contract: Option<string>, stage: nat)

  function After(p: Progress, e: Event): Progress {
    match e
    case OtpIssued(_, contractId) => Progress(Some(contractId), 0)
    case OtpGranted(_) => if p.stage == 0 then p.(stage := 1) else p
    case OtpChecked(_) => if p.stage == 1 then p.(stage := 2) else p
    case SelfieChecked(_) => if p.stage == 2 then p.(stage := 3) else p
  }

  /** The history of one session, read off the log. */
  function ProgressOf(log: seq<Event>, id: string): Progress {
    if log == [] then Progress(None, 0)
    else
      var before := ProgressOf(log[..|log| - 1], id);
      if log[|log| - 1].id == id then After(before, log[|log| - 1]) else before
  }

  lemma ProgressAppend(log: seq<Event>, e: Event, id: string)
    ensures ProgressOf(log + [e], id) == if e.id == id then After(ProgressOf(log, id), e) else ProgressOf(log, id)
  {
    assert (log + [e])[..|log|] == log;
  }

  function AfterAll(p: Progress, events: seq<Event>): Progress
    decreases |events|
  {
    if events == [] then p else AfterAll(After(p, events[0]), events[1..])
  }

  lemma AfterTwo(p: Progress, a: Event, b: Event)
    ensures AfterAll(p, [a]) == After(p, a)
    ensures AfterAll(p, [a, b]) == After(After(p, a), b)
  {
    var q := After(p, a);
    assert [a][1..] == [] && AfterAll(q, []) == q;
    assert [a, b][1..] == [b] && [b][1..] == [];
    assert AfterAll(q, [b]) == AfterAll(After(q, b), []) == After(q, b);
  }

  lemma {:induction false} ProgressEvents(log: seq<Event>, events: seq<Event>, owner: string, id: string)
    requires forall i :: 0 <= i < |events| ==> events[i].id == owner
    ensures ProgressOf(log + events, id) ==
            if id == owner then AfterAll(ProgressOf(log, id), events) else ProgressOf(log, id)
    decreases |events|
  {
    if events == [] {
      assert log + events == log;
    } else {
      assert log + events == log + [events[0]] + events[1..];
      ProgressAppend(log, events[0], id);
      ProgressEvents(log + [events[0]], events[1..], owner, id);
    }
  }

  /** The stored flow is exactly where its history says. */
  ghost predicate OnChain(flows: map<FlowType, Option<FlowValue>>, p: Progress) {
    p.stage <= 3 &&
    (SignContract in flows && flows[SignContract].Some? ==>
       var f := flows[SignContract].value;
       && f.permissions == Value(CHAIN[..p.stage])
       && p.contract.Some?
       && "contractId" in f.fields && f.fields["contractId"] == p.contract
       && (p.stage == 3 ==> "selfieId" in f.fields && f.fields["selfieId"].Some?))
  }

  ghost predicate AllOnChain(s: State) {
    forall id :: (Stored(s.store, id) ==> OnChain(SessionAt(s.store, id).flows, ProgressOf(s.log, id)))
  }

  // ---- One request ----

  lemma PushOne<T>(list: seq<T>, item: T)
    ensures PushMissing(list, [item]) == if item in list then list else list + [item]
  {
    assert [item][1..] == [];
  }

  /** Granting along the chain extends a prefix by one, or leaves it as it is. */
  lemma ChainPush(k: nat, q: FlowPermission)
    requires k <= 3 && q in CHAIN && (q == FlowOtpVerified ==> k >= 1) && (q == SelfieVerified ==> k >= 2)
    ensures PushMissing(CHAIN[..k], [q]) ==
              if (q == OtpRequested && k == 0) || (q == FlowOtpVerified && k == 1) || (q == SelfieVerified && k == 2)
              then CHAIN[..k + 1] else CHAIN[..k]
  {
    PushOne(CHAIN[..k], q);
    assert CHAIN[..k] == if k == 0 then [] else if k == 1 then [OtpRequested]
                         else if k == 2 then [OtpRequested, FlowOtpVerified] else CHAIN;
  }

  /** Granting the permission after stage `k` to a flow at least that far. */
  lemma GrantMoves(st: Slots, id: string, q: FlowPermission, now: int, p: Progress)
    requires Stored(st, id) && OnChain(SessionAt(st, id).flows, p)
    requires q in CHAIN && (q == FlowOtpVerified ==> p.stage >= 1) && (q == SelfieVerified ==> p.stage >= 2)
    requires q == SelfieVerified ==>
               SignContract in SessionAt(st, id).flows && SessionAt(st, id).flows[SignContract].Some? &&
               "selfieId" in SessionAt(st, id).flows[SignContract].value.fields &&
               SessionAt(st, id).flows[SignContract].value.fields["selfieId"].Some?
    ensures var r := RunOps(st, id, [AddFlowPermissions(SignContract, [q])], now);
            r.ok ==>
              Stored(r.store, id) &&
              OnChain(SessionAt(r.store, id).flows,
                      After(p, if q == OtpRequested then OtpGranted(id)
                               else if q == FlowOtpVerified then OtpChecked(id) else SelfieChecked(id)))
  {
    var op := AddFlowPermissions(SignContract, [q]);
    RunOneEffect(st, id, op, now);
    var r := RunOps(st, id, [op], now);
    if r.ok {
      ChainPush(p.stage, q);
    }
  }

  /** requestOtp's write puts the flow back to the start of the chain, under the new contract. */
  lemma RequestRestarts(st: Slots, id: string, contractId: string, otpId: string, selfieUndefined: bool, now: int)
    ensures var r := RunOps(st, id, [AddFlow(RequestOtpPatch(contractId, otpId, selfieUndefined))], now);
            if r.ok then Stored(r.store, id) && OnChain(SessionAt(r.store, id).flows, Progress(Some(contractId), 0))
            else r.store == st
  {
    var patch := RequestOtpPatch(contractId, otpId, selfieUndefined);
    RunOneEffect(st, id, AddFlow(patch), now);
    assert CHAIN[..0] == [];
    assert patch.flow == Some(SignContract) && patch.permissions == Value([]);
    assert "contractId" in patch.fields && patch.fields["contractId"] == Some(contractId);
  }

  /** checkSelfie's write leaves the permissions alone and stores the selfie. */
  lemma SelfieIsStored(st: Slots, id: string, selfieId: string, now: int, p: Progress)
    requires Stored(st, id) && OnChain(SessionAt(st, id).flows, p)
    requires SignContract in SessionAt(st, id).flows && SessionAt(st, id).flows[SignContract].Some?
    ensures var r := RunOps(st, id, [AddFlow(CheckSelfiePatch(selfieId))], now);
            if r.ok then
              && Stored(r.store, id) && OnChain(SessionAt(r.store, id).flows, p)
              && SignContract in SessionAt(r.store, id).flows && SessionAt(r.store, id).flows[SignContract].Some?
              && "selfieId" in SessionAt(r.store, id).flows[SignContract].value.fields
              && SessionAt(r.store, id).flows[SignContract].value.fields["selfieId"] == Some(selfieId)
            else r.store == st
  {
    RunOneEffect(st, id, AddFlow(CheckSelfiePatch(selfieId)), now);
  }

  /** The endpoint's check on a flow on the chain tells its stage. */
  lemma CheckTellsStage(s: SessionValue, p: Progress, call: Call)
    requires OnChain(s.flows, p) && Check(EndpointOf(call), s)
    ensures call.CheckOtp? ==> p.stage >= 1 && SignContract in s.flows && s.flows[SignContract].Some?
    ensures call.CheckSelfie? ==> p.stage >= 2 && SignContract in s.flows && s.flows[SignContract].Some?
  {
    CheckIff(EndpointOf(call), s);
    if call.CheckOtp? {
      assert Requires(CHECK_OTP, Flow(SignContract, OtpRequested));
    }
    if call.CheckSelfie? {
      assert Requires(CHECK_SELFIE, Flow(SignContract, FlowOtpVerified));
    }
  }

  /** A user-level grant does not touch the flows. */
  lemma UserGrantKeepsFlows(st: Slots, id: string, permissions: seq<UserPermission>, now: int, p: Progress)
    requires Stored(st, id) && OnChain(SessionAt(st, id).flows, p)
    ensures var r := RunOps(st, id, [AddPermissions(permissions)], now);
            Stored(r.store, id) && OnChain(SessionAt(r.store, id).flows, p)
  {
    RunOneEffect(st, id, AddPermissions(permissions), now);
  }

  /** The flow is on the chain, where the given events have brought it. */
  ghost predicate Reaches(st: Slots, id: string, p: Progress, events: seq<Event>) {
    Stored(st, id) && OnChain(SessionAt(st, id).flows, AfterAll(p, events))
  }

  /** Handler and grants of a request that passed its check, each agreeing with the events they leave. */
  ghost predicate RunsOnChain(st: Slots, id: string, call: Call, now: int, p: Progress) {
    var handled := RunOps(st, id, HandlerOps(call), now);
    var granted := RunOps(handled.store, id, GrantOps(EndpointOf(call)), now);
    && Reaches(handled.store, id, p, Events(id, call, HandlerFailed(handled.ok)))
    && (handled.ok ==> Reaches(granted.store, id, p, Events(id, call, if granted.ok then Granted else GrantFailed)))
  }

  lemma RequestOtpGrant(st: Slots, id: string, contractId: string, now: int)
    requires Stored(st, id) && OnChain(SessionAt(st, id).flows, Progress(Some(contractId), 0))
    ensures var granted := RunOps(st, id, GrantOps(REQUEST_OTP), now);
            && Stored(granted.store, id)
            && OnChain(SessionAt(granted.store, id).flows, Progress(Some(contractId), if granted.ok then 1 else 0))
  {
    assert GrantOps(REQUEST_OTP) == [AddFlowPermissions(SignContract, [OtpRequested])];
    GrantMoves(st, id, OtpRequested, now, Progress(Some(contractId), 0));
    RunOneEffect(st, id, AddFlowPermissions(SignContract, [OtpRequested]), now);
  }

  lemma RestartReached(st: Slots, id: string, p: Progress, contractId: string, granted: bool)
    requires Stored(st, id) && OnChain(SessionAt(st, id).flows, Progress(Some(contractId), if granted then 1 else 0))
    ensures Reaches(st, id, p,
                    if granted then [OtpIssued(id, contractId), OtpGranted(id)] else [OtpIssued(id, contractId)])
  {
    AfterTwo(p, OtpIssued(id, contractId), OtpGranted(id));
  }

  lemma RequestOtpHandled(st: Slots, id: string, call: Call, now: int, p: Progress)
    requires call.RequestOtp? && Stored(st, id) && OnChain(SessionAt(st, id).flows, p)
    ensures var handled := RunOps(st, id, HandlerOps(call), now);
            && Reaches(handled.store, id, p, Events(id, call, HandlerFailed(handled.ok)))
            && (handled.ok ==>
                  && Stored(handled.store, id)
                  && OnChain(SessionAt(handled.store, id).flows, Progress(Some(call.contractId), 0)))
  {
    var handled := RunOps(st, id, HandlerOps(call), now);
    RequestRestarts(st, id, call.contractId, call.otpId, call.selfieUndefined, now);
    if handled.ok {
      RestartReached(handled.store, id, p, call.contractId, false);
    }
  }

  lemma RequestOtpRuns(st: Slots, id: string, call: Call, now: int, p: Progress)
    requires call.RequestOtp? && Stored(st, id) && OnChain(SessionAt(st, id).flows, p)
    ensures RunsOnChain(st, id, call, now, p)
  {
    var handled := RunOps(st, id, HandlerOps(call), now);
    RequestOtpHandled(st, id, call, now, p);
    if handled.ok {
      var granted := RunOps(handled.store, id, GrantOps(REQUEST_OTP), now);
      RequestOtpGrant(handled.store, id, call.contractId, now);
      RestartReached(granted.store, id, p, call.contractId, granted.ok);
    }
  }

  lemma CheckOtpRuns(st: Slots, id: string, now: int, p: Progress)
    requires Stored(st, id) && OnChain(SessionAt(st, id).flows, p) && Check(CHECK_OTP, SessionAt(st, id))
    ensures RunsOnChain(st, id, CheckOtp, now, p)
  {
    CheckTellsStage(SessionAt(st, id), p, CheckOtp);
    GrantMoves(st, id, FlowOtpVerified, now, p);
    RunOneEffect(st, id, AddFlowPermissions(SignContract, [FlowOtpVerified]), now);
  }

  lemma CheckSelfieRuns(st: Slots, id: string, call: Call, now: int, p: Progress)
    requires call.CheckSelfie? && Stored(st, id) && OnChain(SessionAt(st, id).flows, p)
    requires Check(CHECK_SELFIE, SessionAt(st, id))
    ensures RunsOnChain(st, id, call, now, p)
  {
    var handled := RunOps(st, id, HandlerOps(call), now);
    CheckTellsStage(SessionAt(st, id), p, call);
    SelfieIsStored(st, id, call.selfieId, now, p);
    if handled.ok {
      GrantMoves(handled.store, id, SelfieVerified, now, p);
      RunOneEffect(handled.store, id, AddFlowPermissions(SignContract, [SelfieVerified]), now);
    }
  }

  lemma RequestRuns(st: Slots, id: string, call: Call, now: int, p: Progress)
    requires Stored(st, id) && OnChain(SessionAt(st, id).flows, p) && Check(EndpointOf(call), SessionAt(st, id))
    ensures RunsOnChain(st, id, call, now, p)
  {
    match call
    case RequestOtp(_, _, _) => RequestOtpRuns(st, id, call, now, p);
    case CheckOtp => CheckOtpRuns(st, id, now, p);
    case CheckSelfie(_) => CheckSelfieRuns(st, id, call, now, p);
    case AddPermission => UserGrantKeepsFlows(st, id, [OtpVerified], now, p);
    case AddSessionLocal => UserGrantKeepsFlows(st, id, [ForgotPassword], now, p);
  }

  /** What a served request does to its own session agrees with the events it leaves in the log. */
  lemma ServedOnChain(st: Slots, jwt: Jwt, call: Call, throws: bool, now: int, p: Progress)
    requires KeyedStore(st) && Accepts(st, now, jwt) && OnChain(SessionAt(st, JwtId(jwt)).flows, p)
    ensures var served := Serve(st, jwt, call, throws, now);
            Reaches(served.store, JwtId(jwt), p, Events(JwtId(jwt), call, served.reached))
  {
    ServeFrame(st, jwt, call, throws, now);
    if Check(EndpointOf(call), SessionAt(st, JwtId(jwt))) {
      RequestRuns(st, JwtId(jwt), call, now, p);
    }
  }

  // ---- Runs ----

  lemma RequestKeepsChain(s: State, jwt: Jwt, call: Call, throws: bool, id: string)
    requires Known(s) && AllOnChain(s)
    requires Stored(Apply(s, Request(jwt, call, throws)).store, id)
    ensures var s' := Apply(s, Request(jwt, call, throws));
            OnChain(SessionAt(s'.store, id).flows, ProgressOf(s'.log, id))
  {
    var served := Serve(s.store, jwt, call, throws, s.now);
    ServeFrame(s.store, jwt, call, throws, s.now);
    EventsOwn(JwtId(jwt), call, served.reached);
    ProgressEvents(s.log, Events(JwtId(jwt), call, served.reached), JwtId(jwt), id);
    if id == JwtId(jwt) && Accepts(s.store, s.now, jwt) {
      assert Stored(s.store, id);
      ServedOnChain(s.store, jwt, call, throws, s.now, ProgressOf(s.log, id));
    } else {
      assert Stored(s.store, id);
    }
  }

  lemma {:induction false} NoEventsNoProgress(log: seq<Event>, id: string)
    requires forall i :: 0 <= i < |log| ==> log[i].id != id
    ensures ProgressOf(log, id) == Progress(None, 0)
  {
    if log != [] {
      NoEventsNoProgress(log[..|log| - 1], id);
    }
  }

  lemma LoginKeepsChain(s: State, step: Step, id: string)
    requires Known(s) && AllOnChain(s) && Enabled(s, step) && step.LoginStep? && Stored(Apply(s, step).store, id)
    ensures OnChain(SessionAt(Apply(s, step).store, id).flows, ProgressOf(s.log, id))
  {
    if id == BoundId(step.key, step.id) {
      NoEventsNoProgress(s.log, id);
      assert !Owned(s.issued, id);
      assert Slot(SessionNs, id) !in s.store;
    } else {
      assert Stored(s.store, id);
    }
  }

  lemma ChainPreserved(s: State, step: Step)
    requires Known(s) && AllOnChain(s) && Enabled(s, step)
    ensures AllOnChain(Apply(s, step))
  {
    var s' := Apply(s, step);
    forall id | Stored(s'.store, id)
      ensures OnChain(SessionAt(s'.store, id).flows, ProgressOf(s'.log, id))
    {
      match step
      case Tick(_) => assert Stored(s.store, id);
      case LogoutStep(_) => assert Stored(s.store, id);
      case LoginStep(_, _, _, _) => LoginKeepsChain(s, step, id);
      case Request(jwt, call, throws) => RequestKeepsChain(s, jwt, call, throws, id);
    }
  }

  lemma {:induction false} ChainInRun(tr: seq<State>, steps: seq<Step>, n: nat)
    requires IsRun(tr, steps) && n < |tr|
    ensures Known(tr[n]) && AllOnChain(tr[n])
  {
    KnownInRun(tr, steps, n);
    if n > 0 {
      ChainInRun(tr, steps, n - 1);
      assert Next(tr[n - 1], steps[n - 1], tr[n]);
      ChainPreserved(tr[n - 1], steps[n - 1]);
    }
  }

  /** The events behind a stage, in their order, with no requestOtp after the first. */
  ghost predicate Explains(
    log: seq<Event>, id: string, contractId: string, stage: nat, a: nat, g: nat, x: nat, y: nat)
  {
    && a < |log| && log[a] == OtpIssued(id, contractId)
    && (forall i :: a < i < |log| && log[i].id == id ==> !log[i].OtpIssued?)
    && (stage >= 1 ==> a < g < |log| && log[g] == OtpGranted(id))
    && (stage >= 2 ==> g < x < |log| && log[x] == OtpChecked(id))
    && (stage >= 3 ==> x < y < |log| && log[y] == SelfieChecked(id))
  }

  lemma {:induction false} HistoryOf(log: seq<Event>, id: string) returns (a: nat, g: nat, x: nat, y: nat)
    requires ProgressOf(log, id).contract.Some?
    ensures ProgressOf(log, id).stage <= 3
    ensures Explains(log, id, ProgressOf(log, id).contract.value, ProgressOf(log, id).stage, a, g, x, y)
  {
    var last := |log| - 1;
    var e := log[last];
    if e.id == id && e.OtpIssued? {
      a, g, x, y := last, 0, 0, 0;
    } else {
      a, g, x, y := HistoryOf(log[..last], id);
      if e.id == id {
        var stage := ProgressOf(log[..last], id).stage;
        if e.OtpGranted? && stage == 0 {
          g := last;
        } else if e.OtpChecked? && stage == 1 {
          x := last;
        } else if e.SelfieChecked? && stage == 2 {
          y := last;
        }
      }
    }
  }

  /** In every serial run the flow's permissions are a prefix of the chain. */
  lemma AlwaysPrefix(tr: seq<State>, steps: seq<Step>, n: nat, id: string)
    requires IsRun(tr, steps) && n < |tr| && Stored(tr[n].store, id)
    ensures FlowList(SessionAt(tr[n].store, id), SignContract) <= CHAIN
  {
    ChainInRun(tr, steps, n);
    assert OnChain(SessionAt(tr[n].store, id).flows, ProgressOf(tr[n].log, id));
  }

  /**
   SELFIE_VERIFIED under contract c means: requestOtp issued c and was granted, then checkOtp and
   then checkSelfie succeeded, with no requestOtp since; and the selfie is stored.
   */
  lemma SelfieExplained(tr: seq<State>, steps: seq<Step>, n: nat, id: string) returns (a: nat, g: nat, x: nat, y: nat)
    requires IsRun(tr, steps) && n < |tr| && Stored(tr[n].store, id)
    requires SelfieVerified in FlowList(SessionAt(tr[n].store, id), SignContract)
    ensures var fields := SessionAt(tr[n].store, id).flows[SignContract].value.fields;
            && "selfieId" in fields && fields["selfieId"].Some?
            && "contractId" in fields && fields["contractId"].Some?
            && Explains(tr[n].log, id, fields["contractId"].value, 3, a, g, x, y)
  {
    ChainInRun(tr, steps, n);
    assert OnChain(SessionAt(tr[n].store, id).flows, ProgressOf(tr[n].log, id));
    a, g, x, y := HistoryOf(tr[n].log, id);
  }
}
