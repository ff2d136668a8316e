/**
 The requests behind a verified selfie, as steps of the run: which they were, that each was let in
 and served in time, in what order they came, and that no later requestOtp has started over.
 */
module SelfieRequests {
  import opened Prelude
  import opened SessionKeys
  import opened SessionRecord
  import opened SessionStore
  import opened AuthGuard
  import opened SerialRuns
  import opened ServedRequests
  import opened SignContractChain
  import opened UnansweredRequests

  /** The step is a request on the session `id` that is let in, throws nothing and has time left. */
  ghost predicate ServedFor(s: State, step: Step, id: string) {
    && step.Request? && JwtId(step.jwt) == id && !step.throws
    && Admitted(s.store, s.now, step.jwt, step.call) && TimeLeft(s.store, s.now, step.jwt)
  }

  /** The step is a requestOtp on the session `id` that is let in with time left. */
  ghost predicate StartsOver(s: State, step: Step, id: string) {
    && step.Request? && JwtId(step.jwt) == id && step.call.RequestOtp?
    && Admitted(s.store, s.now, step.jwt, step.call) && TimeLeft(s.store, s.now, step.jwt)
  }

  // ---- The log of one step ----

  /** What entry `i` of the log, written by this step, says about it. */
  ghost predicate Tells(s: State, step: Step, log: seq<Event>, i: nat)
    requires i < |log|
  {
    match log[i]
    case OtpIssued(id, contractId) => StartsOver(s, step, id) && step.call.contractId == contractId
    case OtpGranted(id) =>
      && ServedFor(s, step, id) && step.call.RequestOtp?
      && i > |s.log| && log[i - 1] == OtpIssued(id, step.call.contractId)
    case OtpChecked(id) => ServedFor(s, step, id) && step.call.CheckOtp?
    case SelfieChecked(id) => ServedFor(s, step, id) && step.call.CheckSelfie?
  }

  /** The step adds to the log only what is so, and every start. */
  ghost predicate LogStep(s: State, step: Step, s': State) {
    && s.log <= s'.log
    && (forall i :: |s.log| <= i < |s'.log| ==> Tells(s, step, s'.log, i))
    && (step.Request? && StartsOver(s, step, JwtId(step.jwt)) ==>
          |s.log| < |s'.log| && s'.log[|s.log|] == OtpIssued(JwtId(step.jwt), step.call.contractId))
  }

  /** How far a request got, for the purposes of the log. */
  lemma ReachedTells(s: State, step: Step)
    requires Known(s) && step.Request?
    ensures var id, reached := JwtId(step.jwt), Serve(s.store, step.jwt, step.call, step.throws, s.now).reached;
            && (reached == Granted <==> ServedFor(s, step, id))
            && (step.call.RequestOtp? ==>
                  (StartsOver(s, step, id) <==> reached != Rejected && reached != HandlerFailed(false)))
  {
    RejectedIff(s.store, step.jwt, step.call, step.throws, s.now);
    GrantedIff(s.store, step.jwt, step.call, step.throws, s.now);
    HandlerFailedIff(s.store, step.jwt, step.call, step.throws, s.now);
  }

  lemma EventsTell(s: State, step: Step, log: seq<Event>, reached: Reached)
    requires step.Request? && log == s.log + Events(JwtId(step.jwt), step.call, reached)
    requires reached == Granted <==> ServedFor(s, step, JwtId(step.jwt))
    requires step.call.RequestOtp? ==>
               (StartsOver(s, step, JwtId(step.jwt)) <==> reached != Rejected && reached != HandlerFailed(false))
    ensures forall i :: |s.log| <= i < |log| ==> Tells(s, step, log, i)
    ensures StartsOver(s, step, JwtId(step.jwt)) ==>
              |s.log| < |log| && log[|s.log|] == OtpIssued(JwtId(step.jwt), step.call.contractId)
  {
    var events := Events(JwtId(step.jwt), step.call, reached);
    forall i | |s.log| <= i < |log|
      ensures Tells(s, step, log, i)
    {
      assert log[i] == events[i - |s.log|];
    }
    if StartsOver(s, step, JwtId(step.jwt)) {
      assert log[|s.log|] == events[0];
    }
  }

  lemma RequestLogs(s: State, step: Step)
    requires Known(s) && step.Request?
    ensures LogStep(s, step, Apply(s, step))
  {
    var log, reached := Apply(s, step).log, Serve(s.store, step.jwt, step.call, step.throws, s.now).reached;
    ReachedTells(s, step);
    assert log == s.log + Events(JwtId(step.jwt), step.call, reached);
    EventsTell(s, step, log, reached);
  }

  /** All steps of a run log like that. */
  ghost predicate Logged(tr: seq<State>, steps: seq<Step>) {
    && |tr| == |steps| + 1 && tr[0].log == []
    && forall i {:trigger steps[i]} :: 0 <= i < |steps| ==> LogStep(tr[i], steps[i], tr[i + 1])
  }

  lemma LoggedInRun(tr: seq<State>, steps: seq<Step>)
    requires IsRun(tr, steps)
    ensures Logged(tr, steps)
  {
    forall i | 0 <= i < |steps|
      ensures LogStep(tr[i], steps[i], tr[i + 1])
    {
      KnownInRun(tr, steps, i);
      assert Next(tr[i], steps[i], tr[i + 1]);
      if steps[i].Request? {
        RequestLogs(tr[i], steps[i]);
      }
    }
  }

  // ---- The log of a run ----

  lemma {:induction false} LogGrows(tr: seq<State>, steps: seq<Step>, j: nat, n: nat)
    requires Logged(tr, steps) && j <= n < |tr|
    ensures tr[j].log <= tr[n].log
    decreases n
  {
    if j < n {
      LogGrows(tr, steps, j, n - 1);
      assert LogStep(tr[n - 1], steps[n - 1], tr[n]);
    }
  }

  /** Step `k` wrote entry `i` of the log and is as it says. */
  ghost predicate WrittenBy(tr: seq<State>, steps: seq<Step>, log: seq<Event>, i: nat, k: nat)
    requires |tr| == |steps| + 1 && i < |log|
  {
    k < |steps| && |tr[k].log| <= i < |tr[k + 1].log| && Tells(tr[k], steps[k], log, i)
  }

  lemma TellsStill(s: State, step: Step, log: seq<Event>, log': seq<Event>, i: nat)
    requires i < |log| && log <= log' && Tells(s, step, log, i)
    ensures Tells(s, step, log', i)
  {
  }

  lemma {:induction false} WriterOf(tr: seq<State>, steps: seq<Step>, n: nat, i: nat) returns (k: nat)
    requires Logged(tr, steps) && n < |tr| && i < |tr[n].log|
    ensures k < n && WrittenBy(tr, steps, tr[n].log, i, k)
    decreases n
  {
    assert LogStep(tr[n - 1], steps[n - 1], tr[n]);
    if i < |tr[n - 1].log| {
      k := WriterOf(tr, steps, n - 1, i);
      TellsStill(tr[k], steps[k], tr[n - 1].log, tr[n].log, i);
    } else {
      k := n - 1;
    }
  }

  /** Later entries have later writers. */
  lemma WritersInOrder(tr: seq<State>, steps: seq<Step>, i: nat, j: nat, k: nat, m: nat)
    requires Logged(tr, steps) && k < |steps| && m < |steps|
    requires |tr[k].log| <= i < j < |tr[m + 1].log|
    ensures k <= m
  {
    if m < k {
      LogGrows(tr, steps, m + 1, k);
    }
  }

  /** No requestOtp on the session was let in with time left after step `k`. */
  ghost predicate NoNewStart(tr: seq<State>, steps: seq<Step>, k: nat, n: nat, id: string)
    requires n <= |steps| < |tr|
  {
    forall j :: k < j < n ==> !StartsOver(tr[j], steps[j], id)
  }

  lemma StartIsLogged(tr: seq<State>, steps: seq<Step>, j: nat, n: nat, id: string)
    requires Logged(tr, steps) && j < n < |tr| && StartsOver(tr[j], steps[j], id)
    ensures |tr[j].log| < |tr[n].log| && tr[n].log[|tr[j].log|].OtpIssued? && tr[n].log[|tr[j].log|].id == id
  {
    assert LogStep(tr[j], steps[j], tr[j + 1]);
    LogGrows(tr, steps, j + 1, n);
  }

  lemma NothingIssuedSince(tr: seq<State>, steps: seq<Step>, n: nat, id: string, a: nat, k: nat)
    requires Logged(tr, steps) && k < n < |tr| && a < |tr[k + 1].log|
    requires forall i :: a < i < |tr[n].log| && tr[n].log[i].id == id ==> !tr[n].log[i].OtpIssued?
    ensures NoNewStart(tr, steps, k, n, id)
  {
    forall j | k < j < n
      ensures !StartsOver(tr[j], steps[j], id)
    {
      LogGrows(tr, steps, k + 1, j);
      if StartsOver(tr[j], steps[j], id) {
        StartIsLogged(tr, steps, j, n, id);
      }
    }
  }

  // ---- The requests ----

  /** requestOtp for the contract in step `k`, checkOtp in `l`, checkSelfie in `m`, and no start since `k`. */
  ghost predicate Trail(
    tr: seq<State>, steps: seq<Step>, n: nat, id: string, contractId: string, k: nat, l: nat, m: nat)
    requires n <= |steps| < |tr|
  {
    && k < l < m < n
    && ServedFor(tr[k], steps[k], id) && steps[k].call.RequestOtp? && steps[k].call.contractId == contractId
    && ServedFor(tr[l], steps[l], id) && steps[l].call.CheckOtp?
    && ServedFor(tr[m], steps[m], id) && steps[m].call.CheckSelfie?
    && NoNewStart(tr, steps, k, n, id)
  }

  /** The grant of requestOtp belongs to the last start. */
  lemma GrantIsOfStart(log: seq<Event>, id: string, contractId: string, a: nat, g: nat, s: State, step: Step)
    requires a < g < |log| && log[a] == OtpIssued(id, contractId) && log[g] == OtpGranted(id)
    requires forall i :: a < i < |log| && log[i].id == id ==> !log[i].OtpIssued?
    requires Tells(s, step, log, g)
    ensures a == g - 1 && step.call.contractId == contractId
  {
    assert log[g - 1] == OtpIssued(id, step.call.contractId);
  }

  lemma TrailInLog(
    tr: seq<State>, steps: seq<Step>, n: nat, id: string, contractId: string, a: nat, g: nat, x: nat, y: nat)
    returns (k: nat, l: nat, m: nat)
    requires Logged(tr, steps) && n < |tr| && Explains(tr[n].log, id, contractId, 3, a, g, x, y)
    ensures Trail(tr, steps, n, id, contractId, k, l, m)
  {
    k := WriterOf(tr, steps, n, g);
    l := WriterOf(tr, steps, n, x);
    m := WriterOf(tr, steps, n, y);
    GrantIsOfStart(tr[n].log, id, contractId, a, g, tr[k], steps[k]);
    WritersInOrder(tr, steps, g, x, k, l);
    WritersInOrder(tr, steps, x, y, l, m);
    NothingIssuedSince(tr, steps, n, id, a, k);
  }

  /**
   In every run: a session that holds SELFIE_VERIFIED has such requests behind it, for the contract
   that is stored, each let in and served in time.
   */
  lemma SelfieTrail(tr: seq<State>, steps: seq<Step>, n: nat, id: string)
    returns (contractId: string, k: nat, l: nat, m: nat)
    requires IsRun(tr, steps) && n < |tr| && Stored(tr[n].store, id)
    requires SelfieVerified in FlowList(SessionAt(tr[n].store, id), SignContract)
    ensures var fields := SessionAt(tr[n].store, id).flows[SignContract].value.fields;
            "contractId" in fields && fields["contractId"] == Some(contractId)
    ensures Trail(tr, steps, n, id, contractId, k, l, m)
  {
    var a, g, x, y := SelfieExplained(tr, steps, n, id);
    contractId := SessionAt(tr[n].store, id).flows[SignContract].value.fields["contractId"].value;
    LoggedInRun(tr, steps);
    k, l, m := TrailInLog(tr, steps, n, id, contractId, a, g, x, y);
  }
}
