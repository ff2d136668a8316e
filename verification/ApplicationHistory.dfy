/**
 The application's code over a whole history: whatever calls are made and however time passes, the
 string-keyed storage is always that of a run of `SerialRuns`, so that its laws hold of the code.
 */
module ApplicationHistory {
  import opened Prelude
  import opened SessionKeys
  import opened SessionRecord
  import opened SessionStore
  import opened SessionServices
  import opened AuthGuard
  import opened Responses
  import opened HttpPipeline
  import opened ApplicationLaws
  import opened UnansweredRequests
  import opened ServedRequests
  import opened TokenWindow
  import S = SerialRuns
  import SingleToken
  import SignContractChain
  import SelfieRequests
  import PermissionLadder

  lemma OneStepMore(tr: seq<S.State>, steps: seq<S.Step>, step: S.Step)
    requires S.IsRun(tr, steps) && S.Enabled(tr[|steps|], step)
    ensures S.IsRun(tr + [S.Apply(tr[|steps|], step)], steps + [step])
  {
  }

  class Deployment {
    const app: Application
    ghost var tr: seq<S.State>
    ghost var steps: seq<S.Step>

    ghost predicate Valid()
      reads this, app.storage
    {
      && app.Wired() && S.IsRun(tr, steps)
      && Represents(app.storage.entries, tr[|steps|].store) && app.storage.now == tr[|steps|].now
    }

    ghost function Now(): S.State
      requires Valid()
      reads this, app.storage
    {
      tr[|steps|]
    }

    /** The history has gone on by one step. */
    twostate predicate WentOn(step: S.Step)
      requires old(Valid()) && Valid()
      reads this, app.storage
    {
      steps == old(steps) + [step] && tr == old(tr) + [S.Apply(old(Now()), step)]
    }

    constructor (now: int, showDebugError: bool)
      ensures Valid() && fresh(app.storage) && steps == [] && Now() == S.State(map[], now, {}, {}, [])
    {
      var storage := new RedisStorage(now);
      app := new Application(storage, showDebugError);
      tr, steps := [S.State(map[], now, {}, {}, [])], [];
    }

    ghost method Record(step: S.Step)
      requires app.Wired() && S.IsRun(tr, steps) && S.Enabled(tr[|steps|], step)
      requires Represents(app.storage.entries, S.Apply(tr[|steps|], step).store)
      requires app.storage.now == S.Apply(tr[|steps|], step).now
      modifies this
      ensures Valid() && steps == old(steps) + [step] && tr == old(tr) + [S.Apply(old(tr[|steps|]), step)]
    {
      OneStepMore(tr, steps, step);
      tr, steps := tr + [S.Apply(tr[|steps|], step)], steps + [step];
    }

    method Tick(ms: nat)
      requires Valid()
      modifies this, app.storage
      ensures Valid() && WentOn(S.Tick(ms))
    {
      app.storage.now := app.storage.now + ms;
      Record(S.Tick(ms));
    }

    /** The storage and its clock are those of a state of some run. */
    ghost predicate At(s: S.State)
      reads this, app.storage
    {
      app.Wired() && S.Known(s) && Represents(app.storage.entries, s.store) && app.storage.now == s.now
    }

    lemma PresentIsKnown()
      requires Valid()
      ensures At(Now())
    {
      S.KnownInRun(tr, steps, |steps|);
    }

    method CallLogin(key: string, id: string, rest: map<string, string>, expireTime: int) returns (ok: bool)
      requires Valid() && S.Enabled(Now(), S.LoginStep(key, id, rest, expireTime))
      modifies this, app.storage`entries
      ensures Valid() && WentOn(S.LoginStep(key, id, rest, expireTime)) && (ok <==> expireTime > 0)
    {
      ok := app.Login(Now().store, key, id, rest, expireTime);
      Record(S.LoginStep(key, id, rest, expireTime));
    }

    method CallRequest(ghost s: S.State, jwt: Jwt, call: S.Call, ending: Ending, res: HttpResponse)
      returns (reply: Reply)
      requires At(s)
      modifies app.storage`entries, res
      ensures Represents(app.storage.entries, S.Serve(s.store, jwt, call, !AsksSuccess(ending), s.now).store)
      ensures Outcome(s.store, s.now, jwt, call, ending, reply,
                      S.Serve(s.store, jwt, call, !AsksSuccess(ending), s.now).store)
      ensures reply.Refused? ==>
                app.storage.entries == old(app.storage.entries) && res.statusCode == old(res.statusCode)
      ensures !reply.Refused? ==>
                AnsweredAs(reply, res.statusCode, Writes(call) && !TimeLeft(s.store, s.now, jwt), ending,
                           old(res.statusCode), app.interceptor.responses.showDebugError)
    {
      ghost var entries, status := app.storage.entries, res.statusCode;
      reply := app.Request(s.store, jwt, call, ending, res);
      OutcomeLaw(s.store, jwt, call, ending, s.now, reply);
      if reply.Refused? {
        RepresentsUnique(app.storage.entries, entries, s.store);
      } else {
        AnswerIs(s.store, jwt, call, ending, s.now, reply, status, res.statusCode,
                 app.interceptor.responses.showDebugError);
      }
    }

    /** The two new entries in Redis; other entries go exactly if they belong to a live token of the user. */
    method Login(key: string, id: string, rest: map<string, string>, expireTime: int) returns (ok: bool)
      requires Valid() && S.Enabled(Now(), S.LoginStep(key, id, rest, expireTime))
      modifies this, app.storage
      ensures Valid() && WentOn(S.LoginStep(key, id, rest, expireTime))
      ensures app.storage.now == old(app.storage.now)
      ensures LoginOutcome(old(Now()), S.LoginStep(key, id, rest, expireTime), ok, app.storage.entries, Now().store)
    {
      ghost var tr0, steps0 := tr, steps;
      ok := CallLogin(key, id, rest, expireTime);
      LastLogin(tr0, steps0, S.LoginStep(key, id, rest, expireTime), tr, app.storage.entries);
    }

    /** An accepted logout takes exactly the two entries of its token out of Redis. */
    method Logout(jwt: Jwt) returns (ok: bool)
      requires Valid()
      modifies this, app.storage
      ensures Valid() && WentOn(S.LogoutStep(jwt))
      ensures ok <==> old(TokenGood(Now().store, app.storage.now, jwt))
      ensures app.storage.entries ==
              if ok then WithoutId(old(app.storage.entries), JwtId(jwt)) else old(app.storage.entries)
    {
      ghost var before, entries := Now(), app.storage.entries;
      S.KnownInRun(tr, steps, |steps|);
      ok := app.Logout(before.store, jwt);
      LogoutLaw(before, jwt, entries, app.storage.entries);
      Record(S.LogoutStep(jwt));
    }

    method Request(jwt: Jwt, call: S.Call, ending: Ending, res: HttpResponse) returns (reply: Reply)
      requires Valid()
      modifies this, app.storage, res
      ensures Valid() && WentOn(S.Request(jwt, call, !AsksSuccess(ending)))
      ensures app.storage.now == old(app.storage.now)
      ensures Outcome(old(Now().store), app.storage.now, jwt, call, ending, reply, Now().store)
      ensures reply.Refused? ==>
                app.storage.entries == old(app.storage.entries) && res.statusCode == old(res.statusCode)
      ensures !reply.Refused? ==>
                AnsweredAs(reply, res.statusCode, old(Writes(call) && !TimeLeft(Now().store, app.storage.now, jwt)),
                           ending, old(res.statusCode), app.interceptor.responses.showDebugError)
    {
      PresentIsKnown();
      reply := CallRequest(Now(), jwt, call, ending, res);
      Record(S.Request(jwt, call, !AsksSuccess(ending)));
    }

    // ---- What holds of the code's own storage ----

    /** The session in the storage under the Redis key of `id`, if there is one. */
    ghost predicate HasSession(id: string)
      requires Valid()
      reads this, app.storage
    {
      var k := Render(Slot(SessionNs, id));
      k in app.storage.entries && app.storage.entries[k].record.SessionRec?
    }

    ghost function Session(id: string): SessionValue
      requires Valid() && HasSession(id)
      reads this, app.storage
    {
      app.storage.entries[Render(Slot(SessionNs, id))].record.session
    }

    lemma SessionIsSlot(id: string)
      requires Valid() && HasSession(id)
      ensures Stored(Now().store, id) && SessionAt(Now().store, id) == Session(id)
    {
      RenderedKey(app.storage.entries, Now().store, Slot(SessionNs, id));
    }

    /** After any history: sign-contract order, permission ladder and key of every stored session. */
    lemma SessionLaws(id: string)
      requires Valid() && HasSession(id)
      ensures FlowList(Session(id), SignContract) <= SignContractChain.CHAIN
      ensures ForgotPassword in UserList(Session(id)) ==> OtpVerified in UserList(Session(id))
      ensures Session(id).key == id
    {
      SessionIsSlot(id);
      SignContractChain.AlwaysPrefix(tr, steps, |steps|, id);
      PermissionLadder.LadderInRun(tr, steps, |steps|);
      S.KnownInRun(tr, steps, |steps|);
    }

    /** After any history: a verified selfie has its requests behind it. */
    lemma SelfieLaw(id: string) returns (a: nat, g: nat, x: nat, y: nat)
      requires Valid() && HasSession(id) && SelfieVerified in FlowList(Session(id), SignContract)
      ensures var fields := Session(id).flows[SignContract].value.fields;
              && "selfieId" in fields && fields["selfieId"].Some?
              && "contractId" in fields && fields["contractId"].Some?
              && SignContractChain.Explains(Now().log, id, fields["contractId"].value, 3, a, g, x, y)
    {
      SessionIsSlot(id);
      a, g, x, y := SignContractChain.SelfieExplained(tr, steps, |steps|, id);
    }

    /** The same as calls of this history: requestOtp for the stored contract, checkOtp, checkSelfie. */
    lemma SelfieCalls(id: string) returns (contractId: string, k: nat, l: nat, m: nat)
      requires Valid() && HasSession(id) && SelfieVerified in FlowList(Session(id), SignContract)
      ensures var fields := Session(id).flows[SignContract].value.fields;
              "contractId" in fields && fields["contractId"] == Some(contractId)
      ensures SelfieRequests.Trail(tr, steps, |steps|, id, contractId, k, l, m)
    {
      SessionIsSlot(id);
      contractId, k, l, m := SelfieRequests.SelfieTrail(tr, steps, |steps|, id);
    }

    /** The guard's answer in the present state. */
    method Admits(jwt: Jwt) returns (ok: bool)
      requires Valid()
      ensures ok <==> Accepts(Now().store, app.storage.now, jwt)
    {
      var request := new HttpRequest();
      ok := app.guard.CanActivate(Now().store, jwt, request);
    }

    /** After any history the guard admits at most one token of a user, and no revoked one. */
    lemma TokenLaws(a: Jwt, b: Jwt)
      requires Valid() && SingleToken.GoodLogins(steps)
      ensures a.key == b.key && Accepts(Now().store, app.storage.now, a) && Accepts(Now().store, app.storage.now, b) ==>
                a.id == b.id
      ensures (exists t :: t in Now().revoked && S.TokenId(t) == JwtId(a)) ==> !Accepts(Now().store, app.storage.now, a)
    {
      var n := |steps|;
      if a.key == b.key && Accepts(Now().store, app.storage.now, a) && Accepts(Now().store, app.storage.now, b) {
        SingleToken.AtMostOneAccepted(tr, steps, n, a, b);
      }
      if t :| t in Now().revoked && S.TokenId(t) == JwtId(a) {
        SingleToken.RevokedNeverAccepted(tr, steps, n, n, t, a);
      }
    }
  }
}
