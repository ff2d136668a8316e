/**
 What the calls of the application do to its storage and to its client, on the values before and
 after: the Redis strings, the entries they represent, the reply and the HTTP status.
 */
module ApplicationLaws {
  import opened Prelude
  import opened SessionKeys
  import opened SessionRecord
  import opened SessionStore
  import opened SessionServices
  import opened AuthGuard
  import opened Responses
  import opened HttpPipeline
  import opened UnansweredRequests
  import opened ServedRequests
  import opened TokenWindow
  import S = SerialRuns
  import SingleToken
  import TokenIssue

  lemma SameMap(a: Slots, b: Slots)
    requires forall slot: Slot :: slot in a <==> slot in b
    requires forall slot :: slot in a ==> a[slot] == b[slot]
    ensures a == b
  {
  }

  lemma BothGone(entries: map<string, Entry>, before: Slots, after: Slots, id: string)
    requires Represents(entries, before)
    requires forall slot: Slot :: slot in after <==> slot in before && slot.id != id
    requires forall slot :: slot in after ==> after[slot] == before[slot]
    ensures Represents(entries - {Render(Slot(TokenNs, id))} - {Render(Slot(SessionNs, id))}, after)
  {
    ClearOnStrings(entries, before, id);
    SameMap(TokenIssue.ClearIds(before, {id}), after);
  }

  /** A handler that writes without time left ends with the refused SETEX, any other as it says. */
  lemma ActualEndingIs(st: Slots, jwt: Jwt, call: S.Call, ending: Ending, now: int)
    requires KeyedStore(st) && Admitted(st, now, jwt, call)
    ensures ActualEnding(st, JwtId(jwt), call, ending, now) ==
            if Writes(call) && !TimeLeft(st, now, jwt) then EndingOf(StoreError) else ending
  {
    WritesIff(call);
    if Writes(call) {
      HandlerWorksIff(st, jwt, call, now);
      S.RunOne(st, JwtId(jwt), S.HandlerOps(call)[0], now);
      assert S.HandlerOps(call) == [S.HandlerOps(call)[0]];
    }
  }

  /** What the client of an admitted request sees; `refused` says that the handler's write found no time left. */
  ghost predicate AnsweredAs(reply: Reply, status': int, refused: bool, ending: Ending, status: int, show: bool) {
    && (!refused ==> StatusAfter(status', ending, status))
    && (!refused && reply.Replied? ==> Answers(reply.response, ending, status, show))
    && (refused && status < 300 ==>
          reply.Replied? && reply.response.systemCode == "SORRY_SOMETHING_WENT_WRONG" && status' == 500)
  }

  /**
   The client is refused exactly if the token is not good or the session lacks what the endpoint
   asks for, and then nothing changes; it hears nothing exactly if the request was unanswerable;
   and it hears SUCCESS exactly if it was let in, the handler returned and there was time left.
   Then the session is the one before with the handler's and the endpoint's changes.
   */
  ghost predicate Outcome(before: Slots, now: int, jwt: Jwt, call: S.Call, ending: Ending, reply: Reply, after: Slots) {
    var id, success := JwtId(jwt), reply.Replied? && reply.response.systemCode == SUCCESS;
    && (reply.Refused? <==> !Admitted(before, now, jwt, call))
    && (reply.Refused? ==> after == before)
    && (reply.NeverReplied? <==> Unanswerable(before, now, jwt, call, !AsksSuccess(ending)))
    && (success <==> Admitted(before, now, jwt, call) && AsksSuccess(ending) && TimeLeft(before, now, jwt))
    && (success ==>
          && Stored(before, id) && Stored(after, id)
          && Simplify(SessionAt(after, id)) ==
             Granting(call, ServedRequests.Handled(call, Simplify(SessionAt(before, id)))))
    && S.SameOutside(before, after, id)
  }

  lemma OutcomeLaw(before: Slots, jwt: Jwt, call: S.Call, ending: Ending, now: int, reply: Reply)
    requires KeyedStore(before) && Tells(reply, S.Serve(before, jwt, call, !AsksSuccess(ending), now).reached)
    ensures Outcome(before, now, jwt, call, ending, reply, S.Serve(before, jwt, call, !AsksSuccess(ending), now).store)
  {
    var throws := !AsksSuccess(ending);
    GrantFailsIff(before, jwt, call, throws, now);
    RejectedIff(before, jwt, call, throws, now);
    GrantedIff(before, jwt, call, throws, now);
    S.ServeFrame(before, jwt, call, throws, now);
    if Admitted(before, now, jwt, call) {
      Leaves(before, jwt, call, throws, now);
    }
  }

  lemma UserIsOwner(st: Slots, now: int, jwt: Jwt)
    requires KeyedStore(st) && Accepts(st, now, jwt)
    ensures ReadToken(st, JwtId(jwt), now) == Some(JwtId(jwt))
  {
  }

  lemma AnswerIs(
    st: Slots, jwt: Jwt, call: S.Call, ending: Ending, now: int, reply: Reply, status: int, status': int, show: bool)
    requires KeyedStore(st) && !reply.Refused?
    requires Tells(reply, S.Serve(st, jwt, call, !AsksSuccess(ending), now).reached)
    requires Accepts(st, now, jwt) ==>
               var user := ReadToken(st, JwtId(jwt), now).value;
               && StatusAfter(status', ActualEnding(st, user, call, ending, now), status)
               && (reply.Replied? ==> Answers(reply.response, ActualEnding(st, user, call, ending, now), status, show))
    ensures AnsweredAs(reply, status', Writes(call) && !TimeLeft(st, now, jwt), ending, status, show)
  {
    RejectedIff(st, jwt, call, !AsksSuccess(ending), now);
    AcceptsIff(st, now, jwt);
    UserIsOwner(st, now, jwt);
    ActualEndingIs(st, jwt, call, ending, now);
    HandlerFailedIff(st, jwt, call, !AsksSuccess(ending), now);
  }

  /** Other entries than those of the new token go exactly if they belong to a live token of the user. */
  ghost predicate OthersStay(before: Slots, after: Slots, now: int, key: string, id: string) {
    forall slot: Slot :: slot.id != BoundId(key, id) ==>
      (slot in after <==> slot in before && !OfLiveToken(before, now, key, slot)) &&
      (slot in after ==> after[slot] == before[slot])
  }

  lemma OthersStayed(s: S.State, step: S.Step)
    requires S.Known(s) && S.Enabled(s, step) && step.LoginStep? && SingleToken.GoodUser(step.key, step.id)
    ensures OthersStay(s.store, S.Apply(s, step).store, s.now, step.key, step.id)
  {
    LoginLeaves(s, step);
  }

  /** The new entries of a login under their Redis keys. */
  ghost predicate FreshKeys(strings: map<string, Entry>, now: int, step: S.Step)
    requires step.LoginStep?
  {
    var bound := BoundId(step.key, step.id);
    var token, session := Render(Slot(TokenNs, bound)), Render(Slot(SessionNs, bound));
    var deadline := now + 1000 * step.expireTime;
    && token in strings && strings[token] == Entry(TokenRecord(step.key, step.id), deadline)
    && session in strings && strings[session] == Entry(SessionRec(SessionValue(
         Value(now / 1000 + step.expireTime), Value(now / 1000), bound, Value([]), map[], step.rest)), deadline)
  }

  lemma LoginOnStrings(strings: map<string, Entry>, s: S.State, step: S.Step)
    requires step.LoginStep? && step.expireTime > 0 && Represents(strings, S.Apply(s, step).store)
    ensures FreshKeys(strings, s.now, step)
  {
    LoginWrites(s, step);
  }

  /** It fails exactly without a positive lifetime; its two keys, and the other entries. */
  ghost predicate LoginOutcome(before: S.State, step: S.Step, ok: bool, strings: map<string, Entry>, after: Slots)
    requires step.LoginStep?
  {
    && (ok <==> step.expireTime > 0)
    && (ok ==> FreshKeys(strings, before.now, step))
    && (SingleToken.GoodUser(step.key, step.id) ==> OthersStay(before.store, after, before.now, step.key, step.id))
  }

  lemma LoginLaw(s: S.State, step: S.Step, strings: map<string, Entry>)
    requires S.Known(s) && S.Enabled(s, step) && step.LoginStep? && Represents(strings, S.Apply(s, step).store)
    ensures LoginOutcome(s, step, step.expireTime > 0, strings, S.Apply(s, step).store)
  {
    if step.expireTime > 0 {
      LoginOnStrings(strings, s, step);
    }
    if SingleToken.GoodUser(step.key, step.id) {
      OthersStayed(s, step);
    }
  }

  /** A run that has gone on by a login. */
  lemma LastLogin(tr: seq<S.State>, steps: seq<S.Step>, step: S.Step, tr': seq<S.State>, strings: map<string, Entry>)
    requires step.LoginStep? && |tr| == |steps| + 1 && tr <= tr' && S.IsRun(tr', steps + [step])
    requires Represents(strings, tr'[|steps| + 1].store)
    ensures LoginOutcome(tr[|steps|], step, step.expireTime > 0, strings, tr'[|steps| + 1].store)
  {
    var steps', n := steps + [step], |steps|;
    S.KnownInRun(tr', steps', n);
    assert S.Next(tr'[n], steps'[n], tr'[n + 1]);
    LoginLaw(tr'[n], step, strings);
  }

  /** The Redis strings without the two entries of an id. */
  function WithoutId(strings: map<string, Entry>, id: string): map<string, Entry> {
    strings - {Render(Slot(TokenNs, id))} - {Render(Slot(SessionNs, id))}
  }

  /** After an accepted logout exactly the two entries of its token are gone; a refused one changes nothing. */
  lemma LogoutLaw(s: S.State, jwt: Jwt, strings: map<string, Entry>, strings': map<string, Entry>)
    requires S.Known(s) && Represents(strings, s.store) && Represents(strings', S.Apply(s, S.LogoutStep(jwt)).store)
    ensures Accepts(s.store, s.now, jwt) <==> TokenGood(s.store, s.now, jwt)
    ensures strings' == if TokenGood(s.store, s.now, jwt) then WithoutId(strings, JwtId(jwt)) else strings
  {
    var after := S.Apply(s, S.LogoutStep(jwt)).store;
    AcceptsIff(s.store, s.now, jwt);
    LogoutLeaves(s, jwt);
    if TokenGood(s.store, s.now, jwt) {
      BothGone(strings, s.store, after, JwtId(jwt));
      RepresentsUnique(strings', WithoutId(strings, JwtId(jwt)), after);
    } else {
      RepresentsUnique(strings', strings, after);
    }
  }
}
